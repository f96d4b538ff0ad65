/** The private policy engine of `policy.py`: its modules, its decision, and what a passing
    decision means. */
module Policy {
  import opened Options
  import V = Verdict
  import R = ReviewFlow
  import T = Trajectory

  const MAX_EVIDENCE := 16

  /** A public-safe evidence item: who reports it, its stable code, and a digest. */
  datatype Evidence = Evidence(moduleId: string, code: string, digest: Option<string>)

  datatype Disposition = Clear | Tripwire | Infra | Quarantined | Undecided | Exhausted

  datatype ModuleResult = ModuleResult(
    disposition: Disposition, evidence: seq<Evidence>, finding: Option<R.Finding>, audit: Option<R.Audit>)

  datatype Decision = Decision(
    outcome: V.Outcome, manifest: string, evidence: seq<Evidence>, finding: Option<R.Finding>, audit: Option<R.Audit>)

  predicate IsPassing(outcome: V.Outcome) {
    outcome == V.Pass || outcome == V.PassInconclusive
  }

  /** The record's own checks: without them the constructor raises. */
  function MakeDecision(outcome: V.Outcome, manifest: string, evidence: seq<Evidence>,
                        finding: Option<R.Finding>, audit: Option<R.Audit>): Option<Decision>
  {
    if |evidence| > MAX_EVIDENCE || (outcome == V.PassInconclusive && audit.None?) then None
    else Some(Decision(outcome, manifest, evidence, finding, audit))
  }

  // ----- modules ------------------------------------------------------------------------

  /** What a private challenge observed. */
  datatype Seen = Seen(
    ok: bool, error: Option<string>, digest: Option<string>, elapsedMs: nat, calls: nat, token: bool, keysMissing: bool)

  /** `seen` is absent when the challenge runner raises. */
  datatype Challenge = Challenge(seen: Option<Seen>, requireCall: bool, requireToken: bool)

  datatype Feed = FeedDown | FeedInvalid | Flagged(digest: string) | Unflagged

  datatype Module =
    | SourceReview(id: string)
    | TimingRisk(id: string, feed: Feed)
    | RandomAudit(id: string, seeded: bool, drawn: bool)
    | Fingerprint(id: string, known: bool, digest: string)
    | ChallengePack(id: string, pack: Option<seq<Challenge>>)
    | Oracle(id: string, seen: Option<Seen>, minCalls: nat, minElapsedMs: nat)

  predicate IsSelector(m: Module) {
    !m.ChallengePack? && !m.Oracle?
  }

  /** Only the private packs may release a tripwire. */
  predicate ClearsSelection(m: Module) {
    m.ChallengePack?
  }

  /** Where a source review comes from. */
  datatype Source = NoSource | SourceRaises | Reviewed(observation: R.Observation)

  predicate IsAdvisory(category: R.Category) {
    category == R.NoCategory || category == R.OtherCategory("external_build_dependency")
    || category == R.OtherCategory("user_isolation_correctness")
  }

  predicate OnlyAdvisory(categories: seq<R.Category>) {
    forall k :: 0 <= k < |categories| ==> IsAdvisory(categories[k])
  }

  predicate IsMalicious(category: R.Category) {
    category == R.CredentialAccess || category == R.CrossUserAccess || category == R.DataExfiltration
    || category == R.EmbeddedSecret || category == R.MaliciousBuild || category == R.OtherCategory("prompt_injection")
  }

  predicate IsPrivateChallenge(category: R.Category) {
    category == R.BenchmarkEmulation || category == R.EmbeddedEvaluatorLogic || category == R.FabricatedToolTrajectory
    || category == R.HiddenValueLeakage || category == R.ProviderBypass || category == R.ScorerContractManipulation
    || category == R.SeedStateShortcut || category == R.SuspiciousStaticTables
  }

  /** The code of the gravest kind of category present. */
  function ReviewCode(categories: seq<R.Category>): string {
    if exists k :: 0 <= k < |categories| && IsMalicious(categories[k]) then "source-safety-malicious-risk"
    else if exists k :: 0 <= k < |categories| && IsPrivateChallenge(categories[k]) then "source-safety-private-challenge-risk"
    else if R.OtherCategory("duplicate_submission") in categories then "originality-duplicate-risk"
    else if R.OtherCategory("external_build_dependency") in categories
         || R.OtherCategory("user_isolation_correctness") in categories then "source-correctness-review"
    else "source-safety-behavioral-risk"
  }

  function LayerName(layer: R.Layer): string {
    match layer
    case Analyst => "l2"
    case Critic => "l3-critic"
    case Adjudicator => "l3-adjudicator"
    case Cause => "l3-violation-adjudicator"
    case Tiebreaker => "l3-cause-disagreement"
  }

  function CodeName(code: T.Code): string {
    match code
    case ResponseContract => "model-response-contract"
    case TotalBudget => "model-total-budget"
    case ToolContract => "model-tool-contract"
    case ToolBudget => "model-tool-budget"
    case AnalyzerContract => "analyzer-contract"
    case StepBudget => "model-step-budget"
  }

  /** The error code of a review that failed. An outage is named by its layer alone. */
  function ReasonCode(reason: Option<R.Reason>): string {
    if reason.None? then "source-review-inconclusive"
    else match reason.value
      case StageFailed(layer, code) => LayerName(layer) + "-" + CodeName(code)
      case StageInconclusive(layer) => LayerName(layer) + "-inconclusive"
      case StageOutage(layer) => LayerName(layer)
      case CauseDisagreement => "l3-violation-adjudicator-disagreement"
      case CauseUnresolved => "l3-cause-disagreement-unresolved"
      case ClearanceIncomplete => "l3-adjudicator-incomplete"
      case ClearanceUnproven => "l3-adjudicator-clearance-certificate"
      case UnsupportedArtifact => "l2-unsupported-artifact-shape"
      case Outage => "l2"
      case CacheLockTimeout => "l2-cache-lock-timeout"
      case LateResult => "l2-late-result"
      case FromModelAnswer => "l2-model-inconclusive"
  }

  function Alone(disposition: Disposition, id: string, code: string, digest: Option<string>): ModuleResult {
    ModuleResult(disposition, [Evidence(id, code, digest)], None, None)
  }

  function ReviewResult(id: string, o: R.Observation): ModuleResult {
    if !o.ok then
      if o.disposition == Some(R.PassInconclusive) then
        ModuleResult(Exhausted, [Evidence(id, "source-review-inconclusive", o.digest)], o.finding, o.audit)
      else
        Alone(if o.disposition == Some(R.InconclusiveReview) then Undecided else Infra, id, ReasonCode(o.reason), None)
    else if o.risk == Some(R.Low) && OnlyAdvisory(o.categories) then ModuleResult(Clear, [], o.finding, None)
    else if o.risk.None? then Alone(Undecided, id, "source-review-invalid-risk", None)
    else ModuleResult(Tripwire, [Evidence(id, ReviewCode(o.categories), o.digest)], o.finding, None)
  }

  function Or(error: Option<string>, default: string): string {
    if error.Some? && error.value != "" then error.value else default
  }

  /** The first thing a challenge shows against the artifact. */
  function ChallengeFault(id: string, c: Challenge, seen: Seen): Option<(Disposition, Evidence)> {
    if !seen.ok then Some((Undecided, Evidence(id, Or(seen.error, "challenge-inconclusive"), None)))
    else if c.requireCall && seen.calls < 1 then Some((Quarantined, Evidence(id, "challenge-model-call-missing", seen.digest)))
    else if c.requireToken && !seen.token then Some((Quarantined, Evidence(id, "challenge-gateway-token-missing", seen.digest)))
    else if seen.keysMissing then Some((Quarantined, Evidence(id, "challenge-shape-anomaly", seen.digest)))
    else None
  }

  function PackFrom(id: string, pack: seq<Challenge>, k: nat, evidence: seq<Evidence>): Option<ModuleResult>
    requires k <= |pack|
    decreases |pack| - k
  {
    if k == |pack| then Some(ModuleResult(Clear, evidence, None, None))
    else match pack[k].seen
      case None => None
      case Some(seen) =>
        match ChallengeFault(id, pack[k], seen)
        case Some((disposition, item)) => Some(ModuleResult(disposition, evidence + [item], None, None))
        case None => PackFrom(id, pack, k + 1, evidence + [Evidence(id, "challenge-observed", seen.digest)])
  }

  function OracleResult(id: string, seen: Seen, minCalls: nat, minElapsedMs: nat): ModuleResult {
    if !seen.ok then Alone(Undecided, id, Or(seen.error, "behavioral-oracle-inconclusive"), seen.digest)
    else if seen.calls < minCalls || (seen.calls == 1 && !seen.token) then
      Alone(Undecided, id, "behavioral-oracle-insufficient-round-trips", seen.digest)
    else if !seen.token then Alone(Quarantined, id, "behavioral-oracle-wrong-answer", seen.digest)
    else if seen.elapsedMs < minElapsedMs then Alone(Quarantined, id, "behavioral-oracle-implausibly-fast", seen.digest)
    else Alone(Clear, id, "behavioral-oracle-passed", seen.digest)
  }

  /** What a module reports; nothing when it raises. */
  function Report(m: Module, source: Source): Option<ModuleResult> {
    match m
    case SourceReview(id) =>
      (match source
       case NoSource => Some(Alone(Infra, id, "source-review-unavailable", None))
       case SourceRaises => None
       case Reviewed(observation) => Some(ReviewResult(id, observation)))
    case TimingRisk(id, feed) =>
      (match feed
       case FeedDown => Some(Alone(Infra, id, "risk-feed-unavailable", None))
       case FeedInvalid => Some(Alone(Infra, id, "risk-feed-invalid", None))
       case Flagged(digest) => Some(Alone(Tripwire, id, "timing-relay-tripwire", Some(digest)))
       case Unflagged => Some(ModuleResult(Clear, [], None, None)))
    case RandomAudit(id, seeded, drawn) =>
      if !seeded then Some(Alone(Infra, id, "audit-seed-unavailable", None))
      else if drawn then Some(Alone(Tripwire, id, "random-control-selected", None))
      else Some(ModuleResult(Clear, [], None, None))
    case Fingerprint(id, known, digest) =>
      if known then Some(Alone(Tripwire, id, "source-fingerprint-tripwire", Some(digest)))
      else Some(ModuleResult(Clear, [], None, None))
    case ChallengePack(id, pack) =>
      if pack.None? then Some(Alone(Infra, id, "challenge-pack-unavailable", None)) else PackFrom(id, pack.value, 0, [])
    case Oracle(id, seen, minCalls, minElapsedMs) =>
      if seen.None? then None else Some(OracleResult(id, seen.value, minCalls, minElapsedMs))
  }

  lemma {:induction false} PackReports(id: string, pack: seq<Challenge>, k: nat, evidence: seq<Evidence>)
    requires k <= |pack|
    ensures var r := PackFrom(id, pack, k, evidence);
      r.Some? ==>
        && (r.value.disposition != Clear ==> r.value.evidence != [])
        && !r.value.disposition.Exhausted? && r.value.audit.None?
    decreases |pack| - k
  {
    if k < |pack| && pack[k].seen.Some? && ChallengeFault(id, pack[k], pack[k].seen.value).None? {
      PackReports(id, pack, k + 1, evidence + [Evidence(id, "challenge-observed", pack[k].seen.value.digest)]);
    }
  }

  /** Every built-in module says why, whenever it does not clear; only source review can be
      exhausted, and then the audit is the review's. */
  lemma ReportsAreEvidenced(m: Module, source: Source)
    requires Report(m, source).Some?
    ensures var r := Report(m, source).value;
      && (r.disposition != Clear ==> r.evidence != [])
      && (r.disposition == Exhausted ==> IsSelector(m) && source.Reviewed? && r.audit == source.observation.audit)
      && (r.audit.Some? ==> r.disposition == Exhausted)
  {
    hide Or, ReasonCode, ReviewCode, OnlyAdvisory;
    if m.ChallengePack? && m.pack.Some? { PackReports(m.id, m.pack.value, 0, []); }
  }

  // ----- what a module comes to, from what it met ------------------------------------------------

  /** Low risk, under no category or under ones that are only advice. */
  predicate IsHarmless(o: R.Observation) {
    && o.risk == Some(R.Low)
    && forall c :: c in o.categories ==>
         c in {R.NoCategory, R.OtherCategory("external_build_dependency"), R.OtherCategory("user_isolation_correctness")}
  }

  /** The challenge went as it should. */
  predicate Succeeds(c: Challenge) {
    && c.seen.Some? && c.seen.value.ok && !c.seen.value.keysMissing
    && (c.requireCall ==> c.seen.value.calls > 0) && (c.requireToken ==> c.seen.value.token)
  }

  /** The first challenge of the pack that did not go as it should. */
  predicate FailsAt(pack: seq<Challenge>, k: nat) {
    k < |pack| && !Succeeds(pack[k]) && forall j :: 0 <= j < k ==> Succeeds(pack[j])
  }

  /** Nothing stands against the artifact. */
  predicate Clears(m: Module, source: Source) {
    match m
    case SourceReview(_) => source.Reviewed? && source.observation.ok && IsHarmless(source.observation)
    case TimingRisk(_, feed) => feed.Unflagged?
    case RandomAudit(_, seeded, drawn) => seeded && !drawn
    case Fingerprint(_, known, _) => !known
    case ChallengePack(_, pack) => pack.Some? && forall k :: 0 <= k < |pack.value| ==> Succeeds(pack.value[k])
    case Oracle(_, seen, minCalls, minElapsedMs) =>
      seen.Some? && seen.value.ok && seen.value.calls >= minCalls && seen.value.token && seen.value.elapsedMs >= minElapsedMs
  }

  /** A selector asks for an audit. */
  predicate Trips(m: Module, source: Source) {
    match m
    case SourceReview(_) =>
      source.Reviewed? && source.observation.ok && source.observation.risk.Some? && !IsHarmless(source.observation)
    case TimingRisk(_, feed) => feed.Flagged?
    case RandomAudit(_, seeded, drawn) => seeded && drawn
    case Fingerprint(_, known, _) => known
    case ChallengePack(_, _) => false
    case Oracle(_, _, _, _) => false
  }

  /** The review ran out of its budget. */
  predicate GivesUp(m: Module, source: Source) {
    m.SourceReview? && source.Reviewed? && !source.observation.ok
    && source.observation.disposition == Some(R.PassInconclusive)
  }

  /** A challenge that was answered, but not as an honest harness answers. */
  ghost predicate Accuses(m: Module) {
    match m
    case ChallengePack(_, pack) =>
      pack.Some? && exists k: nat :: FailsAt(pack.value, k) && pack.value[k].seen.Some? && pack.value[k].seen.value.ok
    case Oracle(_, seen, minCalls, minElapsedMs) =>
      && seen.Some? && seen.value.ok && seen.value.calls >= minCalls
      && if seen.value.token then seen.value.elapsedMs < minElapsedMs else seen.value.calls != 1
    case _ => false
  }

  /** Nothing can be said either way. */
  ghost predicate StaysOpen(m: Module, source: Source) {
    match m
    case SourceReview(_) =>
      && source.Reviewed?
      && var o := source.observation;
         if o.ok then o.risk.None? else o.disposition == Some(R.InconclusiveReview)
    case ChallengePack(_, pack) =>
      pack.Some? && exists k: nat :: FailsAt(pack.value, k) && pack.value[k].seen.Some? && !pack.value[k].seen.value.ok
    case Oracle(_, seen, minCalls, _) =>
      && seen.Some?
      && (!seen.value.ok || seen.value.calls < minCalls || (seen.value.calls == 1 && !seen.value.token))
    case _ => false
  }

  /** What the module works with is not there. */
  predicate IsDown(m: Module, source: Source) {
    match m
    case SourceReview(_) =>
      || source.NoSource?
      || (source.Reviewed? && !source.observation.ok
          && (source.observation.disposition.None? || source.observation.disposition == Some(R.RetryableInfra)))
    case TimingRisk(_, feed) => feed.FeedDown? || feed.FeedInvalid?
    case RandomAudit(_, seeded, _) => !seeded
    case Fingerprint(_, _, _) => false
    case ChallengePack(_, pack) => pack.None?
    case Oracle(_, _, _, _) => false
  }

  ghost predicate Raises(m: Module, source: Source) {
    match m
    case SourceReview(_) => source.SourceRaises?
    case ChallengePack(_, pack) => pack.Some? && exists k: nat :: FailsAt(pack.value, k) && pack.value[k].seen.None?
    case Oracle(_, seen, _, _) => seen.None?
    case _ => false
  }

  /** How many evidence items it leaves when it clears, trips or gives up. */
  function ItemsOf(m: Module, source: Source): nat {
    if m.ChallengePack? then (if m.pack.Some? then |m.pack.value| else 0)
    else if m.Oracle? || !Clears(m, source) then 1 else 0
  }

  lemma {:induction false} PackIsTold(id: string, pack: seq<Challenge>, k: nat, evidence: seq<Evidence>)
    requires k <= |pack| && forall j :: 0 <= j < k ==> Succeeds(pack[j])
    ensures var r := PackFrom(id, pack, k, evidence);
      || ((forall j :: 0 <= j < |pack| ==> Succeeds(pack[j]))
          && r.Some? && r.value.disposition == Clear && |r.value.evidence| == |evidence| + |pack| - k)
      || (exists j: nat :: FailsAt(pack, j) && IsFaultOf(pack[j], r))
    decreases |pack| - k
  {
    if k < |pack| {
      if Succeeds(pack[k]) {
        PackIsTold(id, pack, k + 1, evidence + [Evidence(id, "challenge-observed", pack[k].seen.value.digest)]);
      } else {
        assert FailsAt(pack, k) && IsFaultOf(pack[k], PackFrom(id, pack, k, evidence));
      }
    }
  }

  /** What a challenge that did not go as it should makes of its pack. */
  predicate IsFaultOf(c: Challenge, r: Option<ModuleResult>) {
    if c.seen.None? then r.None?
    else r.Some? && r.value.disposition == if c.seen.value.ok then Quarantined else Undecided
  }

  lemma OneFailure(pack: seq<Challenge>, j: nat, k: nat)
    requires FailsAt(pack, j) && FailsAt(pack, k)
    ensures j == k
  {
  }

  lemma HarmlessIff(o: R.Observation)
    ensures IsHarmless(o) <==> o.risk == Some(R.Low) && OnlyAdvisory(o.categories)
  {
    if o.risk == Some(R.Low) && OnlyAdvisory(o.categories) {
      forall c | c in o.categories
        ensures c in {R.NoCategory, R.OtherCategory("external_build_dependency"), R.OtherCategory("user_isolation_correctness")}
      {
        var k :| 0 <= k < |o.categories| && o.categories[k] == c;
        assert IsAdvisory(o.categories[k]);
      }
    } else if o.risk == Some(R.Low) {
      var k :| 0 <= k < |o.categories| && !IsAdvisory(o.categories[k]);
      assert o.categories[k] in o.categories;
    }
  }

  /** The facts decide what a module reports, for all modules and all that they may meet. */
  ghost predicate IsReportOf(m: Module, source: Source, r: Option<ModuleResult>) {
    && (r.None? <==> Raises(m, source))
    && (r.Some? && r.value.disposition == Clear <==> Clears(m, source))
    && (r.Some? && r.value.disposition == Tripwire <==> Trips(m, source))
    && (r.Some? && r.value.disposition == Exhausted <==> GivesUp(m, source))
    && (r.Some? && r.value.disposition == Quarantined <==> Accuses(m))
    && (r.Some? && r.value.disposition == Undecided <==> StaysOpen(m, source))
    && (r.Some? && r.value.disposition == Infra <==> IsDown(m, source))
    && (Clears(m, source) || Trips(m, source) || GivesUp(m, source) ==> r.Some? && |r.value.evidence| == ItemsOf(m, source))
  }

  lemma PackReportIsTold(m: Module, source: Source)
    requires m.ChallengePack? && m.pack.Some?
    ensures IsReportOf(m, source, Report(m, source))
  {
    hide PackFrom, Succeeds, FailsAt;
    PackIsTold(m.id, m.pack.value, 0, []);
    forall j: nat, k: nat | FailsAt(m.pack.value, j) && FailsAt(m.pack.value, k) ensures j == k {
      OneFailure(m.pack.value, j, k);
    }
    FailureFails(m.pack.value);
  }

  lemma FailureFails(pack: seq<Challenge>)
    ensures forall k: nat :: FailsAt(pack, k) ==> k < |pack| && !Succeeds(pack[k])
  {
  }

  /** What a module reports, from what it met. */
  lemma ReportIsTold(m: Module, source: Source)
    ensures IsReportOf(m, source, Report(m, source))
  {
    if m.ChallengePack? && m.pack.Some? {
      PackReportIsTold(m, source);
    } else if m.SourceReview? && source.Reviewed? {
      ReviewReportIsTold(m, source);
    } else {
    }
  }

  lemma ReviewReportIsTold(m: Module, source: Source)
    requires m.SourceReview? && source.Reviewed?
    ensures IsReportOf(m, source, Report(m, source))
  {
    HarmlessIff(source.observation);
    hide IsHarmless, OnlyAdvisory, ReasonCode, ReviewCode;
    var kind := source.observation.disposition;
    assert kind.None? || kind.value.RetryableInfra? || kind.value.InconclusiveReview? || kind.value.PassInconclusive?;
  }

  // ----- the engine ----------------------------------------------------------------------------

  datatype Run = Run(
    evidence: seq<Evidence>, finding: Option<R.Finding>, audit: Option<R.Audit>,
    selected: bool, exhausted: bool, cleared: bool)

  const START := Run([], None, None, false, false, false)

  /** Going on, or the end: a decision, or nothing when something raised. */
  datatype Progress = Going(run: Run) | Ended(decision: Option<Decision>)

  function Terminal(disposition: Disposition): Option<V.Outcome> {
    match disposition
    case Infra => Some(V.RetryableInfra)
    case Quarantined => Some(V.Quarantine)
    case Undecided => Some(V.Inconclusive)
    case Exhausted => Some(V.PassInconclusive)
    case _ => None
  }

  function Decide(manifest: string, outcome: V.Outcome, run: Run): Option<Decision> {
    var evidence := if |run.evidence| > MAX_EVIDENCE then run.evidence[..MAX_EVIDENCE] else run.evidence;
    MakeDecision(outcome, manifest, evidence, run.finding, run.audit)
  }

  function Took(run: Run, r: ModuleResult): Run {
    run.(evidence := run.evidence + r.evidence,
         finding := if r.finding.Some? then r.finding else run.finding,
         audit := if r.audit.Some? then r.audit else run.audit)
  }

  /** One selector: it may end the run, exhaust it, or trip. */
  function Select(manifest: string, run: Run, m: Module, source: Source): Progress {
    match Report(m, source)
    case None => Ended(None)
    case Some(r) =>
      var next := Took(run, r);
      match Terminal(r.disposition)
      case Some(outcome) =>
        if outcome == V.PassInconclusive then Going(next.(exhausted := true)) else Ended(Decide(manifest, outcome, next))
      case None => Going(next.(selected := next.selected || r.disposition == Tripwire))
  }

  /** One challenge: it may end the run, or clear what a selector tripped. */
  function Probe(manifest: string, run: Run, m: Module, source: Source): Progress {
    match Report(m, source)
    case None => Ended(None)
    case Some(r) =>
      var next := Took(run, r);
      match Terminal(r.disposition)
      case Some(outcome) => Ended(Decide(manifest, outcome, next))
      case None => Going(next.(cleared := next.cleared || (ClearsSelection(m) && r.disposition == Clear)))
  }

  function Phase(manifest: string, modules: seq<Module>, source: Source, selectors: bool, run: Run, k: nat): Progress
    requires k <= |modules|
    decreases |modules| - k
  {
    if k == |modules| then Going(run)
    else if IsSelector(modules[k]) != selectors then Phase(manifest, modules, source, selectors, run, k + 1)
    else
      match (if selectors then Select(manifest, run, modules[k], source) else Probe(manifest, run, modules[k], source))
      case Ended(decision) => Ended(decision)
      case Going(next) => Phase(manifest, modules, source, selectors, next, k + 1)
  }

  function Conclude(manifest: string, run: Run): Option<Decision> {
    if run.selected && !run.cleared then
      Decide(manifest, V.Quarantine,
             if run.evidence == [] then run.(evidence := [Evidence("policy-engine", "audit-awaiting-private-challenge", None)]) else run)
    else Decide(manifest, if run.exhausted then V.PassInconclusive else V.Pass, run)
  }

  function Evaluate(manifest: string, modules: seq<Module>, source: Source, buildOnly: bool,
                    deferred: bool): Option<Decision>
  {
    if deferred && !buildOnly then None
    else if buildOnly then Decide(manifest, V.Pass, START)
    else
      match Phase(manifest, modules, source, true, START, 0)
      case Ended(decision) => decision
      case Going(run) =>
        match Phase(manifest, modules, source, false, run, 0)
        case Ended(decision) => decision
        case Going(last) => Conclude(manifest, last)
  }

  method RunPhase(manifest: string, modules: seq<Module>, source: Source, selectors: bool, start: Run)
    returns (progress: Progress)
    ensures progress == Phase(manifest, modules, source, selectors, start, 0)
  {
    hide Select, Probe;
    var run := start;
    for k := 0 to |modules|
      invariant Phase(manifest, modules, source, selectors, start, 0) == Phase(manifest, modules, source, selectors, run, k)
    {
      if IsSelector(modules[k]) == selectors {
        progress := if selectors then Select(manifest, run, modules[k], source) else Probe(manifest, run, modules[k], source);
        if progress.Ended? { return; }
        run := progress.run;
      }
    }
    return Going(run);
  }

  /** The two phases. The decision is sound and no rejection, a mechanical run only passes, and
      what a full review comes to is decided by what its modules met. */
  method EvaluatePolicy(manifest: string, modules: seq<Module>, source: Source, buildOnly: bool, deferred: bool)
    returns (decision: Option<Decision>)
    ensures decision == Evaluate(manifest, modules, source, buildOnly, deferred)
    ensures decision.Some? ==> IsPolicyDecision(decision.value, manifest)
    ensures buildOnly ==> decision == Some(Decision(V.Pass, manifest, [], None, None))
    ensures !buildOnly && deferred ==> decision.None?
    ensures !buildOnly && !deferred ==>
      && (decision.Some? && IsPassing(decision.value.outcome) <==> Admits(modules, source))
      && (decision.None? <==> EndsRaised(modules, source))
      && (decision.Some? && decision.value.outcome == V.RetryableInfra <==> EndsDown(modules, source))
      && (decision.Some? && decision.value.outcome == V.Inconclusive <==> EndsOpen(modules, source))
      && (decision.Some? && decision.value.outcome == V.Quarantine <==> EndsAccused(modules, source))
  {
    if Evaluate(manifest, modules, source, buildOnly, deferred).Some? {
      EvaluatesSoundly(manifest, modules, source, buildOnly, deferred);
    }
    AdmitsIff(manifest, modules, source);
    OutcomeIff(manifest, modules, source);
    hide Phase, Conclude, Admits, IsPolicyDecision, EndsRaised, EndsDown, EndsOpen, EndsAccused;
    if deferred && !buildOnly { return None; }
    var run := START;
    if !buildOnly {
      var progress := RunPhase(manifest, modules, source, true, run);
      if progress.Ended? { return progress.decision; }
      run := progress.run;
    }
    if buildOnly { return Decide(manifest, V.Pass, run); }
    var progress := RunPhase(manifest, modules, source, false, run);
    if progress.Ended? { return progress.decision; }
    return Conclude(manifest, progress.run);
  }

  // ----- what a decision means --------------------------------------------------------------------

  /** What every decision keeps, wherever it comes from. */
  predicate IsSound(d: Decision) {
    && |d.evidence| <= MAX_EVIDENCE
    && (d.outcome == V.PassInconclusive ==> d.audit.Some?)
    && (d.outcome == V.Quarantine ==> d.evidence != [])
  }

  /** A decision of the private policy: sound, and never a rejection. */
  predicate IsPolicyDecision(d: Decision, manifest: string) {
    IsSound(d) && d.outcome != V.DeterministicReject && d.manifest == manifest
  }

  lemma DecidesSoundly(manifest: string, outcome: V.Outcome, run: Run)
    requires outcome != V.DeterministicReject && (outcome == V.Quarantine ==> run.evidence != [])
    ensures var d := Decide(manifest, outcome, run); d.Some? ==> IsPolicyDecision(d.value, manifest) && d.value.outcome == outcome
  {
  }

  lemma StepDecidesSoundly(manifest: string, run: Run, m: Module, source: Source)
    ensures var p := Select(manifest, run, m, source);
      p.Ended? && p.decision.Some? ==> IsPolicyDecision(p.decision.value, manifest) && !IsPassing(p.decision.value.outcome)
    ensures var p := Probe(manifest, run, m, source);
      !IsSelector(m) && p.Ended? && p.decision.Some? ==> IsPolicyDecision(p.decision.value, manifest) && !IsPassing(p.decision.value.outcome)
  {
    hide Report, Decide;
    if Report(m, source).Some? {
      ReportsAreEvidenced(m, source);
      var r := Report(m, source).value;
      if Terminal(r.disposition).Some? { DecidesSoundly(manifest, Terminal(r.disposition).value, Took(run, r)); }
    }
  }

  lemma {:induction false} PhaseDecidesSoundly(manifest: string, modules: seq<Module>, source: Source,
                                               selectors: bool, run: Run, k: nat)
    requires k <= |modules|
    ensures var p := Phase(manifest, modules, source, selectors, run, k);
      p.Ended? && p.decision.Some? ==> IsPolicyDecision(p.decision.value, manifest) && !IsPassing(p.decision.value.outcome)
    decreases |modules| - k
  {
    hide Select, Probe, IsPolicyDecision;
    if k < |modules| {
      StepDecidesSoundly(manifest, run, modules[k], source);
      if IsSelector(modules[k]) != selectors {
        PhaseDecidesSoundly(manifest, modules, source, selectors, run, k + 1);
      } else {
        var p := if selectors then Select(manifest, run, modules[k], source) else Probe(manifest, run, modules[k], source);
        if p.Going? { PhaseDecidesSoundly(manifest, modules, source, selectors, p.run, k + 1); }
      }
    }
  }

  /** Whatever the modules see, the engine never rejects, never quarantines without evidence,
      never defers without an audit, and a mechanical run can only pass. */
  lemma EvaluatesSoundly(manifest: string, modules: seq<Module>, source: Source, buildOnly: bool, deferred: bool)
    requires Evaluate(manifest, modules, source, buildOnly, deferred).Some?
    ensures var d := Evaluate(manifest, modules, source, buildOnly, deferred).value;
      IsPolicyDecision(d, manifest) && (buildOnly ==> d.outcome == V.Pass && d.evidence == [])
  {
    hide Phase;
    PhaseDecidesSoundly(manifest, modules, source, true, START, 0);
    if !buildOnly && Phase(manifest, modules, source, true, START, 0).Going? {
      PhaseDecidesSoundly(manifest, modules, source, false, Phase(manifest, modules, source, true, START, 0).run, 0);
    }
  }

  // ----- what it decides, from what the modules met ----------------------------------------------------

  /** The module does not end the run. */
  predicate LetsPass(m: Module, source: Source) {
    Clears(m, source) || Trips(m, source) || GivesUp(m, source)
  }

  ghost predicate SomeTrips(modules: seq<Module>, source: Source, k: nat) {
    exists i :: k <= i < |modules| && Trips(modules[i], source)
  }

  ghost predicate SomeGivesUp(modules: seq<Module>, source: Source, k: nat) {
    exists i :: k <= i < |modules| && GivesUp(modules[i], source)
  }

  /** A private pack, and nothing else, releases what a selector tripped. */
  ghost predicate SomeReleases(modules: seq<Module>, source: Source, k: nat) {
    exists i :: k <= i < |modules| && modules[i].ChallengePack? && Clears(modules[i], source)
  }

  ghost predicate AllLetPass(modules: seq<Module>, source: Source) {
    forall i :: 0 <= i < |modules| ==> LetsPass(modules[i], source)
  }

  predicate IsChallenge(m: Module) {
    m.ChallengePack? || m.Oracle?
  }

  /** The selectors come first, then the challenges, each in the manifest's order. */
  predicate IsEarlier(modules: seq<Module>, j: nat, i: nat)
    requires i < |modules| && j < |modules|
  {
    if IsChallenge(modules[i]) then !IsChallenge(modules[j]) || j < i else !IsChallenge(modules[j]) && j < i
  }

  /** The first module that ends the run. */
  ghost predicate IsDecisive(modules: seq<Module>, source: Source, i: nat) {
    && i < |modules| && !LetsPass(modules[i], source)
    && forall j :: 0 <= j < |modules| && IsEarlier(modules, j, i) ==> LetsPass(modules[j], source)
  }

  /** A tripwire that nothing released. */
  ghost predicate IsHeld(modules: seq<Module>, source: Source) {
    AllLetPass(modules, source) && SomeTrips(modules, source, 0) && !SomeReleases(modules, source, 0)
  }

  /** The review's audit, if an exhausted review left one. */
  predicate HasAudit(source: Source) {
    source.Reviewed? && source.observation.audit.Some?
  }

  ghost predicate EndsRaised(modules: seq<Module>, source: Source) {
    || (exists i: nat :: IsDecisive(modules, source, i) && Raises(modules[i], source))
    || (AllLetPass(modules, source) && !IsHeld(modules, source) && SomeGivesUp(modules, source, 0) && !HasAudit(source))
  }

  ghost predicate EndsDown(modules: seq<Module>, source: Source) {
    exists i: nat :: IsDecisive(modules, source, i) && IsDown(modules[i], source)
  }

  ghost predicate EndsOpen(modules: seq<Module>, source: Source) {
    exists i: nat :: IsDecisive(modules, source, i) && StaysOpen(modules[i], source)
  }

  ghost predicate EndsAccused(modules: seq<Module>, source: Source) {
    || (exists i: nat :: IsDecisive(modules, source, i) && Accuses(modules[i]))
    || IsHeld(modules, source)
  }

  /** What admits a submission: no module ends the run, a tripwire was released by a private
      pack, and an exhausted review left its audit. */
  ghost predicate Admits(modules: seq<Module>, source: Source) {
    && AllLetPass(modules, source)
    && (SomeTrips(modules, source, 0) ==> SomeReleases(modules, source, 0))
    && (SomeGivesUp(modules, source, 0) ==> HasAudit(source))
  }

  /** The evidence items of a phase's modules, from the `k`th module on. */
  function Items(modules: seq<Module>, source: Source, selectors: bool, k: nat): nat
    requires k <= |modules|
    decreases |modules| - k
  {
    if k == |modules| then 0
    else (if IsChallenge(modules[k]) == selectors then 0 else ItemsOf(modules[k], source)) + Items(modules, source, selectors, k + 1)
  }

  /** How a run ends at this module. */
  ghost predicate EndsAs(m: Module, source: Source, d: Option<Decision>) {
    && !LetsPass(m, source)
    && (d.None? <==> Raises(m, source))
    && (d.Some? && d.value.outcome == V.RetryableInfra <==> IsDown(m, source))
    && (d.Some? && d.value.outcome == V.Inconclusive <==> StaysOpen(m, source))
    && (d.Some? && d.value.outcome == V.Quarantine <==> Accuses(m))
    && (d.Some? ==> !IsPassing(d.value.outcome) && d.value.outcome != V.DeterministicReject)
  }

  lemma NeverBoth(m: Module, source: Source)
    ensures GivesUp(m, source) ==> !IsChallenge(m)
    ensures Trips(m, source) ==> !IsChallenge(m)
    ensures IsSelector(m) <==> !IsChallenge(m)
  {
  }

  lemma SelectIsTold(manifest: string, run: Run, m: Module, source: Source)
    ensures match Select(manifest, run, m, source)
      case Ended(d) => IsSelector(m) ==> EndsAs(m, source, d)
      case Going(next) =>
        && (IsSelector(m) ==> LetsPass(m, source) && |next.evidence| == |run.evidence| + ItemsOf(m, source))
        && (next.selected <==> run.selected || Trips(m, source)) && (next.exhausted <==> run.exhausted || GivesUp(m, source))
        && next.cleared == run.cleared
        && (next.audit.Some? <==> run.audit.Some? || (GivesUp(m, source) && HasAudit(source)))
  {
    hide Report, Clears, Trips, GivesUp, Accuses, StaysOpen, IsDown, Raises, ItemsOf;
    ReportIsTold(m, source);
    NeverBoth(m, source);
    if Report(m, source).Some? { ReportsAreEvidenced(m, source); }
  }

  lemma ProbeIsTold(manifest: string, run: Run, m: Module, source: Source)
    requires IsChallenge(m)
    ensures match Probe(manifest, run, m, source)
      case Ended(d) => EndsAs(m, source, d)
      case Going(next) =>
        && LetsPass(m, source) && |next.evidence| == |run.evidence| + ItemsOf(m, source)
        && (next.cleared <==> run.cleared || (m.ChallengePack? && Clears(m, source)))
        && next.selected == run.selected && next.exhausted == run.exhausted && next.audit == run.audit
  {
    hide Report, Clears, Trips, GivesUp, Accuses, StaysOpen, IsDown, Raises, ItemsOf;
    ReportIsTold(m, source);
    NeverBoth(m, source);
    if Report(m, source).Some? { ReportsAreEvidenced(m, source); }
  }

  /** The first module of the phase, from the `k`th on, that ends the run. */
  ghost predicate EndsPhase(modules: seq<Module>, source: Source, selectors: bool, k: nat, i: nat) {
    && k <= i < |modules| && IsChallenge(modules[i]) != selectors && !LetsPass(modules[i], source)
    && forall j :: k <= j < i && IsChallenge(modules[j]) != selectors ==> LetsPass(modules[j], source)
  }

  ghost predicate PhaseEndsAs(modules: seq<Module>, source: Source, selectors: bool, k: nat, d: Option<Decision>) {
    exists i: nat :: EndsPhase(modules, source, selectors, k, i) && EndsAs(modules[i], source, d)
  }

  ghost predicate PhaseLetsPass(modules: seq<Module>, source: Source, selectors: bool, k: nat) {
    forall i :: k <= i < |modules| && IsChallenge(modules[i]) != selectors ==> LetsPass(modules[i], source)
  }

  lemma EndsAtOnce(modules: seq<Module>, source: Source, selectors: bool, k: nat)
    requires k < |modules| && IsChallenge(modules[k]) != selectors
    ensures forall d :: EndsAs(modules[k], source, d) ==> PhaseEndsAs(modules, source, selectors, k, d)
  {
    hide IsChallenge;
    assert !LetsPass(modules[k], source) ==> EndsPhase(modules, source, selectors, k, k);
  }

  lemma EndsLater(modules: seq<Module>, source: Source, selectors: bool, k: nat)
    requires k < |modules| && (IsChallenge(modules[k]) != selectors ==> LetsPass(modules[k], source))
    ensures forall d :: PhaseEndsAs(modules, source, selectors, k + 1, d) ==> PhaseEndsAs(modules, source, selectors, k, d)
  {
    hide IsChallenge, LetsPass, EndsAs;
    assert forall i: nat :: EndsPhase(modules, source, selectors, k + 1, i) ==> EndsPhase(modules, source, selectors, k, i);
  }

  lemma {:induction false} SelectorPhase(manifest: string, modules: seq<Module>, source: Source, run: Run, k: nat)
    requires k <= |modules|
    ensures match Phase(manifest, modules, source, true, run, k)
      case Ended(d) => PhaseEndsAs(modules, source, true, k, d)
      case Going(last) =>
        && PhaseLetsPass(modules, source, true, k)
        && (last.selected <==> run.selected || SomeTrips(modules, source, k))
        && (last.exhausted <==> run.exhausted || SomeGivesUp(modules, source, k))
        && last.cleared == run.cleared && |last.evidence| == |run.evidence| + Items(modules, source, true, k)
        && (last.audit.Some? <==> run.audit.Some? || (SomeGivesUp(modules, source, k) && HasAudit(source)))
    decreases |modules| - k
  {
    hide Select, Trips, GivesUp, Clears, LetsPass, EndsAs, ItemsOf, HasAudit, IsSelector, IsChallenge, PhaseEndsAs;
    if k < |modules| {
      NeverBoth(modules[k], source);
      if !IsSelector(modules[k]) {
        SelectorPhase(manifest, modules, source, run, k + 1);
        EndsLater(modules, source, true, k);
      } else {
        SelectIsTold(manifest, run, modules[k], source);
        EndsAtOnce(modules, source, true, k);
        if Select(manifest, run, modules[k], source).Going? {
          SelectorPhase(manifest, modules, source, Select(manifest, run, modules[k], source).run, k + 1);
          EndsLater(modules, source, true, k);
        }
      }
    }
  }
  lemma {:induction false} ChallengePhase(manifest: string, modules: seq<Module>, source: Source, run: Run, k: nat)
    requires k <= |modules|
    ensures match Phase(manifest, modules, source, false, run, k)
      case Ended(d) => PhaseEndsAs(modules, source, false, k, d)
      case Going(last) =>
        && PhaseLetsPass(modules, source, false, k)
        && (last.cleared <==> run.cleared || SomeReleases(modules, source, k))
        && last.selected == run.selected && last.exhausted == run.exhausted && last.audit == run.audit
        && |last.evidence| == |run.evidence| + Items(modules, source, false, k)
    decreases |modules| - k
  {
    hide Probe, Trips, GivesUp, Clears, LetsPass, EndsAs, ItemsOf, HasAudit, IsSelector, PhaseEndsAs;
    if k < |modules| {
      NeverBoth(modules[k], source);
      if !IsChallenge(modules[k]) {
        ChallengePhase(manifest, modules, source, run, k + 1);
        EndsLater(modules, source, false, k);
      } else {
        ProbeIsTold(manifest, run, modules[k], source);
        EndsAtOnce(modules, source, false, k);
        if Probe(manifest, run, modules[k], source).Going? {
          ChallengePhase(manifest, modules, source, Probe(manifest, run, modules[k], source).run, k + 1);
          EndsLater(modules, source, false, k);
        }
      }
    }
  }

  lemma DecisiveInPhase(modules: seq<Module>, source: Source, i: nat)
    ensures EndsPhase(modules, source, true, 0, i) ==> IsDecisive(modules, source, i)
    ensures EndsPhase(modules, source, false, 0, i) && PhaseLetsPass(modules, source, true, 0) ==> IsDecisive(modules, source, i)
  {
    hide IsChallenge, LetsPass;
  }

  lemma OneDecides(modules: seq<Module>, source: Source, i: nat, j: nat)
    requires IsDecisive(modules, source, i) && IsDecisive(modules, source, j)
    ensures i == j && !AllLetPass(modules, source)
  {
    hide IsChallenge, LetsPass;
    EarlierIsTotal(modules, i, j);
  }

  lemma EarlierIsTotal(modules: seq<Module>, i: nat, j: nat)
    requires i < |modules| && j < |modules|
    ensures i == j || IsEarlier(modules, i, j) || IsEarlier(modules, j, i)
  {
  }

  /** How a full review ends, for all modules and all that they may meet. */
  lemma EvaluateIsTold(manifest: string, modules: seq<Module>, source: Source)
    ensures var d := Evaluate(manifest, modules, source, false, false);
      || (exists i: nat :: IsDecisive(modules, source, i) && EndsAs(modules[i], source, d))
      || (AllLetPass(modules, source)
          && (d.None? <==> !IsHeld(modules, source) && SomeGivesUp(modules, source, 0) && !HasAudit(source))
          && (d.Some? && IsHeld(modules, source) ==> d.value.outcome == V.Quarantine)
          && (d.Some? && !IsHeld(modules, source) ==>
                d.value.outcome == (if SomeGivesUp(modules, source, 0) then V.PassInconclusive else V.Pass))
          && (d.Some? && !IsHeld(modules, source) ==>
                var items := Items(modules, source, true, 0) + Items(modules, source, false, 0);
                |d.value.evidence| == if items < MAX_EVIDENCE then items else MAX_EVIDENCE))
  {
    hide Phase, EndsAs, IsDecisive, SomeTrips, SomeReleases, SomeGivesUp, Items, HasAudit, LetsPass, IsChallenge;
    SelectorPhase(manifest, modules, source, START, 0);
    var p := Phase(manifest, modules, source, true, START, 0);
    if p.Ended? {
      var i: nat :| EndsPhase(modules, source, true, 0, i) && EndsAs(modules[i], source, p.decision);
      DecisiveInPhase(modules, source, i);
    } else {
      ChallengePhase(manifest, modules, source, p.run, 0);
      var q := Phase(manifest, modules, source, false, p.run, 0);
      if q.Ended? {
        var i: nat :| EndsPhase(modules, source, false, 0, i) && EndsAs(modules[i], source, q.decision);
        DecisiveInPhase(modules, source, i);
      }
    }
  }

  /** The outcome of a full review, exactly, from what its modules met. */
  lemma OutcomeIff(manifest: string, modules: seq<Module>, source: Source)
    ensures var d := Evaluate(manifest, modules, source, false, false);
      && (d.None? <==> EndsRaised(modules, source))
      && (d.Some? && d.value.outcome == V.RetryableInfra <==> EndsDown(modules, source))
      && (d.Some? && d.value.outcome == V.Inconclusive <==> EndsOpen(modules, source))
      && (d.Some? && d.value.outcome == V.Quarantine <==> EndsAccused(modules, source))
  {
    hide Evaluate, IsDecisive, SomeTrips, SomeReleases, SomeGivesUp, Items, HasAudit, LetsPass, AllLetPass;
    hide Accuses, StaysOpen, IsDown, Raises;
    EvaluateIsTold(manifest, modules, source);
    forall i: nat, j: nat | IsDecisive(modules, source, i) && IsDecisive(modules, source, j)
      ensures i == j && !AllLetPass(modules, source)
    {
      OneDecides(modules, source, i, j);
    }
  }

  /** A full review admits if and only if nothing its modules met stands against it. It defers
      exactly after an exhausted review, and keeps every evidence item up to the bound. */
  lemma AdmitsIff(manifest: string, modules: seq<Module>, source: Source)
    ensures var d := Evaluate(manifest, modules, source, false, false);
      (d.Some? && IsPassing(d.value.outcome)) <==> Admits(modules, source)
    ensures var d := Evaluate(manifest, modules, source, false, false);
      d.Some? && IsPassing(d.value.outcome) ==>
        && (d.value.outcome == V.PassInconclusive <==> SomeGivesUp(modules, source, 0))
        && var items := Items(modules, source, true, 0) + Items(modules, source, false, 0);
           |d.value.evidence| == if items < MAX_EVIDENCE then items else MAX_EVIDENCE
  {
    hide Evaluate, IsDecisive, SomeTrips, SomeReleases, SomeGivesUp, Items, HasAudit, LetsPass, AllLetPass;
    EvaluateIsTold(manifest, modules, source);
    forall i: nat | IsDecisive(modules, source, i) ensures !AllLetPass(modules, source) {
      OneDecides(modules, source, i, i);
    }
  }

  /** A full review passes outright if and only if it admits and no review was exhausted. */
  lemma PassesIff(manifest: string, modules: seq<Module>, source: Source)
    ensures var d := Evaluate(manifest, modules, source, false, false);
      (d.Some? && d.value.outcome == V.Pass) <==>
        && AllLetPass(modules, source) && !SomeGivesUp(modules, source, 0)
        && (SomeTrips(modules, source, 0) ==> SomeReleases(modules, source, 0))
  {
    hide Evaluate, AllLetPass, SomeTrips, SomeGivesUp, SomeReleases, Items;
    AdmitsIff(manifest, modules, source);
  }

  // ----- when it decides at all -------------------------------------------------------------------------

  ghost predicate NothingRaises(modules: seq<Module>, source: Source) {
    forall i :: 0 <= i < |modules| ==> !Raises(modules[i], source)
  }

  predicate IsAccountedFor(run: Run) {
    run.exhausted ==> run.audit.Some?
  }

  lemma {:induction false} PhaseDecides(manifest: string, modules: seq<Module>, source: Source, selectors: bool,
                                        run: Run, k: nat)
    requires k <= |modules| && NothingRaises(modules, source) && IsAccountedFor(run)
    requires source.Reviewed? ==> R.IsAccounted(source.observation)
    ensures match Phase(manifest, modules, source, selectors, run, k)
      case Ended(decision) => decision.Some?
      case Going(next) => IsAccountedFor(next)
    decreases |modules| - k
  {
    hide Report;
    if k < |modules| {
      if IsSelector(modules[k]) != selectors {
        PhaseDecides(manifest, modules, source, selectors, run, k + 1);
      } else {
        StepDecides(manifest, run, modules[k], source);
        var p := if selectors then Select(manifest, run, modules[k], source) else Probe(manifest, run, modules[k], source);
        if p.Going? { PhaseDecides(manifest, modules, source, selectors, p.run, k + 1); }
      }
    }
  }

  lemma StepDecides(manifest: string, run: Run, m: Module, source: Source)
    requires !Raises(m, source) && IsAccountedFor(run)
    requires source.Reviewed? ==> R.IsAccounted(source.observation)
    ensures IsSelector(m) ==> match Select(manifest, run, m, source)
      case Ended(decision) => decision.Some?
      case Going(next) => IsAccountedFor(next)
    ensures !IsSelector(m) ==> match Probe(manifest, run, m, source)
      case Ended(decision) => decision.Some?
      case Going(next) => IsAccountedFor(next)
  {
    ReportIsTold(m, source);
    ReportsAreEvidenced(m, source);
    if IsSelector(m) && Report(m, source).value.disposition == Exhausted { ExhaustedHasAudit(m, source); }
    hide Report;
  }

  lemma ExhaustedHasAudit(m: Module, source: Source)
    requires Report(m, source).Some? && Report(m, source).value.disposition == Exhausted
    requires source.Reviewed? ==> R.IsAccounted(source.observation)
    ensures Report(m, source).value.audit.Some?
  {
    ReportsAreEvidenced(m, source);
  }

  /** With a review that accounts for its exhaustion, the engine always comes to a decision
      unless a module raises. */
  lemma DecidesUnlessRaised(manifest: string, modules: seq<Module>, source: Source, buildOnly: bool, deferred: bool)
    requires NothingRaises(modules, source) && (deferred ==> buildOnly)
    requires source.Reviewed? ==> R.IsAccounted(source.observation)
    ensures Evaluate(manifest, modules, source, buildOnly, deferred).Some?
  {
    hide Phase, NothingRaises;
    PhaseDecides(manifest, modules, source, true, START, 0);
    if Phase(manifest, modules, source, true, START, 0).Going? {
      PhaseDecides(manifest, modules, source, false, Phase(manifest, modules, source, true, START, 0).run, 0);
    }
  }

  const OBSERVED := Challenge(Some(Seen(true, None, None, 0, 1, true, false)), true, true)

  /** A pack that observes every challenge clears, with an evidence item for each. */
  lemma {:induction false} CleanPack(id: string, pack: seq<Challenge>, k: nat, evidence: seq<Evidence>)
    requires k <= |pack| && forall i :: 0 <= i < |pack| ==> pack[i] == OBSERVED
    ensures var r := PackFrom(id, pack, k, evidence);
      r.Some? && r.value.disposition == Clear && |r.value.evidence| == |evidence| + |pack| - k
      && r.value.finding.None? && r.value.audit.None?
    decreases |pack| - k
  {
    if k < |pack| { CleanPack(id, pack, k + 1, evidence + [Evidence(id, "challenge-observed", None)]); }
  }

  function CleanPacks(): seq<Module> {
    [ChallengePack("a", Some(seq(8, _ => OBSERVED))), ChallengePack("b", Some(seq(8, _ => OBSERVED)))]
  }

  /** Two clean packs fill the evidence of a passing decision. */
  lemma CleanPacksPass(manifest: string, source: Source)
    ensures var d := Evaluate(manifest, CleanPacks(), source, false, false);
      d.Some? && d.value.outcome == V.Pass && |d.value.evidence| == MAX_EVIDENCE
  {
    hide PackFrom;
    var modules := CleanPacks();
    CleanPack("a", modules[0].pack.value, 0, []);
    CleanPack("b", modules[1].pack.value, 0, []);
    var first := Took(START, Report(modules[0], source).value).(cleared := true);
    var last := Took(first, Report(modules[1], source).value).(cleared := true);
    assert Phase(manifest, modules, source, true, START, 2) == Going(START);
    assert Phase(manifest, modules, source, true, START, 1) == Going(START);
    assert Phase(manifest, modules, source, true, START, 0) == Going(START);
    assert Phase(manifest, modules, source, false, last, 2) == Going(last);
    assert Probe(manifest, first, modules[1], source) == Going(last);
    assert Phase(manifest, modules, source, false, first, 1) == Going(last);
    assert Probe(manifest, START, modules[0], source) == Going(first);
    assert Phase(manifest, modules, source, false, START, 0) == Going(last);
  }
}

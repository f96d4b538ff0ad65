/** The screening of one claimed agent, as `gate.py` routes it. */
module Gate {
  import opened Options
  import opened Policy
  import V = Verdict
  import R = ReviewFlow

  /** The lease is checked before each of these but the source's metadata. */
  datatype Stage = DownloadStage | SourceStage | BuildStage | ServeStage | PolicyStage | ExportStage

  datatype Download = Downloaded | DownloadFailed | ArtifactInvalid

  datatype Build = Built | BuildInfrastructure | BuildFailed

  datatype Serve = Healthy | ServeInfrastructure | Unhealthy

  datatype Image = Image(sha256: string, size: nat, id: string, ref: string)

  datatype Export = Exported(image: Image) | ImageTooLarge | ExportLate | ExportFailed

  datatype Upload = Uploaded(id: string) | UploadLate | UploadFailed

  /** Everything a screening meets. `raises` says where something unexpected is raised. */
  datatype Facts = Facts(
    executor: bool, exhausted: Stage -> bool, raises: Stage -> bool,
    download: Download, meetsContract: bool, lead: Option<R.Resolved>, review: R.Resolved,
    build: Build, serve: Serve, modules: seq<Module>, advisory: bool, journalFails: bool,
    exported: Export, upload: Upload, core: string, manifest: string)

  /** The decision, and the image that was published for it. */
  datatype Screened = Screened(decision: Decision, published: Option<(Image, string)>)

  function Core(x: Facts, outcome: V.Outcome, code: string): Decision {
    Decision(outcome, x.core, [Evidence("stable-core", code, None)], None, None)
  }

  function Unexpected(x: Facts): Decision {
    Core(x, V.RetryableInfra, "unexpected-infrastructure")
  }

  function OutOfLease(x: Facts): Decision {
    Core(x, V.RetryableInfra, "lease-budget-exhausted")
  }

  // ----- before the image runs --------------------------------------------------------------

  /** An unresolved lead: quarantined, deferred, or retried, but never rejected. */
  function Preexecution(x: Facts, o: R.Observation): Option<Decision> {
    if !o.ok then
      MakeDecision(if o.disposition == Some(R.RetryableInfra) || o.disposition.None? then V.RetryableInfra
                   else if o.disposition == Some(R.PassInconclusive) then V.PassInconclusive
                   else V.Inconclusive,
                   x.manifest, [Evidence("agentic-preexecution-review", ReasonCode(o.reason), None)], o.finding, o.audit)
    else if o.risk != Some(R.Medium) && o.risk != Some(R.High) then None
    else MakeDecision(V.Quarantine, x.manifest,
                      [Evidence("agentic-preexecution-review", ReviewCode(o.categories), o.digest)], o.finding, None)
  }

  /** The lead is cleared, or kept for a deferred admission; only then may the image run. */
  predicate MayExecute(o: R.Observation) {
    (o.ok && o.risk == Some(R.Low)) || o.disposition == Some(R.PassInconclusive)
  }

  predicate Journals(outcome: V.Outcome) {
    outcome == V.Quarantine || outcome == V.Inconclusive || outcome == V.PassInconclusive
  }

  /** A decision that cannot be built or journalled becomes a retry. */
  function Recorded(x: Facts, decision: Option<Decision>): Decision {
    if decision.None? || (x.journalFails && Journals(decision.value.outcome)) then Unexpected(x) else decision.value
  }

  function SourceOf(x: Facts, buildOnly: bool): Source {
    if buildOnly then NoSource
    else match (if x.lead.Some? then x.lead.value else x.review)
      case Escaped => SourceRaises
      case Observed(observation) => Reviewed(observation)
  }

  /** A passing review of a lead that was only deferred stays deferred. */
  function Deferred(x: Facts, buildOnly: bool, decision: Decision): Option<Decision> {
    if !buildOnly && decision.outcome == V.Pass && x.lead.Some? && x.lead.value.Observed?
       && x.lead.value.observation.disposition == Some(R.PassInconclusive) then
      match Preexecution(x, x.lead.value.observation)
      case None => None
      case Some(deferred) =>
        MakeDecision(V.PassInconclusive, decision.manifest, deferred.evidence + decision.evidence,
                     deferred.finding, deferred.audit)
    else Some(decision)
  }

  /** The provenance warning never rejects: it sends a passing decision to an operator. */
  function WithAdvisory(decision: Decision, advisory: bool): Option<Decision> {
    if !advisory || !(IsPassing(decision.outcome) || decision.outcome == V.Quarantine) then Some(decision)
    else
      MakeDecision(V.Quarantine, decision.manifest,
                   (if |decision.evidence| > 15 then decision.evidence[..15] else decision.evidence)
                   + [Evidence("stable-core", "image-binding-heuristic", None)], decision.finding, decision.audit)
  }

  /** The policy's decision on a healthy image, before export. */
  function Judgement(x: Facts, buildOnly: bool, deferred: bool): Option<Decision> {
    match Evaluate(x.manifest, x.modules, SourceOf(x, buildOnly), buildOnly, deferred)
    case None => None
    case Some(decision) =>
      match Deferred(x, buildOnly, decision)
      case None => None
      case Some(routed) => WithAdvisory(routed, x.advisory && !buildOnly)
  }

  /** A passing decision is worth what the export and the upload of its image make of it. */
  function Publication(x: Facts, decision: Decision): Screened {
    if !IsPassing(decision.outcome) then Screened(decision, None)
    else if x.exhausted(ExportStage) then Screened(OutOfLease(x), None)
    else match x.exported
      case ImageTooLarge => Screened(Core(x, V.DeterministicReject, "screened-image-too-large"), None)
      case ExportLate => Screened(OutOfLease(x), None)
      case ExportFailed => Screened(Core(x, V.RetryableInfra, "screened-image-export-failed"), None)
      case Exported(image) =>
        match x.upload
        case Uploaded(id) => Screened(decision, Some((image, id)))
        case UploadLate => Screened(OutOfLease(x), None)
        case UploadFailed => Screened(Core(x, V.RetryableInfra, "image-upload-failed"), None)
  }

  // ----- the screening -------------------------------------------------------------------------

  /** What ends a screening before the build, if anything does. */
  function Refusal(x: Facts, buildOnly: bool): Option<Decision> {
    if !x.executor then Some(Core(x, V.RetryableInfra, "executor-isolation-unavailable"))
    else if x.exhausted(DownloadStage) then Some(OutOfLease(x))
    else if x.raises(DownloadStage) then Some(Unexpected(x))
    else if x.download == DownloadFailed then Some(Core(x, V.RetryableInfra, "artifact-download"))
    else if x.download == ArtifactInvalid then Some(Core(x, V.DeterministicReject, "artifact-invalid"))
    else if !x.meetsContract then Some(Core(x, V.DeterministicReject, "container-harness-contract"))
    else if x.raises(SourceStage) then Some(Unexpected(x))
    else if !buildOnly && x.lead == Some(R.Escaped) then Some(Unexpected(x))
    else if !buildOnly && x.lead.Some? && !MayExecute(x.lead.value.observation) then
      Some(Recorded(x, Preexecution(x, x.lead.value.observation)))
    else None
  }

  /** What ends it before its image is healthy. */
  function Breakdown(x: Facts): Option<Decision> {
    if x.exhausted(BuildStage) then Some(OutOfLease(x))
    else if x.raises(BuildStage) then Some(Unexpected(x))
    else if x.build == BuildInfrastructure then Some(Core(x, V.RetryableInfra, "docker-build-infrastructure"))
    else if x.build == BuildFailed then Some(Core(x, V.DeterministicReject, "docker-build"))
    else if x.exhausted(ServeStage) then Some(OutOfLease(x))
    else if x.raises(ServeStage) then Some(Unexpected(x))
    else if x.serve == ServeInfrastructure then Some(Core(x, V.RetryableInfra, "serve-infrastructure"))
    else if x.serve == Unhealthy then Some(Core(x, V.DeterministicReject, "health-contract"))
    else if x.exhausted(PolicyStage) then Some(OutOfLease(x))
    else None
  }

  function Obstacle(x: Facts, buildOnly: bool): Option<Decision> {
    if Refusal(x, buildOnly).Some? then Refusal(x, buildOnly) else Breakdown(x)
  }

  function ScreeningOf(x: Facts, buildOnly: bool, deferred: bool): Screened {
    match Obstacle(x, buildOnly)
    case Some(decision) => Screened(decision, None)
    case None => Publication(x, Recorded(x, Judgement(x, buildOnly, deferred)))
  }

  /** Everything up to a healthy image. It gets there exactly when every stage does its part;
      otherwise the decision is fit, and never passes. */
  method Prepare(x: Facts, buildOnly: bool) returns (obstacle: Option<Decision>)
    ensures obstacle == Obstacle(x, buildOnly)
    ensures obstacle.None? <==> Launches(x, buildOnly)
    ensures obstacle.Some? ==> IsFit(x, obstacle.value) && !IsPassing(obstacle.value.outcome)
  {
    ObstacleIff(x, buildOnly);
    ObstacleIsFit(x, buildOnly);
    hide Preexecution, Recorded, MayExecute, IsFit, Launches;
    if !x.executor { return Some(Core(x, V.RetryableInfra, "executor-isolation-unavailable")); }
    if x.exhausted(DownloadStage) { return Some(OutOfLease(x)); }
    if x.raises(DownloadStage) { return Some(Unexpected(x)); }
    if x.download != Downloaded {
      var retryable := x.download == DownloadFailed;
      return Some(Core(x, if retryable then V.RetryableInfra else V.DeterministicReject,
                       if retryable then "artifact-download" else "artifact-invalid"));
    }
    if !x.meetsContract { return Some(Core(x, V.DeterministicReject, "container-harness-contract")); }
    if x.raises(SourceStage) { return Some(Unexpected(x)); }
    if !buildOnly && x.lead.Some? {
      if x.lead.value.Escaped? { return Some(Unexpected(x)); }
      var observation := x.lead.value.observation;
      if !MayExecute(observation) { return Some(Recorded(x, Preexecution(x, observation))); }
    }
    if x.exhausted(BuildStage) { return Some(OutOfLease(x)); }
    if x.raises(BuildStage) { return Some(Unexpected(x)); }
    if x.build != Built {
      var retryable := x.build == BuildInfrastructure;
      return Some(Core(x, if retryable then V.RetryableInfra else V.DeterministicReject,
                       if retryable then "docker-build-infrastructure" else "docker-build"));
    }
    if x.exhausted(ServeStage) { return Some(OutOfLease(x)); }
    if x.raises(ServeStage) { return Some(Unexpected(x)); }
    if x.serve != Healthy {
      var retryable := x.serve == ServeInfrastructure;
      return Some(Core(x, if retryable then V.RetryableInfra else V.DeterministicReject,
                       if retryable then "serve-infrastructure" else "health-contract"));
    }
    return if x.exhausted(PolicyStage) then Some(OutOfLease(x)) else None;
  }

  method Screen(x: Facts, buildOnly: bool, deferred: bool) returns (decision: Decision, published: Option<(Image,
                string)>)
    ensures Screened(decision, published) == ScreeningOf(x, buildOnly, deferred)
    ensures IsFit(x, decision) && (IsPassing(decision.outcome) <==> published.Some?)
    ensures published.Some? <==> Admissible(x, buildOnly, deferred)
    ensures decision.outcome == V.DeterministicReject <==> Rejects(x, buildOnly, deferred)
    ensures decision.outcome == V.RetryableInfra <==> Retries(x, buildOnly, deferred)
    ensures decision.outcome == V.Quarantine <==> Quarantines(x, buildOnly, deferred)
    ensures decision.outcome == V.Inconclusive <==> LeavesOpen(x, buildOnly, deferred)
  {
    ScreeningOutcomeIff(x, buildOnly, deferred);
    ScreeningIsFit(x, buildOnly, deferred);
    AdmittedIff(x, buildOnly, deferred);
    hide Admissible, IsFit, IsPolicyDecision, Launches, Admits, Rejects, Retries, Quarantines, LeavesOpen;
    hide EndsRaised, EndsDown, EndsOpen, EndsAccused;
    hide Obstacle, Deferred, WithAdvisory, Evaluate, Journals, SourceOf;
    published := None;
    var obstacle := Prepare(x, buildOnly);
    if obstacle.Some? { return obstacle.value, published; }
    var judged := EvaluatePolicy(x.manifest, x.modules, SourceOf(x, buildOnly), buildOnly, deferred);
    if judged.None? { return Unexpected(x), published; }
    judged := Deferred(x, buildOnly, judged.value);
    if judged.None? { return Unexpected(x), published; }
    judged := WithAdvisory(judged.value, x.advisory && !buildOnly);
    if judged.None? || (x.journalFails && Journals(judged.value.outcome)) { return Unexpected(x), published; }
    decision := judged.value;
    if IsPassing(decision.outcome) {
      if x.exhausted(ExportStage) || x.exported.ExportLate? { return OutOfLease(x), published; }
      match x.exported {
        case ImageTooLarge => decision := Core(x, V.DeterministicReject, "screened-image-too-large");
        case ExportFailed => decision := Core(x, V.RetryableInfra, "screened-image-export-failed");
        case Exported(image) =>
          match x.upload {
            case Uploaded(id) => published := Some((image, id));
            case UploadLate => decision := OutOfLease(x);
            case UploadFailed => decision := Core(x, V.RetryableInfra, "image-upload-failed");
          }
      }
    }
  }

  // ----- what a screening keeps --------------------------------------------------------------------

  predicate IsCoreReject(d: Decision, core: string) {
    && d.manifest == core && |d.evidence| == 1 && d.evidence[0].moduleId == "stable-core"
    && d.finding.None? && d.audit.None?
  }

  predicate IsFit(x: Facts, d: Decision) {
    IsSound(d) && (d.outcome == V.DeterministicReject ==> IsCoreReject(d, x.core))
  }

  lemma PreexecutionIsFit(x: Facts, o: R.Observation)
    ensures var d := Preexecution(x, o);
      d.Some? ==>
        && IsFit(x, d.value) && d.value.outcome != V.Pass
        && (!MayExecute(o) ==> !IsPassing(d.value.outcome))
        && (o.disposition == Some(R.PassInconclusive) && !o.ok ==> d.value.outcome == V.PassInconclusive)
  {
    hide ReasonCode, ReviewCode;
  }

  lemma CoreIsFit(x: Facts)
    ensures forall code :: var d := Core(x, V.RetryableInfra, code); IsFit(x, d) && d.outcome == V.RetryableInfra
    ensures forall code :: var d := Core(x, V.DeterministicReject, code); IsFit(x, d) && d.outcome == V.DeterministicReject
    ensures Unexpected(x) == Core(x, V.RetryableInfra, "unexpected-infrastructure")
    ensures OutOfLease(x) == Core(x, V.RetryableInfra, "lease-budget-exhausted")
  {
  }

  lemma RecordedIsFit(x: Facts, o: R.Observation)
    requires !MayExecute(o)
    ensures var d := Recorded(x, Preexecution(x, o)); IsFit(x, d) && !IsPassing(d.outcome)
  {
    hide Preexecution, MayExecute, IsFit, Core;
    CoreIsFit(x);
    PreexecutionIsFit(x, o);
  }

  lemma RefusalIsFit(x: Facts, buildOnly: bool)
    ensures var d := Refusal(x, buildOnly);
      d.Some? ==>
        && IsFit(x, d.value) && !IsPassing(d.value.outcome)
        && (buildOnly ==> d.value.outcome == V.RetryableInfra || d.value.outcome == V.DeterministicReject)
  {
    hide Recorded, Unexpected, OutOfLease, MayExecute, IsFit, Core;
    CoreIsFit(x);
    if x.lead.Some? && x.lead.value.Observed? && !MayExecute(x.lead.value.observation) {
      RecordedIsFit(x, x.lead.value.observation);
    }
  }

  lemma BreakdownIsFit(x: Facts)
    ensures var d := Breakdown(x);
      d.Some? ==> IsFit(x, d.value) && (d.value.outcome == V.RetryableInfra || d.value.outcome == V.DeterministicReject)
  {
    hide Unexpected, OutOfLease, IsFit, Core;
    CoreIsFit(x);
  }

  lemma ObstacleIsFit(x: Facts, buildOnly: bool)
    ensures var d := Obstacle(x, buildOnly);
      d.Some? ==>
        && IsFit(x, d.value) && !IsPassing(d.value.outcome)
        && (buildOnly ==> d.value.outcome == V.RetryableInfra || d.value.outcome == V.DeterministicReject)
  {
    hide Refusal, Breakdown, IsFit;
    RefusalIsFit(x, buildOnly);
    BreakdownIsFit(x);
  }

  lemma RoutedIsFit(x: Facts, buildOnly: bool, decision: Decision)
    requires IsPolicyDecision(decision, x.manifest)
    ensures var d := Deferred(x, buildOnly, decision);
      d.Some? ==> IsPolicyDecision(d.value, x.manifest) && (buildOnly ==> d.value == decision)
  {
    hide Preexecution;
  }

  lemma AdvisedIsFit(x: Facts, decision: Decision, advisory: bool)
    requires IsPolicyDecision(decision, x.manifest)
    ensures WithAdvisory(decision, advisory).Some? && (!advisory ==> WithAdvisory(decision, advisory).value == decision)
    ensures var d := WithAdvisory(decision, advisory).value;
      IsPolicyDecision(d, x.manifest) && (advisory ==> !IsPassing(d.outcome))
        && (!IsPassing(decision.outcome) && decision.outcome != V.Quarantine ==> d == decision)
  {
  }

  lemma JudgementIsFit(x: Facts, buildOnly: bool, deferred: bool)
    ensures var d := Judgement(x, buildOnly, deferred);
      d.Some? ==> IsFit(x, d.value) && d.value.outcome != V.DeterministicReject && (buildOnly ==> d.value.outcome == V.Pass)
  {
    hide Evaluate, Deferred, WithAdvisory;
    var source := SourceOf(x, buildOnly);
    var first := Evaluate(x.manifest, x.modules, source, buildOnly, deferred);
    if first.Some? {
      EvaluatesSoundly(x.manifest, x.modules, source, buildOnly, deferred);
      RoutedIsFit(x, buildOnly, first.value);
      var routed := Deferred(x, buildOnly, first.value);
      if routed.Some? {
        AdvisedIsFit(x, routed.value, x.advisory && !buildOnly);
      }
    }
  }

  /** Over everything a screening may meet: an image is published exactly for a passing
      decision, only the stable core rejects, a quarantine has evidence, a deferred pass has an
      audit, and the mechanical lane passes, rejects or retries. */
  lemma ScreeningIsFit(x: Facts, buildOnly: bool, deferred: bool)
    ensures var s := ScreeningOf(x, buildOnly, deferred);
      && IsFit(x, s.decision)
      && (IsPassing(s.decision.outcome) <==> s.published.Some?)
      && (buildOnly ==> s.decision.outcome == V.Pass || s.decision.outcome == V.RetryableInfra || s.decision.outcome == V.DeterministicReject)
  {
    hide Obstacle, Judgement;
    ObstacleIsFit(x, buildOnly);
    JudgementIsFit(x, buildOnly, deferred);
  }

  // ----- when a submission is admitted ------------------------------------------------------------------

  lemma ObstacleIff(x: Facts, buildOnly: bool)
    ensures Obstacle(x, buildOnly).None? <==> Launches(x, buildOnly)
  {
    hide Recorded, Preexecution, MayExecute, LeadLets;
    MayExecuteIff(x, buildOnly);
  }

  /** The lead gave up on its budget: the image may run, but a pass stays deferred. */
  predicate IsDeferred(x: Facts) {
    x.lead.Some? && x.lead.value.Observed? && x.lead.value.observation.disposition == Some(R.PassInconclusive)
  }

  /** Some source review of this screening was exhausted. */
  ghost predicate IsExhausted(x: Facts) {
    SomeGivesUp(x.modules, SourceOf(x, false), 0)
  }

  /** How many evidence items the modules leave. */
  function EvidenceItems(x: Facts): nat {
    Items(x.modules, SourceOf(x, false), true, 0) + Items(x.modules, SourceOf(x, false), false, 0)
  }

  /** A full review admits: nothing its modules met stands against it, there is no provenance warning, and a
      deferral can be written down. That takes a journal and, when it is the lead that was
      exhausted and no module, an audit and room for one more evidence item. */
  ghost predicate ReviewAdmits(x: Facts) {
    && Admits(x.modules, SourceOf(x, false)) && !x.advisory
    && (IsExhausted(x) || IsDeferred(x) ==> !x.journalFails)
    && (!IsExhausted(x) && IsDeferred(x) ==>
          && !x.lead.value.observation.ok && x.lead.value.observation.audit.Some?
          && EvidenceItems(x) < MAX_EVIDENCE)
  }

  /** What a screening meets that admits a submission. */
  ghost predicate Admissible(x: Facts, buildOnly: bool, deferred: bool) {
    && Launches(x, buildOnly) && (deferred ==> buildOnly) && (buildOnly || ReviewAdmits(x))
    && !x.exhausted(ExportStage) && x.exported.Exported? && x.upload.Uploaded?
  }

  lemma DeferralIff(x: Facts, decision: Decision)
    requires decision.outcome == V.Pass && IsDeferred(x)
    ensures var o := x.lead.value.observation;
      Deferred(x, false, decision).Some? <==> !o.ok && o.audit.Some? && |decision.evidence| < MAX_EVIDENCE
    ensures Deferred(x, false, decision).Some? ==> Deferred(x, false, decision).value.outcome == V.PassInconclusive
  {
    hide ReasonCode, ReviewCode;
  }

  lemma NotDeferred(x: Facts, buildOnly: bool, decision: Decision)
    requires buildOnly || decision.outcome != V.Pass || !IsDeferred(x)
    ensures Deferred(x, buildOnly, decision) == Some(decision)
  {
  }

  /** The judgement passes and can be recorded. */
  ghost predicate JudgementAdmits(x: Facts, buildOnly: bool, deferred: bool) {
    var d := Judgement(x, buildOnly, deferred);
    d.Some? && IsPassing(d.value.outcome) && !(x.journalFails && Journals(d.value.outcome))
  }

  lemma MechanicalJudgement(x: Facts, deferred: bool)
    ensures Judgement(x, true, deferred) == Some(Decision(V.Pass, x.manifest, [], None, None))
  {
  }

  lemma JudgementAdmitsIff(x: Facts, deferred: bool)
    ensures JudgementAdmits(x, false, deferred) <==> !deferred && ReviewAdmits(x)
    ensures JudgementAdmits(x, false, deferred) ==>
      (Judgement(x, false, deferred).value.outcome == V.PassInconclusive <==> IsExhausted(x) || IsDeferred(x))
  {
    hide Evaluate, Deferred, WithAdvisory, Admits, Items, SomeGivesUp, SourceOf, IsDeferred;
    var source := SourceOf(x, false);
    var first := Evaluate(x.manifest, x.modules, source, false, deferred);
    DeferredLaneOnly(x, deferred);
    AdmitsIff(x.manifest, x.modules, source);
    if !deferred && first.Some? {
      EvaluatesSoundly(x.manifest, x.modules, source, false, false);
      RoutedIsFit(x, false, first.value);
      var routed := Deferred(x, false, first.value);
      if first.value.outcome == V.Pass && IsDeferred(x) {
        DeferralIff(x, first.value);
      } else {
        NotDeferred(x, false, first.value);
      }
      if routed.Some? { AdvisedIsFit(x, routed.value, x.advisory); }
    }
  }

  lemma DeferredLaneOnly(x: Facts, deferred: bool)
    ensures deferred ==> Evaluate(x.manifest, x.modules, SourceOf(x, false), false, deferred).None?
  {
  }

  /** A submission is admitted if and only if every stage does its part, the modules' reports
      admit it, no provenance warning stands, a deferral can be recorded, and its image is
      exported and uploaded in time; and then that image is what is published. */
  lemma AdmittedIff(x: Facts, buildOnly: bool, deferred: bool)
    ensures var s := ScreeningOf(x, buildOnly, deferred);
      && (IsPassing(s.decision.outcome) <==> Admissible(x, buildOnly, deferred))
      && (Admissible(x, buildOnly, deferred) ==>
            && s.published == Some((x.exported.image, x.upload.id))
            && (s.decision.outcome == V.PassInconclusive <==> !buildOnly && (IsExhausted(x) || IsDeferred(x))))
  {
    hide Obstacle, Judgement, Launches, ReviewAdmits, IsExhausted, IsDeferred;
    ObstacleIff(x, buildOnly);
    ObstacleIsFit(x, buildOnly);
    if buildOnly { MechanicalJudgement(x, deferred); } else { JudgementAdmitsIff(x, deferred); }
  }

  // ----- what every other screening comes to ------------------------------------------------------------

  predicate Fetches(x: Facts) {
    x.executor && !x.exhausted(DownloadStage) && !x.raises(DownloadStage)
  }

  predicate Inspects(x: Facts) {
    Fetches(x) && x.download == Downloaded && x.meetsContract && !x.raises(SourceStage)
  }

  /** The lead lets the image run: it is cleared, or it gave up on its budget. */
  predicate LeadLets(x: Facts, buildOnly: bool) {
    || buildOnly || x.lead.None?
    || (x.lead.value.Observed?
        && var o := x.lead.value.observation;
           (o.ok && o.risk == Some(R.Low)) || o.disposition == Some(R.PassInconclusive))
  }

  /** The screening ends with this observation of the lead. */
  predicate StopsAt(x: Facts, buildOnly: bool, o: R.Observation) {
    Inspects(x) && !LeadLets(x, buildOnly) && x.lead == Some(R.Observed(o))
  }

  predicate Builds(x: Facts, buildOnly: bool) {
    Inspects(x) && LeadLets(x, buildOnly) && !x.exhausted(BuildStage) && !x.raises(BuildStage)
  }

  predicate Serves(x: Facts, buildOnly: bool) {
    Builds(x, buildOnly) && x.build == Built && !x.exhausted(ServeStage) && !x.raises(ServeStage)
  }

  /** Every stage before the policy does its part, and a lead, if there is one, lets the image run. */
  predicate Launches(x: Facts, buildOnly: bool) {
    Serves(x, buildOnly) && x.serve == Healthy && !x.exhausted(PolicyStage)
  }

  /** A full review is held of a healthy image. */
  predicate Reviews(x: Facts, buildOnly: bool, deferred: bool) {
    Launches(x, buildOnly) && !buildOnly && !deferred
  }

  /** The judgement passes, and only its image is still to be published. */
  ghost predicate Publishes(x: Facts, buildOnly: bool, deferred: bool) {
    Launches(x, buildOnly) && (deferred ==> buildOnly) && (buildOnly || ReviewAdmits(x))
  }

  /** The stable core rejects: an invalid artifact, a broken contract, a failed build, an
      unhealthy server, or an image too large for a passing decision. */
  ghost predicate Rejects(x: Facts, buildOnly: bool, deferred: bool) {
    || (Fetches(x) && x.download == ArtifactInvalid)
    || (Fetches(x) && x.download == Downloaded && !x.meetsContract)
    || (Builds(x, buildOnly) && x.build == BuildFailed)
    || (Serves(x, buildOnly) && x.serve == Unhealthy)
    || (Publishes(x, buildOnly, deferred) && !x.exhausted(ExportStage) && x.exported.ImageTooLarge?)
  }

  /** A deferral that cannot be written down: no failed review, no audit, or no room. */
  ghost predicate CannotDefer(x: Facts) {
    && Admits(x.modules, SourceOf(x, false)) && !IsExhausted(x) && IsDeferred(x)
    && var o := x.lead.value.observation;
       o.ok || o.audit.None? || EvidenceItems(x) >= MAX_EVIDENCE
  }

  /** The policy accuses, or a provenance warning keeps a passing decision from passing. */
  ghost predicate IsAccused(x: Facts) {
    || EndsAccused(x.modules, SourceOf(x, false))
    || (x.advisory && Admits(x.modules, SourceOf(x, false)) && !CannotDefer(x))
  }

  /** Sent to an operator: an elevated lead that nothing resolved, or an accused submission. */
  ghost predicate Quarantines(x: Facts, buildOnly: bool, deferred: bool) {
    && !x.journalFails
    && ((exists o :: StopsAt(x, buildOnly, o) && o.ok && (o.risk == Some(R.Medium) || o.risk == Some(R.High)))
        || (Reviews(x, buildOnly, deferred) && IsAccused(x)))
  }

  ghost predicate LeavesOpen(x: Facts, buildOnly: bool, deferred: bool) {
    && !x.journalFails
    && ((exists o :: StopsAt(x, buildOnly, o) && !o.ok && o.disposition == Some(R.InconclusiveReview))
        || (Reviews(x, buildOnly, deferred) && EndsOpen(x.modules, SourceOf(x, false))))
  }

  /** Infrastructure, before there is a healthy image: an executor, a lease, a download, a
      build or a server that is not there, something raised, or a lead that gives no answer. */
  ghost predicate PreparationFails(x: Facts, buildOnly: bool) {
    || !x.executor || x.exhausted(DownloadStage) || x.raises(DownloadStage) || x.download == DownloadFailed
    || (x.download == Downloaded && x.meetsContract
        && (x.raises(SourceStage)
            || (!buildOnly && x.lead == Some(R.Escaped))
            || (exists o :: StopsAt(x, buildOnly, o) && (LeadIsRetried(o) || x.journalFails))
            || (LeadLets(x, buildOnly)
                && (x.exhausted(BuildStage) || x.raises(BuildStage) || x.build == BuildInfrastructure
                    || (x.build == Built
                        && (x.exhausted(ServeStage) || x.raises(ServeStage) || x.serve == ServeInfrastructure
                            || (x.serve == Healthy && x.exhausted(PolicyStage))))))))
  }

  /** A failed review to be retried, or an answer without a risk. */
  predicate LeadIsRetried(o: R.Observation) {
    if o.ok then o.risk.None? else o.disposition.None? || o.disposition == Some(R.RetryableInfra)
  }

  /** Infrastructure, in the review of a healthy image. */
  ghost predicate ReviewFails(x: Facts, deferred: bool) {
    || deferred || EndsRaised(x.modules, SourceOf(x, false)) || EndsDown(x.modules, SourceOf(x, false))
    || CannotDefer(x)
    || (x.journalFails
        && (IsAccused(x) || EndsOpen(x.modules, SourceOf(x, false))
            || (Admits(x.modules, SourceOf(x, false)) && (IsExhausted(x) || IsDeferred(x)))))
  }

  predicate PublicationFails(x: Facts) {
    || x.exhausted(ExportStage) || x.exported.ExportLate? || x.exported.ExportFailed?
    || (x.exported.Exported? && !x.upload.Uploaded?)
  }

  ghost predicate Retries(x: Facts, buildOnly: bool, deferred: bool) {
    || PreparationFails(x, buildOnly)
    || (Launches(x, buildOnly) && !buildOnly && ReviewFails(x, deferred))
    || (Publishes(x, buildOnly, deferred) && PublicationFails(x))
  }

  lemma MayExecuteIff(x: Facts, buildOnly: bool)
    ensures LeadLets(x, buildOnly) <==>
      buildOnly || x.lead.None? || (x.lead.value.Observed? && MayExecute(x.lead.value.observation))
  {
  }

  /** What becomes of a lead that does not let the image run. */
  lemma StopIsTold(x: Facts, o: R.Observation)
    requires !MayExecute(o)
    ensures var d := Recorded(x, Preexecution(x, o)).outcome;
      && (d == V.Quarantine <==> !x.journalFails && o.ok && (o.risk == Some(R.Medium) || o.risk == Some(R.High)))
      && (d == V.Inconclusive <==> !x.journalFails && !o.ok && o.disposition == Some(R.InconclusiveReview))
      && (d == V.RetryableInfra <==> x.journalFails || LeadIsRetried(o))
      && d != V.DeterministicReject
  {
    hide ReasonCode, ReviewCode;
    assert o.risk.Some? ==> o.risk.value.Low? || o.risk.value.Medium? || o.risk.value.High?;
    assert o.disposition.Some? && !o.disposition.value.PassInconclusive? ==>
      o.disposition.value.RetryableInfra? || o.disposition.value.InconclusiveReview?;
  }

  lemma RefusalIsTold(x: Facts, buildOnly: bool)
    ensures var d := Refusal(x, buildOnly);
      && (d.None? <==> Inspects(x) && LeadLets(x, buildOnly))
      && (d.Some? && d.value.outcome == V.DeterministicReject <==>
            Fetches(x) && (x.download == ArtifactInvalid || (x.download == Downloaded && !x.meetsContract)))
      && (d.Some? && d.value.outcome == V.Quarantine <==>
            !x.journalFails && exists o :: StopsAt(x, buildOnly, o) && o.ok && (o.risk == Some(R.Medium) || o.risk == Some(R.High)))
      && (d.Some? && d.value.outcome == V.Inconclusive <==>
            !x.journalFails && exists o :: StopsAt(x, buildOnly, o) && !o.ok && o.disposition == Some(R.InconclusiveReview))
      && (d.Some? && d.value.outcome == V.RetryableInfra <==>
            || !x.executor || x.exhausted(DownloadStage) || x.raises(DownloadStage) || x.download == DownloadFailed
            || (x.download == Downloaded && x.meetsContract
                && (x.raises(SourceStage)
                    || (!buildOnly && x.lead == Some(R.Escaped))
                    || (exists o :: StopsAt(x, buildOnly, o) && (LeadIsRetried(o) || x.journalFails)))))
  {
    hide Recorded, Preexecution, MayExecute, LeadLets, LeadIsRetried;
    MayExecuteIff(x, buildOnly);
    if x.lead.Some? && x.lead.value.Observed? {
      var o := x.lead.value.observation;
      if !MayExecute(o) { StopIsTold(x, o); }
      assert StopsAt(x, buildOnly, o) <==> Inspects(x) && !LeadLets(x, buildOnly);
    }
  }

  lemma BreakdownIsTold(x: Facts, buildOnly: bool)
    requires Inspects(x) && LeadLets(x, buildOnly)
    ensures var d := Breakdown(x);
      && (d.None? <==> Launches(x, buildOnly))
      && (d.Some? ==> d.value.outcome == V.DeterministicReject || d.value.outcome == V.RetryableInfra)
      && (d.Some? && d.value.outcome == V.DeterministicReject <==>
            (Builds(x, buildOnly) && x.build == BuildFailed) || (Serves(x, buildOnly) && x.serve == Unhealthy))
      && (d.Some? && d.value.outcome == V.RetryableInfra <==>
            || x.exhausted(BuildStage) || x.raises(BuildStage) || x.build == BuildInfrastructure
            || (x.build == Built
                && (x.exhausted(ServeStage) || x.raises(ServeStage) || x.serve == ServeInfrastructure
                    || (x.serve == Healthy && x.exhausted(PolicyStage)))))
  {
    hide Inspects, LeadLets;
  }

  lemma JudgementIsTold(x: Facts, deferred: bool)
    ensures var d := Judgement(x, false, deferred);
      && (d.None? <==> deferred || EndsRaised(x.modules, SourceOf(x, false)) || CannotDefer(x))
      && (d.Some? && d.value.outcome == V.RetryableInfra <==> !deferred && EndsDown(x.modules, SourceOf(x, false)))
      && (d.Some? && d.value.outcome == V.Inconclusive <==> !deferred && EndsOpen(x.modules, SourceOf(x, false)))
      && (d.Some? && d.value.outcome == V.Quarantine <==> !deferred && IsAccused(x))
      && (d.Some? && IsPassing(d.value.outcome) <==>
            !deferred && Admits(x.modules, SourceOf(x, false)) && !CannotDefer(x) && !x.advisory)
      && (d.Some? && IsPassing(d.value.outcome) ==>
            (d.value.outcome == V.PassInconclusive <==> IsExhausted(x) || IsDeferred(x)))
      && (d.Some? ==> d.value.outcome != V.DeterministicReject)
  {
    hide Evaluate, Deferred, WithAdvisory, Admits, Items, SomeGivesUp, SourceOf, EndsRaised, EndsDown, EndsOpen,
         EndsAccused;
    var source := SourceOf(x, false);
    var first := Evaluate(x.manifest, x.modules, source, false, deferred);
    DeferredLaneOnly(x, deferred);
    AdmitsIff(x.manifest, x.modules, source);
    OutcomeIff(x.manifest, x.modules, source);
    if !deferred && first.Some? {
      EvaluatesSoundly(x.manifest, x.modules, source, false, false);
      RoutedIsFit(x, false, first.value);
      var routed := Deferred(x, false, first.value);
      if first.value.outcome == V.Pass && IsDeferred(x) {
        DeferralIff(x, first.value);
      } else {
        NotDeferred(x, false, first.value);
      }
      if routed.Some? { AdviceIsTold(routed.value, x.advisory); }
    }
  }

  lemma PublicationIsTold(x: Facts, decision: Decision)
    requires decision.outcome != V.DeterministicReject
    ensures var s := Publication(x, decision);
      if !IsPassing(decision.outcome) then s == Screened(decision, None)
      else
        && (s.decision.outcome == V.DeterministicReject <==> !x.exhausted(ExportStage) && x.exported.ImageTooLarge?)
        && (s.decision.outcome == V.RetryableInfra <==> PublicationFails(x))
        && s.decision.outcome != V.Quarantine && s.decision.outcome != V.Inconclusive
  {
  }

  /** Judging a healthy image in the full lane. */
  lemma ReviewIsTold(x: Facts, deferred: bool)
    ensures var d := Publication(x, Recorded(x, Judgement(x, false, deferred))).decision.outcome;
      var publishes := !deferred && ReviewAdmits(x);
      && (d == V.DeterministicReject <==> publishes && !x.exhausted(ExportStage) && x.exported.ImageTooLarge?)
      && (d == V.Quarantine <==> !x.journalFails && !deferred && IsAccused(x))
      && (d == V.Inconclusive <==> !x.journalFails && !deferred && EndsOpen(x.modules, SourceOf(x, false)))
      && (d == V.RetryableInfra <==> ReviewFails(x, deferred) || (publishes && PublicationFails(x)))
  {
    hide Judgement, Publication, PublicationFails, Items, SomeGivesUp, SourceOf, EndsRaised, EndsDown, EndsOpen,
         EndsAccused, IsAccused, SomeTrips, SomeReleases, AllLetPass;
    JudgementIsTold(x, deferred);
    JudgementAdmitsIff(x, deferred);
    JudgedApart(x);
    PublicationIsTold(x, Recorded(x, Judgement(x, false, deferred)));
  }

  /** No two of these happen in one review. */
  lemma JudgedApart(x: Facts)
    ensures var source := SourceOf(x, false);
      && (Admits(x.modules, source) ==>
            && !EndsRaised(x.modules, source) && !EndsDown(x.modules, source)
            && !EndsOpen(x.modules, source) && !EndsAccused(x.modules, source))
      && (EndsRaised(x.modules, source) || EndsDown(x.modules, source) || EndsOpen(x.modules, source) ==> !IsAccused(x))
  {
    hide Evaluate, Admits, EndsRaised, EndsDown, EndsOpen, EndsAccused, CannotDefer;
    AdmitsIff(x.manifest, x.modules, SourceOf(x, false));
    OutcomeIff(x.manifest, x.modules, SourceOf(x, false));
  }

  lemma MechanicalIsTold(x: Facts, deferred: bool)
    ensures var d := Publication(x, Recorded(x, Judgement(x, true, deferred))).decision.outcome;
      && (d == V.DeterministicReject <==> !x.exhausted(ExportStage) && x.exported.ImageTooLarge?)
      && d != V.Quarantine && d != V.Inconclusive
      && (d == V.RetryableInfra <==> PublicationFails(x))
  {
    hide Judgement, Publication, PublicationFails;
    MechanicalJudgement(x, deferred);
    PublicationIsTold(x, Recorded(x, Judgement(x, true, deferred)));
  }

  /** The outcome of a screening, exactly, from what it met. */
  lemma ScreeningOutcomeIff(x: Facts, buildOnly: bool, deferred: bool)
    ensures var d := ScreeningOf(x, buildOnly, deferred).decision.outcome;
      && (d == V.DeterministicReject <==> Rejects(x, buildOnly, deferred))
      && (d == V.RetryableInfra <==> Retries(x, buildOnly, deferred))
      && (d == V.Quarantine <==> Quarantines(x, buildOnly, deferred))
      && (d == V.Inconclusive <==> LeavesOpen(x, buildOnly, deferred))
  {
    hide Refusal, Breakdown, Publication, Recorded, Judgement, ReviewAdmits, ReviewFails, PublicationFails, IsAccused,
         LeadIsRetried, EndsOpen, SourceOf;
    RefusalIsTold(x, buildOnly);
    if Inspects(x) && LeadLets(x, buildOnly) { BreakdownIsTold(x, buildOnly); }
    if buildOnly { MechanicalIsTold(x, deferred); } else { ReviewIsTold(x, deferred); }
  }

  /** What the stable core signs when it ends a screening itself. */
  function Signed(x: Facts, outcome: V.Outcome, code: string): Decision {
    Decision(outcome, x.core, [Evidence("stable-core", code, None)], None, None)
  }

  /** Every rejection names its stage. */
  lemma RejectionsAreNamed(x: Facts, buildOnly: bool, deferred: bool)
    ensures var d := ScreeningOf(x, buildOnly, deferred).decision;
      && (Fetches(x) && x.download == ArtifactInvalid ==> d == Signed(x, V.DeterministicReject, "artifact-invalid"))
      && (Fetches(x) && x.download == Downloaded && !x.meetsContract ==>
            d == Signed(x, V.DeterministicReject, "container-harness-contract"))
      && (Builds(x, buildOnly) && x.build == BuildFailed ==> d == Signed(x, V.DeterministicReject, "docker-build"))
      && (Serves(x, buildOnly) && x.serve == Unhealthy ==> d == Signed(x, V.DeterministicReject, "health-contract"))
      && (Publishes(x, buildOnly, deferred) && !x.exhausted(ExportStage) && x.exported.ImageTooLarge? ==>
            d == Signed(x, V.DeterministicReject, "screened-image-too-large"))
  {
    hide Judgement, ReviewAdmits, Recorded, Preexecution, MayExecute, LeadLets;
    MayExecuteIff(x, buildOnly);
    if Publishes(x, buildOnly, deferred) { PublishedIsPassing(x, buildOnly, deferred); }
  }

  /** So does every failure of the infrastructure around it. */
  lemma FailuresAreNamed(x: Facts, buildOnly: bool, deferred: bool)
    ensures var d := ScreeningOf(x, buildOnly, deferred).decision;
      && (!x.executor ==> d == Signed(x, V.RetryableInfra, "executor-isolation-unavailable"))
      && (Fetches(x) && x.download == DownloadFailed ==> d == Signed(x, V.RetryableInfra, "artifact-download"))
      && (Builds(x, buildOnly) && x.build == BuildInfrastructure ==>
            d == Signed(x, V.RetryableInfra, "docker-build-infrastructure"))
      && (Serves(x, buildOnly) && x.serve == ServeInfrastructure ==> d == Signed(x, V.RetryableInfra, "serve-infrastructure"))
      && (Publishes(x, buildOnly, deferred) && !x.exhausted(ExportStage) && x.exported.ExportFailed? ==>
            d == Signed(x, V.RetryableInfra, "screened-image-export-failed"))
      && (Publishes(x, buildOnly, deferred) && !x.exhausted(ExportStage) && x.exported.Exported? && x.upload.UploadFailed? ==>
            d == Signed(x, V.RetryableInfra, "image-upload-failed"))
      && (Publishes(x, buildOnly, deferred)
          && (x.exhausted(ExportStage) || x.exported.ExportLate? || (x.exported.Exported? && x.upload.UploadLate?)) ==>
            d == Signed(x, V.RetryableInfra, "lease-budget-exhausted"))
  {
    hide Judgement, ReviewAdmits, Recorded, Preexecution, MayExecute, LeadLets;
    MayExecuteIff(x, buildOnly);
    if Publishes(x, buildOnly, deferred) { PublishedIsPassing(x, buildOnly, deferred); }
  }

  lemma PublishedIsPassing(x: Facts, buildOnly: bool, deferred: bool)
    requires Publishes(x, buildOnly, deferred)
    ensures IsPassing(Recorded(x, Judgement(x, buildOnly, deferred)).outcome)
  {
    hide Judgement, ReviewAdmits, Launches;
    if buildOnly { MechanicalJudgement(x, deferred); } else { JudgementAdmitsIff(x, deferred); }
  }

  lemma AdviceIsTold(decision: Decision, advisory: bool)
    ensures var d := WithAdvisory(decision, advisory);
      IsSound(decision) ==>
        && d.Some?
        && d.value.outcome ==
           (if advisory && (IsPassing(decision.outcome) || decision.outcome == V.Quarantine) then V.Quarantine
            else decision.outcome)
  {
  }

  /** The deferral of a passing decision that already has all the evidence it may have. */
  predicate Overflows(x: Facts, decision: Decision) {
    decision.outcome == V.Pass && |decision.evidence| == MAX_EVIDENCE && IsDeferred(x)
  }

  /** When nothing raises and exhausted reviews are accounted for, there is a judgement if and
      only if the evidence of a deferred pass does not overflow: the concatenation is not cut
      to the bound again, and the constructor's error becomes a retry. */
  lemma JudgesIffFits(x: Facts, buildOnly: bool, deferred: bool)
    requires NothingRaises(x.modules, SourceOf(x, buildOnly)) && (deferred ==> buildOnly)
    requires x.lead.Some? && x.lead.value.Observed? ==> R.IsAccounted(x.lead.value.observation)
    requires x.review.Observed? ==> R.IsAccounted(x.review.observation)
    ensures var first := Evaluate(x.manifest, x.modules, SourceOf(x, buildOnly), buildOnly, deferred);
      && first.Some?
      && (Judgement(x, buildOnly, deferred).Some? <==> buildOnly || !Overflows(x, first.value))
  {
    hide Evaluate, WithAdvisory, NothingRaises, ReasonCode, ReviewCode;
    var source := SourceOf(x, buildOnly);
    DecidesUnlessRaised(x.manifest, x.modules, source, buildOnly, deferred);
    EvaluatesSoundly(x.manifest, x.modules, source, buildOnly, deferred);
    var first := Evaluate(x.manifest, x.modules, source, buildOnly, deferred).value;
    RoutedIsFit(x, buildOnly, first);
    var routed := Deferred(x, buildOnly, first);
    if routed.Some? { AdvisedIsFit(x, routed.value, x.advisory && !buildOnly); }
  }

  /** It does happen: two clean packs of eight challenges after any exhausted lead. */
  lemma DeferredPassMayOverflow(x: Facts)
    requires x.modules == CleanPacks() && IsDeferred(x) && !x.lead.value.observation.ok
    ensures var first := Evaluate(x.manifest, x.modules, SourceOf(x, false), false, false);
      first.Some? && first.value.outcome == V.Pass && Judgement(x, false, false) == None
  {
    hide Evaluate, CleanPacks, WithAdvisory;
    CleanPacksPass(x.manifest, SourceOf(x, false));
  }

  /** A remark on the order of the stages: no untrusted image runs on an unresolved lead.
      Whatever building, serving, judging and publishing would have given, the screening ends
      the same. */
  lemma UnresolvedLeadNeverRuns(x: Facts, y: Facts, deferred: bool)
    requires x.lead.Some? && (x.lead.value.Escaped? || !MayExecute(x.lead.value.observation))
    requires y == x.(build := y.build, serve := y.serve, modules := y.modules, advisory := y.advisory,
                     exported := y.exported, upload := y.upload)
    ensures ScreeningOf(x, false, deferred).published.None?
    ensures ScreeningOf(y, false, deferred) == ScreeningOf(x, false, deferred)
  {
    hide MayExecute, Judgement, MakeDecision, ReasonCode, ReviewCode;
  }
}

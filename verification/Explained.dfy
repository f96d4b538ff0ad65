/** What an operator is told with a decision of `policy.py` and `gate.py`: whose evidence, under
    which codes, in which order, and whose finding and audit. */
module Explained {
  import opened Options
  import opened Policy
  import G = Gate
  import V = Verdict
  import R = ReviewFlow

  // ----- the evidence of one module -----------------------------------------------------------

  function Named(error: Option<string>, default: string): string {
    match error
    case None => default
    case Some(name) => if |name| == 0 then default else name
  }

  /** The first thing that a challenge shows. */
  function ChallengeReason(c: Challenge): string
    requires c.seen.Some?
  {
    var seen := c.seen.value;
    if Succeeds(c) then "challenge-observed"
    else if !seen.ok then Named(seen.error, "challenge-inconclusive")
    else if c.requireCall && seen.calls == 0 then "challenge-model-call-missing"
    else if c.requireToken && !seen.token then "challenge-gateway-token-missing"
    else "challenge-shape-anomaly"
  }

  ghost predicate IsChallengeItem(id: string, c: Challenge, item: Evidence) {
    && c.seen.Some? && item.moduleId == id && item.code == ChallengeReason(c)
    && item.digest == (if c.seen.value.ok then c.seen.value.digest else None)
  }

  /** One item for each challenge up to the first that did not go as it should. */
  ghost predicate IsPackEvidence(id: string, pack: seq<Challenge>, evidence: seq<Evidence>) {
    && |evidence| <= |pack|
    && (forall j :: 0 <= j < |evidence| ==> IsChallengeItem(id, pack[j], evidence[j]))
    && (forall j :: 0 <= j < |evidence| - 1 ==> Succeeds(pack[j]))
    && (|evidence| < |pack| ==> evidence != [] && !Succeeds(pack[|evidence| - 1]))
  }

  predicate IsMaliciousKind(c: R.Category) {
    c.CredentialAccess? || c.CrossUserAccess? || c.DataExfiltration? || c.EmbeddedSecret? || c.MaliciousBuild?
    || c == R.OtherCategory("prompt_injection")
  }

  predicate IsHiddenKind(c: R.Category) {
    c.BenchmarkEmulation? || c.EmbeddedEvaluatorLogic? || c.FabricatedToolTrajectory? || c.HiddenValueLeakage?
    || c.ProviderBypass? || c.ScorerContractManipulation? || c.SeedStateShortcut? || c.SuspiciousStaticTables?
  }

  /** The code names the gravest kind of category that a review reports. */
  ghost predicate IsGravest(categories: seq<R.Category>, code: string) {
    var malicious := exists c :: c in categories && IsMaliciousKind(c);
    var hidden := exists c :: c in categories && IsHiddenKind(c);
    var duplicate := R.OtherCategory("duplicate_submission") in categories;
    var advice := R.OtherCategory("external_build_dependency") in categories
      || R.OtherCategory("user_isolation_correctness") in categories;
    && (malicious ==> code == "source-safety-malicious-risk")
    && (!malicious && hidden ==> code == "source-safety-private-challenge-risk")
    && (!malicious && !hidden && duplicate ==> code == "originality-duplicate-risk")
    && (!malicious && !hidden && !duplicate && advice ==> code == "source-correctness-review")
    && (!malicious && !hidden && !duplicate && !advice ==> code == "source-safety-behavioral-risk")
  }

  lemma KindsIff(categories: seq<R.Category>)
    ensures (exists c :: c in categories && IsMaliciousKind(c)) <==>
      exists k :: 0 <= k < |categories| && IsMalicious(categories[k])
    ensures (exists c :: c in categories && IsHiddenKind(c)) <==>
      exists k :: 0 <= k < |categories| && IsPrivateChallenge(categories[k])
  {
    forall c ensures IsMaliciousKind(c) <==> IsMalicious(c) {}
    forall c ensures IsHiddenKind(c) <==> IsPrivateChallenge(c) {}
    hide IsMaliciousKind, IsMalicious, IsHiddenKind, IsPrivateChallenge;
    forall k | 0 <= k < |categories| ensures categories[k] in categories {}
  }

  lemma GravestIsTold(categories: seq<R.Category>)
    ensures IsGravest(categories, ReviewCode(categories))
  {
    KindsIff(categories);
    hide IsMaliciousKind, IsMalicious, IsHiddenKind, IsPrivateChallenge;
  }

  /** What a review leaves: nothing if it clears, else one item; its finding unless it says
      nothing, and its audit if it gave up. */
  ghost predicate IsReviewEvidence(m: Module, source: Source, r: ModuleResult)
    requires m.SourceReview? && source.Reviewed?
  {
    var o := source.observation;
    var says := Clears(m, source) || Trips(m, source) || GivesUp(m, source);
    && r.finding == (if says then o.finding else None)
    && r.audit == (if GivesUp(m, source) then o.audit else None)
    && (Clears(m, source) <==> r.evidence == [])
    && (!Clears(m, source) ==>
          && |r.evidence| == 1 && r.evidence[0].moduleId == m.id
          && r.evidence[0].digest == (if says then o.digest else None)
          && (Trips(m, source) ==> IsGravest(o.categories, r.evidence[0].code))
          && (GivesUp(m, source) ==> r.evidence[0].code == "source-review-inconclusive"))
  }

  /** What a module says with its report. */
  ghost predicate IsExplained(m: Module, source: Source, r: ModuleResult) {
    && (m.SourceReview? && source.Reviewed? ==> IsReviewEvidence(m, source, r))
    && (!(m.SourceReview? && source.Reviewed?) ==> r.finding.None? && r.audit.None?)
    && match m
       case SourceReview(id) => source.NoSource? ==> r.evidence == [Evidence(id, "source-review-unavailable", None)]
       case TimingRisk(id, FeedDown) => r.evidence == [Evidence(id, "risk-feed-unavailable", None)]
       case TimingRisk(id, FeedInvalid) => r.evidence == [Evidence(id, "risk-feed-invalid", None)]
       case TimingRisk(id, Flagged(digest)) => r.evidence == [Evidence(id, "timing-relay-tripwire", Some(digest))]
       case TimingRisk(_, Unflagged) => r.evidence == []
       case RandomAudit(id, seeded, drawn) =>
         r.evidence == (if !seeded then [Evidence(id, "audit-seed-unavailable", None)]
                        else if drawn then [Evidence(id, "random-control-selected", None)] else [])
       case Fingerprint(id, known, digest) =>
         r.evidence == if known then [Evidence(id, "source-fingerprint-tripwire", Some(digest))] else []
       case ChallengePack(id, None) => r.evidence == [Evidence(id, "challenge-pack-unavailable", None)]
       case ChallengePack(id, Some(pack)) => IsPackEvidence(id, pack, r.evidence)
       case Oracle(id, None, _, _) => true
       case Oracle(id, Some(seen), minCalls, _) =>
         && |r.evidence| == 1 && r.evidence[0].moduleId == id && r.evidence[0].digest == seen.digest
         && r.evidence[0].code ==
              if Clears(m, source) then "behavioral-oracle-passed"
              else if Accuses(m) then
                (if seen.token then "behavioral-oracle-implausibly-fast" else "behavioral-oracle-wrong-answer")
              else if seen.ok then "behavioral-oracle-insufficient-round-trips"
              else Named(seen.error, "behavioral-oracle-inconclusive")
  }

  lemma {:induction false} PackIsExplained(id: string, pack: seq<Challenge>, k: nat, evidence: seq<Evidence>)
    requires k == |evidence| <= |pack|
    requires forall j :: 0 <= j < k ==> Succeeds(pack[j]) && IsChallengeItem(id, pack[j], evidence[j])
    ensures var r := PackFrom(id, pack, k, evidence); r.Some? ==> IsPackEvidence(id, pack, r.value.evidence)
    decreases |pack| - k
  {
    if k < |pack| && pack[k].seen.Some? {
      var c := pack[k];
      var seen := c.seen.value;
      if Succeeds(c) {
        PackIsExplained(id, pack, k + 1, evidence + [Evidence(id, "challenge-observed", seen.digest)]);
      } else {
        FaultIsExplained(id, c);
      }
    }
  }

  lemma FaultIsExplained(id: string, c: Challenge)
    requires c.seen.Some? && !Succeeds(c)
    ensures var fault := ChallengeFault(id, c, c.seen.value); fault.Some? && IsChallengeItem(id, c, fault.value.1)
  {
  }

  lemma PackReportIsExplained(m: Module, source: Source)
    requires m.ChallengePack? && m.pack.Some?
    ensures Report(m, source).Some? ==> IsExplained(m, source, Report(m, source).value)
  {
    PackIsExplained(m.id, m.pack.value, 0, []);
    PackHasNoFinding(m.id, m.pack.value, 0, []);
    hide PackFrom, IsPackEvidence, IsReviewEvidence;
  }

  lemma ReviewReportIsExplained(m: Module, source: Source)
    requires m.SourceReview? && source.Reviewed?
    ensures IsExplained(m, source, Report(m, source).value)
  {
    ReportIsTold(m, source);
    GravestIsTold(source.observation.categories);
    hide IsGravest, ReviewCode, ReasonCode, OnlyAdvisory, IsHarmless;
  }

  lemma OracleReportIsExplained(m: Module, source: Source)
    requires m.Oracle? && m.seen.Some?
    ensures IsExplained(m, source, Report(m, source).value)
  {
  }

  /** What every module says, for all that it may meet. */
  lemma ReportIsExplained(m: Module, source: Source)
    ensures Report(m, source).Some? ==> IsExplained(m, source, Report(m, source).value)
  {
    if m.ChallengePack? && m.pack.Some? {
      PackReportIsExplained(m, source);
    } else if m.SourceReview? && source.Reviewed? {
      ReviewReportIsExplained(m, source);
    } else if m.Oracle? && m.seen.Some? {
      OracleReportIsExplained(m, source);
    } else {
      hide IsPackEvidence, IsReviewEvidence, PackFrom, ReviewResult, OracleResult;
    }
  }

  lemma {:induction false} PackHasNoFinding(id: string, pack: seq<Challenge>, k: nat, evidence: seq<Evidence>)
    requires k <= |pack|
    ensures var r := PackFrom(id, pack, k, evidence); r.Some? ==> r.value.finding.None? && r.value.audit.None?
    decreases |pack| - k
  {
    if k < |pack| && pack[k].seen.Some? && ChallengeFault(id, pack[k], pack[k].seen.value).None? {
      PackHasNoFinding(id, pack, k + 1, evidence + [Evidence(id, "challenge-observed", pack[k].seen.value.digest)]);
    }
  }

  // ----- the evidence of a decision ---------------------------------------------------------------

  function EvidenceOf(m: Module, source: Source): seq<Evidence> {
    match Report(m, source)
    case None => []
    case Some(r) => r.evidence
  }

  /** What the modules of a phase leave, from the `k`th module on, up to the first that ends it. */
  ghost function Told(modules: seq<Module>, source: Source, selectors: bool, k: nat): seq<Evidence>
    requires k <= |modules|
    decreases |modules| - k
  {
    if k == |modules| then []
    else if IsChallenge(modules[k]) == selectors then Told(modules, source, selectors, k + 1)
    else if LetsPass(modules[k], source) then EvidenceOf(modules[k], source) + Told(modules, source, selectors, k + 1)
    else EvidenceOf(modules[k], source)
  }

  /** A module of the phase, from the `k`th on and before it ends, leaves the review's finding. */
  ghost predicate Finds(modules: seq<Module>, source: Source, k: nat)
    requires k <= |modules|
    decreases |modules| - k
  {
    && k < |modules|
    && if IsChallenge(modules[k]) then Finds(modules, source, k + 1)
       else LetsPass(modules[k], source) && (modules[k].SourceReview? || Finds(modules, source, k + 1))
  }

  /** The review's finding, once a source review has spoken. */
  function FindingOf(source: Source): Option<R.Finding> {
    if source.Reviewed? then source.observation.finding else None
  }

  function Cut(evidence: seq<Evidence>): seq<Evidence> {
    if |evidence| > MAX_EVIDENCE then evidence[..MAX_EVIDENCE] else evidence
  }

  lemma TookIsExplained(run: Run, m: Module, source: Source)
    requires Report(m, source).Some?
    ensures var next := Took(run, Report(m, source).value);
      && next.evidence == run.evidence + EvidenceOf(m, source)
      && next.finding == (if m.SourceReview? && LetsPass(m, source) && FindingOf(source).Some? then FindingOf(source) else run.finding)
      && next.audit == (if GivesUp(m, source) && source.observation.audit.Some? then source.observation.audit else run.audit)
  {
    ReportIsExplained(m, source);
    hide Report, Clears, Trips, IsPackEvidence;
  }

  /** The decision puts the run in writing. */
  predicate Writes(manifest: string, run: Run, d: Decision) {
    d.manifest == manifest && d.evidence == Cut(run.evidence) && d.finding == run.finding && d.audit == run.audit
  }

  lemma DecideIsExplained(manifest: string, outcome: V.Outcome, run: Run)
    ensures var d := Decide(manifest, outcome, run); d.Some? ==> Writes(manifest, run, d.value)
  {
  }

  /** The run with what a phase leaves from its `k`th module on. */
  ghost predicate Adds(modules: seq<Module>, source: Source, selectors: bool, k: nat, run: Run, last: Run)
    requires k <= |modules|
  {
    && last.evidence == run.evidence + Told(modules, source, selectors, k)
    && last.finding ==
       (if selectors && Finds(modules, source, k) && FindingOf(source).Some? then FindingOf(source) else run.finding)
    && last.audit ==
       (if selectors && GivesUpBefore(modules, source, k) && HasAudit(source) then source.observation.audit else run.audit)
  }

  /** A review gives up, from the `k`th module on and before the selectors end. */
  ghost predicate GivesUpBefore(modules: seq<Module>, source: Source, k: nat)
    requires k <= |modules|
    decreases |modules| - k
  {
    && k < |modules|
    && if IsChallenge(modules[k]) then GivesUpBefore(modules, source, k + 1)
       else LetsPass(modules[k], source) && (GivesUp(modules[k], source) || GivesUpBefore(modules, source, k + 1))
  }

  /** How a phase ends, put in writing. */
  ghost predicate PhaseWrites(manifest: string, modules: seq<Module>, source: Source, selectors: bool, k: nat,
                              run: Run, p: Progress)
    requires k <= |modules|
  {
    match p
    case Going(last) => Adds(modules, source, selectors, k, run, last)
    case Ended(None) => true
    case Ended(Some(d)) => exists last :: Adds(modules, source, selectors, k, run, last) && Writes(manifest, last, d)
  }

  lemma AddsNothing(modules: seq<Module>, source: Source, selectors: bool, run: Run)
    ensures Adds(modules, source, selectors, |modules|, run, run)
  {
  }

  lemma AddsLater(modules: seq<Module>, source: Source, selectors: bool, k: nat, run: Run, last: Run)
    requires k < |modules| && IsChallenge(modules[k]) == selectors
    ensures Adds(modules, source, selectors, k + 1, run, last) ==> Adds(modules, source, selectors, k, run, last)
  {
    hide LetsPass, GivesUp;
  }

  lemma AddsOne(modules: seq<Module>, source: Source, selectors: bool, k: nat, run: Run, next: Run, last: Run)
    requires k < |modules| && IsChallenge(modules[k]) != selectors && Report(modules[k], source).Some?
    requires next == Took(run, Report(modules[k], source).value).(
      selected := next.selected, exhausted := next.exhausted, cleared := next.cleared)
    ensures LetsPass(modules[k], source) && Adds(modules, source, selectors, k + 1, next, last) ==>
      Adds(modules, source, selectors, k, run, last)
    ensures !LetsPass(modules[k], source) ==> Adds(modules, source, selectors, k, run, next)
  {
    TookIsExplained(run, modules[k], source);
    NeverBoth(modules[k], source);
    hide Report, Took, Clears, Trips, GivesUp;
    assert (run.evidence + EvidenceOf(modules[k], source)) + Told(modules, source, selectors, k + 1)
      == run.evidence + (EvidenceOf(modules[k], source) + Told(modules, source, selectors, k + 1));
  }

  lemma EndWrites(manifest: string, modules: seq<Module>, source: Source, selectors: bool, k: nat, run: Run,
                  next: Run, p: Progress)
    requires k <= |modules| && p.Ended?
    requires p.decision.Some? ==> Adds(modules, source, selectors, k, run, next) && Writes(manifest, next, p.decision.value)
    ensures PhaseWrites(manifest, modules, source, selectors, k, run, p)
  {
  }

  lemma LaterWrites(manifest: string, modules: seq<Module>, source: Source, selectors: bool, k: nat, run: Run,
                    next: Run, p: Progress)
    requires k < |modules| && PhaseWrites(manifest, modules, source, selectors, k + 1, next, p)
    requires forall last :: Adds(modules, source, selectors, k + 1, next, last) ==> Adds(modules, source, selectors, k, run, last)
    ensures PhaseWrites(manifest, modules, source, selectors, k, run, p)
  {
    hide Adds, Writes;
  }

  /** One module's turn, in whichever phase it has it. */
  lemma StepIsTaken(manifest: string, source: Source, selectors: bool, run: Run, m: Module)
    requires IsChallenge(m) != selectors
    ensures var p := if selectors then Select(manifest, run, m, source) else Probe(manifest, run, m, source);
      var r := Report(m, source);
      && (r.None? ==> p == Ended(None))
      && (r.Some? ==> (p.Going? <==> LetsPass(m, source)))
      && (r.Some? && p.Going? ==> p.run == Took(run, r.value).(
            selected := p.run.selected, exhausted := p.run.exhausted, cleared := p.run.cleared))
      && (r.Some? && p.Ended? && p.decision.Some? ==> Writes(manifest, Took(run, r.value), p.decision.value))
  {
    ReportIsTold(m, source);
    NeverBoth(m, source);
    hide Report, Clears, Trips, GivesUp, Accuses, StaysOpen, IsDown, Raises, Took, Cut;
    hide ItemsOf;
    if Report(m, source).Some? && Terminal(Report(m, source).value.disposition).Some? {
      DecideIsExplained(manifest, Terminal(Report(m, source).value.disposition).value, Took(run, Report(m, source).value));
    }
    hide Decide, Writes;
  }

  /** What a phase puts in writing. */
  lemma {:induction false} PhaseIsWritten(manifest: string, modules: seq<Module>, source: Source, selectors: bool,
                                          run: Run, k: nat)
    requires k <= |modules|
    ensures PhaseWrites(manifest, modules, source, selectors, k, run, Phase(manifest, modules, source, selectors, run, k))
    decreases |modules| - k
  {
    hide Adds, Writes, PhaseWrites, Select, Probe, Report, LetsPass, IsChallenge, IsSelector, Took;
    if k == |modules| {
      EndOfPhase(manifest, modules, source, selectors, run);
    } else {
      var m := modules[k];
      NeverBoth(m, source);
      if IsChallenge(m) == selectors {
        PhaseIsWritten(manifest, modules, source, selectors, run, k + 1);
        forall last ensures Adds(modules, source, selectors, k + 1, run, last) ==> Adds(modules, source, selectors, k, run, last) {
          AddsLater(modules, source, selectors, k, run, last);
        }
        LaterWrites(manifest, modules, source, selectors, k, run, run, Phase(manifest, modules, source, selectors, run, k));
      } else {
        StepIsTaken(manifest, source, selectors, run, m);
        var p := if selectors then Select(manifest, run, m, source) else Probe(manifest, run, m, source);
        if p.Going? {
          PhaseIsWritten(manifest, modules, source, selectors, p.run, k + 1);
          forall last ensures Adds(modules, source, selectors, k + 1, p.run, last) ==> Adds(modules, source, selectors, k, run, last) {
            AddsOne(modules, source, selectors, k, run, p.run, last);
          }
          LaterWrites(manifest, modules, source, selectors, k, run, p.run, Phase(manifest, modules, source, selectors, run, k));
        } else {
          if Report(m, source).Some? {
            var next := Took(run, Report(m, source).value);
            AddsOne(modules, source, selectors, k, run, next, next);
            EndWrites(manifest, modules, source, selectors, k, run, next, p);
          } else {
            EndWrites(manifest, modules, source, selectors, k, run, run, p);
          }
        }
      }
    }
  }

  lemma EndOfPhase(manifest: string, modules: seq<Module>, source: Source, selectors: bool, run: Run)
    ensures PhaseWrites(manifest, modules, source, selectors, |modules|, run, Going(run))
  {
  }

  /** What the modules of a review leave, in the order they run: the selectors, then, if none
      of them ends it, the challenges. */
  ghost function AllTold(modules: seq<Module>, source: Source): seq<Evidence> {
    Told(modules, source, true, 0) + if PhaseLetsPass(modules, source, true, 0) then Told(modules, source, false, 0) else []
  }

  lemma {:induction false} TripIsTold(modules: seq<Module>, source: Source, k: nat, i: nat)
    requires k <= i < |modules| && PhaseLetsPass(modules, source, true, k) && Trips(modules[i], source)
    ensures Told(modules, source, true, k) != []
    decreases i - k
  {
    hide LetsPass, Trips, Report, IsChallenge;
    NeverBoth(modules[i], source);
    if k == i {
      TripHasEvidence(modules[i], source);
    } else {
      TripIsTold(modules, source, k + 1, i);
    }
  }

  lemma TripHasEvidence(m: Module, source: Source)
    requires Trips(m, source)
    ensures EvidenceOf(m, source) != [] && LetsPass(m, source)
  {
    hide Report;
    ReportIsTold(m, source);
    ReportsAreEvidenced(m, source);
  }

  /** What a full review puts in writing: the evidence of the modules that ran, in order and cut
      to the bound, the finding of a source review that spoke, and the audit of one that gave up. */
  lemma DecisionIsExplained(manifest: string, modules: seq<Module>, source: Source)
    ensures var d := Evaluate(manifest, modules, source, false, false);
      d.Some? ==>
        && d.value.manifest == manifest && d.value.evidence == Cut(AllTold(modules, source))
        && d.value.finding == (if Finds(modules, source, 0) then FindingOf(source) else None)
        && d.value.audit == (if GivesUpBefore(modules, source, 0) && HasAudit(source) then source.observation.audit else None)
  {
    hide Phase, Told, Finds, GivesUpBefore, Cut, SomeTrips, SomeReleases, SomeGivesUp, Items, HasAudit, LetsPass,
         IsChallenge, EndsAs;
    PhaseIsWritten(manifest, modules, source, true, START, 0);
    SelectorPhase(manifest, modules, source, START, 0);
    var p := Phase(manifest, modules, source, true, START, 0);
    assert START.evidence + Told(modules, source, true, 0) == Told(modules, source, true, 0);
    if p.Ended? {
      SelectorsEnd(modules, source, p.decision);
      assert AllTold(modules, source) == Told(modules, source, true, 0);
    } else {
      PhaseIsWritten(manifest, modules, source, false, p.run, 0);
      ChallengePhase(manifest, modules, source, p.run, 0);
      var q := Phase(manifest, modules, source, false, p.run, 0);
      if q.Going? { ConcludeIsExplained(manifest, modules, source, q.run); }
    }
  }

  lemma SelectorsEnd(modules: seq<Module>, source: Source, d: Option<Decision>)
    ensures PhaseEndsAs(modules, source, true, 0, d) ==> !PhaseLetsPass(modules, source, true, 0)
  {
  }

  lemma ConcludeIsExplained(manifest: string, modules: seq<Module>, source: Source, run: Run)
    requires PhaseLetsPass(modules, source, true, 0)
    requires run.selected ==> SomeTrips(modules, source, 0)
    requires Told(modules, source, true, 0) <= run.evidence
    ensures var d := Conclude(manifest, run); d.Some? ==> Writes(manifest, run, d.value)
  {
    hide Told;
    if run.selected {
      var i :| 0 <= i < |modules| && Trips(modules[i], source);
      TripIsTold(modules, source, 0, i);
    }
    hide PhaseLetsPass, SomeTrips;
  }

  // ----- the evidence of a screening ---------------------------------------------------------------

  /** The note of a lead that gave up, in front of the policy's evidence. */
  ghost predicate IsDeferralOf(x: G.Facts, first: Decision, d: Decision)
    requires G.IsDeferred(x)
  {
    var o := x.lead.value.observation;
    && d.evidence == [Evidence("agentic-preexecution-review", ReasonCode(o.reason), None)] + first.evidence
    && d.finding == o.finding && d.audit == o.audit
  }

  /** What becomes of the policy's decision before the image is published: a pass after a lead
      that gave up carries the lead's note, finding and audit, and a provenance warning takes
      the place of what is more than fifteen items. */
  lemma JudgementIsExplained(x: G.Facts)
    requires G.Judgement(x, false, false).Some?
    ensures Evaluate(x.manifest, x.modules, G.SourceOf(x, false), false, false).Some?
    ensures var first := Evaluate(x.manifest, x.modules, G.SourceOf(x, false), false, false).value;
      var d := G.Judgement(x, false, false).value;
      var warned := x.advisory && (IsPassing(first.outcome) || first.outcome == V.Quarantine);
      exists routed: Decision ::
        && (if first.outcome == V.Pass && G.IsDeferred(x) then IsDeferralOf(x, first, routed) else routed == first)
        && d.manifest == first.manifest && d.finding == routed.finding && d.audit == routed.audit
        && d.evidence ==
           if warned then routed.evidence[..if |routed.evidence| < 15 then |routed.evidence| else 15]
                          + [Evidence("stable-core", "image-binding-heuristic", None)]
           else routed.evidence
  {
    hide Evaluate, ReasonCode, ReviewCode;
    var first := Evaluate(x.manifest, x.modules, G.SourceOf(x, false), false, false).value;
    var routed := G.Deferred(x, false, first).value;
    assert |routed.evidence| <= 15 ==> routed.evidence[..|routed.evidence|] == routed.evidence;
    assert first.outcome == V.Pass && G.IsDeferred(x) ==> routed.outcome == V.PassInconclusive && IsDeferralOf(x, first, routed);
  }

  /** What a lead that does not let the image run leaves on record. */
  lemma StopIsExplained(x: G.Facts, deferred: bool, o: R.Observation)
    requires G.StopsAt(x, false, o) && !x.journalFails && (o.ok ==> o.risk.Some?)
    ensures var d := G.ScreeningOf(x, false, deferred).decision;
      && d.manifest == x.manifest && d.finding == o.finding && d.audit == (if o.ok then None else o.audit)
      && |d.evidence| == 1 && d.evidence[0].moduleId == "agentic-preexecution-review"
      && d.evidence[0].digest == (if o.ok then o.digest else None)
      && (if o.ok then IsGravest(o.categories, d.evidence[0].code) else d.evidence[0].code == ReasonCode(o.reason))
  {
    GravestIsTold(o.categories);
    G.MayExecuteIff(x, false);
    G.StopIsTold(x, o);
    assert G.Refusal(x, false) == Some(G.Recorded(x, G.Preexecution(x, o)));
    hide ReasonCode, ReviewCode, IsGravest;
    assert o.risk.Some? ==> o.risk.value.Low? || o.risk.value.Medium? || o.risk.value.High?;
  }

  /** The lead that was reviewed before the build is the review that the policy sees: it is not
      held again. Without a lead the policy's own review counts. */
  lemma LeadIsReviewedOnce(x: G.Facts, y: G.Facts, deferred: bool)
    requires x.lead.Some? && y == x.(review := y.review)
    ensures G.ScreeningOf(x, false, deferred) == G.ScreeningOf(y, false, deferred)
    ensures x.lead.value.Observed? ==> G.SourceOf(x, false) == Reviewed(x.lead.value.observation)
  {
    hide Evaluate, G.Preexecution, ReasonCode, ReviewCode, MakeDecision;
    assert G.SourceOf(x, false) == G.SourceOf(y, false);
    assert forall o :: G.Preexecution(x, o) == G.Preexecution(y, o) by { SamePreexecution(x, y); }
    assert G.Obstacle(x, false) == G.Obstacle(y, false);
    assert G.Judgement(x, false, deferred) == G.Judgement(y, false, deferred);
  }

  lemma SamePreexecution(x: G.Facts, y: G.Facts)
    requires x.manifest == y.manifest
    ensures forall o :: G.Preexecution(x, o) == G.Preexecution(y, o)
  {
  }
}

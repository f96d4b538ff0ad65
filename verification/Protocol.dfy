/** The request of `ditto_screening_protocol/models.py` and its validators. */
module Protocol {
  import opened Options
  import opened Policy
  import V = Verdict
  import R = ReviewFlow

  datatype Request = Request(
    passed: bool, policyVersion: nat, attemptId: Option<string>, outcome: Option<V.Outcome>,
    manifestDigest: Option<string>, findingDigest: Option<string>, auditDigest: Option<string>,
    settingsRevision: Option<nat>, settingsInstanceId: Option<string>, settingsScope: Option<string>,
    settingsChecksum: Option<string>, reasonCode: Option<string>,
    imageSha256: Option<string>, imageSizeBytes: Option<nat>, imageId: Option<string>,
    imageRef: Option<string>, imageUploadId: Option<string>,
    evidence: Option<seq<Evidence>>, finding: Option<R.Finding>, audit: Option<R.Audit>,
    buildOnly: bool, deferred: bool)

  /** The canonical digests, and whether the payload models accept a record. */
  datatype Digests = Digests(
    finding: R.Finding -> string, audit: R.Audit -> string,
    isFinding: R.Finding -> bool, isAudit: R.Audit -> bool)

  predicate IsReview(outcome: V.Outcome) {
    outcome == V.Quarantine || outcome == V.Inconclusive || outcome == V.PassInconclusive
  }

  predicate HasAnyImage(r: Request) {
    r.imageSha256.Some? || r.imageSizeBytes.Some? || r.imageId.Some? || r.imageRef.Some? || r.imageUploadId.Some?
  }

  predicate HasWholeImage(r: Request) {
    r.imageSha256.Some? && r.imageSizeBytes.Some? && r.imageId.Some? && r.imageRef.Some? && r.imageUploadId.Some?
  }

  /** `validate_typed_outcome`. */
  predicate HasTypedOutcome(r: Request) {
    if r.outcome.None? then r.policyVersion < V.SCREENING_POLICY_VERSION && !HasAnyImage(r)
    else
      var outcome := r.outcome.value;
      var passing := outcome == V.Pass || outcome == V.PassInconclusive;
      && r.passed == passing
      && (IsReview(outcome) ==> r.attemptId.Some?)
      && (outcome == V.Quarantine || outcome == V.PassInconclusive ==> r.manifestDigest.Some? && r.reasonCode.Some?)
      && (if passing then HasWholeImage(r) else !HasAnyImage(r))
  }

  predicate HasWholeSettings(r: Request) {
    && r.settingsRevision.Some? == r.settingsInstanceId.Some? == r.settingsScope.Some?
    && r.settingsScope.Some? == r.settingsChecksum.Some?
  }

  /** `validate_review_payloads`. */
  predicate HasBoundPayloads(r: Request, d: Digests) {
    && HasWholeSettings(r)
    && (r.evidence.Some? || r.finding.Some? ==> r.outcome.Some? && IsReview(r.outcome.value))
    && (r.finding.Some? ==> r.findingDigest == Some(d.finding(r.finding.value)))
    && (if r.outcome == Some(V.PassInconclusive) then
          r.audit.Some? && r.auditDigest == Some(d.audit(r.audit.value))
        else r.audit.None? && r.auditDigest.None?)
  }

  /** `validate_build_only`. */
  predicate HasLawfulLane(r: Request) {
    && (r.deferred ==> r.buildOnly)
    && !(r.buildOnly && !r.deferred && r.outcome == Some(V.Quarantine))
  }

  predicate IsAccepted(r: Request, d: Digests) {
    HasTypedOutcome(r) && HasBoundPayloads(r, d) && HasLawfulLane(r)
  }

  /** The verdict whose message the platform computes again from a request. */
  function VerdictOf(hotkey: string, agentId: string, r: Request): V.Verdict {
    V.Verdict(hotkey, agentId, r.passed, r.policyVersion, r.attemptId, r.outcome, r.manifestDigest, r.findingDigest,
              r.auditDigest, r.deferred, r.settingsRevision, r.settingsInstanceId, r.settingsScope, r.settingsChecksum,
              r.reasonCode, r.imageSha256, r.imageSizeBytes, r.imageId, r.imageRef, r.imageUploadId)
  }

  datatype QueueItem = QueueItem(
    agentId: string, attemptId: Option<string>, precheck: Option<string>, duplicateOf: Option<string>,
    buildOnly: bool, deferred: bool)

  /** `validate_precheck`. */
  predicate IsQueued(item: QueueItem) {
    item.precheck.Some? == item.duplicateOf.Some? && (item.deferred ==> item.buildOnly)
  }
}

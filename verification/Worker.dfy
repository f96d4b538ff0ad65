/** How `worker.py` screens one claimed agent and assembles the signed result. */
module Worker {
  import opened Options
  import opened Policy
  import opened Protocol
  import G = Gate
  import V = Verdict
  import R = ReviewFlow

  const EXACT_DUPLICATE := "exact-cross-miner-duplicate"

  datatype SettingsStatus = SettingsStatus(revision: nat, scope: string, checksum: string)

  /** What the worker brings: its identity, settings and digests, whether lease is left at
      claim, and whether the platform hands out the artifact. */
  datatype Station = Station(
    hotkey: string, instanceId: string, policyVersion: nat, settings: SettingsStatus, digests: Digests,
    hasLease: bool, hasArtifact: bool)

  datatype Post = Post(message: string, request: Request)

  predicate IsAudited(outcome: V.Outcome) {
    outcome == V.Quarantine || outcome == V.PassInconclusive
  }

  /** The digest of the last evidence item that has one. */
  function LastDigest(evidence: seq<Evidence>): Option<string> {
    if evidence == [] then None
    else if evidence[|evidence| - 1].digest.Some? then evidence[|evidence| - 1].digest
    else LastDigest(evidence[..|evidence| - 1])
  }

  /** The decision on a claimed item, and the image published for it, unless the platform
      fails the worker before there is one. */
  function Outcome(w: Station, item: QueueItem, x: G.Facts): Option<G.Screened> {
    if item.precheck.Some? then
      if item.precheck.value != EXACT_DUPLICATE then None
      else Some(G.Screened(G.Core(x, V.DeterministicReject, EXACT_DUPLICATE), None))
    else if !w.hasLease then Some(G.Screened(G.OutOfLease(x), None))
    else if !w.hasArtifact then None
    else Some(G.ScreeningOf(x, item.buildOnly, item.deferred))
  }

  /** The payload models accept what an audited decision carries. */
  predicate HasValidPayloads(w: Station, d: Decision) {
    && (IsAudited(d.outcome) && d.finding.Some? ==> w.digests.isFinding(d.finding.value))
    && (d.outcome == V.PassInconclusive && d.audit.Some? ==> w.digests.isAudit(d.audit.value))
  }

  function FindingDigest(w: Station, d: Decision): Option<string> {
    if !IsAudited(d.outcome) then None
    else if d.finding.Some? then Some(w.digests.finding(d.finding.value))
    else LastDigest(d.evidence)
  }

  /** The request for a decision, every field of it. */
  function RequestOf(w: Station, item: QueueItem, s: G.Screened): Request {
    var d := s.decision;
    var audited := IsAudited(d.outcome);
    var deferredPass := d.outcome == V.PassInconclusive;
    var bound := w.settings.revision >= 1;
    var image := s.published;
    Request(
      IsPassing(d.outcome), w.policyVersion, item.attemptId, Some(d.outcome),
      if audited then Some(d.manifest) else None,
      FindingDigest(w, d),
      if deferredPass && d.audit.Some? then Some(w.digests.audit(d.audit.value)) else None,
      if bound then Some(w.settings.revision) else None,
      if bound then Some(w.instanceId) else None,
      if bound then Some(w.settings.scope) else None,
      if bound then Some(w.settings.checksum) else None,
      if deferredPass then Some("source-review-inconclusive")
      else if d.evidence != [] then Some(d.evidence[|d.evidence| - 1].code) else None,
      if image.Some? then Some(image.value.0.sha256) else None,
      if image.Some? then Some(image.value.0.size) else None,
      if image.Some? then Some(image.value.0.id) else None,
      if image.Some? then Some(image.value.0.ref) else None,
      if image.Some? then Some(image.value.1) else None,
      if audited && d.evidence != [] then Some(d.evidence) else None,
      if audited then d.finding else None,
      if deferredPass then d.audit else None,
      item.buildOnly, item.deferred)
  }

  /** Screens one item. The two guards before the assembly are kept as the source has them. */
  method ScreenOne(w: Station, item: QueueItem, x: G.Facts) returns (post: Option<Post>)
    requires IsQueued(item)
    ensures post.Some? <==>
      item.attemptId.Some? && Outcome(w, item, x).Some? && HasValidPayloads(w, Outcome(w, item, x).value.decision)
    ensures post.Some? ==>
      && post.value.request == RequestOf(w, item, Outcome(w, item, x).value)
      && V.Message(VerdictOf(w.hotkey, item.agentId, post.value.request)) == V.Ok(post.value.message)
  {
    hide G.ScreeningOf, V.Message, LastDigest;
    if item.attemptId.None? { return None; }
    var decision: Decision;
    var published: Option<(G.Image, string)> := None;
    if item.precheck.Some? {
      if item.precheck.value != EXACT_DUPLICATE { return None; }
      decision := G.Core(x, V.DeterministicReject, EXACT_DUPLICATE);
    } else if !w.hasLease {
      decision := G.OutOfLease(x);
    } else {
      if !w.hasArtifact { return None; }
      decision, published := G.Screen(x, item.buildOnly, item.deferred);
    }
    var s := G.Screened(decision, published);
    OutcomeIsFit(w, item, x);
    var passed := IsPassing(decision.outcome);
    if passed && published.None? { return None; }
    if item.buildOnly && !item.deferred && decision.outcome == V.Quarantine { return None; }
    if !HasValidPayloads(w, decision) { return None; }
    var request := RequestOf(w, item, s);
    var signed := V.SigningMessage(VerdictOf(w.hotkey, item.agentId, request));
    TypedIsSigned(VerdictOf(w.hotkey, item.agentId, request));
    return Some(Post(signed.message, request));
  }

  lemma TypedIsSigned(v: V.Verdict)
    requires v.outcome.Some? && v.attemptId.Some?
    ensures V.Message(v).Ok?
  {
  }

  /** What the worker has to work with, however it got there. */
  predicate IsFitFor(item: QueueItem, x: G.Facts, s: G.Screened) {
    && G.IsFit(x, s.decision)
    && (IsPassing(s.decision.outcome) <==> s.published.Some?)
    && (item.buildOnly ==> !IsReview(s.decision.outcome))
  }

  lemma OutcomeIsFit(w: Station, item: QueueItem, x: G.Facts)
    ensures var s := Outcome(w, item, x); s.Some? ==> IsFitFor(item, x, s.value)
  {
    hide G.ScreeningOf;
    G.ScreeningIsFit(x, item.buildOnly, item.deferred);
  }

  /** Every result the worker posts, for any item and anything the screening meets, passes all
      three validators, and only the stable core rejects. */
  lemma PostIsAccepted(w: Station, item: QueueItem, x: G.Facts)
    requires IsQueued(item) && item.attemptId.Some? && Outcome(w, item, x).Some?
    ensures var s := Outcome(w, item, x).value;
      var r := RequestOf(w, item, s);
      && IsAccepted(r, w.digests)
      && (r.outcome == Some(V.DeterministicReject) ==> G.IsCoreReject(s.decision, x.core))
  {
    hide G.ScreeningOf, LastDigest, Outcome, G.IsCoreReject;
    OutcomeIsFit(w, item, x);
  }

  /** What a request's unsigned fields are bound by. */
  lemma RequestIsTyped(w: Station, item: QueueItem, s: G.Screened)
    requires item.attemptId.Some?
    ensures var r := RequestOf(w, item, s);
      && r.outcome.Some? && r.attemptId.Some? && r.passed == IsPassing(r.outcome.value)
      && (r.settingsRevision.None? ==> r.settingsInstanceId.None? && r.settingsScope.None? && r.settingsChecksum.None?)
      && (r.finding.Some? ==> r.findingDigest == Some(w.digests.finding(r.finding.value)))
  {
    hide LastDigest;
  }

  /** Posts with equal signatures agree in everything the platform acts on but the display
      payloads, which their digests bind. */
  lemma PostsAreBound(w: Station, item: QueueItem, x: G.Facts, w': Station, item': QueueItem, x': G.Facts)
    requires IsQueued(item) && item.attemptId.Some? && Outcome(w, item, x).Some?
    requires IsQueued(item') && item'.attemptId.Some? && Outcome(w', item', x').Some?
    ensures var r, r' := RequestOf(w, item, Outcome(w, item, x).value), RequestOf(w', item', Outcome(w', item', x').value);
      V.Message(VerdictOf(w.hotkey, item.agentId, r)) == V.Message(VerdictOf(w'.hotkey, item'.agentId, r')) ==>
      && VerdictOf(w.hotkey, item.agentId, r) == VerdictOf(w'.hotkey, item'.agentId, r')
      && (r.finding.Some? && r'.finding.Some? ==> w.digests.finding(r.finding.value) == w'.digests.finding(r'.finding.value))
  {
    hide Outcome, V.Message, LastDigest, RequestOf;
    RequestIsTyped(w, item, Outcome(w, item, x).value);
    RequestIsTyped(w', item', Outcome(w', item', x').value);
    var r, r' := RequestOf(w, item, Outcome(w, item, x).value), RequestOf(w', item', Outcome(w', item', x').value);
    TypedIsSigned(VerdictOf(w.hotkey, item.agentId, r));
    TypedIsSigned(VerdictOf(w'.hotkey, item'.agentId, r'));
    V.TypedIsUnambiguous(VerdictOf(w.hotkey, item.agentId, r), VerdictOf(w'.hotkey, item'.agentId, r'));
  }

  /** What a screened item's request says, from what the screening met: it passes exactly when
      the submission is admitted, and then it names the image that was exported and its upload. */
  lemma RequestIsOfScreening(w: Station, item: QueueItem, x: G.Facts)
    requires IsQueued(item) && item.attemptId.Some? && item.precheck.None? && w.hasLease && w.hasArtifact
    ensures Outcome(w, item, x).Some?
    ensures var r := RequestOf(w, item, Outcome(w, item, x).value);
      && r.attemptId == item.attemptId && r.policyVersion == w.policyVersion
      && r.buildOnly == item.buildOnly && r.deferred == item.deferred
      && (r.passed <==> G.Admissible(x, item.buildOnly, item.deferred))
      && (r.passed ==>
            && r.imageSha256 == Some(x.exported.image.sha256) && r.imageSizeBytes == Some(x.exported.image.size)
            && r.imageId == Some(x.exported.image.id) && r.imageRef == Some(x.exported.image.ref)
            && r.imageUploadId == Some(x.upload.id))
      && (!r.passed ==>
            r.imageSha256.None? && r.imageSizeBytes.None? && r.imageId.None? && r.imageRef.None? && r.imageUploadId.None?)
      && (r.outcome == Some(V.DeterministicReject) <==> G.Rejects(x, item.buildOnly, item.deferred))
      && (r.outcome == Some(V.RetryableInfra) <==> G.Retries(x, item.buildOnly, item.deferred))
      && (r.outcome == Some(V.Quarantine) <==> G.Quarantines(x, item.buildOnly, item.deferred))
      && (r.outcome == Some(V.Inconclusive) <==> G.LeavesOpen(x, item.buildOnly, item.deferred))
  {
    G.AdmittedIff(x, item.buildOnly, item.deferred);
    G.ScreeningIsFit(x, item.buildOnly, item.deferred);
    G.ScreeningOutcomeIff(x, item.buildOnly, item.deferred);
    hide G.ScreeningOf, LastDigest, G.Admissible, G.Rejects, G.Retries, G.Quarantines, G.LeavesOpen, G.IsFit,
         FindingDigest;
  }

  /** What an operator and the platform are told beside the outcome: the settings the worker
      ran under, and for a review its evidence, its finding and their digests. */
  lemma RequestIsExplained(w: Station, item: QueueItem, s: G.Screened)
    ensures var r, d := RequestOf(w, item, s), s.decision;
      && (w.settings.revision >= 1 ==>
            && r.settingsRevision == Some(w.settings.revision) && r.settingsInstanceId == Some(w.instanceId)
            && r.settingsScope == Some(w.settings.scope) && r.settingsChecksum == Some(w.settings.checksum))
      && (d.outcome == V.PassInconclusive ==> r.reasonCode == Some("source-review-inconclusive") && r.audit == d.audit)
      && (d.outcome != V.PassInconclusive && d.evidence != [] ==> r.reasonCode == Some(d.evidence[|d.evidence| - 1].code))
      && (d.outcome == V.Quarantine || d.outcome == V.PassInconclusive ==>
            && r.manifestDigest == Some(d.manifest) && r.finding == d.finding
            && (d.evidence != [] ==> r.evidence == Some(d.evidence))
            && (d.finding.Some? ==> r.findingDigest == Some(w.digests.finding(d.finding.value)))
            && (d.finding.None? ==> IsLastDigest(d.evidence, r.findingDigest)))
  {
    LastDigestIs(s.decision.evidence);
  }

  /** The digest of the last evidence item that has one. */
  ghost predicate IsLastDigest(evidence: seq<Evidence>, digest: Option<string>) {
    if digest.None? then forall k :: 0 <= k < |evidence| ==> evidence[k].digest.None?
    else exists k :: 0 <= k < |evidence| && evidence[k].digest == digest
           && forall j :: k < j < |evidence| ==> evidence[j].digest.None?
  }

  lemma {:induction false} LastDigestIs(evidence: seq<Evidence>)
    ensures IsLastDigest(evidence, LastDigest(evidence))
    decreases |evidence|
  {
    if evidence != [] {
      var n := |evidence| - 1;
      if evidence[n].digest.Some? {
        assert evidence[n].digest == LastDigest(evidence);
      } else {
        LastDigestIs(evidence[..n]);
        if LastDigest(evidence).Some? {
          var k :| 0 <= k < n && evidence[..n][k].digest == LastDigest(evidence)
            && forall j :: k < j < n ==> evidence[..n][j].digest.None?;
          assert evidence[k].digest == LastDigest(evidence);
          assert forall j :: k < j < |evidence| ==> j == n || evidence[j] == evidence[..n][j];
        } else {
          assert forall k :: 0 <= k < |evidence| ==> k == n || evidence[k] == evidence[..n][k];
        }
      }
    }
  }

  /** The signature of a request binds each field under its own name. */
  lemma RequestIsSigned(w: Station, item: QueueItem, x: G.Facts)
    requires item.attemptId.Some? && Outcome(w, item, x).Some?
    ensures var r := RequestOf(w, item, Outcome(w, item, x).value);
      var v := VerdictOf(w.hotkey, item.agentId, r);
      && V.Message(v) == V.Ok("ditto-screen-result:v5:" + V.Dumps(V.TypedFields(v)))
      && V.Signs(v, "agent_id", V.Json.Str(item.agentId)) && V.Signs(v, "screener_hotkey", V.Json.Str(w.hotkey))
      && V.Signs(v, "attempt_id", V.Json.Str(item.attemptId.value))
      && r.outcome.Some? && V.Signs(v, "outcome", V.Json.Str(V.OutcomeName(r.outcome.value)))
      && V.Signs(v, "image_sha256", V.OptStr(r.imageSha256)) && V.Signs(v, "image_id", V.OptStr(r.imageId))
      && V.Signs(v, "image_ref", V.OptStr(r.imageRef)) && V.Signs(v, "image_upload_id", V.OptStr(r.imageUploadId))
      && V.Signs(v, "image_size_bytes", V.OptNumber(r.imageSizeBytes))
      && V.Signs(v, "manifest_digest", V.OptStr(r.manifestDigest)) && V.Signs(v, "finding_digest", V.OptStr(r.findingDigest))
      && V.Signs(v, "reason_code", V.OptStr(r.reasonCode))
  {
    var r := RequestOf(w, item, Outcome(w, item, x).value);
    var v := VerdictOf(w.hotkey, item.agentId, r);
    hide Outcome, LastDigest, FindingDigest, V.Signs, V.OptStr, V.OptNumber, V.OutcomeName, V.Dumps, V.TypedFields;
    V.MembersAreNamed(v);
    V.ImageIsNamed(v);
  }
}

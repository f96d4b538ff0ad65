/** The verdict payload of `ditto_screening_protocol/signing.py`. */
module Verdict {
  import opened Options
  import opened Text
  import opened Json

  const SCREENING_POLICY_VERSION := 9

  datatype Outcome = Pass | PassInconclusive | DeterministicReject | RetryableInfra | Quarantine | Inconclusive

  datatype Verdict = Verdict(
    hotkey: string, agentId: string, passed: bool, policyVersion: nat,
    attemptId: Option<string>, outcome: Option<Outcome>,
    manifestDigest: Option<string>, findingDigest: Option<string>, reviewAuditDigest: Option<string>,
    deferredSourceReview: bool,
    settingsRevision: Option<nat>, settingsInstanceId: Option<string>, settingsScope: Option<string>,
    settingsChecksum: Option<string>, reasonCode: Option<string>,
    imageSha256: Option<string>, imageSizeBytes: Option<nat>, imageId: Option<string>,
    imageRef: Option<string>, imageUploadId: Option<string>)

  datatype Error = AttemptRequired | OutcomeRequired | LegacyImage

  datatype Result = Ok(message: string) | Err(error: Error)

  function OutcomeName(outcome: Outcome): string {
    match outcome
    case Pass => "pass"
    case PassInconclusive => "pass_inconclusive"
    case DeterministicReject => "deterministic_reject"
    case RetryableInfra => "retryable_infra"
    case Quarantine => "quarantine"
    case Inconclusive => "inconclusive"
  }

  function OptStr(value: Option<string>): Value {
    if value.Some? then Str(value.value) else Null
  }

  function OptNumber(value: Option<nat>): Value {
    if value.Some? then Number(value.value) else Null
  }

  // ----- the dictionary and its print -----------------------------------------------------------

  /** The keys a dictionary may have, in the order `sort_keys` prints their names. */
  datatype Key =
    | AgentId | AttemptId | Deferred | FindingDigest | ImageId | ImageRef | ImageSha | ImageSize | ImageUpload
    | ManifestDigest | OutcomeKey | PolicyVersion | ReasonCode | AuditDigest | SettingsChecksum | SettingsInstance
    | SettingsRevision | SettingsScope | Hotkey

  const KEYS: seq<Key> := [
    AgentId, AttemptId, Deferred, FindingDigest, ImageId, ImageRef, ImageSha, ImageSize, ImageUpload,
    ManifestDigest, OutcomeKey, PolicyVersion, ReasonCode, AuditDigest, SettingsChecksum, SettingsInstance,
    SettingsRevision, SettingsScope, Hotkey]

  function Name(key: Key): string {
    match key
    case AgentId => "agent_id"
    case AttemptId => "attempt_id"
    case Deferred => "deferred_source_review"
    case FindingDigest => "finding_digest"
    case ImageId => "image_id"
    case ImageRef => "image_ref"
    case ImageSha => "image_sha256"
    case ImageSize => "image_size_bytes"
    case ImageUpload => "image_upload_id"
    case ManifestDigest => "manifest_digest"
    case OutcomeKey => "outcome"
    case PolicyVersion => "policy_version"
    case ReasonCode => "reason_code"
    case AuditDigest => "review_audit_digest"
    case SettingsChecksum => "review_settings_checksum"
    case SettingsInstance => "review_settings_instance_id"
    case SettingsRevision => "review_settings_revision"
    case SettingsScope => "review_settings_scope"
    case Hotkey => "screener_hotkey"
  }

  /** `a` sorts before `b`: they agree up to `n`, where `a` has the smaller character. */
  predicate SortsAt(a: string, b: string, n: nat) {
    n < |a| && n < |b| && a[n] < b[n] && forall i :: 0 <= i < n ==> a[i] == b[i]
  }

  lemma ImageNamesAreSorted(k: nat) returns (n: nat)
    requires 0 <= k < 8
    ensures SortsAt(Name(KEYS[k]), Name(KEYS[k + 1]), n)
  {
    n := match k case 0 => 1 case 1 => 0 case 2 => 0 case 3 => 0 case 4 => 6 case 5 => 6 case 6 => 7 case _ => 6;
  }

  lemma ResultNamesAreSorted(k: nat) returns (n: nat)
    requires 8 <= k < 13
    ensures SortsAt(Name(KEYS[k]), Name(KEYS[k + 1]), n)
  {
    n := match k case 8 => 0 case 9 => 0 case 10 => 0 case 11 => 0 case _ => 2;
  }

  lemma ReviewNamesAreSorted(k: nat) returns (n: nat)
    requires 13 <= k < 18
    ensures SortsAt(Name(KEYS[k]), Name(KEYS[k + 1]), n)
  {
    n := match k case 13 => 7 case 14 => 16 case 15 => 16 case 16 => 16 case _ => 0;
  }

  lemma NeighboursAreSorted(k: nat) returns (n: nat)
    requires k + 1 < |KEYS|
    ensures SortsAt(Name(KEYS[k]), Name(KEYS[k + 1]), n)
  {
    hide Name, SortsAt;
    if k < 8 { n := ImageNamesAreSorted(k); }
    else if k < 13 { n := ResultNamesAreSorted(k); }
    else { n := ReviewNamesAreSorted(k); }
  }

  /** The print order is the sorted order, so names are distinct too. */
  lemma {:induction false} KeysAreSorted(i: nat, j: nat) returns (n: nat)
    requires i < j < |KEYS|
    ensures SortsAt(Name(KEYS[i]), Name(KEYS[j]), n)
    decreases j - i
  {
    hide Name;
    n := NeighboursAreSorted(i);
    if i + 1 < j {
      var m := KeysAreSorted(i + 1, j);
      if m < n { n := m; }
    }
  }

  /** The members of a dictionary, from the `k`th key on. */
  function Members(fields: map<Key, Value>, k: nat): seq<Member>
    requires k <= |KEYS|
    decreases |KEYS| - k
  {
    if k == |KEYS| then []
    else (if KEYS[k] in fields then [(Name(KEYS[k]), fields[KEYS[k]])] else []) + Members(fields, k + 1)
  }

  function Dumps(fields: map<Key, Value>): string {
    Object(Members(fields, 0))
  }

  lemma {:induction false} FirstMember(fields: map<Key, Value>, k: nat) returns (j: nat)
    requires k <= |KEYS| && Members(fields, k) != []
    ensures k <= j < |KEYS| && Members(fields, k)[0].0 == Name(KEYS[j])
    decreases |KEYS| - k
  {
    hide Name;
    if KEYS[k] in fields {
      j := k;
    } else {
      assert Members(fields, k) == Members(fields, k + 1);
      j := FirstMember(fields, k + 1);
    }
  }

  ghost predicate SameAt(f: map<Key, Value>, g: map<Key, Value>, key: Key) {
    (key in f <==> key in g) && (key in f && key in g ==> f[key] == g[key])
  }

  /** A dictionary without the `k`th key does not print a member of that name next. */
  lemma AbsentKey(f: map<Key, Value>, g: map<Key, Value>, k: nat)
    requires k < |KEYS| && KEYS[k] in f && KEYS[k] !in g
    ensures Members(f, k) != Members(g, k)
  {
    hide Name;
    assert Members(f, k)[0].0 == Name(KEYS[k]);
    assert Members(g, k) == Members(g, k + 1);
    if Members(g, k) != [] {
      var j := FirstMember(g, k + 1);
      var n := KeysAreSorted(k, j);
    }
  }

  lemma {:induction false} MembersDetermine(f: map<Key, Value>, g: map<Key, Value>, k: nat)
    requires k <= |KEYS| && Members(f, k) == Members(g, k)
    ensures forall i :: k <= i < |KEYS| ==> SameAt(f, g, KEYS[i])
    decreases |KEYS| - k
  {
    hide Name, Members;
    if k < |KEYS| {
      if KEYS[k] in f && KEYS[k] !in g { AbsentKey(f, g, k); }
      if KEYS[k] in g && KEYS[k] !in f { AbsentKey(g, f, k); }
      MembersStep(f, k);
      MembersStep(g, k);
      MembersDetermine(f, g, k + 1);
    }
  }

  lemma MembersStep(fields: map<Key, Value>, k: nat)
    requires k < |KEYS|
    ensures if KEYS[k] in fields
            then Members(fields, k) != [] && Members(fields, k)[0].1 == fields[KEYS[k]]
              && Members(fields, k)[1..] == Members(fields, k + 1)
            else Members(fields, k) == Members(fields, k + 1)
  {
    hide Name;
  }

  /** Dictionaries that print alike are alike, absent keys included. */
  lemma DumpsDetermine(f: map<Key, Value>, g: map<Key, Value>)
    requires Dumps(f) == Dumps(g)
    ensures f == g
  {
    hide Name, Members, Object;
    ObjectReadsBack(Members(f, 0), Members(g, 0));
    MembersDetermine(f, g, 0);
    forall key: Key ensures SameAt(f, g, key) {
      var k := Place(key);
    }
    MapsAgree(f, g);
  }

  lemma MapsAgree(f: map<Key, Value>, g: map<Key, Value>)
    requires forall key: Key :: SameAt(f, g, key)
    ensures f == g
  {
    assert forall key: Key :: SameAt(f, g, key) ==> (key in f <==> key in g);
  }

  lemma Place(key: Key) returns (k: nat)
    ensures k < |KEYS| && KEYS[k] == key
  {
    k := match key
      case AgentId => 0 case AttemptId => 1 case Deferred => 2 case FindingDigest => 3 case ImageId => 4
      case ImageRef => 5 case ImageSha => 6 case ImageSize => 7 case ImageUpload => 8 case ManifestDigest => 9
      case OutcomeKey => 10 case PolicyVersion => 11 case ReasonCode => 12 case AuditDigest => 13
      case SettingsChecksum => 14 case SettingsInstance => 15 case SettingsRevision => 16
      case SettingsScope => 17 case Hotkey => 18;
  }

  // ----- the message -----------------------------------------------------------------------------

  const TYPED_PREFIX := "ditto-screen-result:v5:"
  const LEASED_TITLE := "ditto-screen-verdict"

  predicate HasImage(v: Verdict) {
    v.imageSha256.Some? || v.imageSizeBytes.Some? || v.imageId.Some? || v.imageRef.Some? || v.imageUploadId.Some?
  }

  function BoolName(b: bool): string {
    if b then "True" else "False"
  }

  function LegacyParts(v: Verdict): (parts: seq<string>)
    ensures parts != []
  {
    if v.attemptId.Some? then
      [LEASED_TITLE, "v2", v.hotkey, v.agentId, v.attemptId.value, BoolName(v.passed), Decimal(v.policyVersion)]
    else [v.hotkey, v.agentId, BoolName(v.passed), Decimal(v.policyVersion)]
  }

  /** What a typed verdict signs under a key, if it signs anything: settings only with a
      revision, the audit digest only when there is one, the deferred claim only when made. */
  function Claim(v: Verdict, key: Key): Option<Value>
    requires v.attemptId.Some? && v.outcome.Some?
  {
    match key
    case AgentId => Some(Str(v.agentId))
    case AttemptId => Some(Str(v.attemptId.value))
    case Deferred => if v.deferredSourceReview then Some(Bool(true)) else None
    case FindingDigest => Some(OptStr(v.findingDigest))
    case ImageId => Some(OptStr(v.imageId))
    case ImageRef => Some(OptStr(v.imageRef))
    case ImageSha => Some(OptStr(v.imageSha256))
    case ImageSize => Some(OptNumber(v.imageSizeBytes))
    case ImageUpload => Some(OptStr(v.imageUploadId))
    case ManifestDigest => Some(OptStr(v.manifestDigest))
    case OutcomeKey => Some(Str(OutcomeName(v.outcome.value)))
    case PolicyVersion => Some(Number(v.policyVersion))
    case ReasonCode => Some(OptStr(v.reasonCode))
    case AuditDigest => if v.reviewAuditDigest.Some? then Some(OptStr(v.reviewAuditDigest)) else None
    case SettingsChecksum => if v.settingsRevision.Some? then Some(OptStr(v.settingsChecksum)) else None
    case SettingsInstance => if v.settingsRevision.Some? then Some(OptStr(v.settingsInstanceId)) else None
    case SettingsRevision => if v.settingsRevision.Some? then Some(OptNumber(v.settingsRevision)) else None
    case SettingsScope => if v.settingsRevision.Some? then Some(OptStr(v.settingsScope)) else None
    case Hotkey => Some(Str(v.hotkey))
  }

  function TypedFields(v: Verdict): map<Key, Value>
    requires v.attemptId.Some? && v.outcome.Some?
  {
    map key: Key | Claim(v, key).Some? :: Claim(v, key).value
  }

  /** A dictionary agrees with the claims on a key. */
  ghost predicate Agrees(v: Verdict, fields: map<Key, Value>, key: Key)
    requires v.attemptId.Some? && v.outcome.Some?
  {
    (key in fields <==> Claim(v, key).Some?) && (key in fields ==> fields[key] == Claim(v, key).value)
  }

  lemma {:induction false} HasMember(fields: map<Key, Value>, k: nat, i: nat)
    requires k <= i < |KEYS| && KEYS[i] in fields
    ensures (Name(KEYS[i]), fields[KEYS[i]]) in Members(fields, k)
    decreases i - k
  {
    hide Name;
    if k == i {
      assert Members(fields, k)[0] == (Name(KEYS[k]), fields[KEYS[k]]);
    } else {
      HasMember(fields, k + 1, i);
    }
  }

  ghost predicate Signs(v: Verdict, name: string, value: Value)
    requires v.attemptId.Some? && v.outcome.Some?
  {
    (name, value) in Members(TypedFields(v), 0)
  }

  lemma ClaimIsSigned(v: Verdict, key: Key)
    requires v.attemptId.Some? && v.outcome.Some?
    ensures Claim(v, key).Some? ==> Signs(v, Name(key), Claim(v, key).value)
  {
    hide Name, Claim;
    var k := Place(key);
    if Claim(v, key).Some? { HasMember(TypedFields(v), 0, k); }
  }

  /** What stands under which name in the signed object. */
  lemma MembersAreNamed(v: Verdict)
    requires v.attemptId.Some? && v.outcome.Some?
    ensures Signs(v, "agent_id", Str(v.agentId)) && Signs(v, "attempt_id", Str(v.attemptId.value))
    ensures Signs(v, "outcome", Str(
      match v.outcome.value
      case Pass => "pass" case PassInconclusive => "pass_inconclusive" case DeterministicReject => "deterministic_reject"
      case RetryableInfra => "retryable_infra" case Quarantine => "quarantine" case Inconclusive => "inconclusive"))
    ensures Signs(v, "policy_version", Number(v.policyVersion))
    ensures Signs(v, "reason_code", OptStr(v.reasonCode)) && Signs(v, "screener_hotkey", Str(v.hotkey))
    ensures Signs(v, "manifest_digest", OptStr(v.manifestDigest)) && Signs(v, "finding_digest", OptStr(v.findingDigest))
  {
    hide Signs, OptStr;
    ClaimIsSigned(v, AgentId);
    ClaimIsSigned(v, AttemptId);
    ClaimIsSigned(v, OutcomeKey);
    ClaimIsSigned(v, PolicyVersion);
    ClaimIsSigned(v, ReasonCode);
    ClaimIsSigned(v, Hotkey);
    ClaimIsSigned(v, ManifestDigest);
    ClaimIsSigned(v, FindingDigest);
  }

  lemma ImageIsNamed(v: Verdict)
    requires v.attemptId.Some? && v.outcome.Some?
    ensures Signs(v, "image_id", OptStr(v.imageId)) && Signs(v, "image_ref", OptStr(v.imageRef))
    ensures Signs(v, "image_sha256", OptStr(v.imageSha256)) && Signs(v, "image_size_bytes", OptNumber(v.imageSizeBytes))
    ensures Signs(v, "image_upload_id", OptStr(v.imageUploadId))
  {
    hide Signs, OptStr, OptNumber;
    ClaimIsSigned(v, ImageId);
    ClaimIsSigned(v, ImageRef);
    ClaimIsSigned(v, ImageSha);
    ClaimIsSigned(v, ImageSize);
    ClaimIsSigned(v, ImageUpload);
  }

  lemma OptionsAreNamed(v: Verdict)
    requires v.attemptId.Some? && v.outcome.Some?
    ensures v.deferredSourceReview ==> Signs(v, "deferred_source_review", Bool(true))
    ensures v.reviewAuditDigest.Some? ==> Signs(v, "review_audit_digest", Str(v.reviewAuditDigest.value))
  {
    hide Signs;
    ClaimIsSigned(v, Deferred);
    ClaimIsSigned(v, AuditDigest);
  }

  lemma SettingsAreNamed(v: Verdict)
    requires v.attemptId.Some? && v.outcome.Some? && v.settingsRevision.Some?
    ensures Signs(v, "review_settings_revision", Number(v.settingsRevision.value))
    ensures Signs(v, "review_settings_instance_id", OptStr(v.settingsInstanceId))
    ensures Signs(v, "review_settings_scope", OptStr(v.settingsScope))
    ensures Signs(v, "review_settings_checksum", OptStr(v.settingsChecksum))
  {
    hide Signs, OptStr;
    ClaimIsSigned(v, SettingsRevision);
    ClaimIsSigned(v, SettingsInstance);
    ClaimIsSigned(v, SettingsScope);
    ClaimIsSigned(v, SettingsChecksum);
  }

  /** The members from the `k`th key on, counted. */
  lemma MembersAreCounted(v: Verdict, k: nat)
    requires v.attemptId.Some? && v.outcome.Some? && k < |KEYS|
    ensures |Members(TypedFields(v), k)| == |Members(TypedFields(v), k + 1)| + if IsClaimed(v, KEYS[k]) then 1 else 0
  {
    hide Name, OptStr, OptNumber, OutcomeName;
    MembersStep(TypedFields(v), k);
  }

  predicate IsClaimed(v: Verdict, key: Key) {
    match key
    case Deferred => v.deferredSourceReview
    case AuditDigest => v.reviewAuditDigest.Some?
    case SettingsRevision | SettingsInstance | SettingsScope | SettingsChecksum => v.settingsRevision.Some?
    case _ => true
  }

  lemma LastMembers(v: Verdict)
    requires v.attemptId.Some? && v.outcome.Some?
    ensures |Members(TypedFields(v), 13)| ==
      1 + (if v.reviewAuditDigest.Some? then 1 else 0) + (if v.settingsRevision.Some? then 4 else 0)
  {
    assert Members(TypedFields(v), |KEYS|) == [];
    hide Members, TypedFields;
    MembersAreCounted(v, 18);
    MembersAreCounted(v, 17);
    MembersAreCounted(v, 16);
    MembersAreCounted(v, 15);
    MembersAreCounted(v, 14);
    MembersAreCounted(v, 13);
  }

  lemma MiddleMembers(v: Verdict)
    requires v.attemptId.Some? && v.outcome.Some?
    ensures |Members(TypedFields(v), 6)| == 7 + |Members(TypedFields(v), 13)|
  {
    hide Members, TypedFields;
    MembersAreCounted(v, 12);
    MembersAreCounted(v, 11);
    MembersAreCounted(v, 10);
    MembersAreCounted(v, 9);
    MembersAreCounted(v, 8);
    MembersAreCounted(v, 7);
    MembersAreCounted(v, 6);
  }

  /** Nothing else is signed: thirteen members always, one each for a deferral and an audit,
      and four for the settings. */
  lemma NothingElseIsSigned(v: Verdict)
    requires v.attemptId.Some? && v.outcome.Some?
    ensures |Members(TypedFields(v), 0)| ==
      13 + (if v.deferredSourceReview then 1 else 0) + (if v.reviewAuditDigest.Some? then 1 else 0)
      + (if v.settingsRevision.Some? then 4 else 0)
  {
    hide Members, TypedFields;
    LastMembers(v);
    MiddleMembers(v);
    MembersAreCounted(v, 5);
    MembersAreCounted(v, 4);
    MembersAreCounted(v, 3);
    MembersAreCounted(v, 2);
    MembersAreCounted(v, 1);
    MembersAreCounted(v, 0);
  }

  function Message(v: Verdict): Result {
    if v.outcome.Some? then
      if v.attemptId.None? then Err(AttemptRequired) else Ok(TYPED_PREFIX + Dumps(TypedFields(v)))
    else if v.policyVersion >= SCREENING_POLICY_VERSION then Err(OutcomeRequired)
    else if HasImage(v) then Err(LegacyImage)
    else Ok(Joined(LegacyParts(v), ':'))
  }

  predicate IsOptional(key: Key) {
    key == AuditDigest || key == Deferred || key == SettingsChecksum || key == SettingsInstance
    || key == SettingsRevision || key == SettingsScope
  }

  method RequiredFields(v: Verdict) returns (fields: map<Key, Value>)
    requires v.attemptId.Some? && v.outcome.Some?
    ensures forall key: Key :: if IsOptional(key) then key !in fields else Agrees(v, fields, key)
  {
    hide OptStr, OptNumber, OutcomeName;
    fields := map[
      AgentId := Str(v.agentId),
      AttemptId := Str(v.attemptId.value),
      FindingDigest := OptStr(v.findingDigest),
      ImageId := OptStr(v.imageId),
      ImageRef := OptStr(v.imageRef),
      ImageSha := OptStr(v.imageSha256),
      ImageSize := OptNumber(v.imageSizeBytes),
      ImageUpload := OptStr(v.imageUploadId),
      ManifestDigest := OptStr(v.manifestDigest),
      OutcomeKey := Str(OutcomeName(v.outcome.value)),
      PolicyVersion := Number(v.policyVersion),
      ReasonCode := OptStr(v.reasonCode),
      Hotkey := Str(v.hotkey)];
  }

  method OptionalFields(v: Verdict, required: map<Key, Value>) returns (fields: map<Key, Value>)
    requires v.attemptId.Some? && v.outcome.Some?
    requires forall key: Key :: if IsOptional(key) then key !in required else Agrees(v, required, key)
    ensures forall key: Key :: Agrees(v, fields, key)
  {
    hide OptStr, OptNumber, OutcomeName;
    fields := required;
    if v.settingsRevision.Some? {
      fields := fields + map[
        SettingsChecksum := OptStr(v.settingsChecksum),
        SettingsInstance := OptStr(v.settingsInstanceId),
        SettingsRevision := OptNumber(v.settingsRevision),
        SettingsScope := OptStr(v.settingsScope)];
    }
    if v.reviewAuditDigest.Some? {
      fields := fields[AuditDigest := OptStr(v.reviewAuditDigest)];
    }
    if v.deferredSourceReview {
      fields := fields[Deferred := Bool(true)];
    }
  }

  lemma AgreeingIsTyped(v: Verdict, fields: map<Key, Value>)
    requires v.attemptId.Some? && v.outcome.Some?
    requires forall key: Key :: Agrees(v, fields, key)
    ensures fields == TypedFields(v)
  {
    hide Claim;
    forall key: Key ensures SameAt(fields, TypedFields(v), key) {
      assert Agrees(v, fields, key);
    }
    MapsAgree(fields, TypedFields(v));
  }

  /** The source updates the dictionary step by step before it prints it. */
  method SigningMessage(v: Verdict) returns (result: Result)
    ensures result == Message(v)
  {
    hide Claim, TypedFields, Dumps, Agrees, IsOptional;
    if v.outcome.Some? {
      if v.attemptId.None? { return Err(AttemptRequired); }
      var fields := RequiredFields(v);
      fields := OptionalFields(v, fields);
      AgreeingIsTyped(v, fields);
      return Ok(TYPED_PREFIX + Dumps(fields));
    }
    if v.policyVersion >= SCREENING_POLICY_VERSION { return Err(OutcomeRequired); }
    if HasImage(v) { return Err(LegacyImage); }
    return Ok(Joined(LegacyParts(v), ':'));
  }

  // ----- the message is unambiguous -----------------------------------------------------------------

  /** What a typed message signs. `passed` is not in it, and settings need a revision. */
  function SignedTyped(v: Verdict): Verdict {
    var w := v.(passed := false);
    if w.settingsRevision.Some? then w
    else w.(settingsInstanceId := None, settingsScope := None, settingsChecksum := None)
  }

  lemma OutcomeNamesDiffer(a: Outcome, b: Outcome)
    requires OutcomeName(a) == OutcomeName(b)
    ensures a == b
  {
  }

  /** Equal dictionaries make equal claims under every key. */
  lemma SameClaims(a: Verdict, b: Verdict, key: Key)
    requires a.attemptId.Some? && a.outcome.Some? && b.attemptId.Some? && b.outcome.Some?
    requires TypedFields(a) == TypedFields(b)
    ensures Claim(a, key) == Claim(b, key)
  {
    hide Claim;
    assert key in TypedFields(a) <==> Claim(a, key).Some?;
    assert key in TypedFields(b) <==> Claim(b, key).Some?;
    if Claim(a, key).Some? { assert TypedFields(a)[key] == TypedFields(b)[key]; }
  }

  lemma SameRequired(a: Verdict, b: Verdict)
    requires a.attemptId.Some? && a.outcome.Some? && b.attemptId.Some? && b.outcome.Some?
    requires forall key: Key :: Claim(a, key) == Claim(b, key)
    ensures a.agentId == b.agentId && a.attemptId == b.attemptId && a.findingDigest == b.findingDigest
    ensures a.manifestDigest == b.manifestDigest && a.outcome == b.outcome
    ensures a.policyVersion == b.policyVersion && a.reasonCode == b.reasonCode && a.hotkey == b.hotkey
  {
    hide OutcomeName;
    assert Claim(a, AgentId) == Claim(b, AgentId) && Claim(a, AttemptId) == Claim(b, AttemptId);
    assert Claim(a, FindingDigest) == Claim(b, FindingDigest) && Claim(a, ManifestDigest) == Claim(b, ManifestDigest);
    assert Claim(a, OutcomeKey) == Claim(b, OutcomeKey) && Claim(a, PolicyVersion) == Claim(b, PolicyVersion);
    assert Claim(a, ReasonCode) == Claim(b, ReasonCode) && Claim(a, Hotkey) == Claim(b, Hotkey);
    OutcomeNamesDiffer(a.outcome.value, b.outcome.value);
  }

  lemma SameImage(a: Verdict, b: Verdict)
    requires a.attemptId.Some? && a.outcome.Some? && b.attemptId.Some? && b.outcome.Some?
    requires forall key: Key :: Claim(a, key) == Claim(b, key)
    ensures a.imageSha256 == b.imageSha256 && a.imageSizeBytes == b.imageSizeBytes && a.imageId == b.imageId
    ensures a.imageRef == b.imageRef && a.imageUploadId == b.imageUploadId
  {
    assert Claim(a, ImageSha) == Claim(b, ImageSha) && Claim(a, ImageSize) == Claim(b, ImageSize);
    assert Claim(a, ImageId) == Claim(b, ImageId) && Claim(a, ImageRef) == Claim(b, ImageRef);
    assert Claim(a, ImageUpload) == Claim(b, ImageUpload);
  }

  lemma SameOptional(a: Verdict, b: Verdict)
    requires a.attemptId.Some? && a.outcome.Some? && b.attemptId.Some? && b.outcome.Some?
    requires forall key: Key :: Claim(a, key) == Claim(b, key)
    ensures a.reviewAuditDigest == b.reviewAuditDigest && a.deferredSourceReview == b.deferredSourceReview
    ensures a.settingsRevision == b.settingsRevision
    ensures a.settingsRevision.Some? ==>
      a.settingsChecksum == b.settingsChecksum && a.settingsInstanceId == b.settingsInstanceId
      && a.settingsScope == b.settingsScope
  {
    assert Claim(a, AuditDigest) == Claim(b, AuditDigest) && Claim(a, Deferred) == Claim(b, Deferred);
    assert Claim(a, SettingsRevision) == Claim(b, SettingsRevision) && Claim(a, SettingsScope) == Claim(b, SettingsScope);
    assert Claim(a, SettingsChecksum) == Claim(b, SettingsChecksum) && Claim(a, SettingsInstance) == Claim(b, SettingsInstance);
  }

  /** Typed verdicts with equal messages agree in every signed field, absent optional ones
      included, whatever strings the fields hold. */
  lemma TypedIsUnambiguous(a: Verdict, b: Verdict)
    requires a.outcome.Some? && b.outcome.Some?
    ensures Message(a).Ok? && Message(a) == Message(b) ==> SignedTyped(a) == SignedTyped(b)
  {
    hide Dumps, TypedFields, Claim;
    if Message(a).Ok? && Message(a) == Message(b) {
      var n := |TYPED_PREFIX|;
      assert (TYPED_PREFIX + Dumps(TypedFields(a)))[n..] == Dumps(TypedFields(a));
      assert (TYPED_PREFIX + Dumps(TypedFields(b)))[n..] == Dumps(TypedFields(b));
      DumpsDetermine(TypedFields(a), TypedFields(b));
      forall key: Key ensures Claim(a, key) == Claim(b, key) {
        SameClaims(a, b, key);
      }
      SameRequired(a, b);
      SameImage(a, b);
      SameOptional(a, b);
    }
  }

  /** What the untyped messages need of the request's patterns. */
  predicate ValidIds(v: Verdict) {
    && 47 <= |v.hotkey| <= 48 && Within(v.hotkey, IsBase58)
    && |v.agentId| == 36 && Within(v.agentId, IsUuidChar)
    && (v.attemptId.Some? ==> |v.attemptId.value| == 36 && Within(v.attemptId.value, IsUuidChar))
  }

  lemma LegacyPartsAreClean(v: Verdict)
    requires ValidIds(v)
    ensures AllWithout(LegacyParts(v), ':')
  {
    DecimalWithout(v.policyVersion, ':');
  }

  /** Split at its colons, an untyped message names its fields in this order. */
  lemma UntypedIsRead(v: Verdict)
    requires v.outcome.None? && ValidIds(v) && Message(v).Ok?
    ensures var passed := if v.passed then "True" else "False";
      Split(Message(v).message, ':') ==
        if v.attemptId.None? then [v.hotkey, v.agentId, passed, Decimal(v.policyVersion)]
        else ["ditto-screen-verdict", "v2", v.hotkey, v.agentId, v.attemptId.value, passed, Decimal(v.policyVersion)]
  {
    LegacyPartsAreClean(v);
    SplitOfJoined(LegacyParts(v), ':');
  }

  /** Untyped verdicts with equal messages agree in every signed field. */
  lemma UntypedIsUnambiguous(a: Verdict, b: Verdict)
    requires a.outcome.None? && b.outcome.None? && ValidIds(a) && ValidIds(b)
    requires Message(a).Ok? && Message(a) == Message(b)
    ensures a.hotkey == b.hotkey && a.agentId == b.agentId && a.attemptId == b.attemptId
    ensures a.passed == b.passed && a.policyVersion == b.policyVersion
  {
    LegacyPartsAreClean(a);
    LegacyPartsAreClean(b);
    var x, y := LegacyParts(a), LegacyParts(b);
    JoinedReadsBack(x, y, ':');
    var n := |x|;
    assert x[n - 4] == y[n - 4] && x[n - 3] == y[n - 3] && x[n - 2] == y[n - 2] && x[n - 1] == y[n - 1];
    if a.attemptId.Some? { assert x[2] == y[2]; }
    BoolNamesDiffer(a.passed, b.passed);
    DecimalInjective(a.policyVersion, b.policyVersion);
  }

  lemma BoolNamesDiffer(a: bool, b: bool)
    requires BoolName(a) == BoolName(b)
    ensures a == b
  {
    assert BoolName(true)[0] == 'T' && BoolName(false)[0] == 'F';
  }

  datatype Version = Typed | Leased | Legacy

  function VersionOf(v: Verdict): Version {
    if v.outcome.Some? then Typed else if v.attemptId.Some? then Leased else Legacy
  }

  /** The characters that tell the versions apart: the sixth, and the fourteenth. */
  lemma MessageHead(v: Verdict)
    requires ValidIds(v) && Message(v).Ok?
    ensures var text := Message(v).message;
      && |text| > 13 && (text[5] == '-' <==> VersionOf(v) != Legacy)
      && (VersionOf(v) == Typed ==> text[13] == 'r') && (VersionOf(v) == Leased ==> text[13] == 'v')
  {
    hide Dumps, Decimal, BoolName;
    var text := Message(v).message;
    match VersionOf(v)
    case Typed => assert text[5] == TYPED_PREFIX[5] && text[13] == TYPED_PREFIX[13];
    case Leased =>
      assert text[5] == LEASED_TITLE[5] && text[13] == LEASED_TITLE[13];
    case Legacy =>
      assert text[5] == v.hotkey[5];
  }

  /** No message of one version equals a message of another. */
  lemma VersionsAreDisjoint(a: Verdict, b: Verdict)
    requires ValidIds(a) && ValidIds(b) && Message(a).Ok? && Message(a) == Message(b)
    ensures VersionOf(a) == VersionOf(b)
  {
    hide Message;
    MessageHead(a);
    MessageHead(b);
  }
}

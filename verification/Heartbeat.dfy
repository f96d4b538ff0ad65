/** The heartbeat payload of `ditto_screener/signing.py` and its tokens in
    `ditto_screener/heartbeat.py`: equal payloads mean equal signed fields. */
module Heartbeat {
  import opened Options
  import opened Text

  datatype RuntimeState = Polling | Screening | Failing | Paused

  datatype DockerStatus = Healthy | Degraded | Unavailable

  datatype Mode = Off | Shadow | Enforce

  datatype Origin = Platform | Cache | Bootstrap

  datatype Progress = Progress(stage: string, startedAt: nat)

  datatype Metrics = Metrics(
    collectedAt: nat, cpu: nat, memory: nat, disk: nat, docker: DockerStatus, running: nat, unhealthy: nat)

  datatype Settings = Settings(revision: nat, scope: string, mode: Mode, checksum: string, source: Origin)

  datatype Heartbeat = Heartbeat(
    hotkey: string, softwareVersion: string, protocolVersion: nat, policyVersion: nat, state: RuntimeState,
    activeAgent: Option<string>, instanceId: Option<string>, progress: Option<Progress>,
    metrics: Option<Metrics>, settings: Option<Settings>, timestamp: nat)

  // ----- what the request model admits ------------------------------------------------------

  predicate IsVersionChar(c: char) {
    IsDigit(c) || IsLetter(c) || c == '.' || c == '_' || c == '+' || c == '-'
  }

  predicate IsInstanceChar(c: char) {
    IsDigit(c) || IsLetter(c) || c == '.' || c == '_' || c == '-'
  }

  /** Every progress stage is a word over these characters. */
  predicate IsStageChar(c: char) {
    'a' <= c <= 'z' || IsDigit(c) || c == '_'
  }

  predicate ValidSettings(settings: Settings) {
    && (settings.scope == "*" || (settings.scope != "" && Within(settings.scope, IsInstanceChar)))
    && |settings.checksum| == 64 && Within(settings.checksum, IsHex)
  }

  /** The patterns and validators of `ScreenerHeartbeatRequest` that bear on the payload. */
  predicate Valid(h: Heartbeat) {
    && 47 <= |h.hotkey| <= 48 && Within(h.hotkey, IsBase58)
    && 1 <= |h.softwareVersion| <= 64 && Within(h.softwareVersion, IsVersionChar)
    && 1 <= h.protocolVersion && 1 <= h.policyVersion
    && (h.activeAgent.Some? ==> |h.activeAgent.value| == 36 && Within(h.activeAgent.value, IsUuidChar))
    && (h.instanceId.Some? ==> 1 <= |h.instanceId.value| <= 63 && Within(h.instanceId.value, IsInstanceChar))
    && (h.protocolVersion >= 3 ==> h.instanceId.Some?)
    && (h.progress.Some? ==>
         && Within(h.progress.value.stage, IsStageChar) && h.protocolVersion >= 2
         && h.state == Screening && h.activeAgent.Some?
         && h.progress.value.startedAt <= h.timestamp <= h.progress.value.startedAt + 6 * 60 * 60)
    && (h.settings.Some? <==> h.protocolVersion >= 4)
    && (h.settings.Some? ==> ValidSettings(h.settings.value))
  }

  // ----- the payload ---------------------------------------------------------------------------

  function StateName(state: RuntimeState): string {
    match state case Polling => "polling" case Screening => "screening" case Failing => "error" case Paused => "paused"
  }

  function DockerName(status: DockerStatus): string {
    match status case Healthy => "healthy" case Degraded => "degraded" case Unavailable => "unavailable"
  }

  function ModeName(mode: Mode): string {
    match mode case Off => "off" case Shadow => "shadow" case Enforce => "enforce"
  }

  function OriginName(origin: Origin): string {
    match origin case Platform => "platform" case Cache => "cache" case Bootstrap => "bootstrap"
  }

  function ProgressParts(progress: Option<Progress>): (parts: seq<string>)
    ensures parts != []
  {
    match progress
    case None => ["-"]
    case Some(p) => [p.stage, Decimal(p.startedAt)]
  }

  function MetricsParts(metrics: Option<Metrics>): (parts: seq<string>)
    ensures parts != []
  {
    match metrics
    case None => ["-"]
    case Some(m) => [
      Decimal(m.collectedAt), Decimal(m.cpu), Decimal(m.memory), Decimal(m.disk), DockerName(m.docker),
      Decimal(m.running), Decimal(m.unhealthy)]
  }

  function SettingsParts(settings: Option<Settings>): (parts: seq<string>)
    ensures parts != []
  {
    match settings
    case None => ["-"]
    case Some(s) => [Decimal(s.revision), s.scope, ModeName(s.mode), s.checksum, OriginName(s.source)]
  }

  function Token(parts: seq<string>): string
    requires parts != []
  {
    Joined(parts, ',')
  }

  function Common(h: Heartbeat): seq<string> {
    [h.hotkey, h.softwareVersion, Decimal(h.protocolVersion), Decimal(h.policyVersion), StateName(h.state),
     if h.activeAgent.Some? then h.activeAgent.value else ""]
  }

  const TITLE := "ditto-screener-heartbeat"

  /** The fields after the common ones, by payload version. */
  function Tail(h: Heartbeat): seq<string> {
    var progress, metrics := Token(ProgressParts(h.progress)), Token(MetricsParts(h.metrics));
    var instance := if h.instanceId.Some? then h.instanceId.value else "";
    if h.protocolVersion == 1 then [metrics, Decimal(h.timestamp)]
    else if h.protocolVersion >= 4 then
      [instance, progress, metrics, Token(SettingsParts(h.settings)), Decimal(h.timestamp)]
    else if h.protocolVersion >= 3 then [instance, progress, metrics, Decimal(h.timestamp)]
    else [progress, metrics, Decimal(h.timestamp)]
  }

  function Version(h: Heartbeat): string {
    if h.protocolVersion == 1 then "v1"
    else if h.protocolVersion >= 4 then "v4"
    else if h.protocolVersion >= 3 then "v3"
    else "v2"
  }

  /** The payload, or nothing where the source refuses to build one. */
  function Message(h: Heartbeat): Option<string> {
    if h.protocolVersion == 1 && h.progress.Some? then None
    else if h.protocolVersion >= 3 && (h.instanceId.None? || h.instanceId.value == "") then None
    else if h.protocolVersion >= 4 && h.settings.None? then None
    else Some(Joined([TITLE, Version(h)] + Common(h) + Tail(h), ':'))
  }

  // ----- no field contains its separator ----------------------------------------------------------

  lemma NamesAreClean(state: RuntimeState, docker: DockerStatus, mode: Mode, origin: Origin, c: char)
    requires c == ':' || c == ','
    ensures Without(StateName(state), c) && Without(DockerName(docker), c)
    ensures Without(ModeName(mode), c) && Without(OriginName(origin), c)
  {
  }

  lemma ProgressIsClean(h: Heartbeat, c: char)
    requires Valid(h) && (c == ':' || c == ',')
    ensures AllWithout(ProgressParts(h.progress), c)
  {
    if h.progress.Some? { DecimalWithout(h.progress.value.startedAt, c); }
  }

  lemma MetricsAreClean(metrics: Option<Metrics>, c: char)
    requires c == ':' || c == ','
    ensures AllWithout(MetricsParts(metrics), c)
  {
    if metrics.Some? {
      var m := metrics.value;
      DecimalWithout(m.collectedAt, c);
      DecimalWithout(m.cpu, c);
      DecimalWithout(m.memory, c);
      DecimalWithout(m.disk, c);
      DecimalWithout(m.running, c);
      DecimalWithout(m.unhealthy, c);
      NamesAreClean(Polling, m.docker, Off, Cache, c);
    }
  }

  lemma SettingsAreClean(h: Heartbeat, c: char)
    requires Valid(h) && (c == ':' || c == ',')
    ensures AllWithout(SettingsParts(h.settings), c)
  {
    if h.settings.Some? {
      var s := h.settings.value;
      DecimalWithout(s.revision, c);
      NamesAreClean(Polling, Healthy, s.mode, s.source, c);
    }
  }

  lemma TokenIsClean(parts: seq<string>)
    requires parts != [] && AllWithout(parts, ':')
    ensures Without(Token(parts), ':')
  {
    JoinedFromWithout(parts, 0, ',', ':');
  }

  lemma CommonIsClean(h: Heartbeat)
    requires Valid(h)
    ensures AllWithout(Common(h), ':')
  {
    DecimalWithout(h.protocolVersion, ':');
    DecimalWithout(h.policyVersion, ':');
    NamesAreClean(h.state, Healthy, Off, Cache, ':');
  }

  lemma TailIsClean(h: Heartbeat)
    requires Valid(h)
    ensures AllWithout(Tail(h), ':')
  {
    hide Token;
    ProgressIsClean(h, ':');
    MetricsAreClean(h.metrics, ':');
    SettingsAreClean(h, ':');
    TokenIsClean(ProgressParts(h.progress));
    TokenIsClean(MetricsParts(h.metrics));
    TokenIsClean(SettingsParts(h.settings));
    DecimalWithout(h.timestamp, ':');
  }

  lemma PayloadIsClean(h: Heartbeat)
    requires Valid(h)
    ensures AllWithout([TITLE, Version(h)] + Common(h) + Tail(h), ':')
  {
    hide Tail, Common;
    CommonIsClean(h);
    TailIsClean(h);
    AllWithoutAppend([TITLE, Version(h)], Common(h), ':');
    AllWithoutAppend([TITLE, Version(h)] + Common(h), Tail(h), ':');
  }

  // ----- reading the fields back --------------------------------------------------------------------

  lemma StateNamesDiffer(a: RuntimeState, b: RuntimeState)
    ensures StateName(a) == StateName(b) ==> a == b
  {
  }

  lemma DockerNamesDiffer(a: DockerStatus, b: DockerStatus)
    ensures DockerName(a) == DockerName(b) ==> a == b
  {
  }

  lemma SettingsNamesDiffer(m: Mode, n: Mode, o: Origin, p: Origin)
    ensures ModeName(m) == ModeName(n) ==> m == n
    ensures OriginName(o) == OriginName(p) ==> o == p
  {
  }

  lemma ProgressReadsBack(a: Heartbeat, b: Heartbeat)
    requires Valid(a) && Valid(b) && Token(ProgressParts(a.progress)) == Token(ProgressParts(b.progress))
    ensures a.progress == b.progress
  {
    var x, y := ProgressParts(a.progress), ProgressParts(b.progress);
    ProgressIsClean(a, ',');
    ProgressIsClean(b, ',');
    JoinedReadsBack(x, y, ',');
    if a.progress.Some? { DecimalInjective(a.progress.value.startedAt, b.progress.value.startedAt); }
  }

  lemma MetricsReadBack(a: Option<Metrics>, b: Option<Metrics>)
    requires Token(MetricsParts(a)) == Token(MetricsParts(b))
    ensures a == b
  {
    var x, y := MetricsParts(a), MetricsParts(b);
    MetricsAreClean(a, ',');
    MetricsAreClean(b, ',');
    JoinedReadsBack(x, y, ',');
    hide Decimal, DockerName;
    if a.Some? {
      var m, n := a.value, b.value;
      assert x[0] == y[0] && x[1] == y[1] && x[2] == y[2] && x[3] == y[3] && x[4] == y[4] && x[5] == y[5] && x[6] == y[6];
      DecimalInjective(m.collectedAt, n.collectedAt);
      DecimalInjective(m.cpu, n.cpu);
      DecimalInjective(m.memory, n.memory);
      DecimalInjective(m.disk, n.disk);
      DecimalInjective(m.running, n.running);
      DecimalInjective(m.unhealthy, n.unhealthy);
      DockerNamesDiffer(m.docker, n.docker);
    }
  }

  lemma SettingsReadBack(a: Heartbeat, b: Heartbeat)
    requires Valid(a) && Valid(b) && Token(SettingsParts(a.settings)) == Token(SettingsParts(b.settings))
    ensures a.settings == b.settings
  {
    var x, y := SettingsParts(a.settings), SettingsParts(b.settings);
    SettingsAreClean(a, ',');
    SettingsAreClean(b, ',');
    JoinedReadsBack(x, y, ',');
    if a.settings.Some? {
      var s, t := a.settings.value, b.settings.value;
      assert x[0] == y[0] && x[1] == y[1] && x[2] == y[2] && x[3] == y[3] && x[4] == y[4];
      DecimalInjective(s.revision, t.revision);
      SettingsNamesDiffer(s.mode, t.mode, s.source, t.source);
    }
  }

  /** Equal payloads have equal version, common fields and tail. */
  lemma PartsReadBack(a: Heartbeat, b: Heartbeat)
    requires Valid(a) && Valid(b) && Message(a) == Message(b)
    ensures Version(a) == Version(b) && Common(a) == Common(b) && Tail(a) == Tail(b)
  {
    PayloadIsClean(a);
    PayloadIsClean(b);
    hide Tail, Version;
    var x, y := [TITLE, Version(a)] + Common(a) + Tail(a), [TITLE, Version(b)] + Common(b) + Tail(b);
    JoinedReadsBack(x, y, ':');
    assert x[1] == Version(a) && y[1] == Version(b);
    assert x[2..8] == Common(a) && y[2..8] == Common(b);
    assert x[8..] == Tail(a) && y[8..] == Tail(b);
  }

  lemma CommonReadsBack(a: Heartbeat, b: Heartbeat)
    requires Valid(a) && Valid(b) && Common(a) == Common(b)
    ensures a.hotkey == b.hotkey && a.softwareVersion == b.softwareVersion && a.state == b.state
    ensures a.protocolVersion == b.protocolVersion && a.policyVersion == b.policyVersion
    ensures a.activeAgent == b.activeAgent
  {
    hide Decimal, StateName;
    var x, y := Common(a), Common(b);
    assert x[0] == y[0] && x[1] == y[1] && x[2] == y[2] && x[3] == y[3] && x[4] == y[4] && x[5] == y[5];
    DecimalInjective(a.protocolVersion, b.protocolVersion);
    DecimalInjective(a.policyVersion, b.policyVersion);
    StateNamesDiffer(a.state, b.state);
  }

  lemma TailReadsBack(a: Heartbeat, b: Heartbeat)
    requires Valid(a) && Valid(b) && a.protocolVersion == b.protocolVersion && Tail(a) == Tail(b)
    ensures a.metrics == b.metrics && a.timestamp == b.timestamp
    ensures a.protocolVersion >= 2 ==> a.progress == b.progress
    ensures a.protocolVersion >= 3 ==> a.instanceId == b.instanceId
    ensures a.settings == b.settings
  {
    hide Decimal, Token;
    var x, y, n := Tail(a), Tail(b), |Tail(a)|;
    assert x[n - 1] == y[n - 1];
    DecimalInjective(a.timestamp, b.timestamp);
    if a.protocolVersion == 1 {
      assert x[0] == y[0];
      MetricsReadBack(a.metrics, b.metrics);
    } else if a.protocolVersion == 2 {
      assert x[0] == y[0] && x[1] == y[1];
      ProgressReadsBack(a, b);
      MetricsReadBack(a.metrics, b.metrics);
    } else {
      assert x[0] == y[0] && x[1] == y[1] && x[2] == y[2];
      ProgressReadsBack(a, b);
      MetricsReadBack(a.metrics, b.metrics);
      if a.protocolVersion >= 4 {
        assert x[3] == y[3];
        SettingsReadBack(a, b);
      }
    }
  }

  /** Split at commas, the token names the measurements in this order. */
  ghost predicate IsMetricsToken(token: string, metrics: Option<Metrics>) {
    Split(token, ',') ==
    match metrics
    case None => ["-"]
    case Some(m) => [
      Decimal(m.collectedAt), Decimal(m.cpu), Decimal(m.memory), Decimal(m.disk),
      if m.docker.Healthy? then "healthy" else if m.docker.Degraded? then "degraded" else "unavailable",
      Decimal(m.running), Decimal(m.unhealthy)]
  }

  ghost predicate IsProgressToken(token: string, progress: Option<Progress>) {
    Split(token, ',') == if progress.None? then ["-"] else [progress.value.stage, Decimal(progress.value.startedAt)]
  }

  ghost predicate IsSettingsToken(token: string, s: Settings) {
    Split(token, ',') == [
      Decimal(s.revision), s.scope, if s.mode.Off? then "off" else if s.mode.Shadow? then "shadow" else "enforce",
      s.checksum, if s.source.Platform? then "platform" else if s.source.Cache? then "cache" else "bootstrap"]
  }

  lemma MetricsAreRead(metrics: Option<Metrics>)
    ensures IsMetricsToken(Token(MetricsParts(metrics)), metrics)
  {
    MetricsAreClean(metrics, ',');
    SplitOfJoined(MetricsParts(metrics), ',');
    hide Decimal, Split, Joined, AllWithout, Without;
  }

  lemma ProgressIsRead(h: Heartbeat)
    requires Valid(h)
    ensures IsProgressToken(Token(ProgressParts(h.progress)), h.progress)
  {
    ProgressIsClean(h, ',');
    SplitOfJoined(ProgressParts(h.progress), ',');
    hide Decimal, Split, Joined, AllWithout, Without;
  }

  lemma SettingsAreRead(h: Heartbeat)
    requires Valid(h)
    ensures h.settings.Some? ==> IsSettingsToken(Token(SettingsParts(h.settings)), h.settings.value)
  {
    SettingsAreClean(h, ',');
    SplitOfJoined(SettingsParts(h.settings), ',');
    hide Decimal, Split, Joined, AllWithout, Without;
  }

  /** A platform that splits a payload at its colons finds each field in its place. */
  lemma PayloadIsRead(h: Heartbeat)
    requires Valid(h)
    ensures Message(h).Some?
    ensures var f, n := Split(Message(h).value, ':'), h.protocolVersion;
      && |f| == (if n == 1 then 10 else if n == 2 then 11 else if n == 3 then 12 else 13)
      && f[0] == "ditto-screener-heartbeat"
      && f[1] == (if n == 1 then "v1" else if n == 2 then "v2" else if n == 3 then "v3" else "v4")
      && f[2] == h.hotkey && f[3] == h.softwareVersion && f[4] == Decimal(n) && f[5] == Decimal(h.policyVersion)
      && f[6] == (if h.state.Polling? then "polling" else if h.state.Screening? then "screening"
                  else if h.state.Failing? then "error" else "paused")
      && f[7] == (if h.activeAgent.Some? then h.activeAgent.value else "")
      && f[|f| - 1] == Decimal(h.timestamp)
      && IsMetricsToken(f[if n == 1 then 8 else if n == 2 then 9 else 10], h.metrics)
      && (n >= 2 ==> IsProgressToken(f[if n == 2 then 8 else 9], h.progress))
      && (n >= 3 ==> Some(f[8]) == h.instanceId)
      && (n >= 4 ==> IsSettingsToken(f[11], h.settings.value))
  {
    hide IsMetricsToken, IsProgressToken, IsSettingsToken, Split, Decimal, Joined, MetricsParts, ProgressParts,
         SettingsParts;
    PayloadIsClean(h);
    SplitOfJoined([TITLE, Version(h)] + Common(h) + Tail(h), ':');
    MetricsAreRead(h.metrics);
    ProgressIsRead(h);
    SettingsAreRead(h);
  }

  /** What a payload signs: the instance identity only from version 3 on. */
  function Signed(h: Heartbeat): Heartbeat {
    if h.protocolVersion >= 3 then h else h.(instanceId := None)
  }

  /** Two valid heartbeats of any versions with equal payloads agree in every signed field;
      from version 3 on, they are the same heartbeat. */
  lemma PayloadIsUnambiguous(a: Heartbeat, b: Heartbeat)
    requires Valid(a) && Valid(b) && Message(a) == Message(b)
    ensures Message(a).Some?
    ensures Signed(a) == Signed(b)
    ensures a.protocolVersion >= 3 ==> a == b
  {
    assert Message(a).Some?;
    hide Message, Tail, Common, Version;
    PartsReadBack(a, b);
    CommonReadsBack(a, b);
    TailReadsBack(a, b);
  }
}

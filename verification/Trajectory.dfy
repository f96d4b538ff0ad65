/** The tool-call conversation of `l2_review.py`: `_run_trajectory`, its budget, and the
    analyzer answers it lets the model see. */
module Trajectory {
  import opened Options

  // ----- analyzer answers -----------------------------------------------------------------

  /** A decoded JSON value. The members of a `Dict` have distinct names. */
  datatype Data =
    | Null
    | Bool(b: bool)
    | Number(n: real)
    | Str(s: string)
    | List(items: seq<Data>)
    | Dict(members: seq<(string, Data)>)

  predicate Truthy(value: Data) {
    match value
    case Null => false
    case Bool(b) => b
    case Number(n) => n != 0.0
    case Str(s) => s != ""
    case List(items) => items != []
    case Dict(members) => members != []
  }

  /** `bool(value.get(name))`. */
  predicate HasTruthy(members: seq<(string, Data)>, name: string) {
    exists k :: 0 <= k < |members| && members[k].0 == name && Truthy(members[k].1)
  }

  predicate EndsWith(text: string, suffix: string) {
    |suffix| <= |text| && text[|text| - |suffix|..] == suffix
  }

  predicate IsFlag(name: string) {
    name == "truncated" || EndsWith(name, "_truncated")
  }

  predicate ContainsTruncation(value: Data) {
    match value
    case Dict(members) => MemberTruncated(value, 0)
    case List(items) => ItemTruncated(value, 0)
    case _ => false
  }

  predicate MemberTruncated(value: Data, k: nat)
    requires value.Dict? && k <= |value.members|
    decreases value, |value.members| - k
  {
    k < |value.members| &&
    ((IsFlag(value.members[k].0) && value.members[k].1 == Bool(true))
     || ContainsTruncation(value.members[k].1)
     || MemberTruncated(value, k + 1))
  }

  predicate ItemTruncated(value: Data, k: nat)
    requires value.List? && k <= |value.items|
    decreases value, |value.items| - k
  {
    k < |value.items| && (ContainsTruncation(value.items[k]) || ItemTruncated(value, k + 1))
  }

  ghost predicate NamesTruncation(name: string) {
    name == "truncated" || exists prefix :: name == prefix + "_truncated"
  }

  lemma FlagIff(name: string)
    ensures IsFlag(name) <==> NamesTruncation(name)
  {
    if EndsWith(name, "_truncated") {
      var prefix := name[..|name| - |"_truncated"|];
      assert name == prefix + "_truncated";
    }
    if prefix :| name == prefix + "_truncated" {
      assert name[|prefix|..] == "_truncated";
    }
  }

  /** The path leads, through lists and dictionaries, to a true truncation flag. */
  ghost predicate LeadsToFlag(value: Data, path: seq<nat>) {
    path != [] &&
    match value
    case Dict(members) =>
      path[0] < |members| &&
      ((path == [path[0]] && NamesTruncation(members[path[0]].0) && members[path[0]].1 == Bool(true))
       || LeadsToFlag(members[path[0]].1, path[1..]))
    case List(items) => path[0] < |items| && LeadsToFlag(items[path[0]], path[1..])
    case _ => false
  }

  lemma {:induction false} FlagIsFound(value: Data, path: seq<nat>)
    requires LeadsToFlag(value, path)
    ensures ContainsTruncation(value)
    decreases value, 1, 0
  {
    match value
    case Dict(members) => FlagIsFoundFrom(value, path, 0);
    case List(items) => FlagIsFoundFrom(value, path, 0);
  }

  lemma {:induction false} FlagIsFoundFrom(value: Data, path: seq<nat>, k: nat)
    requires LeadsToFlag(value, path) && k <= path[0]
    ensures value.Dict? ==> MemberTruncated(value, k)
    ensures value.List? ==> ItemTruncated(value, k)
    decreases value, 0, path[0] - k
  {
    if value.Dict? { FlagIff(value.members[k].0); }
    if k < path[0] {
      FlagIsFoundFrom(value, path, k + 1);
    } else if value.List? {
      FlagIsFound(value.items[k], path[1..]);
    } else if LeadsToFlag(value.members[k].1, path[1..]) {
      FlagIsFound(value.members[k].1, path[1..]);
    }
  }

  lemma {:induction false} FoundIsFlag(value: Data) returns (path: seq<nat>)
    requires ContainsTruncation(value)
    ensures LeadsToFlag(value, path)
    decreases value, 1, 0
  {
    path := FoundIsFlagFrom(value, 0);
  }

  lemma {:induction false} FoundIsFlagFrom(value: Data, k: nat) returns (path: seq<nat>)
    requires match value
      case Dict(members) => k <= |members| && MemberTruncated(value, k)
      case List(items) => k <= |items| && ItemTruncated(value, k)
      case _ => false
    ensures LeadsToFlag(value, path)
    decreases value, 0, match value case Dict(members) => |members| - k case List(items) => |items| - k case _ => 0
  {
    if value.Dict? { FlagIff(value.members[k].0); }
    if value.Dict? && IsFlag(value.members[k].0) && value.members[k].1 == Bool(true) {
      path := [k];
    } else if ContainsTruncation(if value.Dict? then value.members[k].1 else value.items[k]) {
      var rest := FoundIsFlag(if value.Dict? then value.members[k].1 else value.items[k]);
      path := [k] + rest;
      assert path[1..] == rest;
    } else {
      path := FoundIsFlagFrom(value, k + 1);
    }
  }

  ghost predicate HasFlag(value: Data) {
    exists path: seq<nat> :: LeadsToFlag(value, path)
  }

  /** The search finds a true truncation flag exactly when there is one, at any depth. */
  lemma TruncationIsExact(value: Data)
    ensures ContainsTruncation(value) <==> HasFlag(value)
  {
    if ContainsTruncation(value) {
      var path := FoundIsFlag(value);
      assert LeadsToFlag(value, path);
    }
    forall path: seq<nat> | LeadsToFlag(value, path) ensures ContainsTruncation(value) {
      FlagIsFound(value, path);
    }
  }

  // ----- usage ---------------------------------------------------------------------------------

  datatype Usage = Usage(
    input: nat, output: nat, cached: nat, cacheWrite: nat, reasoning: nat, estimated: real, reported: Option<real>)

  const NO_USAGE := Usage(0, 0, 0, 0, 0, 0.0, None)

  function AddUsage(left: Usage, right: Usage): Usage {
    Usage(
      left.input + right.input, left.output + right.output, left.cached + right.cached,
      left.cacheWrite + right.cacheWrite, left.reasoning + right.reasoning, left.estimated + right.estimated,
      if left.reported.None? && right.reported.None? then None else Some(OrZero(left.reported) + OrZero(right.reported)))
  }

  function OrZero(cost: Option<real>): real {
    if cost.Some? then cost.value else 0.0
  }

  lemma AddUsageAssociative(a: Usage, b: Usage, c: Usage)
    ensures AddUsage(AddUsage(a, b), c) == AddUsage(a, AddUsage(b, c))
  {
  }

  lemma AddNoUsage(a: Usage)
    ensures AddUsage(a, NO_USAGE) == a && AddUsage(NO_USAGE, a) == a
  {
  }

  /** The cost estimate of one turn, in the long-context tier from 272000 input tokens. */
  function EstimatedCost(input: nat, output: nat, cached: nat): real {
    var uncached := if input >= cached then input - cached else 0;
    if input >= 272_000 then
      (uncached as real * 10.0 + cached as real * 1.0 + output as real * 45.0) / 1_000_000.0
    else
      (uncached as real * 5.0 + cached as real * 0.5 + output as real * 30.0) / 1_000_000.0
  }

  /** `round(0.1 * n)`: to the nearest integer, ties to the even one. */
  function RoundTenth(n: nat): nat {
    if n % 10 < 5 || (n % 10 == 5 && n / 10 % 2 == 0) then n / 10 else n / 10 + 1
  }

  datatype Caps = Caps(input: int, output: int, cost: real)

  function Billable(usage: Usage): real {
    if usage.reported.Some? then usage.reported.value else usage.estimated
  }

  predicate WithinBudget(caps: Caps, usage: Usage) {
    && usage.input - usage.cached + RoundTenth(usage.cached) <= caps.input
    && usage.output <= caps.output
    && Billable(usage) <= caps.cost
  }

  /** In tenths of a token: a cached token counts one, any other ten, and a half of a whole
      token is forgiven only where rounding to even does. */
  predicate FitsInput(limit: int, input: int, cached: int) {
    var over := 10 * (input - cached) + cached - 10 * limit;
    over <= 4 || (over == 5 && (limit - input + cached) % 2 == 0)
  }

  lemma BudgetInTenths(caps: Caps, usage: Usage)
    ensures WithinBudget(caps, usage) <==>
      && FitsInput(caps.input, usage.input, usage.cached) && usage.output <= caps.output
      && (match usage.reported case Some(cost) => cost <= caps.cost case None => usage.estimated <= caps.cost)
  {
    var whole := caps.input - usage.input + usage.cached;
    assert usage.cached == 10 * (usage.cached / 10) + usage.cached % 10;
    assert 10 * (usage.input - usage.cached) + usage.cached - 10 * caps.input == usage.cached - 10 * whole;
  }

  // ----- the conversation ---------------------------------------------------------------------

  datatype Arguments = NotText | Malformed | NotAnObject | Object(text: string)

  /** An item of a model answer. Nothing stops a model from sending an output item itself. */
  datatype ModelItem =
    | FunctionCall(callId: Option<string>, name: Option<string>, arguments: Arguments)
    | FunctionCallOutput(outputId: string)
    | OtherItem

  type Call = item: ModelItem | item.FunctionCall? witness FunctionCall(None, None, NotText)

  datatype Body = InvalidArguments | InvalidReview | PartialWithheld | Analysis(value: Data)

  datatype Item = Prompt | FromModel(item: ModelItem) | Reply(callId: string, body: Body) | Nudge

  /** What a post comes back with. */
  datatype Answer =
    | Unreachable
    | BrokenContract
    | Turn(output: seq<ModelItem>, tokens: Tokens, servedBy: Option<string>)

  datatype Tokens = Tokens(
    input: nat, output: nat, cached: nat, cacheWrite: nat, reasoning: nat, reported: Option<real>)

  function TurnUsage(t: Tokens): Usage {
    Usage(t.input, t.output, t.cached, t.cacheWrite, t.reasoning, EstimatedCost(t.input, t.output, t.cached), t.reported)
  }

  /** What the sandboxed analyzer comes back with. */
  datatype Analyzer = Rejected | Unavailable | NotJson | Returned(value: Data)

  datatype Code = ResponseContract | TotalBudget | ToolContract | ToolBudget | AnalyzerContract | StepBudget

  datatype Outcome<R> =
    | Reviewed(review: R, usage: Usage)
    | Failed(code: Code, usage: Usage, steps: nat)
    | Infrastructure
    | AnalyzerNotJson
    | Inconclusive

  /** A model and an analyzer that may answer anything at any time, and the bounds. */
  datatype Env<R> = Env(
    model: nat -> Answer, analyzer: nat -> Analyzer, parse: string -> Option<R>,
    before: Usage, caps: Caps, maxSteps: Option<nat>, defaultSteps: nat)
  {
    /** `max_steps or self._max_steps`. */
    function Limit(): nat {
      if maxSteps.Some? && maxSteps.value != 0 then maxSteps.value else defaultSteps
    }
  }

  /** `tools` names the analyzer runs so far and `models` the models that answered, in order. */
  datatype State = State(
    items: seq<Item>, usage: Usage, models: seq<string>, tools: seq<string>, analyzerCalls: nat, idle: nat)

  const START := State([Prompt], NO_USAGE, [], [], 0, 0)

  /** `if response_model:` is false of an empty name too. */
  function Named(servedBy: Option<string>): seq<string> {
    if servedBy.Some? && servedBy.value != "" then [servedBy.value] else []
  }

  const SUBMIT := "submit_l2_review"

  datatype Parsed = BadJson(id: string) | BadCall | Good(id: string, name: string, text: string)

  function ParseCall(call: Call): Parsed
  {
    if call.callId.None? || call.name.None? then BadCall
    else match call.arguments
      case NotText => BadCall
      case Malformed => BadJson(call.callId.value)
      case NotAnObject => BadCall
      case Object(text) => Good(call.callId.value, call.name.value, text)
  }

  function Calls(output: seq<ModelItem>): seq<Call> {
    if output == [] then []
    else Calls(output[..|output| - 1]) + if output[|output| - 1].FunctionCall? then [output[|output| - 1]] else []
  }

  predicate Submits(call: Call)
  {
    call.name == Some(SUBMIT)
  }

  predicate AnySubmits(calls: seq<Call>)
  {
    exists k :: 0 <= k < |calls| && Submits(calls[k])
  }

  function WithReply(s: State, id: string, body: Body): State {
    s.(items := s.items + [Reply(id, body)])
  }

  /** How far a step gets: on with the conversation, or to its end. */
  datatype Progress<R> = Going(state: State) | Done(last: State, outcome: Outcome<R>)

  /** One tool call. `step` is the number of posts so far. */
  function AnswerCall<R>(env: Env<R>, s: State, call: Call, step: nat): Progress<R>
  {
    match ParseCall(call)
    case BadJson(id) => Going(WithReply(s, id, InvalidArguments))
    case BadCall => Done(s, Failed(ToolContract, s.usage, step))
    case Good(id, name, _) =>
      var n := s.analyzerCalls + 1;
      if n > 2 * env.Limit() then Done(s, Failed(ToolBudget, s.usage, step))
      else
        var next := s.(analyzerCalls := n, tools := s.tools + [name]);
        match env.analyzer(n)
        case Rejected => Done(next, Failed(AnalyzerContract, s.usage, step))
        case Unavailable => Done(next, Infrastructure)
        case NotJson => Done(next, AnalyzerNotJson)
        case Returned(value) =>
          if !ContainsTruncation(value) then Going(WithReply(next, id, Analysis(value)))
          else if !value.Dict? || HasTruthy(value.members, "error") then Done(next, Inconclusive)
          else Going(WithReply(next, id, PartialWithheld))
  }

  function AnswerCalls<R>(env: Env<R>, s: State, calls: seq<Call>, k: nat, step: nat): Progress<R>
    requires k <= |calls|
    decreases |calls| - k
  {
    if k == |calls| then Going(s)
    else match AnswerCall(env, s, calls[k], step)
      case Done(last, outcome) => Done(last, outcome)
      case Going(next) => AnswerCalls(env, next, calls, k + 1, step)
  }

  /** A lone submission: an accepted review ends the conversation, a rejected one is answered. */
  function Submit<R>(env: Env<R>, s: State, call: Call, step: nat): Progress<R>
  {
    match ParseCall(call)
    case BadJson(id) => Going(WithReply(s, id, InvalidArguments))
    case BadCall => Done(s, Failed(ToolContract, s.usage, step))
    case Good(id, _, text) =>
      match env.parse(text)
      case None => Going(WithReply(s, id, InvalidReview))
      case Some(review) => Done(s, Reviewed(review, s.usage))
  }

  function Received(items: seq<Item>, output: seq<ModelItem>): seq<Item> {
    items + seq(|output|, k requires 0 <= k < |output| => FromModel(output[k]))
  }

  /** One post and what is done with its answer. */
  function Step<R>(env: Env<R>, s: State, step: nat): Progress<R> {
    match env.model(step)
    case Unreachable => Done(s, Infrastructure)
    case BrokenContract => Done(s, Failed(ResponseContract, s.usage, step + 1))
    case Turn(output, tokens, servedBy) =>
      var usage := AddUsage(s.usage, TurnUsage(tokens));
      if !WithinBudget(env.caps, AddUsage(env.before, usage)) then
        Done(s.(usage := usage), Failed(TotalBudget, usage, step + 1))
      else
        var heard := s.(items := Received(s.items, output), usage := usage, models := s.models + Named(servedBy));
        var calls := Calls(output);
        if calls == [] then
          if s.idle != 0 then Done(heard, Failed(ToolContract, usage, step + 1))
          else Going(heard.(items := heard.items + [Nudge], idle := s.idle + 1))
        else if AnySubmits(calls) then
          if |calls| != 1 then Done(heard, Failed(ToolContract, usage, step + 1))
          else Submit(env, heard.(idle := 0), calls[0], step + 1)
        else AnswerCalls(env, heard.(idle := 0), calls, 0, step + 1)
  }

  /** The transcripts posted, the state at the end, and the outcome. */
  datatype Trace<R> = Trace(posts: seq<seq<Item>>, last: State, outcome: Outcome<R>)

  function RunFrom<R>(env: Env<R>, s: State, step: nat): Trace<R>
    requires step <= env.Limit()
    decreases env.Limit() - step
  {
    if step == env.Limit() then Trace([], s, Failed(StepBudget, s.usage, step))
    else match Step(env, s, step)
      case Done(last, outcome) => Trace([s.items], last, outcome)
      case Going(next) =>
        var rest := RunFrom(env, next, step + 1);
        Trace([s.items] + rest.posts, rest.last, rest.outcome)
  }

  function Run<R>(env: Env<R>): Trace<R> {
    RunFrom(env, START, 0)
  }

  method AnswerAll<R>(env: Env<R>, s: State, calls: seq<Call>, step: nat) returns (progress: Progress<R>)
    ensures progress == AnswerCalls(env, s, calls, 0, step)
  {
    var state := s;
    for k := 0 to |calls|
      invariant AnswerCalls(env, s, calls, 0, step) == AnswerCalls(env, state, calls, k, step)
    {
      match AnswerCall(env, state, calls[k], step) {
        case Done(last, outcome) => return Done(last, outcome);
        case Going(next) => state := next;
      }
    }
    return Going(state);
  }

  method TakeStep<R>(env: Env<R>, s: State, step: nat) returns (progress: Progress<R>)
    ensures progress == Step(env, s, step)
  {
    hide AnswerCalls, Submit, Calls, Received, WithinBudget, AddUsage, TurnUsage;
    var State(items, usage, models, tools, analyzerCalls, idle) := s;
    var answer := env.model(step);
    if answer.Unreachable? { return Done(s, Infrastructure); }
    if answer.BrokenContract? { return Done(s, Failed(ResponseContract, usage, step + 1)); }
    usage := AddUsage(usage, TurnUsage(answer.tokens));
    if !WithinBudget(env.caps, AddUsage(env.before, usage)) {
      return Done(State(items, usage, models, tools, analyzerCalls, idle), Failed(TotalBudget, usage, step + 1));
    }
    models := models + Named(answer.servedBy);
    items := Received(items, answer.output);
    var calls := Calls(answer.output);
    if calls == [] {
      if idle != 0 {
        return Done(State(items, usage, models, tools, analyzerCalls, idle), Failed(ToolContract, usage, step + 1));
      }
      return Going(State(items + [Nudge], usage, models, tools, analyzerCalls, idle + 1));
    }
    if AnySubmits(calls) {
      if |calls| != 1 {
        return Done(State(items, usage, models, tools, analyzerCalls, idle), Failed(ToolContract, usage, step + 1));
      }
      return Submit(env, State(items, usage, models, tools, analyzerCalls, 0), calls[0], step + 1);
    }
    progress := AnswerAll(env, State(items, usage, models, tools, analyzerCalls, 0), calls, step + 1);
  }

  /** The loop of the source, over everything a model and an analyzer may answer: it posts the
      transcripts of the answers that let it go on, up to the first that does not. */
  method RunTrajectory<R>(env: Env<R>) returns (trace: Trace<R>)
    ensures trace == Run(env)
    ensures forall p :: 0 <= p < |trace.posts| ==> trace.posts[p] == Transcript(env, p)
    ensures forall p :: 0 <= p < |trace.posts| - 1 ==> GoesOn(env, p)
    ensures var n := |trace.posts|;
      if n > 0 && !GoesOn(env, n - 1) then EndsIn(env, n - 1, trace.outcome)
      else n == env.Limit() && trace.outcome == Failed(StepBudget, Spent(env, n), n)
  {
    RunIsTold(env);
    hide Step, Transcript, GoesOn, EndsIn, Spent;
    var s, posts := START, [];
    for step := 0 to env.Limit()
      invariant var rest := RunFrom(env, s, step);
        Run(env) == Trace(posts + rest.posts, rest.last, rest.outcome)
    {
      ghost var rest := RunFrom(env, s, step);
      ghost var earlier := posts;
      posts := posts + [s.items];
      var progress := TakeStep(env, s, step);
      match progress {
        case Done(last, outcome) =>
          return Trace(posts, last, outcome);
        case Going(next) =>
          assert earlier + rest.posts == posts + RunFrom(env, next, step + 1).posts;
          s := next;
      }
    }
    return Trace(posts, s, Failed(StepBudget, s.usage, env.Limit()));
  }

  // ----- calls and replies -----------------------------------------------------------------------

  /** The ids of the calls in a transcript, in order. */
  ghost function CallIds(items: seq<Item>): seq<Option<string>> {
    if items == [] then []
    else
      var last := items[|items| - 1];
      CallIds(items[..|items| - 1]) + if last.FromModel? && last.item.FunctionCall? then [last.item.callId] else []
  }

  /** The ids the harness has replied to, in order. */
  ghost function ReplyIds(items: seq<Item>): seq<Option<string>> {
    if items == [] then []
    else
      var last := items[|items| - 1];
      ReplyIds(items[..|items| - 1]) + if last.Reply? then [Some(last.callId)] else []
  }

  lemma OneMore(items: seq<Item>, item: Item)
    ensures CallIds(items + [item]) == CallIds(items) + if item.FromModel? && item.item.FunctionCall? then [item.item.callId] else []
    ensures ReplyIds(items + [item]) == ReplyIds(items) + if item.Reply? then [Some(item.callId)] else []
  {
    assert (items + [item])[..|items|] == items;
  }

  /** Every call so far is answered, with its own id, in order, and after it. */
  ghost predicate Paired(items: seq<Item>) {
    CallIds(items) == ReplyIds(items) && Causal(items)
  }

  /** No prefix holds more replies than calls. */
  ghost predicate Causal(items: seq<Item>) {
    forall n :: 0 <= n <= |items| ==> |ReplyIds(items[..n])| <= |CallIds(items[..n])|
  }

  /** What is shown of an analyzer's answers holds no true truncation flag. */
  ghost predicate Admissible(items: seq<Item>) {
    forall i :: 0 <= i < |items| && items[i].Reply? && items[i].body.Analysis? ==> !ContainsTruncation(items[i].body.value)
  }

  lemma CausalMore(items: seq<Item>, item: Item)
    requires Causal(items)
    requires item.Reply? ==> |ReplyIds(items)| < |CallIds(items)|
    ensures Causal(items + [item])
  {
    hide CallIds, ReplyIds;
    OneMore(items, item);
    var more := items + [item];
    assert items[..|items|] == items && more[..|more|] == more;
    forall n | 0 <= n <= |more| ensures |ReplyIds(more[..n])| <= |CallIds(more[..n])| {
      if n <= |items| { assert more[..n] == items[..n]; }
    }
  }

  /** The ids of the calls from the `k`th on. */
  ghost function IdsFrom(calls: seq<Call>, k: nat): (ids: seq<Option<string>>)
    requires k <= |calls|
    ensures |ids| == |calls| - k
  {
    seq(|calls| - k, i requires 0 <= i < |calls| - k => calls[k + i].callId)
  }

  /** Between calls: what is still to be answered is the calls from the `k`th on. */
  ghost predicate Owes(items: seq<Item>, calls: seq<Call>, k: nat)
    requires k <= |calls|
  {
    CallIds(items) == ReplyIds(items) + IdsFrom(calls, k) && Causal(items) && Admissible(items)
  }

  lemma LastCall(output: seq<ModelItem>)
    requires output != []
    ensures IdsFrom(Calls(output), 0)
      == IdsFrom(Calls(output[..|output| - 1]), 0)
         + if output[|output| - 1].FunctionCall? then [output[|output| - 1].callId] else []
  {
  }

  lemma NoCalls()
    ensures IdsFrom(Calls([]), 0) == []
  {
  }

  lemma {:induction false} ReceivedOwes(items: seq<Item>, output: seq<ModelItem>)
    requires Paired(items) && Admissible(items)
    ensures Owes(Received(items, output), Calls(output), 0)
    decreases |output|
  {
    hide CallIds, ReplyIds, Causal, Calls, IdsFrom;
    if output == [] {
      assert Received(items, output) == items;
      NoCalls();
    } else {
      var n := |output| - 1;
      ReceivedOwes(items, output[..n]);
      var earlier := Received(items, output[..n]);
      assert Received(items, output) == earlier + [FromModel(output[n])];
      OneMore(earlier, FromModel(output[n]));
      CausalMore(earlier, FromModel(output[n]));
      LastCall(output);
    }
  }

  lemma ReplyPays(items: seq<Item>, calls: seq<Call>, k: nat, body: Body)
    requires k < |calls|
    requires Owes(items, calls, k) && calls[k].callId.Some?
    requires body.Analysis? ==> !ContainsTruncation(body.value)
    ensures Owes(items + [Reply(calls[k].callId.value, body)], calls, k + 1)
  {
    var item := Reply(calls[k].callId.value, body);
    assert IdsFrom(calls, k) == [calls[k].callId] + IdsFrom(calls, k + 1);
    OneMore(items, item);
    CausalMore(items, item);
  }

  lemma AnswerCallPays<R>(env: Env<R>, s: State, calls: seq<Call>, k: nat, step: nat)
    requires k < |calls|
    requires Owes(s.items, calls, k) && AnswerCall(env, s, calls[k], step).Going?
    ensures Owes(AnswerCall(env, s, calls[k], step).state.items, calls, k + 1)
  {
    hide Owes, ContainsTruncation;
    match ParseCall(calls[k])
    case BadJson(_) => ReplyPays(s.items, calls, k, InvalidArguments);
    case Good(_, _, _) =>
      var value := env.analyzer(s.analyzerCalls + 1).value;
      ReplyPays(s.items, calls, k, if ContainsTruncation(value) then PartialWithheld else Analysis(value));
  }

  lemma {:induction false} AnswerCallsPay<R>(env: Env<R>, s: State, calls: seq<Call>, k: nat, step: nat)
    requires k <= |calls|
    requires Owes(s.items, calls, k) && AnswerCalls(env, s, calls, k, step).Going?
    ensures Owes(AnswerCalls(env, s, calls, k, step).state.items, calls, |calls|)
    decreases |calls| - k
  {
    hide Owes, AnswerCall;
    if k < |calls| {
      AnswerCallPays(env, s, calls, k, step);
      AnswerCallsPay(env, AnswerCall(env, s, calls[k], step).state, calls, k + 1, step);
    }
  }

  lemma SubmitPays<R>(env: Env<R>, s: State, calls: seq<Call>, step: nat)
    requires |calls| == 1
    requires Owes(s.items, calls, 0) && Submit(env, s, calls[0], step).Going?
    ensures Owes(Submit(env, s, calls[0], step).state.items, calls, 1)
  {
    hide Owes;
    ReplyPays(s.items, calls, 0, if ParseCall(calls[0]).BadJson? then InvalidArguments else InvalidReview);
  }

  lemma NudgeOwesNothing(items: seq<Item>, calls: seq<Call>)
    requires calls == [] && Owes(items, calls, 0)
    ensures Owes(items + [Nudge], calls, 0)
  {
    OneMore(items, Nudge);
    CausalMore(items, Nudge);
  }

  lemma StepKeepsPairs<R>(env: Env<R>, s: State, step: nat)
    requires Paired(s.items) && Admissible(s.items) && Step(env, s, step).Going?
    ensures Paired(Step(env, s, step).state.items) && Admissible(Step(env, s, step).state.items)
  {
    hide Owes, Paired, Admissible, AnswerCalls, Submit, Received, Calls, AnySubmits;
    var output := env.model(step).output;
    var calls := Calls(output);
    ReceivedOwes(s.items, output);
    var usage := AddUsage(s.usage, TurnUsage(env.model(step).tokens));
    var heard := s.(items := Received(s.items, output), usage := usage, models := s.models + Named(env.model(step).servedBy), idle := 0);
    if calls == [] {
      NudgeOwesNothing(heard.items, calls);
    } else if AnySubmits(calls) {
      SubmitPays(env, heard, calls, step + 1);
    } else {
      AnswerCallsPay(env, heard, calls, 0, step + 1);
    }
    NothingOwed(Step(env, s, step).state.items, calls);
  }

  lemma NothingOwed(items: seq<Item>, calls: seq<Call>)
    requires Owes(items, calls, |calls|)
    ensures Paired(items) && Admissible(items)
  {
  }

  /** At every post, for all model and analyzer answers: calls are answered in order under
      their own ids, and no analysis on display carries a true truncation flag. */
  lemma {:induction false} PostsArePairedFrom<R>(env: Env<R>, s: State, step: nat)
    requires step <= env.Limit() && Paired(s.items) && Admissible(s.items)
    ensures forall p :: 0 <= p < |RunFrom(env, s, step).posts| ==>
      Paired(RunFrom(env, s, step).posts[p]) && Admissible(RunFrom(env, s, step).posts[p])
    decreases env.Limit() - step
  {
    hide Paired, Admissible, Step;
    if step < env.Limit() && Step(env, s, step).Going? {
      StepKeepsPairs(env, s, step);
      PostsArePairedFrom(env, Step(env, s, step).state, step + 1);
    }
  }

  lemma PostsArePaired<R>(env: Env<R>)
    ensures forall p :: 0 <= p < |Run(env).posts| ==> Paired(Run(env).posts[p]) && Admissible(Run(env).posts[p])
  {
    var items := START.items;
    assert items == [] + [Prompt];
    OneMore([], Prompt);
    CausalMore([], Prompt);
    PostsArePairedFrom(env, START, 0);
  }

  // ----- exactly one answer to a call ----------------------------------------------------------------

  predicate IsCall(item: Item) {
    item.FromModel? && item.item.FunctionCall?
  }

  /** The output at `j` carries the id of the call at `i`, whoever wrote it. */
  predicate Answers(items: seq<Item>, i: nat, j: nat) {
    i < j < |items| && IsCall(items[i]) &&
    match items[j]
    case Reply(id, _) => items[i].item.callId == Some(id)
    case FromModel(FunctionCallOutput(id)) => items[i].item.callId == Some(id)
    case _ => false
  }

  ghost predicate AnsweredOnce(items: seq<Item>, i: nat) {
    exists j: nat :: Answers(items, i, j) && forall k: nat :: Answers(items, i, k) ==> k == j
  }

  /** The model used no call id twice, and sent no output under the id of an earlier call. */
  predicate CleanIds(items: seq<Item>) {
    forall i: nat, j: nat :: i < j < |items| && IsCall(items[i]) ==> !Reuses(items, i, j)
  }

  predicate Reuses(items: seq<Item>, i: nat, j: nat)
    requires i < j < |items| && IsCall(items[i])
  {
    match items[j]
    case FromModel(FunctionCall(id, _, _)) => id == items[i].item.callId
    case FromModel(FunctionCallOutput(id)) => Some(id) == items[i].item.callId
    case _ => false
  }

  lemma {:induction false} IdsOfPrefix(items: seq<Item>, n: nat)
    requires n <= |items|
    ensures CallIds(items[..n]) <= CallIds(items) && ReplyIds(items[..n]) <= ReplyIds(items)
    decreases |items|
  {
    if n == |items| {
      assert items[..n] == items;
    } else {
      IdsOfPrefix(items[..|items| - 1], n);
      assert items[..|items| - 1][..n] == items[..n];
    }
  }

  lemma AtRank(items: seq<Item>, i: nat)
    requires i < |items|
    ensures IsCall(items[i]) ==>
      |CallIds(items[..i])| < |CallIds(items)| && CallIds(items)[|CallIds(items[..i])|] == items[i].item.callId
    ensures items[i].Reply? ==>
      |ReplyIds(items[..i])| < |ReplyIds(items)| && ReplyIds(items)[|ReplyIds(items[..i])|] == Some(items[i].callId)
  {
    IdsOfPrefix(items, i + 1);
    assert items[..i + 1] == items[..i] + [items[i]];
    OneMore(items[..i], items[i]);
  }

  lemma {:induction false} FindReply(items: seq<Item>, k: nat) returns (j: nat)
    requires k < |ReplyIds(items)|
    ensures j < |items| && items[j].Reply? && |ReplyIds(items[..j])| == k && ReplyIds(items)[k] == Some(items[j].callId)
    decreases |items|
  {
    var n := |items| - 1;
    if k < |ReplyIds(items[..n])| {
      j := FindReply(items[..n], k);
      assert items[..n][..j] == items[..j];
    } else {
      j := n;
    }
  }

  lemma {:induction false} FindCall(items: seq<Item>, k: nat) returns (i: nat)
    requires k < |CallIds(items)|
    ensures i < |items| && IsCall(items[i]) && |CallIds(items[..i])| == k && CallIds(items)[k] == items[i].item.callId
    decreases |items|
  {
    var n := |items| - 1;
    if k < |CallIds(items[..n])| {
      i := FindCall(items[..n], k);
      assert items[..n][..i] == items[..i];
    } else {
      i := n;
    }
  }

  /** Ranks tell replies apart. */
  lemma RanksDiffer(items: seq<Item>, i: nat, j: nat)
    requires i < j < |items|
    ensures items[i].Reply? ==> |ReplyIds(items[..i])| < |ReplyIds(items[..j])|
    ensures IsCall(items[i]) ==> |CallIds(items[..i])| < |CallIds(items[..j])|
  {
    assert items[..j][..i + 1] == items[..i] + [items[i]];
    IdsOfPrefix(items[..j], i + 1);
    OneMore(items[..i], items[i]);
  }

  /** The reply of the same rank comes after the call and carries its id. */
  lemma OwnReply(items: seq<Item>, i: nat) returns (j: nat)
    requires Paired(items) && i < |items| && IsCall(items[i])
    ensures Answers(items, i, j) && items[j].Reply? && |ReplyIds(items[..j])| == |CallIds(items[..i])|
  {
    AtRank(items, i);
    j := FindReply(items, |CallIds(items[..i])|);
    ReplyRank(items, j);
    if j < i { MoreCalls(items, j, i); }
  }

  lemma ReplyRank(items: seq<Item>, j: nat)
    requires Causal(items) && j < |items| && items[j].Reply?
    ensures |ReplyIds(items[..j])| < |CallIds(items[..j])|
  {
    assert items[..j + 1] == items[..j] + [items[j]];
    OneMore(items[..j], items[j]);
    assert |ReplyIds(items[..j + 1])| <= |CallIds(items[..j + 1])|;
  }

  lemma MoreCalls(items: seq<Item>, m: nat, n: nat)
    requires m <= n <= |items|
    ensures |CallIds(items[..m])| <= |CallIds(items[..n])|
  {
    assert items[..n][..m] == items[..m];
    IdsOfPrefix(items[..n], m);
  }

  lemma IdsDiffer(items: seq<Item>, i: nat, j: nat)
    requires CleanIds(items) && i < |items| && j < |items| && IsCall(items[i]) && IsCall(items[j]) && i != j
    ensures items[i].item.callId != items[j].item.callId
  {
    assert !Reuses(items, if i < j then i else j, if i < j then j else i);
  }

  lemma AnsweredAlike(items: seq<Item>, i: nat, j: nat, k: nat)
    requires AnsweredOnce(items, i) && Answers(items, i, j) && Answers(items, i, k)
    ensures j == k
  {
  }

  lemma CleanIsAnsweredOnce(items: seq<Item>, i: nat)
    requires Paired(items) && CleanIds(items) && i < |items| && IsCall(items[i])
    ensures AnsweredOnce(items, i)
  {
    hide CallIds, ReplyIds, Causal;
    var j := OwnReply(items, i);
    forall k: nat | Answers(items, i, k) ensures k == j {
      assert !Reuses(items, i, k);
      AtRank(items, k);
      var c := FindCall(items, |ReplyIds(items[..k])|);
      if c != i { IdsDiffer(items, c, i); }
      if k < j { RanksDiffer(items, k, j); }
      if j < k { RanksDiffer(items, j, k); }
    }
  }

  lemma AnsweredOnceIsClean(items: seq<Item>)
    requires Paired(items)
    requires forall i: nat :: i < |items| && IsCall(items[i]) ==> AnsweredOnce(items, i)
    ensures CleanIds(items)
  {
    hide CallIds, ReplyIds, Paired, AnsweredOnce;
    forall i: nat, j: nat | i < j < |items| && IsCall(items[i]) ensures !Reuses(items, i, j) {
      if Reuses(items, i, j) {
        var own := OwnReply(items, i);
        if IsCall(items[j]) {
          var other := OwnReply(items, j);
          RanksDiffer(items, i, j);
          AnsweredAlike(items, i, own, other);
        } else {
          AnsweredAlike(items, i, own, j);
        }
      }
    }
  }

  /** In a paired transcript, every call has exactly one later output under its id if and
      only if the model neither reused a call id nor forged an output under one. */
  lemma AnsweredOnceIffClean(items: seq<Item>)
    requires Paired(items)
    ensures (forall i: nat :: i < |items| && IsCall(items[i]) ==> AnsweredOnce(items, i)) <==> CleanIds(items)
  {
    hide Paired;
    if CleanIds(items) {
      forall i: nat | i < |items| && IsCall(items[i]) ensures AnsweredOnce(items, i) {
        CleanIsAnsweredOnce(items, i);
      }
    }
    if forall i: nat :: i < |items| && IsCall(items[i]) ==> AnsweredOnce(items, i) {
      AnsweredOnceIsClean(items);
    }
  }

  /** At every post of every run: each call has exactly one later output under its id if and
      only if the model has neither reused an id nor forged an output so far. */
  lemma PostsAreAnsweredOnceIffClean<R>(env: Env<R>, p: nat)
    requires p < |Run(env).posts|
    ensures var items := Run(env).posts[p];
      (forall i: nat :: i < |items| && IsCall(items[i]) ==> AnsweredOnce(items, i)) <==> CleanIds(items)
  {
    hide Run, AnsweredOnce, CleanIds;
    PostsArePaired(env);
    AnsweredOnceIffClean(Run(env).posts[p]);
  }

  /** A run in which a reused id is answered twice: the model sends the same malformed call in
      its first two answers, and whatever it likes later. */
  lemma ReusedIdIsAnsweredTwice<R>(env: Env<R>, id: string, tokens: Tokens)
    requires env.Limit() >= 3 && env.model(0) == env.model(1) == Turn([MalformedCall(id)], tokens, None)
    requires Affordable(env, 1) && Affordable(env, 2)
    ensures |Run(env).posts| >= 3
    ensures var items := Run(env).posts[2];
      && items == [Prompt, FromModel(MalformedCall(id)), Reply(id, InvalidArguments),
                   FromModel(MalformedCall(id)), Reply(id, InvalidArguments)]
      && Answers(items, 1, 2) && Answers(items, 1, 4) && !CleanIds(items)
  {
    var first := Step(env, START, 0);
    MalformedStep(env, START, 0, id, tokens);
    MalformedStep(env, first.state, 1, id, tokens);
    var second := Step(env, first.state, 1);
    assert RunFrom(env, second.state, 2).posts[0] == second.state.items by { hide Step; }
    assert RunFrom(env, first.state, 1).posts == [first.state.items] + RunFrom(env, second.state, 2).posts by { hide Step; }
    assert Run(env).posts == [START.items] + RunFrom(env, first.state, 1).posts by { hide Step; }
    assert Reuses(second.state.items, 1, 3);
  }

  function MalformedCall(id: string): ModelItem {
    FunctionCall(Some(id), Some("read"), Malformed)
  }

  lemma MalformedStep<R>(env: Env<R>, s: State, step: nat, id: string, tokens: Tokens)
    requires env.model(step) == Turn([MalformedCall(id)], tokens, None)
    requires s.usage == Spent(env, step) && Affordable(env, step + 1)
    ensures Step(env, s, step).Going? && Step(env, s, step).state.usage == Spent(env, step + 1)
    ensures Step(env, s, step).state.items == s.items + [FromModel(MalformedCall(id)), Reply(id, InvalidArguments)]
  {
    hide WithinBudget, AddUsage, TurnUsage;
    var output := [MalformedCall(id)];
    assert output[..0] == [] && Calls(output) == output;
    assert Received(s.items, output) == s.items + [FromModel(MalformedCall(id))];
    assert Some("read") != Some(SUBMIT) by { assert "read"[0] != SUBMIT[0]; }
    assert !AnySubmits(Calls(output));
    var usage := AddUsage(s.usage, TurnUsage(tokens));
    assert usage == Spent(env, step + 1);
    var heard := State(Received(s.items, output), usage, s.models + Named(None), s.tools, s.analyzerCalls, 0);
    var next := WithReply(heard, id, InvalidArguments);
    assert AnswerCalls(env, next, Calls(output), 1, step + 1) == Going(next);
    assert AnswerCalls(env, heard, Calls(output), 0, step + 1) == Going(next);
  }

  // ----- bounds -------------------------------------------------------------------------------------

  lemma {:induction false} RunsAreCounted<R>(env: Env<R>, s: State, calls: seq<Call>, k: nat, step: nat)
    requires k <= |calls|
    requires |s.tools| == s.analyzerCalls <= 2 * env.Limit()
    ensures match AnswerCalls(env, s, calls, k, step)
      case Going(next) => |next.tools| == next.analyzerCalls <= 2 * env.Limit() && next.usage == s.usage && next.idle == s.idle
      case Done(last, outcome) =>
        && |last.tools| <= 2 * env.Limit() && last.usage == s.usage && !outcome.Reviewed?
        && (outcome.Failed? ==> outcome.usage == s.usage && outcome.steps == step && outcome.code != TotalBudget)
    decreases |calls| - k
  {
    if k < |calls| && AnswerCall(env, s, calls[k], step).Going? {
      RunsAreCounted(env, AnswerCall(env, s, calls[k], step).state, calls, k + 1, step);
    }
  }

  /** The model turn ended without a tool call. */
  predicate Toolless<R>(env: Env<R>, step: nat) {
    env.model(step).Turn? && Calls(env.model(step).output) == []
  }

  function Spent<R>(env: Env<R>, n: nat): Usage {
    if n == 0 then NO_USAGE
    else AddUsage(Spent(env, n - 1), if env.model(n - 1).Turn? then TurnUsage(env.model(n - 1).tokens) else NO_USAGE)
  }

  /** The whole run's usage up to `n` turns meets the caps. */
  predicate Affordable<R>(env: Env<R>, n: nat) {
    WithinBudget(env.caps, AddUsage(env.before, Spent(env, n)))
  }

  /** The answer at `p` holds one call, a well-formed submission of the review. */
  ghost predicate Submitted<R>(env: Env<R>, p: nat, review: R) {
    env.model(p).Turn? &&
    var calls := Calls(env.model(p).output);
    && |calls| == 1
    && calls[0].name == Some("submit_l2_review") && calls[0].callId.Some? && calls[0].arguments.Object?
    && env.parse(calls[0].arguments.text) == Some(review)
  }

  datatype Part = InputPart | OutputPart | CachedPart

  /** One count over the first `n` turns. */
  ghost function Total<R>(env: Env<R>, n: nat, part: Part): nat {
    if n == 0 then 0
    else
      var answer := env.model(n - 1);
      Total(env, n - 1, part)
      + if !answer.Turn? then 0
        else match part
          case InputPart => answer.tokens.input
          case OutputPart => answer.tokens.output
          case CachedPart => answer.tokens.cached
  }

  lemma {:induction false} SpentIsTotal<R>(env: Env<R>, n: nat)
    ensures Spent(env, n).input == Total(env, n, InputPart)
    ensures Spent(env, n).output == Total(env, n, OutputPart)
    ensures Spent(env, n).cached == Total(env, n, CachedPart)
  {
    if n > 0 { SpentIsTotal(env, n - 1); }
  }

  /** A conversation is within the caps exactly when its totals and those before it are. */
  lemma AffordableIff<R>(env: Env<R>, n: nat)
    ensures var cost := AddUsage(env.before, Spent(env, n));
      Affordable(env, n) <==>
        && FitsInput(env.caps.input, env.before.input + Total(env, n, InputPart), env.before.cached + Total(env, n, CachedPart))
        && env.before.output + Total(env, n, OutputPart) <= env.caps.output
        && (match cost.reported case Some(paid) => paid <= env.caps.cost case None => cost.estimated <= env.caps.cost)
  {
    hide WithinBudget, FitsInput;
    SpentIsTotal(env, n);
    BudgetInTenths(env.caps, AddUsage(env.before, Spent(env, n)));
    hide Spent, Total;
  }

  /** The price list, per two million tokens: 10 for an input token, 1 for a cached one and 60
      for an output token, in the long-context tier 20, 2 and 90. */
  lemma CostIsPriced(input: nat, output: nat, cached: nat)
    ensures var paid := if input < cached then 0 else input - cached;
      2_000_000.0 * EstimatedCost(input, output, cached) ==
        if input < 272_000 then (10 * paid + cached + 60 * output) as real
        else (20 * paid + 2 * cached + 90 * output) as real
  {
  }

  /** What holds of one step from a state that has spent what its turns cost. */
  ghost predicate StepKeeps<R>(env: Env<R>, s: State, step: nat) {
    match Step(env, s, step)
    case Going(next) =>
      && |next.tools| == next.analyzerCalls <= 2 * env.Limit()
      && next.usage == Spent(env, step + 1) && Affordable(env, step + 1)
      && (Toolless(env, step) <==> next.idle != 0) && !(Toolless(env, step) && s.idle != 0)
    case Done(last, outcome) =>
      && |last.tools| <= 2 * env.Limit()
      && last.usage == Spent(env, step + 1)
      && (outcome.Failed? ==>
            outcome.usage == last.usage && outcome.steps == step + 1
            && (outcome.code == TotalBudget <==> env.model(step).Turn? && !Affordable(env, step + 1)))
      && (outcome.Reviewed? ==>
            outcome.usage == last.usage && Affordable(env, step + 1) && Submitted(env, step, outcome.review))
  }

  lemma OneStepKeeps<R>(env: Env<R>, s: State, step: nat)
    requires |s.tools| == s.analyzerCalls <= 2 * env.Limit() && s.usage == Spent(env, step)
    ensures StepKeeps(env, s, step)
  {
    hide AnswerCalls, Received, Calls, AddUsage, WithinBudget, ContainsTruncation, TurnUsage;
    AddNoUsage(s.usage);
    if env.model(step).Turn? {
      var output := env.model(step).output;
      var calls := Calls(output);
      var usage := AddUsage(s.usage, TurnUsage(env.model(step).tokens));
      var heard := s.(items := Received(s.items, output), usage := usage, models := s.models + Named(env.model(step).servedBy), idle := 0);
      RunsAreCounted(env, heard, calls, 0, step + 1);
    }
  }

  lemma {:induction false} RunKeeps<R>(env: Env<R>, s: State, step: nat)
    requires step <= env.Limit() && |s.tools| == s.analyzerCalls <= 2 * env.Limit() && s.usage == Spent(env, step)
    ensures var t := RunFrom(env, s, step);
      var n := step + |t.posts|;
      && n <= env.Limit() && |t.last.tools| <= 2 * env.Limit()
      && (forall m :: step < m < n ==> Affordable(env, m))
      && (forall p :: step <= p && p + 2 < n ==> !(Toolless(env, p) && Toolless(env, p + 1)))
      && (s.idle != 0 && Toolless(env, step) ==> n <= step + 1)
      && t.last.usage == Spent(env, n)
      && (t.outcome.Failed? ==>
            t.outcome.usage == Spent(env, n) && t.outcome.steps == n
            && (t.outcome.code == TotalBudget <==> n > step && env.model(n - 1).Turn? && !Affordable(env, n)))
      && (t.outcome.Reviewed? ==>
            n > step && t.outcome.usage == Spent(env, n) && Affordable(env, n) && Submitted(env, n - 1, t.outcome.review))
    decreases env.Limit() - step
  {
    hide Step, Spent, Affordable, Toolless, Submitted;
    if step < env.Limit() {
      OneStepKeeps(env, s, step);
      if Step(env, s, step).Going? {
        var next := Step(env, s, step).state;
        RunKeeps(env, next, step + 1);
      }
    }
  }

  /** A conversation posts at most its limit and runs at most twice as many analyzers; two
      answers in a row without a tool call end it. Every turn but the last kept the whole
      run's usage within the caps; so did the last if a review is returned, which is the one
      it submitted, and it is the last that did not when the failure is the budget. */
  lemma RunIsBounded<R>(env: Env<R>)
    ensures var t := Run(env);
      var n := |t.posts|;
      && n <= env.Limit() && |t.last.tools| <= 2 * env.Limit()
      && (forall p :: 0 <= p && p + 2 < n ==> !(Toolless(env, p) && Toolless(env, p + 1)))
      && (forall m :: 0 < m < n ==> Affordable(env, m))
      && t.last.usage == Spent(env, n)
      && (t.outcome.Reviewed? ==>
            n > 0 && t.outcome.usage == Spent(env, n) && Affordable(env, n) && Submitted(env, n - 1, t.outcome.review))
      && (t.outcome.Failed? ==>
            t.outcome.usage == Spent(env, n) && t.outcome.steps == n
            && (t.outcome.code == TotalBudget <==> n > 0 && env.model(n - 1).Turn? && !Affordable(env, n)))
  {
    assert START.usage == Spent(env, 0);
    hide Spent, Affordable, Toolless, Submitted, RunFrom;
    RunKeeps(env, START, 0);
  }

  // ----- a run told from the answers alone --------------------------------------------------------

  function CallsAt<R>(env: Env<R>, p: nat): seq<Call> {
    if env.model(p).Turn? then Calls(env.model(p).output) else []
  }

  /** Identified and named, with an object of arguments. */
  predicate IsReady(call: Call) {
    call.callId.Some? && call.name.Some? && call.arguments.Object?
  }

  /** Identified and named, with arguments that are not JSON. */
  predicate IsGarbled(call: Call) {
    call.callId.Some? && call.name.Some? && call.arguments.Malformed?
  }

  predicate HasSubmission(calls: seq<Call>) {
    exists k :: 0 <= k < |calls| && calls[k].name == Some("submit_l2_review")
  }

  /** The names of the analyzers that the first `k` calls run. */
  ghost function Started(calls: seq<Call>, k: nat): seq<string>
    requires k <= |calls|
  {
    if k == 0 then []
    else Started(calls, k - 1) + if IsReady(calls[k - 1]) then [calls[k - 1].name.value] else []
  }

  /** The names of the analyzers that the first `n` answers run. */
  ghost function ToolsUsed<R>(env: Env<R>, n: nat): seq<string> {
    if n == 0 then []
    else
      var calls := CallsAt(env, n - 1);
      ToolsUsed(env, n - 1) + if HasSubmission(calls) then [] else Started(calls, |calls|)
  }

  /** The models that gave the first `n` answers, as far as they say. */
  ghost function ModelsHeard<R>(env: Env<R>, n: nat): seq<string> {
    if n == 0 then []
    else
      var answer := env.model(n - 1);
      ModelsHeard(env, n - 1)
      + if answer.Turn? && answer.servedBy.Some? && answer.servedBy.value != "" then [answer.servedBy.value] else []
  }

  /** Which run of the analyzer the `k`th call of the answer at `p` asks for, from 1. */
  ghost function RunNumber<R>(env: Env<R>, p: nat, k: nat): nat
    requires k < |CallsAt(env, p)|
  {
    |ToolsUsed(env, p)| + |Started(CallsAt(env, p), k)| + 1
  }

  /** A true truncation flag at some depth, outside an analyzer answer that admits no error. */
  ghost predicate Undecidable(value: Data) {
    && HasFlag(value)
    && (value.Dict? ==> exists k :: 0 <= k < |value.members| && value.members[k].0 == "error" && !IsNothing(value.members[k].1))
  }

  ghost predicate Runs<R>(env: Env<R>, p: nat, k: nat)
    requires k < |CallsAt(env, p)|
  {
    IsReady(CallsAt(env, p)[k]) && RunNumber(env, p, k) <= 2 * env.Limit()
  }

  /** The `k`th call of the answer at `p` gets a reply. */
  ghost predicate IsAnswered<R>(env: Env<R>, p: nat, k: nat)
    requires k < |CallsAt(env, p)|
  {
    IsGarbled(CallsAt(env, p)[k]) ||
    (Runs(env, p, k) && var found := env.analyzer(RunNumber(env, p, k)); found.Returned? && !Undecidable(found.value))
  }

  /** The `k`th call of the answer at `p` is the first without a reply. */
  ghost predicate StopsAt<R>(env: Env<R>, p: nat, k: nat) {
    && k < |CallsAt(env, p)| && !HasSubmission(CallsAt(env, p))
    && !IsAnswered(env, p, k) && forall j :: 0 <= j < k ==> IsAnswered(env, p, j)
  }

  /** How a run ends at a call that gets no reply. */
  ghost predicate CallEndsIn<R>(env: Env<R>, p: nat, k: nat, outcome: Outcome<R>)
    requires k < |CallsAt(env, p)|
  {
    var call := CallsAt(env, p)[k];
    var n := RunNumber(env, p, k);
    match outcome
    case Reviewed(_, _) => false
    case Failed(ToolContract, usage, steps) =>
      !IsReady(call) && !IsGarbled(call) && usage == Spent(env, p + 1) && steps == p + 1
    case Failed(ToolBudget, usage, steps) =>
      IsReady(call) && n > 2 * env.Limit() && usage == Spent(env, p + 1) && steps == p + 1
    case Failed(AnalyzerContract, usage, steps) =>
      Runs(env, p, k) && env.analyzer(n) == Rejected && usage == Spent(env, p + 1) && steps == p + 1
    case Failed(_, _, _) => false
    case Infrastructure => Runs(env, p, k) && env.analyzer(n) == Unavailable
    case AnalyzerNotJson => Runs(env, p, k) && env.analyzer(n) == NotJson
    case Inconclusive => Runs(env, p, k) && env.analyzer(n).Returned? && Undecidable(env.analyzer(n).value)
  }

  /** A second answer in a row without a tool call, a submission beside another call, or one
      that is neither well-formed nor merely garbled. */
  ghost predicate BreaksToolContract<R>(env: Env<R>, p: nat) {
    var calls := CallsAt(env, p);
    || (Toolless(env, p) && p > 0 && Toolless(env, p - 1))
    || (HasSubmission(calls) && (|calls| > 1 || (!IsReady(calls[0]) && !IsGarbled(calls[0]))))
  }

  /** The answer at `p`, the first to end a run, ends it in this outcome. */
  ghost predicate EndsIn<R>(env: Env<R>, p: nat, outcome: Outcome<R>) {
    match outcome
    case Reviewed(_, _) =>
      Affordable(env, p + 1) && Submitted(env, p, outcome.review) && outcome.usage == Spent(env, p + 1)
    case Failed(_, _, _) =>
      && outcome.usage == Spent(env, p + 1) && outcome.steps == p + 1
      && (outcome.code == ResponseContract ==> env.model(p).BrokenContract?)
      && (outcome.code == TotalBudget ==> env.model(p).Turn? && !Affordable(env, p + 1))
      && (outcome.code == ToolContract ==>
            Affordable(env, p + 1) && (BreaksToolContract(env, p) || CallsEndIn(env, p, outcome)))
      && (outcome.code == ToolBudget || outcome.code == AnalyzerContract ==>
            Affordable(env, p + 1) && CallsEndIn(env, p, outcome))
      && outcome.code != StepBudget
    case Infrastructure => env.model(p).Unreachable? || (Affordable(env, p + 1) && CallsEndIn(env, p, outcome))
    case AnalyzerNotJson => Affordable(env, p + 1) && CallsEndIn(env, p, outcome)
    case Inconclusive => Affordable(env, p + 1) && CallsEndIn(env, p, outcome)
  }

  ghost predicate CallsEndIn<R>(env: Env<R>, p: nat, outcome: Outcome<R>) {
    exists k: nat :: StopsAt(env, p, k) && CallEndsIn(env, p, k, outcome)
  }

  /** The answer at `p` lets the conversation go on. */
  ghost predicate GoesOn<R>(env: Env<R>, p: nat) {
    && env.model(p).Turn? && Affordable(env, p + 1) && !BreaksToolContract(env, p)
    && var calls := CallsAt(env, p);
       if HasSubmission(calls) then IsReady(calls[0]) ==> env.parse(calls[0].arguments.text).None?
       else forall k :: 0 <= k < |calls| ==> IsAnswered(env, p, k)
  }

  /** What the `k`th call of the answer at `p` is told. */
  ghost function Told<R>(env: Env<R>, p: nat, k: nat): Body
    requires k < |CallsAt(env, p)|
  {
    if IsGarbled(CallsAt(env, p)[k]) then InvalidArguments
    else if HasSubmission(CallsAt(env, p)) then InvalidReview
    else
      var found := env.analyzer(RunNumber(env, p, k));
      if found.Returned? && !ContainsTruncation(found.value) then Analysis(found.value) else PartialWithheld
  }

  ghost function Replies<R>(env: Env<R>, p: nat, n: nat): seq<Item>
    requires n <= |CallsAt(env, p)|
  {
    seq(n, k requires 0 <= k < n => Reply(OrEmpty(CallsAt(env, p)[k].callId), Told(env, p, k)))
  }

  function OrEmpty(id: Option<string>): string {
    if id.Some? then id.value else ""
  }

  /** What is posted after `n` answers: the prompt, and each answer with what it was told. */
  ghost function Transcript<R>(env: Env<R>, n: nat): seq<Item> {
    if n == 0 then [Prompt]
    else
      var output := if env.model(n - 1).Turn? then env.model(n - 1).output else [];
      var calls := CallsAt(env, n - 1);
      Received(Transcript(env, n - 1), output) + if calls == [] then [Nudge] else Replies(env, n - 1, |calls|)
  }

  /** Where a run stands after `n` answers that let it go on. */
  ghost function StateAt<R>(env: Env<R>, n: nat): State {
    State(
      Transcript(env, n), Spent(env, n), ModelsHeard(env, n), ToolsUsed(env, n), |ToolsUsed(env, n)|,
      if n > 0 && Toolless(env, n - 1) then 1 else 0)
  }

  /** Within the answer at `p`, before its `k`th call. */
  ghost function StateWithin<R>(env: Env<R>, p: nat, k: nat): State
    requires env.model(p).Turn? && k <= |CallsAt(env, p)|
  {
    var tools := ToolsUsed(env, p) + Started(CallsAt(env, p), k);
    State(
      Received(Transcript(env, p), env.model(p).output) + Replies(env, p, k), Spent(env, p + 1),
      ModelsHeard(env, p + 1), tools, |tools|, 0)
  }

  /** What Python takes for false. */
  predicate IsNothing(value: Data) {
    value == Null || value == Bool(false) || value == Number(0.0) || value == Str("") || value == List([]) || value == Dict([])
  }

  lemma TruthyIff(members: seq<(string, Data)>, name: string)
    ensures HasTruthy(members, name) <==>
      exists k :: 0 <= k < |members| && members[k].0 == name && !IsNothing(members[k].1)
  {
    forall k | 0 <= k < |members| ensures Truthy(members[k].1) <==> !IsNothing(members[k].1) {}
  }

  lemma UndecidableIff(value: Data)
    ensures Undecidable(value) <==> ContainsTruncation(value) && (!value.Dict? || HasTruthy(value.members, "error"))
  {
    TruncationIsExact(value);
    if value.Dict? { TruthyIff(value.members, "error"); }
    hide Truthy, IsNothing;
  }

  lemma CallIsTold<R>(env: Env<R>, p: nat, k: nat)
    requires env.model(p).Turn? && k < |CallsAt(env, p)| && !HasSubmission(CallsAt(env, p))
    ensures var done := AnswerCall(env, StateWithin(env, p, k), CallsAt(env, p)[k], p + 1);
      if done.Going? then IsAnswered(env, p, k) && done.state == StateWithin(env, p, k + 1)
      else !IsAnswered(env, p, k) && CallEndsIn(env, p, k, done.outcome)
  {
    hide Received, Transcript, ToolsUsed, ModelsHeard, Spent, CallsAt, Undecidable, ContainsTruncation, HasTruthy;
    assert Replies(env, p, k + 1) == Replies(env, p, k) + [Reply(OrEmpty(CallsAt(env, p)[k].callId), Told(env, p, k))];
    var n := RunNumber(env, p, k);
    if env.analyzer(n).Returned? {
      UndecidableIff(env.analyzer(n).value);
    }
  }

  lemma {:induction false} CallsAreTold<R>(env: Env<R>, p: nat, k: nat)
    requires env.model(p).Turn? && k <= |CallsAt(env, p)| && !HasSubmission(CallsAt(env, p))
    requires forall j :: 0 <= j < k ==> IsAnswered(env, p, j)
    ensures var done := AnswerCalls(env, StateWithin(env, p, k), CallsAt(env, p), k, p + 1);
      var n := |CallsAt(env, p)|;
      if done.Going? then done.state == StateWithin(env, p, n) && forall j :: 0 <= j < n ==> IsAnswered(env, p, j)
      else CallsEndIn(env, p, done.outcome)
    decreases |CallsAt(env, p)| - k
  {
    hide StateWithin, AnswerCall, IsAnswered, CallEndsIn, CallsAt;
    if k < |CallsAt(env, p)| {
      CallIsTold(env, p, k);
      if IsAnswered(env, p, k) {
        CallsAreTold(env, p, k + 1);
      } else {
        assert StopsAt(env, p, k);
      }
    }
  }

  lemma SubmissionIsTold<R>(env: Env<R>, p: nat)
    requires env.model(p).Turn? && Affordable(env, p + 1) && HasSubmission(CallsAt(env, p)) && |CallsAt(env, p)| == 1
    ensures var done := Submit(env, StateWithin(env, p, 0), CallsAt(env, p)[0], p + 1);
      if done.Going? then GoesOn(env, p) && done.state == StateWithin(env, p, 0).(items := Transcript(env, p + 1))
      else !GoesOn(env, p) && EndsIn(env, p, done.outcome) && done.last == StateWithin(env, p, 0)
  {
    hide Spent, Affordable, ToolsUsed, ModelsHeard, Received;
    var call := CallsAt(env, p)[0];
    assert call.name == Some("submit_l2_review");
    assert Replies(env, p, 1) == [Reply(OrEmpty(call.callId), Told(env, p, 0))];
  }

  lemma HeardIsWithin<R>(env: Env<R>, p: nat)
    requires env.model(p).Turn?
    ensures StateAt(env, p).(
      items := Received(Transcript(env, p), env.model(p).output),
      usage := AddUsage(Spent(env, p), TurnUsage(env.model(p).tokens)),
      models := ModelsHeard(env, p) + Named(env.model(p).servedBy), idle := 0) == StateWithin(env, p, 0)
  {
    hide Received, AddUsage, TurnUsage, ToolsUsed, Transcript;
    assert Replies(env, p, 0) == [];
    assert ToolsUsed(env, p) + Started(CallsAt(env, p), 0) == ToolsUsed(env, p);
  }

  lemma AllWithin<R>(env: Env<R>, p: nat)
    requires env.model(p).Turn? && CallsAt(env, p) != [] && !HasSubmission(CallsAt(env, p))
    ensures StateWithin(env, p, |CallsAt(env, p)|) == StateAt(env, p + 1)
  {
    hide Received, Spent, ModelsHeard, Calls, HasSubmission, Started, Replies;
    assert ToolsUsed(env, p + 1) == ToolsUsed(env, p) + Started(CallsAt(env, p), |CallsAt(env, p)|);
    hide ToolsUsed;
    assert Transcript(env, p + 1)
      == Received(Transcript(env, p), env.model(p).output) + Replies(env, p, |CallsAt(env, p)|);
    hide Transcript;
    assert !Toolless(env, p);
  }

  lemma NoneWithin<R>(env: Env<R>, p: nat)
    requires env.model(p).Turn? && HasSubmission(CallsAt(env, p))
    ensures StateWithin(env, p, 0).(items := Transcript(env, p + 1)) == StateAt(env, p + 1)
  {
    hide Received, Spent, ModelsHeard, Calls, Transcript, Replies;
    assert !Toolless(env, p);
    assert Started(CallsAt(env, p), 0) == [];
    assert ToolsUsed(env, p + 1) == ToolsUsed(env, p);
  }

  lemma NudgeWithin<R>(env: Env<R>, p: nat)
    requires Toolless(env, p)
    ensures StateAt(env, p + 1)
      == StateWithin(env, p, 0).(items := Received(Transcript(env, p), env.model(p).output) + [Nudge], idle := 1)
  {
    hide Received, Spent, ModelsHeard, Calls, Replies;
    assert Started(CallsAt(env, p), 0) == [];
    assert ToolsUsed(env, p + 1) == ToolsUsed(env, p);
    hide ToolsUsed;
    assert Transcript(env, p + 1) == Received(Transcript(env, p), env.model(p).output) + [Nudge];
  }

  lemma CallsEndIsEnd<R>(env: Env<R>, p: nat, outcome: Outcome<R>)
    requires env.model(p).Turn? && Affordable(env, p + 1) && CallsEndIn(env, p, outcome)
    ensures !GoesOn(env, p) && EndsIn(env, p, outcome) && !outcome.Reviewed?
  {
    hide Spent, Affordable, IsAnswered, Calls, Runs, Undecidable, RunNumber, IsReady, IsGarbled;
  }

  /** One step: it goes on to where the answers so far lead, or ends as the answer says. */
  lemma StepIsTold<R>(env: Env<R>, p: nat)
    ensures var done := Step(env, StateAt(env, p), p);
      if done.Going? then GoesOn(env, p) && done.state == StateAt(env, p + 1)
      else
        && !GoesOn(env, p) && EndsIn(env, p, done.outcome)
        && (done.outcome.Reviewed? ==>
              done.last.models == ModelsHeard(env, p + 1) && done.last.tools == ToolsUsed(env, p + 1))
  {
    hide Received, WithinBudget, AddUsage, TurnUsage, AnswerCalls, Submit, Calls, IsAnswered, CallsEndIn, AnySubmits,
         HasSubmission, StateWithin, Transcript;
    AddNoUsage(Spent(env, p));
    if env.model(p).Turn? && Affordable(env, p + 1) {
      var calls := CallsAt(env, p);
      SubmissionIff(calls);
      HeardIsWithin(env, p);
      if calls == [] {
        NudgeWithin(env, p);
      } else if HasSubmission(calls) {
        NoneWithin(env, p);
        if |calls| == 1 { SubmissionIsTold(env, p); }
      } else {
        AllWithin(env, p);
        CallsAreTold(env, p, 0);
        var done := Step(env, StateAt(env, p), p);
        assert done == AnswerCalls(env, StateWithin(env, p, 0), calls, 0, p + 1);
        if done.Done? { CallsEndIsEnd(env, p, done.outcome); }
      }
    }
  }

  lemma SubmissionIff(calls: seq<Call>)
    ensures AnySubmits(calls) <==> HasSubmission(calls)
    ensures calls == [] ==> !HasSubmission(calls)
  {
    if AnySubmits(calls) {
      var k :| 0 <= k < |calls| && Submits(calls[k]);
      assert calls[k].name == Some("submit_l2_review");
    }
    if HasSubmission(calls) {
      var k :| 0 <= k < |calls| && calls[k].name == Some("submit_l2_review");
      assert Submits(calls[k]);
    }
  }

  lemma {:induction false} RunIsToldFrom<R>(env: Env<R>, p: nat)
    requires p <= env.Limit()
    ensures var t := RunFrom(env, StateAt(env, p), p);
      var n := p + |t.posts|;
      && n <= env.Limit()
      && (forall q :: p <= q < n ==> t.posts[q - p] == Transcript(env, q))
      && (forall q :: p <= q < n - 1 ==> GoesOn(env, q))
      && (if n > p && !GoesOn(env, n - 1) then EndsIn(env, n - 1, t.outcome)
          else n == env.Limit() && t.outcome == Failed(StepBudget, Spent(env, n), n))
      && (t.outcome.Reviewed? ==> t.last.models == ModelsHeard(env, n) && t.last.tools == ToolsUsed(env, n))
    decreases env.Limit() - p
  {
    hide Step, GoesOn, EndsIn, Transcript, Spent, ModelsHeard, ToolsUsed, Toolless;
    if p < env.Limit() {
      StepIsTold(env, p);
      if GoesOn(env, p) { RunIsToldFrom(env, p + 1); }
    }
  }

  /** A run, from the answers alone: it posts the transcripts of the answers that let it go
      on, up to the first that does not, which ends it as told, or up to the limit. */
  lemma RunIsTold<R>(env: Env<R>)
    ensures var t := Run(env);
      var n := |t.posts|;
      && n <= env.Limit()
      && (forall p :: 0 <= p < n ==> t.posts[p] == Transcript(env, p))
      && (forall p :: 0 <= p < n - 1 ==> GoesOn(env, p))
      && (if n > 0 && !GoesOn(env, n - 1) then EndsIn(env, n - 1, t.outcome)
          else n == env.Limit() && t.outcome == Failed(StepBudget, Spent(env, n), n))
      && (t.outcome.Reviewed? ==> t.last.models == ModelsHeard(env, n) && t.last.tools == ToolsUsed(env, n))
  {
    assert START == StateAt(env, 0);
    hide Step, GoesOn, EndsIn, Transcript, StateAt, RunFrom, Spent, ModelsHeard, ToolsUsed;
    RunIsToldFrom(env, 0);
    var t := Run(env);
    forall p | 0 <= p < |t.posts| ensures t.posts[p] == Transcript(env, p) {
      assert t.posts[p - 0] == Transcript(env, p);
    }
  }

  lemma OneEnd<R>(env: Env<R>, p: nat, a: Outcome<R>, b: Outcome<R>)
    requires EndsIn(env, p, a) && EndsIn(env, p, b)
    ensures a == b
  {
    hide Spent, Affordable, ToolsUsed, IsAnswered, Undecidable, Calls;
  }

  lemma EndIsNotOn<R>(env: Env<R>, p: nat, outcome: Outcome<R>)
    requires EndsIn(env, p, outcome)
    ensures !GoesOn(env, p)
  {
    hide Spent, Affordable, IsAnswered, CallEndsIn, Calls;
  }

  /** Every outcome, exactly: the last answer ends the run in it, or the limit is reached on
      an answer that would have let it go on. */
  lemma OutcomeIff<R>(env: Env<R>, outcome: Outcome<R>)
    ensures var n := |Run(env).posts|;
      Run(env).outcome == outcome <==>
        || (n > 0 && EndsIn(env, n - 1, outcome))
        || (n == env.Limit() && (n > 0 ==> GoesOn(env, n - 1)) && outcome == Failed(StepBudget, Spent(env, n), n))
  {
    hide Run, EndsIn, GoesOn, Spent;
    RunIsTold(env);
    var n := |Run(env).posts|;
    if n > 0 && EndsIn(env, n - 1, outcome) {
      EndIsNotOn(env, n - 1, outcome);
      OneEnd(env, n - 1, outcome, Run(env).outcome);
    }
  }

  /** A review comes back exactly when the last answer submitted it, alone and well-formed,
      within the caps; it comes with the analyzers run and the models heard. */
  lemma ReviewedIff<R>(env: Env<R>, review: R)
    ensures var t := Run(env);
      var n := |t.posts|;
      && (t.outcome == Reviewed(review, Spent(env, n)) <==>
            n > 0 && Affordable(env, n) && Submitted(env, n - 1, review))
      && (t.outcome.Reviewed? ==>
            t.outcome.usage == Spent(env, n) && t.last.models == ModelsHeard(env, n) && t.last.tools == ToolsUsed(env, n))
  {
    hide Run, Affordable, Submitted, GoesOn;
    var n := |Run(env).posts|;
    RunIsTold(env);
    OutcomeIff(env, Reviewed(review, Spent(env, n)));
    OutcomeIff(env, Run(env).outcome);
  }
}

/**
 One agent run: model -> tools -> model, bounded by the budget before the first call and
 by the number of model calls, with every tool call going through the registry.  The
 model is arbitrary, and so is the policy table, which may change between two calls.
 */
module AgentRun {
  import opened AgentRepository
  import opened AutonomyPolicy
  import opened JsonValue
  import Money
  import opened Wrappers

  /** A registered tool: its cell of the permission matrix, how to read the action off the arguments, its handler. */
  datatype Tool = Tool(resource: string, access: string, extract: Option<Json -> Action>, handle: Json -> Json)

  datatype Answer =
    | NotConfigured
    | CallFailed
    | Reply(text: string, calls: seq<(string, Json)>, inputTokens: int, outputTokens: int)

  /**
   The run's surroundings.  `allows` is the matrix row of the role "agent"; `policies`
   answers the n-th policy lookup of the run; `model` gives its n-th answer.
   */
  datatype Env = Env(
    tools: map<string, Tool>,
    allows: (string, string) -> bool,
    policies: (nat, string) -> Option<Policy>,
    model: nat -> Answer)

  // ---------------------------------------------------------------------------
  // The registry
  // ---------------------------------------------------------------------------

  datatype ToolOutcome = ToolOutcome(status: CallStatus, result: Json, decision: Option<Mode>, why: Why)

  const NO_RESULT := Object(map[])

  function ActionOf(tool: Tool, name: string, args: Json): Action {
    var a := if tool.extract.Some? then tool.extract.value(args) else Action("", None, None, None, false);
    a.(name := name)
  }

  /** Known tool, then matrix, then policy. */
  function Outcome(env: Env, lookup: nat, name: string, args: Json): ToolOutcome {
    if name !in env.tools then ToolOutcome(Refused, NO_RESULT, None, UnknownTool)
    else if !env.allows(env.tools[name].resource, env.tools[name].access) then
      ToolOutcome(Refused, NO_RESULT, None, DeniedByMatrix)
    else
      var policy, action := env.policies(lookup, name), ActionOf(env.tools[name], name, args);
      var why := ByPolicy(Explanation(policy, action));
      match Verdict(policy, action)
      case Forbid => ToolOutcome(Refused, NO_RESULT, Some(Forbid), why)
      case Approve => ToolOutcome(NeedsApproval, NO_RESULT, Some(Approve), why)
      case Auto => ToolOutcome(Executed, env.tools[name].handle(args), Some(Auto), why)
  }

  class ToolRegistry {
    const allows: (string, string) -> bool
    var tools: map<string, Tool>
    /** The handler invocations so far, in order. */
    var invoked: seq<(string, Json)>

    constructor (allows: (string, string) -> bool)
      ensures this.allows == allows && tools == map[] && invoked == []
    {
      this.allows, this.tools, this.invoked := allows, map[], [];
    }

    /** A name that is taken keeps the tool it has. */
    method Add(name: string, tool: Tool)
      modifies `tools
      ensures tools == if name in old(tools) then old(tools) else old(tools)[name := tool]
    {
      if name !in tools {
        tools := tools[name := tool];
      }
    }

    predicate Knows(name: string)
      reads this
    {
      name in tools
    }

    /** The only way to a handler. */
    method Execute(ghost env: Env, ghost lookup: nat, name: string, args: Json, policy: Option<Policy>)
      returns (o: ToolOutcome)
      requires env.tools == tools && env.allows == allows && policy == env.policies(lookup, name)
      modifies `invoked
      ensures o == Outcome(env, lookup, name, args)
      ensures invoked == old(invoked) + if o.status == Executed then [(name, args)] else []
    {
      if !Knows(name) {
        return ToolOutcome(Refused, NO_RESULT, None, UnknownTool);
      }
      var tool := tools[name];
      if !allows(tool.resource, tool.access) {
        return ToolOutcome(Refused, NO_RESULT, None, DeniedByMatrix);
      }
      var decision := Evaluate(policy, ActionOf(tool, name, args));
      if decision.mode == Forbid {
        return ToolOutcome(Refused, NO_RESULT, Some(decision.mode), ByPolicy(decision.reason));
      }
      if decision.mode == Approve {
        return ToolOutcome(NeedsApproval, NO_RESULT, Some(decision.mode), ByPolicy(decision.reason));
      }
      invoked := invoked + [(name, args)];
      o := ToolOutcome(Executed, tool.handle(args), Some(decision.mode), ByPolicy(decision.reason));
    }
  }

  // ---------------------------------------------------------------------------
  // What the approver reads
  // ---------------------------------------------------------------------------

  const TWO_63: int := 0x8000_0000_0000_0000
  const TWO_64: int := 0x1_0000_0000_0000_0000

  /** The integers a JSON document keeps as integers: signed or unsigned words of 64 bits; any other is a float. */
  predicate StoredAsInteger(n: int) { -TWO_63 <= n < TWO_64 }

  /** Reading a stored integer as a signed word of 64 bits. */
  function AsSigned(n: int): int { if n < TWO_63 then n else n - TWO_64 }

  /** The integer amount among the arguments, as the server reads it. */
  function AmountIn(args: Json): Option<int> {
    if args.Object? && "amount_tiyn" in args.fields then
      match args.fields["amount_tiyn"]
      case Number(n) => if StoredAsInteger(n) then Some(AsSigned(n)) else None
      case _ => None
    else None
  }

  function TextIn(args: Json, key: string): Option<string> {
    if args.Object? && key in args.fields && args.fields[key].String? then Some(args.fields[key].s) else None
  }

  /** The description, were every amount printable. */
  function Description(action: string, args: Json): string {
    action + AmountPart(AmountIn(args)) + TextPart(", контрагент ", TextIn(args, "counterparty_name")) +
    TextPart(", документ ", TextIn(args, "doc_type"))
  }

  function AmountPart(amount: Option<int>): string {
    if amount.None? then "" else ", сумма " + Money.Printed(amount.value) + " ₸"
  }

  function TextPart(caption: string, text: Option<string>): string {
    if text.None? then "" else caption + text.value
  }

  /** None stands for the exception that printing a negative amount throws. */
  function Described(action: string, args: Json): Option<string> {
    if NegativeAmount(args) then None else Some(Description(action, args))
  }

  /** An integer amount below zero, or one so large that it wraps below zero. */
  predicate NegativeAmount(args: Json) {
    args.Object? && "amount_tiyn" in args.fields && args.fields["amount_tiyn"].Number? &&
    var n := args.fields["amount_tiyn"].n;
    -TWO_63 <= n < 0 || TWO_63 <= n < TWO_64
  }

  /** human_diff(): what the inbox of approvals shows. */
  method HumanDiff(action: string, args: Json) returns (diff: Option<string>)
    ensures diff == Described(action, args)
  {
    var out := action;
    var amount := AmountIn(args);
    if amount.Some? {
      var printed := Money.FormatTiynRu(amount.value);
      if printed.None? {
        return None;
      }
      out := out + (", сумма " + printed.value + " ₸");
    }
    assert out == action + AmountPart(amount);
    var counterparty := TextIn(args, "counterparty_name");
    if counterparty.Some? {
      out := out + (", контрагент " + counterparty.value);
    }
    assert out == action + AmountPart(amount) + TextPart(", контрагент ", counterparty);
    var docType := TextIn(args, "doc_type");
    if docType.Some? {
      out := out + (", документ " + docType.value);
    }
    assert out == Description(action, args);
    return Some(out);
  }

  // ---------------------------------------------------------------------------
  // The loop, as a function of its surroundings
  // ---------------------------------------------------------------------------

  /** What a run has written so far: its steps, the handlers it invoked, the policies it looked up. */
  datatype Progress = Progress(steps: seq<StepKind>, invoked: seq<(string, Json)>, lookups: nat)

  /** What becomes of a call, given how many policies were looked up before it. */
  type Judge = (nat, string, Json) -> ToolOutcome

  function Judging(env: Env): Judge { (lookup: nat, name: string, args: Json) => Outcome(env, lookup, name, args) }

  function Called(judge: Judge, p: Progress, name: string, args: Json): Progress {
    var o := judge(p.lookups, name, args);
    Progress(p.steps + [ToolCall(name, args, o.status, o.decision, o.why)],
             p.invoked + if o.status == Executed then [(name, args)] else [],
             p.lookups + if o.decision.Some? then 1 else 0)
  }

  /** The calls of one reply, up to and including the first that needs approval. */
  function CallAll(judge: Judge, p: Progress, calls: seq<(string, Json)>): (Progress, Option<(string, Json)>)
    decreases |calls|
  {
    if calls == [] then (p, None)
    else
      var next := Called(judge, p, calls[0].0, calls[0].1);
      if judge(p.lookups, calls[0].0, calls[0].1).status == NeedsApproval then (next, Some(calls[0]))
      else CallAll(judge, next, calls[1..])
  }

  /**
   How a run ends.  `stop` is the call that needed approval, if the run stopped at one;
   the status is Running when an exception left the function there, before the approval
   was requested and before the run was finished.
   */
  datatype Ending = Ending(
    progress: Progress,
    modelCalls: nat,
    inputTokens: int,
    outputTokens: int,
    status: Status,
    stop: Option<(string, Json)>,
    answer: string)

  function Failure(p: Progress, modelCalls: nat, input: int, output: int): Ending {
    Ending(p.(steps := p.steps + [Error]), modelCalls, input, output, Failed, None, "")
  }

  function StoppedStatus(call: (string, Json)): Status {
    if Described(call.0, call.1).Some? then AwaitingApproval else Running
  }

  /** The rounds from the i-th model call on, with `left` calls to go. */
  function Rounds(env: Env, p: Progress, i: nat, left: nat, input: int, output: int): Ending
    decreases left
  {
    if left == 0 then Failure(p, i, input, output)
    else
      match env.model(i)
      case NotConfigured => Failure(p, i + 1, input, output)
      case CallFailed => Failure(p, i + 1, input, output)
      case Reply(text, calls, inp, outp) =>
        var q := p.(steps := p.steps + [ModelReply(|calls|)]);
        var (ip, op) := (input + inp, output + outp);
        if calls == [] then
          if text == "" then Failure(q, i + 1, ip, op)
          else Ending(q, i + 1, ip, op, Succeeded, None, text)
        else
          var (r, stop) := CallAll(Judging(env), q, calls);
          if stop.Some? then Ending(r, i + 1, ip, op, StoppedStatus(stop.value), stop, "")
          else Rounds(env, r.(steps := r.steps + [ToolResult]), i + 1, left - 1, ip, op)
  }

  const REFUSED_FOR_BUDGET := Ending(Progress([Error], [], 0), 0, 0, 0, BudgetExceeded, None, "")

  predicate BudgetExhausted(budget: Option<int>, spent: int) {
    budget.Some? && spent >= budget.value
  }

  function RunEnding(env: Env, budget: Option<int>, spent: int, maxModelCalls: int): Ending {
    if BudgetExhausted(budget, spent) then
      REFUSED_FOR_BUDGET
    else
      Rounds(env, Progress([Prompt], [], 0), 0, if maxModelCalls < 0 then 0 else maxModelCalls, 0, 0)
  }

  // ---------------------------------------------------------------------------
  // The loop, as it runs
  // ---------------------------------------------------------------------------

  /** The tables and the registry as a run found them. */
  datatype Before = Before(
    runs: seq<Run>, steps: seq<Step>, approvals: seq<Approval>, finished: seq<nat>, invoked: seq<(string, Json)>)

  ghost function Snapshot(repo: Repository, registry: ToolRegistry): Before
    reads repo, registry
  {
    Before(repo.runs, repo.steps, repo.approvals, repo.finished, registry.invoked)
  }

  /** A run that is going on has added its row, its steps and its invocations, and nothing else. */
  ghost predicate Ongoing(repo: Repository, registry: ToolRegistry, was: Before, org: string, now: int,
                          p: Progress, input: int, output: int)
    reads repo, registry
  {
    && repo.Valid()
    && repo.runs == was.runs + [Run(org, now, Running, input, output, 0)]
    && KindsOf(repo.steps, |was.runs|) == p.steps
    && (forall r :: r != |was.runs| ==> KindsOf(repo.steps, r) == KindsOf(was.steps, r))
    && repo.approvals == was.approvals && repo.finished == was.finished
    && registry.invoked == was.invoked + p.invoked
  }

  /** The request for approval a run leaves behind, if it got as far as that. */
  function Requested(org: string, run: nat, e: Ending): seq<Approval> {
    if e.stop.None? then []
    else
      var (name, args) := e.stop.value;
      match Described(name, args)
      case None => []
      case Some(diff) => [Approval(org, run, name, args, diff, Pending, None)]
  }

  /** What a run leaves behind, given how it ended: finished once or left running, and at no cost. */
  ghost predicate Recorded(repo: Repository, registry: ToolRegistry, was: Before, org: string, now: int, e: Ending)
    reads repo, registry
  {
    && repo.Valid()
    && repo.runs == was.runs + [Run(org, now, e.status, e.inputTokens, e.outputTokens, 0)]
    && KindsOf(repo.steps, |was.runs|) == e.progress.steps
    && (forall r :: r != |was.runs| ==> KindsOf(repo.steps, r) == KindsOf(was.steps, r))
    && repo.approvals == was.approvals + Requested(org, |was.runs|, e)
    && repo.finished == was.finished + (if e.status == Running then [] else [|was.runs|])
    && registry.invoked == was.invoked + e.progress.invoked
  }

  /** The last writes of an ending without approval: an error step if there is one, then the finish. */
  method Finish(repo: Repository, registry: ToolRegistry, ghost was: Before, org: string, ghost now: int, id: nat,
                ghost p: Progress, ghost e: Ending, status: Status, error: bool)
    requires Ongoing(repo, registry, was, org, now, p, e.inputTokens, e.outputTokens) && id == |was.runs|
    requires e.status == status != Running && e.stop.None?
    requires e.progress == if error then p.(steps := p.steps + [Error]) else p
    modifies repo
    ensures Recorded(repo, registry, was, org, now, e)
  {
    if error {
      repo.AppendStep(id, Error);
    }
    var _ := repo.FinishRun(org, id, status);
  }

  function ApprovalId(was: Before, e: Ending): Option<nat> {
    if e.status == AwaitingApproval then Some(|was.approvals|) else None
  }

  /** Stopping for approval: the description, the request, then the finish. */
  method Park(repo: Repository, registry: ToolRegistry, ghost was: Before, org: string, ghost now: int, id: nat,
              ghost e: Ending, call: (string, Json)) returns (status: Status, approvalId: Option<nat>)
    requires Ongoing(repo, registry, was, org, now, e.progress, e.inputTokens, e.outputTokens) && id == |was.runs|
    requires e.stop == Some(call) && e.status == StoppedStatus(call)
    modifies repo
    ensures status == e.status && approvalId == ApprovalId(was, e)
    ensures Recorded(repo, registry, was, org, now, e)
  {
    var diff := HumanDiff(call.0, call.1);
    if diff.None? {
      return Running, None;
    }
    var a := repo.RequestApproval(org, id, call.0, call.1, diff.value);
    var _ := repo.FinishRun(org, id, AwaitingApproval);
    return AwaitingApproval, Some(a);
  }

  /** A reply's bookkeeping, before anything is done about it: usage first, then the step. */
  method RecordReply(repo: Repository, registry: ToolRegistry, ghost was: Before, org: string, ghost now: int, id: nat,
                     ghost p: Progress, ghost input: int, ghost output: int, reply: Answer)
    requires Ongoing(repo, registry, was, org, now, p, input, output) && id == |was.runs| && reply.Reply?
    modifies repo
    ensures Ongoing(repo, registry, was, org, now, p.(steps := p.steps + [ModelReply(|reply.calls|)]),
                    input + reply.inputTokens, output + reply.outputTokens)
  {
    var _ := repo.AddUsage(org, id, reply.inputTokens, reply.outputTokens, 0);
    assert Ongoing(repo, registry, was, org, now, p, input + reply.inputTokens, output + reply.outputTokens);
    RecordStep(repo, registry, was, org, now, id, p, input + reply.inputTokens, output + reply.outputTokens,
               ModelReply(|reply.calls|));
  }

  /** One more step of this run's history. */
  method RecordStep(repo: Repository, registry: ToolRegistry, ghost was: Before, org: string, ghost now: int, id: nat,
                    ghost p: Progress, ghost input: int, ghost output: int, step: StepKind)
    requires Ongoing(repo, registry, was, org, now, p, input, output) && id == |was.runs|
    modifies repo
    ensures Ongoing(repo, registry, was, org, now, p.(steps := p.steps + [step]), input, output)
  {
    repo.AppendStep(id, step);
  }

  /** One tool call, with its step. */
  method ExecuteCall(repo: Repository, registry: ToolRegistry, env: Env, ghost was: Before, org: string,
                     ghost now: int, id: nat, ghost p: Progress, ghost input: int, ghost output: int,
                     name: string, args: Json, n: nat)
    returns (o: ToolOutcome)
    requires Ongoing(repo, registry, was, org, now, p, input, output) && id == |was.runs| && n == p.lookups
    requires registry.tools == env.tools && registry.allows == env.allows
    modifies repo, registry`invoked
    ensures o == Outcome(env, p.lookups, name, args)
    ensures Ongoing(repo, registry, was, org, now, Called(Judging(env), p, name, args), input, output)
  {
    o := registry.Execute(env, p.lookups, name, args, env.policies(n, name));
    repo.AppendStep(id, ToolCall(name, args, o.status, o.decision, o.why));
  }

  /** The tool calls of one reply; `stop` is the first that needs approval. */
  method ExecuteCalls(repo: Repository, registry: ToolRegistry, env: Env, ghost was: Before, org: string,
                      ghost now: int, id: nat, ghost p: Progress, ghost input: int, ghost output: int,
                      calls: seq<(string, Json)>, n: nat)
    returns (ghost q: Progress, lookups: nat, stop: Option<(string, Json)>)
    requires Ongoing(repo, registry, was, org, now, p, input, output) && id == |was.runs| && n == p.lookups
    requires registry.tools == env.tools && registry.allows == env.allows
    modifies repo, registry`invoked
    ensures (q, stop) == CallAll(Judging(env), p, calls) && lookups == q.lookups
    ensures Ongoing(repo, registry, was, org, now, q, input, output)
  {
    q, lookups, stop := p, n, None;
    for k := 0 to |calls|
      invariant CallAll(Judging(env), p, calls) == CallAll(Judging(env), q, calls[k..]) && lookups == q.lookups
      invariant Ongoing(repo, registry, was, org, now, q, input, output)
    {
      var (name, args) := calls[k];
      assert calls[k..][0] == calls[k] && calls[k..][1..] == calls[k + 1..];
      var o := ExecuteCall(repo, registry, env, was, org, now, id, q, input, output, name, args, lookups);
      q := Called(Judging(env), q, name, args);
      lookups := lookups + if o.decision.Some? then 1 else 0;
      if o.status == NeedsApproval {
        stop := Some((name, args));
        return;
      }
    }
  }

  /**
   How a round leaves the loop: by returning, by breaking with the model's answer, or not
   at all.  Returned with status Running stands for leaving by an exception.
   */
  datatype Turn = Returned(status: Status, approvalId: Option<nat>) | Answered(text: string) | Next

  /** The body of the loop. */
  method Round(repo: Repository, registry: ToolRegistry, env: Env, ghost was: Before, org: string,
               ghost now: int, id: nat, ghost p: Progress, i: nat, ghost left: nat, input: int, output: int, n: nat)
    returns (turn: Turn, ghost q: Progress, newInput: int, newOutput: int, lookups: nat)
    requires Ongoing(repo, registry, was, org, now, p, input, output) && id == |was.runs| && n == p.lookups && left > 0
    requires registry.tools == env.tools && registry.allows == env.allows
    modifies repo, registry`invoked
    ensures var e := Rounds(env, p, i, left, input, output);
            match turn
            case Returned(status, approvalId) =>
              && Recorded(repo, registry, was, org, now, e)
              && (status, i + 1, "") == (e.status, e.modelCalls, e.answer)
              && approvalId == ApprovalId(was, e)
            case Answered(text) =>
              && Ongoing(repo, registry, was, org, now, q, newInput, newOutput)
              && e == if text == "" then Failure(q, i + 1, newInput, newOutput)
                      else Ending(q, i + 1, newInput, newOutput, Succeeded, None, text)
            case Next =>
              && Ongoing(repo, registry, was, org, now, q, newInput, newOutput) && lookups == q.lookups
              && e == Rounds(env, q, i + 1, left - 1, newInput, newOutput)
  {
    ghost var e := Rounds(env, p, i, left, input, output);
    q, newInput, newOutput, lookups := p, input, output, n;
    var reply := env.model(i);
    if !reply.Reply? {
      Finish(repo, registry, was, org, now, id, p, e, Failed, true);
      return Returned(Failed, None), q, newInput, newOutput, lookups;
    }
    RecordReply(repo, registry, was, org, now, id, p, input, output, reply);
    newInput, newOutput := input + reply.inputTokens, output + reply.outputTokens;
    q := p.(steps := p.steps + [ModelReply(|reply.calls|)]);
    if reply.calls == [] {
      turn := Answered(reply.text);
      return;
    }
    var stop;
    q, lookups, stop :=
      ExecuteCalls(repo, registry, env, was, org, now, id, q, newInput, newOutput, reply.calls, lookups);
    if stop.Some? {
      var status, a := Park(repo, registry, was, org, now, id, e, stop.value);
      turn := Returned(status, a);
      return;
    }
    RecordStep(repo, registry, was, org, now, id, q, newInput, newOutput, ToolResult);
    q := q.(steps := q.steps + [ToolResult]);
    turn := Next;
  }

  /** The run's row and its first step. */
  method Begin(repo: Repository, registry: ToolRegistry, org: string, now: int) returns (id: nat)
    requires repo.Valid()
    modifies repo
    ensures id == |old(repo.runs)|
    ensures Ongoing(repo, registry, old(Snapshot(repo, registry)), org, now, Progress([Prompt], [], 0), 0, 0)
  {
    ghost var was := Snapshot(repo, registry);
    id := repo.StartRun(org, now);
    assert Ongoing(repo, registry, was, org, now, Progress([], [], 0), 0, 0);
    RecordStep(repo, registry, was, org, now, id, Progress([], [], 0), 0, 0, Prompt);
  }

  /** What an exhausted budget leaves behind: a run with nothing but the reason. */
  method RefuseForBudget(repo: Repository, registry: ToolRegistry, org: string, now: int) returns (id: nat)
    requires repo.Valid()
    modifies repo
    ensures id == |old(repo.runs)|
    ensures Recorded(repo, registry, old(Snapshot(repo, registry)), org, now, REFUSED_FOR_BUDGET)
  {
    ghost var was := Snapshot(repo, registry);
    id := repo.StartRun(org, now);
    Finish(repo, registry, was, org, now, id, Progress([], [], 0), REFUSED_FOR_BUDGET, BudgetExceeded, true);
  }

  /** The loop over the model calls and what follows it. */
  method Converse(repo: Repository, registry: ToolRegistry, env: Env, ghost was: Before, org: string, ghost now: int,
                  id: nat, maxModelCalls: int)
    returns (status: Status, answer: string, approvalId: Option<nat>, modelCalls: nat)
    requires Ongoing(repo, registry, was, org, now, Progress([Prompt], [], 0), 0, 0) && id == |was.runs|
    requires registry.tools == env.tools && registry.allows == env.allows
    modifies repo, registry`invoked
    ensures var e := Rounds(env, Progress([Prompt], [], 0), 0, if maxModelCalls < 0 then 0 else maxModelCalls, 0, 0);
            && Recorded(repo, registry, was, org, now, e)
            && (status, answer, modelCalls) == (e.status, e.answer, e.modelCalls)
            && approvalId == ApprovalId(was, e)
  {
    approvalId, answer, modelCalls := None, "", 0;
    var input, output, lookups := 0, 0, 0;
    ghost var p := Progress([Prompt], [], 0);
    var left: nat := if maxModelCalls < 0 then 0 else maxModelCalls;
    ghost var e := Rounds(env, p, 0, left, 0, 0);
    while left > 0
      invariant approvalId == None && answer == ""
      invariant Ongoing(repo, registry, was, org, now, p, input, output) && lookups == p.lookups
      invariant Rounds(env, p, modelCalls, left, input, output) == e
    {
      var turn;
      turn, p, input, output, lookups :=
        Round(repo, registry, env, was, org, now, id, p, modelCalls, left, input, output, lookups);
      modelCalls := modelCalls + 1;
      match turn {
        case Returned(s, a) =>
          status, approvalId := s, a;
          return;
        case Answered(text) =>
          answer := text;
          break;
        case Next =>
          left := left - 1;
      }
    }
    status := if answer == "" then Failed else Succeeded;
    Finish(repo, registry, was, org, now, id, p, e, status, answer == "");
  }

  /** run(): one agent run from the budget gate on; status Running stands for leaving by an exception. */
  method PerformRun(repo: Repository, registry: ToolRegistry, env: Env, org: string, now: int,
                    budget: Option<int>, since: int, maxModelCalls: int)
    returns (id: nat, status: Status, answer: string, approvalId: Option<nat>, modelCalls: nat)
    requires repo.Valid()
    requires registry.tools == env.tools && registry.allows == env.allows
    modifies repo, registry`invoked
    ensures var e := RunEnding(env, budget, CostSince(old(repo.runs), org, since), maxModelCalls);
            && Recorded(repo, registry, old(Snapshot(repo, registry)), org, now, e)
            && (id, status, answer, modelCalls) == (|old(repo.runs)|, e.status, e.answer, e.modelCalls)
            && approvalId == ApprovalId(old(Snapshot(repo, registry)), e)
  {
    ghost var was := Snapshot(repo, registry);
    if budget.Some? {
      var spent := CostSince(repo.runs, org, since);
      if spent >= budget.value {
        id := RefuseForBudget(repo, registry, org, now);
        return id, BudgetExceeded, "", None, 0;
      }
    }
    id := Begin(repo, registry, org, now);
    status, answer, approvalId, modelCalls := Converse(repo, registry, env, was, org, now, id, maxModelCalls);
  }

  // ---------------------------------------------------------------------------
  // Theorems about every run
  // ---------------------------------------------------------------------------

  /** How many policy lookups a trace shows: one per tool call that got as far as a verdict. */
  function Lookups(steps: seq<StepKind>): nat {
    if steps == [] then 0
    else
      var last := steps[|steps| - 1];
      Lookups(steps[..|steps| - 1]) + if last.ToolCall? && last.decision.Some? then 1 else 0
  }

  /** The calls recorded as executed, in order. */
  function ExecutedIn(steps: seq<StepKind>): seq<(string, Json)> {
    if steps == [] then []
    else
      var last := steps[|steps| - 1];
      ExecutedIn(steps[..|steps| - 1]) +
      if last.ToolCall? && last.status == Executed then [(last.tool, last.args)] else []
  }

  /** Each tool call is recorded with the outcome the registry had for it at that moment. */
  ghost predicate Faithful(judge: Judge, steps: seq<StepKind>) {
    forall k :: 0 <= k < |steps| && steps[k].ToolCall? ==>
      var o := judge(Lookups(steps[..k]), steps[k].tool, steps[k].args);
      (steps[k].status, steps[k].decision, steps[k].why) == (o.status, o.decision, o.why)
  }

  /** A call that needs approval is one the policy's verdict says so of. */
  ghost predicate Honest(judge: Judge) {
    forall lookup, name, args :: judge(lookup, name, args).status == NeedsApproval ==>
      judge(lookup, name, args).decision == Some(Approve)
  }

  ghost predicate AsksApproval(step: StepKind) { step.ToolCall? && step.status == NeedsApproval }

  ghost predicate NobodyAskedBefore(steps: seq<StepKind>, n: int)
    requires n <= |steps|
  {
    forall k :: 0 <= k < n ==> !AsksApproval(steps[k])
  }

  ghost predicate Sound(judge: Judge, p: Progress) {
    Faithful(judge, p.steps) && p.invoked == ExecutedIn(p.steps) && p.lookups == Lookups(p.steps)
  }

  /** Nobody asked for approval; or the last step did, and it alone. */
  ghost predicate StoppedFor(steps: seq<StepKind>, approval: Option<(string, Json)>) {
    if approval.None? then NobodyAskedBefore(steps, |steps|)
    else
      && steps != [] && NobodyAskedBefore(steps, |steps| - 1)
      && var last := steps[|steps| - 1];
         AsksApproval(last) && (last.tool, last.args) == approval.value && last.decision == Some(Approve)
  }

  lemma SoundAppend(judge: Judge, p: Progress, step: StepKind)
    requires Sound(judge, p) && !step.ToolCall?
    ensures Sound(judge, p.(steps := p.steps + [step]))
    ensures NobodyAskedBefore(p.steps, |p.steps|) ==> NobodyAskedBefore(p.steps + [step], |p.steps| + 1)
  {
    FaithfulAppend(judge, p.steps, step);
    QuietStep(p.steps, step);
    NobodyAskedAppend(p.steps, step);
  }

  /** A step that is no tool call neither invokes nor looks up anything. */
  lemma QuietStep(steps: seq<StepKind>, step: StepKind)
    requires !step.ToolCall?
    ensures ExecutedIn(steps + [step]) == ExecutedIn(steps) && Lookups(steps + [step]) == Lookups(steps)
  {
    assert (steps + [step])[..|steps|] == steps;
  }

  lemma NobodyAskedAppend(steps: seq<StepKind>, step: StepKind)
    requires !step.ToolCall?
    ensures NobodyAskedBefore(steps, |steps|) ==> NobodyAskedBefore(steps + [step], |steps| + 1)
  {
    if NobodyAskedBefore(steps, |steps|) {
      forall k | 0 <= k < |steps| + 1 ensures !AsksApproval((steps + [step])[k]) {
        if k < |steps| {
          assert (steps + [step])[k] == steps[k];
        }
      }
    }
  }

  /** A step appended to a faithful trace, itself recorded with its outcome, leaves it faithful. */
  lemma FaithfulAppend(judge: Judge, steps: seq<StepKind>, step: StepKind)
    requires Faithful(judge, steps)
    requires step.ToolCall? ==>
               var o := judge(Lookups(steps), step.tool, step.args);
               (step.status, step.decision, step.why) == (o.status, o.decision, o.why)
    ensures Faithful(judge, steps + [step])
  {
    var now := steps + [step];
    assert now[..|steps|] == steps;
    forall k | 0 <= k < |now| && now[k].ToolCall?
      ensures var o := judge(Lookups(now[..k]), now[k].tool, now[k].args);
              (now[k].status, now[k].decision, now[k].why) == (o.status, o.decision, o.why)
    {
      if k < |steps| {
        assert now[..k] == steps[..k] && now[k] == steps[k];
      }
    }
  }

  lemma SoundCall(judge: Judge, p: Progress, name: string, args: Json)
    requires Sound(judge, p)
    ensures Sound(judge, Called(judge, p, name, args))
  {
    var o := judge(p.lookups, name, args);
    var step := ToolCall(name, args, o.status, o.decision, o.why);
    FaithfulAppend(judge, p.steps, step);
    assert (p.steps + [step])[..|p.steps|] == p.steps;
  }

  lemma {:induction false} CallAllSound(judge: Judge, p: Progress, calls: seq<(string, Json)>)
    requires Honest(judge) && Sound(judge, p) && NobodyAskedBefore(p.steps, |p.steps|)
    ensures var (q, stop) := CallAll(judge, p, calls);
            Sound(judge, q) && StoppedFor(q.steps, stop)
    decreases |calls|
  {
    if calls != [] {
      var next := Called(judge, p, calls[0].0, calls[0].1);
      SoundCall(judge, p, calls[0].0, calls[0].1);
      assert next.steps[..|p.steps|] == p.steps;
      if judge(p.lookups, calls[0].0, calls[0].1).status != NeedsApproval {
        CallAllSound(judge, next, calls[1..]);
      }
    }
  }

  ghost predicate EndingSound(env: Env, e: Ending) {
    && Sound(Judging(env), e.progress) && StoppedFor(e.progress.steps, e.stop)
    && (e.stop.Some? ==> e.status == StoppedStatus(e.stop.value))
    && (e.stop.None? ==> e.status != AwaitingApproval && e.status != Running)
  }

  lemma FailureSound(env: Env, p: Progress, i: nat, input: int, output: int)
    requires Sound(Judging(env), p) && NobodyAskedBefore(p.steps, |p.steps|)
    ensures EndingSound(env, Failure(p, i, input, output))
  {
    SoundAppend(Judging(env), p, Error);
  }

  /** The trace after a reply, and the call it stops at. */
  function AfterReply(env: Env, p: Progress, reply: Answer): (Progress, Option<(string, Json)>)
    requires reply.Reply?
  {
    CallAll(Judging(env), p.(steps := p.steps + [ModelReply(|reply.calls|)]), reply.calls)
  }

  /** The i-th reply asks for tools and none of them needs approval. */
  predicate GoesOn(env: Env, p: Progress, i: nat, left: nat) {
    left > 0 && env.model(i).Reply? && env.model(i).calls != [] && AfterReply(env, p, env.model(i)).1.None?
  }

  function NextRound(env: Env, p: Progress, i: nat): Progress
    requires env.model(i).Reply?
  {
    var r := AfterReply(env, p, env.model(i)).0;
    r.(steps := r.steps + [ToolResult])
  }

  lemma RoundsGoOn(env: Env, p: Progress, i: nat, left: nat, input: int, output: int)
    requires GoesOn(env, p, i, left)
    ensures Rounds(env, p, i, left, input, output)
         == Rounds(env, NextRound(env, p, i), i + 1, left - 1,
                   input + env.model(i).inputTokens, output + env.model(i).outputTokens)
  {
  }

  /** One reply: either the run ends here, soundly, or the next round starts from a sound trace. */
  lemma ReplySound(env: Env, p: Progress, reply: Answer)
    requires Sound(Judging(env), p) && NobodyAskedBefore(p.steps, |p.steps|) && reply.Reply?
    ensures var q := p.(steps := p.steps + [ModelReply(|reply.calls|)]);
            Sound(Judging(env), q) && NobodyAskedBefore(q.steps, |q.steps|)
    ensures var (r, stop) := AfterReply(env, p, reply);
            Sound(Judging(env), r) && StoppedFor(r.steps, stop)
  {
    var q := p.(steps := p.steps + [ModelReply(|reply.calls|)]);
    SoundAppend(Judging(env), p, ModelReply(|reply.calls|));
    CallAllSound(Judging(env), q, reply.calls);
  }

  lemma LastRoundSound(env: Env, p: Progress, i: nat, left: nat, input: int, output: int)
    requires Sound(Judging(env), p) && NobodyAskedBefore(p.steps, |p.steps|) && !GoesOn(env, p, i, left)
    ensures EndingSound(env, Rounds(env, p, i, left, input, output))
  {
    FailureSound(env, p, if left == 0 then i else i + 1, input, output);
    if left > 0 && env.model(i).Reply? {
      var reply := env.model(i);
      ReplySound(env, p, reply);
      FailureSound(env, p.(steps := p.steps + [ModelReply(|reply.calls|)]), i + 1,
                   input + reply.inputTokens, output + reply.outputTokens);
    }
  }

  lemma NextRoundSound(env: Env, p: Progress, i: nat, left: nat)
    requires Sound(Judging(env), p) && NobodyAskedBefore(p.steps, |p.steps|) && GoesOn(env, p, i, left)
    ensures var r := NextRound(env, p, i); Sound(Judging(env), r) && NobodyAskedBefore(r.steps, |r.steps|)
  {
    ReplySound(env, p, env.model(i));
    SoundAppend(Judging(env), AfterReply(env, p, env.model(i)).0, ToolResult);
  }

  lemma {:induction false} RoundsSound(env: Env, p: Progress, i: nat, left: nat, input: int, output: int)
    requires Sound(Judging(env), p) && NobodyAskedBefore(p.steps, |p.steps|)
    ensures EndingSound(env, Rounds(env, p, i, left, input, output))
    decreases left
  {
    if GoesOn(env, p, i, left) {
      var reply := env.model(i);
      RoundsGoOn(env, p, i, left, input, output);
      NextRoundSound(env, p, i, left);
      RoundsSound(env, NextRound(env, p, i), i + 1, left - 1, input + reply.inputTokens, output + reply.outputTokens);
    } else {
      LastRoundSound(env, p, i, left, input, output);
    }
  }

  lemma RunSound(env: Env, budget: Option<int>, spent: int, maxModelCalls: int)
    ensures var e := RunEnding(env, budget, spent, maxModelCalls);
            EndingSound(env, e)
  {
    assert [Error][..0] == [] && [Prompt][..0] == [];
    if !BudgetExhausted(budget, spent) {
      RoundsSound(env, Progress([Prompt], [], 0), 0, if maxModelCalls < 0 then 0 else maxModelCalls, 0, 0);
    }
  }

  lemma {:induction false} ExecutedAt(steps: seq<StepKind>, j: nat) returns (k: nat)
    requires j < |ExecutedIn(steps)|
    ensures k < |steps| && steps[k].ToolCall? && steps[k].status == Executed
    ensures (steps[k].tool, steps[k].args) == ExecutedIn(steps)[j] && |ExecutedIn(steps[..k])| == j
  {
    var n := |steps| - 1;
    if j < |ExecutedIn(steps[..n])| {
      k := ExecutedAt(steps[..n], j);
      assert steps[..n][..k] == steps[..k];
    } else {
      k := n;
    }
  }

  /**
   Whatever the model says and however the policies change: the j-th handler invocation is
   the j-th tool_call step marked executed, its tool is registered, the matrix permits it,
   and the policy in force at that moment said auto.
   */
  lemma OnlyPermittedHandlersRun(env: Env, budget: Option<int>, spent: int, maxModelCalls: int, j: nat) returns (k: nat)
    requires j < |RunEnding(env, budget, spent, maxModelCalls).progress.invoked|
    ensures var p := RunEnding(env, budget, spent, maxModelCalls).progress;
            var (name, args) := p.invoked[j];
            && k < |p.steps| && |ExecutedIn(p.steps[..k])| == j
            && p.steps[k].ToolCall? && (p.steps[k].tool, p.steps[k].args, p.steps[k].status) == (name, args, Executed)
            && name in env.tools && env.allows(env.tools[name].resource, env.tools[name].access)
            && Verdict(env.policies(Lookups(p.steps[..k]), name), ActionOf(env.tools[name], name, args)) == Auto
            && env.policies(Lookups(p.steps[..k]), name).Some?
            && Within(env.policies(Lookups(p.steps[..k]), name).value, env.tools[name], args)
  {
    RunSound(env, budget, spent, maxModelCalls);
    var p := RunEnding(env, budget, spent, maxModelCalls).progress;
    k := ExecutedAt(p.steps, j);
    var (name, args) := p.invoked[j];
    AutomaticMeansWithinBounds(env.policies(Lookups(p.steps[..k]), name), ActionOf(env.tools[name], name, args));
  }

  /** What the tool's extractor says of the arguments stays within every bound of the policy. */
  predicate Within(p: Policy, tool: Tool, args: Json) {
    && (p.maxAmount.Some? ==>
          tool.extract.Some? && var amount := tool.extract.value(args).amount;
          amount.Some? && amount.value <= p.maxAmount.value)
    && (p.allowlist != [] ==>
          tool.extract.Some? && var counterparty := tool.extract.value(args).counterparty;
          counterparty.Some? && counterparty.value in p.allowlist)
    && (p.docType.Some? && tool.extract.Some? ==>
          var docType := tool.extract.value(args).docType;
          docType.Some? ==> docType.value == p.docType.value)
    && (p.requirePriorApproval ==> tool.extract.Some? && tool.extract.value(args).hasPriorApproval)
  }

  /** What becomes of a call, read off the tools, the matrix, the policy in force and the extractor. */
  lemma OutcomeIff(env: Env, lookup: nat, name: string, args: Json)
    ensures var o := Outcome(env, lookup, name, args);
            var may := name in env.tools && env.allows(env.tools[name].resource, env.tools[name].access);
            var policy := env.policies(lookup, name);
            && (o.status == Executed <==>
                  may && policy.Some? && policy.value.mode == Auto && Within(policy.value, env.tools[name], args))
            && (o.status == Refused <==> !may || (policy.Some? && policy.value.mode == Forbid))
            && (o.decision.Some? <==> may)
            && (o.status == Executed ==> o.result == env.tools[name].handle(args))
            && (o.why == UnknownTool <==> name !in env.tools)
            && (o.why == DeniedByMatrix <==> name in env.tools && !may)
  {
    if name in env.tools {
      var policy, action := env.policies(lookup, name), ActionOf(env.tools[name], name, args);
      AutomaticMeansWithinBounds(policy, action);
    }
  }

  /**
   Every handler that ran was within every bound of the policy in force at that moment: the
   amount, counterparty, document type and prior approval its own extractor reads off the
   arguments; a tool without extractor ran under no maximum, allowlist or prior-approval flag.
   */
  lemma InvocationsKeepBounds(env: Env, budget: Option<int>, spent: int, maxModelCalls: int, j: nat)
    returns (policy: Policy, lookup: nat)
    requires j < |RunEnding(env, budget, spent, maxModelCalls).progress.invoked|
    ensures var (name, args) := RunEnding(env, budget, spent, maxModelCalls).progress.invoked[j];
            && name in env.tools && env.policies(lookup, name) == Some(policy)
            && policy.mode == Auto && Within(policy, env.tools[name], args)
    ensures var (name, args) := RunEnding(env, budget, spent, maxModelCalls).progress.invoked[j];
            env.tools[name].extract.None? ==>
              policy.maxAmount.None? && policy.allowlist == [] && !policy.requirePriorApproval
  {
    var k := OnlyPermittedHandlersRun(env, budget, spent, maxModelCalls, j);
    var p := RunEnding(env, budget, spent, maxModelCalls).progress;
    var (name, args) := p.invoked[j];
    lookup := Lookups(p.steps[..k]);
    AutomaticMeansWithinBounds(env.policies(lookup, name), ActionOf(env.tools[name], name, args));
    policy := env.policies(lookup, name).value;
  }

  /** Every executed step was an invocation: the two lists are the same. */
  lemma ExecutedStepsAreInvocations(env: Env, budget: Option<int>, spent: int, maxModelCalls: int)
    ensures var p := RunEnding(env, budget, spent, maxModelCalls).progress;
            p.invoked == ExecutedIn(p.steps) && Faithful(Judging(env), p.steps)
  {
    RunSound(env, budget, spent, maxModelCalls);
  }

  /**
   The first outcome that needs approval ends the run: nothing is called or written after
   it.  It is what was asked for, unless its amount cannot be described.
   */
  lemma ApprovalStopsTheRun(env: Env, budget: Option<int>, spent: int, maxModelCalls: int, k: nat)
    requires k < |RunEnding(env, budget, spent, maxModelCalls).progress.steps|
    requires AsksApproval(RunEnding(env, budget, spent, maxModelCalls).progress.steps[k])
    ensures var e := RunEnding(env, budget, spent, maxModelCalls);
            var step := e.progress.steps[k];
            && k == |e.progress.steps| - 1 && e.stop == Some((step.tool, step.args))
            && e.status == if NegativeAmount(step.args) then Running else AwaitingApproval
    ensures var e := RunEnding(env, budget, spent, maxModelCalls);
            var step := e.progress.steps[k];
            forall org, run :: Requested(org, run, e) ==
              if NegativeAmount(step.args) then []
              else [Approval(org, run, step.tool, step.args, Description(step.tool, step.args), Pending, None)]
  {
    RunSound(env, budget, spent, maxModelCalls);
  }

  /** Some call in the trace needs approval and holds a negative amount. */
  ghost predicate StrandedAt(steps: seq<StepKind>) {
    exists k :: 0 <= k < |steps| && AsksApproval(steps[k]) && NegativeAmount(steps[k].args)
  }

  /**
   A run is left running, not finished and nothing asked for, if and only if it came to a
   call that needs approval and whose arguments hold a negative amount.
   */
  lemma LeftRunningIffNegativeAmount(env: Env, budget: Option<int>, spent: int, maxModelCalls: int)
    ensures var e := RunEnding(env, budget, spent, maxModelCalls);
            e.status == Running <==> StrandedAt(e.progress.steps)
  {
    var e := RunEnding(env, budget, spent, maxModelCalls);
    var steps := e.progress.steps;
    RunSound(env, budget, spent, maxModelCalls);
    if e.stop.Some? {
      assert AsksApproval(steps[|steps| - 1]);
    }
  }

  /**
   After a run the run is finished, once, if and only if it did not stop at such a call; if
   it did, its row stays running, with no request for approval beside it.
   */
  lemma FinishedOnceIffDescribable(repo: Repository, registry: ToolRegistry, was: Before, org: string, now: int,
                                   env: Env, budget: Option<int>, spent: int, maxModelCalls: int)
    requires Recorded(repo, registry, was, org, now, RunEnding(env, budget, spent, maxModelCalls))
    ensures var stranded := StrandedAt(KindsOf(repo.steps, |was.runs|));
            && (repo.finished == was.finished + [|was.runs|] <==> !stranded)
            && (repo.runs[|was.runs|].status == Running <==> stranded)
            && (stranded ==> repo.finished == was.finished && repo.approvals == was.approvals)
  {
    var e := RunEnding(env, budget, spent, maxModelCalls);
    LeftRunningIffNegativeAmount(env, budget, spent, maxModelCalls);
    RunSound(env, budget, spent, maxModelCalls);
    assert |was.finished + [|was.runs|]| != |was.finished|;
    assert e.status == Running ==> Requested(org, |was.runs|, e) == [];
  }

  /** One tool anybody may use, no policy for it, and a model that asks to pay minus one tiyn. */
  function StrandingEnv(): Env {
    Env(map["pay" := Tool("ledger", "write", None, args => args)],
        (resource, access) => true,
        (lookup, action) => None,
        call => Reply("", [("pay", Object(map["amount_tiyn" := Number(-1)]))], 1, 1))
  }

  lemma NegativeAmountStrandsTheRun()
    ensures var e := RunEnding(StrandingEnv(), None, 0, 12);
            && e.status == Running && e.modelCalls == 1 && Requested("", 0, e) == []
            && |e.progress.steps| == 3 && AsksApproval(e.progress.steps[2])
  {
    var env := StrandingEnv();
    var args := Object(map["amount_tiyn" := Number(-1)]);
    var p := Progress([Prompt, ModelReply(1)], [], 0);
    assert [Prompt] + [ModelReply(1)] == p.steps;
    assert NegativeAmount(args);
    assert Verdict(None, ActionOf(env.tools["pay"], "pay", args)) == Approve;
    assert Outcome(env, 0, "pay", args).status == NeedsApproval;
    assert CallAll(Judging(env), p, [("pay", args)]).1 == Some(("pay", args));
  }

  // ---------------------------------------------------------------------------
  // The trace is the conversation
  // ---------------------------------------------------------------------------

  /** The calls a trace records, in order, whatever became of them. */
  function CallsIn(steps: seq<StepKind>): seq<(string, Json)> {
    if steps == [] then []
    else
      var last := steps[|steps| - 1];
      CallsIn(steps[..|steps| - 1]) + if last.ToolCall? then [(last.tool, last.args)] else []
  }

  /** How many calls each recorded reply made. */
  function RepliesIn(steps: seq<StepKind>): seq<nat> {
    if steps == [] then []
    else
      var last := steps[|steps| - 1];
      RepliesIn(steps[..|steps| - 1]) + if last.ModelReply? then [last.toolCalls] else []
  }

  /** The calls the model made in its i-th to (n-1)-th answer. */
  function CallsMade(env: Env, i: nat, n: nat): seq<(string, Json)>
    decreases n - i
  {
    if i >= n then []
    else (if env.model(i).Reply? then env.model(i).calls else []) + CallsMade(env, i + 1, n)
  }

  function RepliesMade(env: Env, i: nat, n: nat): seq<nat>
    decreases n - i
  {
    if i >= n then [] else (if env.model(i).Reply? then [|env.model(i).calls|] else []) + RepliesMade(env, i + 1, n)
  }

  lemma TraceSnoc(steps: seq<StepKind>, step: StepKind)
    ensures CallsIn(steps + [step]) == CallsIn(steps) + if step.ToolCall? then [(step.tool, step.args)] else []
    ensures RepliesIn(steps + [step]) == RepliesIn(steps) + if step.ModelReply? then [step.toolCalls] else []
  {
    assert (steps + [step])[..|steps|] == steps;
  }

  /** The calls of a reply are taken one after the other: all of them, or up to the one it stops at. */
  lemma {:induction false} CallAllTakes(judge: Judge, p: Progress, calls: seq<(string, Json)>) returns (k: nat)
    ensures var (q, stop) := CallAll(judge, p, calls);
            && k <= |calls| && CallsIn(q.steps) == CallsIn(p.steps) + calls[..k]
            && RepliesIn(q.steps) == RepliesIn(p.steps)
            && (stop.None? ==> k == |calls|) && (stop.Some? ==> 0 < k && stop.value == calls[k - 1])
    decreases |calls|
  {
    if calls == [] {
      k := 0;
    } else {
      var o := judge(p.lookups, calls[0].0, calls[0].1);
      var next := Called(judge, p, calls[0].0, calls[0].1);
      TraceSnoc(p.steps, ToolCall(calls[0].0, calls[0].1, o.status, o.decision, o.why));
      assert CallsIn(next.steps) == CallsIn(p.steps) + calls[..1];
      k := 1;
      if o.status != NeedsApproval {
        var j := CallAllTakes(judge, next, calls[1..]);
        k := j + 1;
        assert calls[..k] == calls[..1] + calls[1..][..j];
      }
    }
  }

  /** One reply: its step, and the calls taken from it. */
  lemma ReplyTakes(env: Env, p: Progress, reply: Answer) returns (k: nat)
    requires reply.Reply?
    ensures var (q, stop) := AfterReply(env, p, reply);
            && k <= |reply.calls| && CallsIn(q.steps) == CallsIn(p.steps) + reply.calls[..k]
            && RepliesIn(q.steps) == RepliesIn(p.steps) + [|reply.calls|]
            && (stop.None? ==> k == |reply.calls|) && (stop.Some? ==> 0 < k && stop.value == reply.calls[k - 1])
  {
    TraceSnoc(p.steps, ModelReply(|reply.calls|));
    k := CallAllTakes(Judging(env), p.(steps := p.steps + [ModelReply(|reply.calls|)]), reply.calls);
  }

  /** The ending records the replies and takes the calls made from the i-th answer on, but for `rest`. */
  ghost predicate Records(env: Env, p: Progress, i: nat, e: Ending, rest: seq<(string, Json)>) {
    && i <= e.modelCalls
    && CallsIn(e.progress.steps) + rest == CallsIn(p.steps) + CallsMade(env, i, e.modelCalls)
    && RepliesIn(e.progress.steps) == RepliesIn(p.steps) + RepliesMade(env, i, e.modelCalls)
    && (e.stop.None? ==> rest == [])
    && (e.stop.Some? ==> CallsIn(e.progress.steps) != [] &&
                         CallsIn(e.progress.steps)[|CallsIn(e.progress.steps)| - 1] == e.stop.value)
  }

  lemma OneAnswer(env: Env, i: nat)
    ensures CallsMade(env, i, i + 1) == if env.model(i).Reply? then env.model(i).calls else []
    ensures RepliesMade(env, i, i + 1) == if env.model(i).Reply? then [|env.model(i).calls|] else []
    ensures CallsMade(env, i, i) == [] && RepliesMade(env, i, i) == []
  {
  }

  lemma FailureRecords(p: Progress, i: nat, input: int, output: int)
    ensures CallsIn(Failure(p, i, input, output).progress.steps) == CallsIn(p.steps)
    ensures RepliesIn(Failure(p, i, input, output).progress.steps) == RepliesIn(p.steps)
  {
    TraceSnoc(p.steps, Error);
  }

  lemma LastRoundRecords(env: Env, p: Progress, i: nat, left: nat, input: int, output: int)
    returns (rest: seq<(string, Json)>)
    requires !GoesOn(env, p, i, left)
    ensures Records(env, p, i, Rounds(env, p, i, left, input, output), rest)
  {
    rest := [];
    OneAnswer(env, i);
    FailureRecords(p, if left == 0 then i else i + 1, input, output);
    if left > 0 && env.model(i).Reply? {
      var reply := env.model(i);
      if reply.calls != [] {
        var k := ReplyTakes(env, p, reply);
        rest := reply.calls[k..];
        StoppedRoundRecords(env, p, i, left, input, output, k);
      } else {
        FinalRoundRecords(env, p, i, left, input, output);
      }
    }
  }

  lemma FinalRoundRecords(env: Env, p: Progress, i: nat, left: nat, input: int, output: int)
    requires left > 0 && env.model(i).Reply? && env.model(i).calls == []
    ensures Records(env, p, i, Rounds(env, p, i, left, input, output), [])
  {
    var reply, q := env.model(i), p.(steps := p.steps + [ModelReply(0)]);
    OneAnswer(env, i);
    TraceSnoc(p.steps, ModelReply(0));
    if reply.text == "" {
      FailureRecords(q, i + 1, input + reply.inputTokens, output + reply.outputTokens);
    } else {
      assert Rounds(env, p, i, left, input, output).progress == q;
    }
  }

  lemma StoppedRoundRecords(env: Env, p: Progress, i: nat, left: nat, input: int, output: int, k: nat)
    requires left > 0 && env.model(i).Reply? && env.model(i).calls != []
    requires var calls := env.model(i).calls;
             var (q, stop) := AfterReply(env, p, env.model(i));
             && stop.Some? && 0 < k <= |calls| && stop.value == calls[k - 1]
             && CallsIn(q.steps) == CallsIn(p.steps) + calls[..k]
             && RepliesIn(q.steps) == RepliesIn(p.steps) + [|calls|]
    ensures Records(env, p, i, Rounds(env, p, i, left, input, output), env.model(i).calls[k..])
  {
    var calls := env.model(i).calls;
    OneAnswer(env, i);
    assert calls[..k] + calls[k..] == calls;
    assert CallsIn(p.steps) + calls[..k] + calls[k..] == CallsIn(p.steps) + (calls[..k] + calls[k..]);
  }

  lemma {:induction false} RoundsRecord(env: Env, p: Progress, i: nat, left: nat, input: int, output: int)
    returns (rest: seq<(string, Json)>)
    ensures Records(env, p, i, Rounds(env, p, i, left, input, output), rest)
    decreases left
  {
    if GoesOn(env, p, i, left) {
      var reply, next := env.model(i), NextRound(env, p, i);
      NextRoundTakes(env, p, i, left);
      rest := RoundsRecord(env, next, i + 1, left - 1, input + reply.inputTokens, output + reply.outputTokens);
      RoundsGoOn(env, p, i, left, input, output);
      RecordsGoOn(env, p, i, next, Rounds(env, p, i, left, input, output), rest);
    } else {
      rest := LastRoundRecords(env, p, i, left, input, output);
    }
  }

  lemma NextRoundTakes(env: Env, p: Progress, i: nat, left: nat)
    requires GoesOn(env, p, i, left)
    ensures var next := NextRound(env, p, i).steps;
            && CallsIn(next) == CallsIn(p.steps) + env.model(i).calls
            && RepliesIn(next) == RepliesIn(p.steps) + [|env.model(i).calls|]
  {
    var reply := env.model(i);
    var k := ReplyTakes(env, p, reply);
    TraceSnoc(AfterReply(env, p, reply).0.steps, ToolResult);
    assert reply.calls[..k] == reply.calls;
  }

  lemma RecordsGoOn(env: Env, p: Progress, i: nat, next: Progress, e: Ending, rest: seq<(string, Json)>)
    requires env.model(i).Reply? && Records(env, next, i + 1, e, rest)
    requires CallsIn(next.steps) == CallsIn(p.steps) + env.model(i).calls
    requires RepliesIn(next.steps) == RepliesIn(p.steps) + [|env.model(i).calls|]
    ensures Records(env, p, i, e, rest)
  {
    var calls, made := env.model(i).calls, CallsMade(env, i + 1, e.modelCalls);
    assert CallsIn(p.steps) + calls + made == CallsIn(p.steps) + (calls + made);
  }

  /**
   Whatever the model: the trace records every reply with the number of its calls, and every
   call of every reply, in order, up to the one the run stops at; a run that does not stop has
   left none out.
   */
  lemma TraceIsTheConversation(env: Env, budget: Option<int>, spent: int, maxModelCalls: int)
    ensures var e := RunEnding(env, budget, spent, maxModelCalls);
            var taken, made := CallsIn(e.progress.steps), CallsMade(env, 0, e.modelCalls);
            && RepliesIn(e.progress.steps) == RepliesMade(env, 0, e.modelCalls)
            && taken <= made && (e.stop.None? ==> taken == made)
            && (e.stop.Some? ==> taken != [] && taken[|taken| - 1] == e.stop.value)
  {
    OneStepSaysNothing(Prompt);
    OneStepSaysNothing(Error);
    OneAnswer(env, 0);
    if !BudgetExhausted(budget, spent) {
      var left := if maxModelCalls < 0 then 0 else maxModelCalls;
      var rest := RoundsRecord(env, Progress([Prompt], [], 0), 0, left, 0, 0);
      RecordsFromTheStart(env, Rounds(env, Progress([Prompt], [], 0), 0, left, 0, 0), rest);
    }
  }

  lemma OneStepSaysNothing(step: StepKind)
    requires !step.ToolCall? && !step.ModelReply?
    ensures CallsIn([step]) == [] && RepliesIn([step]) == []
  {
    assert [step][..0] == [];
  }

  lemma RecordsFromTheStart(env: Env, e: Ending, rest: seq<(string, Json)>)
    requires Records(env, Progress([Prompt], [], 0), 0, e, rest)
    ensures var taken, made := CallsIn(e.progress.steps), CallsMade(env, 0, e.modelCalls);
            && RepliesIn(e.progress.steps) == RepliesMade(env, 0, e.modelCalls)
            && taken <= made && (e.stop.None? ==> taken == made)
            && (e.stop.Some? ==> taken != [] && taken[|taken| - 1] == e.stop.value)
  {
    OneStepSaysNothing(Prompt);
    assert CallsIn(e.progress.steps) + rest == CallsMade(env, 0, e.modelCalls);
  }

  // ---------------------------------------------------------------------------
  // What keeps every model's run from being stranded
  // ---------------------------------------------------------------------------

  /** A call that uses up a policy lookup and does not stop the run. */
  ghost predicate Passes(judge: Judge, lookup: nat, name: string, args: Json) {
    judge(lookup, name, args).decision.Some? && judge(lookup, name, args).status != NeedsApproval
  }

  ghost predicate CanPass(judge: Judge, lookup: nat) { exists name, args :: Passes(judge, lookup, name, args) }

  /** Some calls bring a run to its n-th policy lookup. */
  ghost predicate Attainable(judge: Judge, n: nat) {
    n == 0 || (Attainable(judge, n - 1) && CanPass(judge, n - 1))
  }

  ghost predicate Strands(judge: Judge, lookup: nat, name: string, args: Json) {
    judge(lookup, name, args).status == NeedsApproval && NegativeAmount(args)
  }

  /** At a lookup some calls lead to, a call with a negative amount needs approval. */
  ghost predicate CanStrand(judge: Judge) {
    exists n: nat, name, args :: Attainable(judge, n) && Strands(judge, n, name, args)
  }

  ghost predicate SameVerdicts(j: Judge, j': Judge) {
    forall n: nat, name, args :: j(n, name, args) == j'(n, name, args)
  }

  lemma {:induction false} AttainableByVerdicts(j: Judge, j': Judge, n: nat)
    requires SameVerdicts(j, j') && Attainable(j, n)
    ensures Attainable(j', n)
  {
    if n > 0 {
      AttainableByVerdicts(j, j', n - 1);
      var name, args :| Passes(j, n - 1, name, args);
      assert Passes(j', n - 1, name, args);
    }
  }

  lemma CanStrandByVerdicts(j: Judge, j': Judge)
    requires SameVerdicts(j, j') && CanStrand(j)
    ensures CanStrand(j')
  {
    var n: nat, name, args :| Attainable(j, n) && Strands(j, n, name, args);
    AttainableByVerdicts(j, j', n);
    assert Strands(j', n, name, args);
  }

  lemma NextIsAttainable(judge: Judge, lookup: nat, step: StepKind)
    requires Attainable(judge, lookup) && !AsksApproval(step)
    requires step.ToolCall? ==>
               var o := judge(lookup, step.tool, step.args);
               (step.status, step.decision) == (o.status, o.decision)
    ensures Attainable(judge, lookup + if step.ToolCall? && step.decision.Some? then 1 else 0)
  {
    if step.ToolCall? && step.decision.Some? {
      assert Passes(judge, lookup, step.tool, step.args);
    }
  }

  /** The lookups a run has made so far are attainable. */
  lemma {:induction false} TraceIsAttainable(judge: Judge, steps: seq<StepKind>, k: nat)
    requires Faithful(judge, steps) && k <= |steps| && NobodyAskedBefore(steps, k)
    ensures Attainable(judge, Lookups(steps[..k]))
  {
    if k > 0 {
      TraceIsAttainable(judge, steps, k - 1);
      NextIsAttainable(judge, Lookups(steps[..k - 1]), steps[k - 1]);
      LookupsSnoc(steps, k - 1);
    }
  }

  lemma LookupsSnoc(steps: seq<StepKind>, k: nat)
    requires k < |steps|
    ensures Lookups(steps[..k + 1]) ==
            Lookups(steps[..k]) + if steps[k].ToolCall? && steps[k].decision.Some? then 1 else 0
  {
    assert steps[..k + 1][..k] == steps[..k];
  }

  lemma StrandedRunShowsHow(env: Env, budget: Option<int>, spent: int, maxModelCalls: int)
    requires RunEnding(env, budget, spent, maxModelCalls).status == Running
    ensures CanStrand(Judging(env))
  {
    var steps := RunEnding(env, budget, spent, maxModelCalls).progress.steps;
    RunSound(env, budget, spent, maxModelCalls);
    var k := |steps| - 1;
    TraceIsAttainable(Judging(env), steps, k);
    assert Strands(Judging(env), Lookups(steps[..k]), steps[k].tool, steps[k].args);
  }

  /** Calls that bring a run to its n-th lookup. */
  ghost function Leading(judge: Judge, n: nat): (calls: seq<(string, Json)>)
    requires Attainable(judge, n)
    ensures |calls| == n
    ensures n > 0 ==> calls[..n - 1] == Leading(judge, n - 1) && Passes(judge, n - 1, calls[n - 1].0, calls[n - 1].1)
  {
    if n == 0 then []
    else
      var name, args :| Passes(judge, n - 1, name, args);
      Leading(judge, n - 1) + [(name, args)]
  }

  lemma {:induction false} CallAllAppend(judge: Judge, p: Progress, a: seq<(string, Json)>, b: seq<(string, Json)>)
    requires CallAll(judge, p, a).1.None?
    ensures CallAll(judge, p, a + b) == CallAll(judge, CallAll(judge, p, a).0, b)
    decreases |a|
  {
    if a == [] {
      assert a + b == b;
    } else {
      assert (a + b)[1..] == a[1..] + b;
      CallAllAppend(judge, Called(judge, p, a[0].0, a[0].1), a[1..], b);
    }
  }

  lemma {:induction false} LeadingLeads(judge: Judge, p: Progress, n: nat)
    requires Attainable(judge, n) && p.lookups == 0
    ensures CallAll(judge, p, Leading(judge, n)).1.None? && CallAll(judge, p, Leading(judge, n)).0.lookups == n
    decreases n
  {
    if n > 0 {
      LeadingLeads(judge, p, n - 1);
      var calls := Leading(judge, n);
      CallAllAppend(judge, p, calls[..n - 1], [calls[n - 1]]);
      assert calls[..n - 1] + [calls[n - 1]] == calls;
      assert [calls[n - 1]][1..] == [];
    }
  }

  lemma {:induction false} CallAllByVerdicts(j: Judge, j': Judge, p: Progress, calls: seq<(string, Json)>)
    requires SameVerdicts(j, j')
    ensures CallAll(j, p, calls) == CallAll(j', p, calls)
    decreases |calls|
  {
    if calls != [] {
      CallAllByVerdicts(j, j', Called(j, p, calls[0].0, calls[0].1), calls[1..]);
    }
  }

  /** A model whose every reply makes the given calls. */
  function Insisting(calls: seq<(string, Json)>): nat -> Answer { call => Reply("", calls, 0, 0) }

  /** A model that leads a run to the call and makes it. */
  lemma StrandingModel(env: Env, n: nat, name: string, args: Json, left: nat) returns (model: nat -> Answer)
    requires Attainable(Judging(env), n) && Strands(Judging(env), n, name, args) && left > 0
    ensures Rounds(env.(model := model), Progress([Prompt], [], 0), 0, left, 0, 0).status == Running
  {
    var judge := Judging(env);
    var calls := Leading(judge, n) + [(name, args)];
    model := Insisting(calls);
    var p := Progress([Prompt] + [ModelReply(|calls|)], [], 0);
    LeadingLeads(judge, p, n);
    CallAllAppend(judge, p, Leading(judge, n), [(name, args)]);
    CallAllByVerdicts(judge, Judging(env.(model := model)), p, calls);
    assert CallAll(judge, p, calls).1 == Some((name, args));
  }

  /**
   Given the tools, the matrix and the policies: whatever the model, the run does not stay
   running, if and only if no call that needs approval at a lookup some calls lead to holds a
   negative amount, or the run is not let near the model at all.
   */
  lemma NoModelStrandsIff(env: Env, budget: Option<int>, spent: int, maxModelCalls: int)
    ensures (forall model :: RunEnding(env.(model := model), budget, spent, maxModelCalls).status != Running)
            <==> !CanStrand(Judging(env)) || BudgetExhausted(budget, spent) || maxModelCalls <= 0
  {
    forall model | RunEnding(env.(model := model), budget, spent, maxModelCalls).status == Running
      ensures CanStrand(Judging(env)) && !BudgetExhausted(budget, spent) && maxModelCalls > 0
    {
      StrandedRunShowsHow(env.(model := model), budget, spent, maxModelCalls);
      CanStrandByVerdicts(Judging(env.(model := model)), Judging(env));
    }
    if CanStrand(Judging(env)) && !BudgetExhausted(budget, spent) && maxModelCalls > 0 {
      var n: nat, name, args :| Attainable(Judging(env), n) && Strands(Judging(env), n, name, args);
      var model := StrandingModel(env, n, name, args, maxModelCalls);
      assert RunEnding(env.(model := model), budget, spent, maxModelCalls).status == Running;
    }
  }

  /** With policies that do not change, the first lookup decides. */
  lemma FixedPoliciesDecideAtOnce(env: Env)
    requires forall n: nat, name :: env.policies(n, name) == env.policies(0, name)
    ensures CanStrand(Judging(env)) <==> exists name, args :: Strands(Judging(env), 0, name, args)
  {
    if CanStrand(Judging(env)) {
      var n: nat, name, args :| Attainable(Judging(env), n) && Strands(Judging(env), n, name, args);
      assert env.policies(n, name) == env.policies(0, name);
      assert Strands(Judging(env), 0, name, args);
    }
    if name, args :| Strands(Judging(env), 0, name, args) {
      assert Attainable(Judging(env), 0);
    }
  }

  /** Tokens of the first n answers; a call that failed has none. */
  function InputTokens(env: Env, n: nat): int {
    if n == 0 then 0
    else InputTokens(env, n - 1) + if env.model(n - 1).Reply? then env.model(n - 1).inputTokens else 0
  }

  function OutputTokens(env: Env, n: nat): int {
    if n == 0 then 0
    else OutputTokens(env, n - 1) + if env.model(n - 1).Reply? then env.model(n - 1).outputTokens else 0
  }

  /** An answer the run can end on: text, and no tools asked for. */
  predicate IsFinalAnswer(a: Answer) {
    a.Reply? && a.calls == [] && a.text != ""
  }

  lemma {:induction false} RoundsCount(env: Env, p: Progress, i: nat, left: nat)
    ensures var e := Rounds(env, p, i, left, InputTokens(env, i), OutputTokens(env, i));
            Counted(env, i, left, e)
    decreases left
  {
    if GoesOn(env, p, i, left) {
      RoundsCount(env, NextRound(env, p, i), i + 1, left - 1);
      RoundsGoOn(env, p, i, left, InputTokens(env, i), OutputTokens(env, i));
      CountedGoOn(env, i, left, Rounds(env, p, i, left, InputTokens(env, i), OutputTokens(env, i)));
    } else {
      LastRoundCounts(env, p, i, left);
    }
  }

  /** What the ending of the rounds from the i-th model call on says about the calls made. */
  ghost predicate Counted(env: Env, i: nat, left: nat, e: Ending) {
    && i <= e.modelCalls <= i + left
    && e.inputTokens == InputTokens(env, e.modelCalls) && e.outputTokens == OutputTokens(env, e.modelCalls)
    && (forall j :: i <= j < e.modelCalls - 1 ==> env.model(j).Reply? && env.model(j).calls != [])
    && (e.status == Succeeded <==> e.modelCalls > i && IsFinalAnswer(env.model(e.modelCalls - 1)))
    && (e.status == Succeeded ==> e.answer == env.model(e.modelCalls - 1).text)
    && e.status != BudgetExceeded
  }

  lemma CountedGoOn(env: Env, i: nat, left: nat, e: Ending)
    requires left > 0 && env.model(i).Reply? && env.model(i).calls != [] && Counted(env, i + 1, left - 1, e)
    ensures Counted(env, i, left, e)
  {
    if e.modelCalls == i + 1 {
      assert !IsFinalAnswer(env.model(i));
    }
  }

  /** No calls left, a call that failed, a reply without tools, or a stop for approval. */
  lemma LastRoundCounts(env: Env, p: Progress, i: nat, left: nat)
    requires !GoesOn(env, p, i, left)
    ensures Counted(env, i, left, Rounds(env, p, i, left, InputTokens(env, i), OutputTokens(env, i)))
  {
  }

  /**
   The model is called at most max_model_calls times, and not at all once the budget is
   exhausted; the recorded tokens are the sum over the answers; and the run succeeds if and
   only if a non-empty answer without tool calls arrived, which is then the last one.
   */
  lemma RunIsBoundedAndAccounted(env: Env, budget: Option<int>, spent: int, maxModelCalls: int)
    ensures var e := RunEnding(env, budget, spent, maxModelCalls);
            && (e.modelCalls > 0 ==> e.modelCalls <= maxModelCalls)
            && e.inputTokens == InputTokens(env, e.modelCalls) && e.outputTokens == OutputTokens(env, e.modelCalls)
            && (e.status == BudgetExceeded <==> budget.Some? && spent >= budget.value)
            && (e.status == BudgetExceeded ==> e.modelCalls == 0 && e.progress.invoked == [])
            && (e.status == Succeeded <==> exists j :: 0 <= j < e.modelCalls && IsFinalAnswer(env.model(j)))
            && (e.status == Succeeded ==>
                 IsFinalAnswer(env.model(e.modelCalls - 1)) && e.answer == env.model(e.modelCalls - 1).text)
  {
    if !BudgetExhausted(budget, spent) {
      var p := Progress([Prompt], [], 0);
      RoundsCount(env, p, 0, if maxModelCalls < 0 then 0 else maxModelCalls);
    }
  }

  // ---------------------------------------------------------------------------
  // The budget over many runs
  // ---------------------------------------------------------------------------

  lemma CostOfFreeRun(runs: seq<Run>, r: Run, org: string, since: int)
    requires r.cost == 0
    ensures CostSince(runs + [r], org, since) == CostSince(runs, org, since)
  {
    assert (runs + [r])[..|runs|] == runs;
  }

  /**
   The loop books every call at zero cost, so no run ever moves what the budget gate reads:
   the gate refuses a run after this one exactly if it refused this one.
   */
  method RunsDoNotSpend(repo: Repository, registry: ToolRegistry, env: Env, org: string, now: int,
                        budget: Option<int>, since: int, maxModelCalls: int) returns (status: Status)
    requires repo.Valid() && registry.tools == env.tools && registry.allows == env.allows
    modifies repo, registry`invoked
    ensures forall o, t :: CostSince(repo.runs, o, t) == CostSince(old(repo.runs), o, t)
    ensures status == BudgetExceeded <==> BudgetExhausted(budget, CostSince(old(repo.runs), org, since))
  {
    ghost var before := repo.runs;
    var id, answer, approval, calls;
    id, status, answer, approval, calls := PerformRun(repo, registry, env, org, now, budget, since, maxModelCalls);
    ghost var e := RunEnding(env, budget, CostSince(before, org, since), maxModelCalls);
    forall o, t ensures CostSince(repo.runs, o, t) == CostSince(before, o, t) {
      CostOfFreeRun(before, Run(org, now, e.status, e.inputTokens, e.outputTokens, 0), o, t);
    }
    RunIsBoundedAndAccounted(env, budget, CostSince(before, org, since), maxModelCalls);
  }
}

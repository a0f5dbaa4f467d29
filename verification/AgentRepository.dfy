/**
 The agent's tables: runs, the numbered steps of each run, approval requests, and the
 text form in which a policy's allowlist arrives.  Each method is one statement of SQL;
 calls are serial.
 */
module AgentRepository {
  import opened AutonomyPolicy
  import opened JsonValue
  import opened Wrappers

  datatype Status = Running | Succeeded | Failed | AwaitingApproval | BudgetExceeded

  datatype CallStatus = Executed | NeedsApproval | Refused

  /** Why a call ended the way it did; written even when it was allowed. */
  datatype Why = UnknownTool | DeniedByMatrix | ByPolicy(reason: Reason)

  datatype StepKind =
    | Prompt
    | ModelReply(toolCalls: nat)
    | ToolCall(tool: string, args: Json, status: CallStatus, decision: Option<Mode>, why: Why)
    | ToolResult
    | Error

  /** A run's identity is its position in the table. */
  datatype Run = Run(org: string, createdAt: int, status: Status, inputTokens: int, outputTokens: int, cost: int)

  datatype Step = Step(run: nat, seqNo: nat, kind: StepKind)

  datatype ApprovalStatus = Pending | Approved | Rejected

  datatype Approval = Approval(
    org: string, run: nat, action: string, payload: Json, humanDiff: string,
    status: ApprovalStatus, decidedBy: Option<string>)

  // ---------------------------------------------------------------------------
  // Steps
  // ---------------------------------------------------------------------------

  /** The steps of one run, oldest first. */
  function KindsOf(steps: seq<Step>, run: nat): seq<StepKind> {
    if steps == [] then []
    else
      var last := steps[|steps| - 1];
      KindsOf(steps[..|steps| - 1], run) + if last.run == run then [last.kind] else []
  }

  /** COALESCE(MAX(seq), 0) over the steps of one run. */
  function MaxSeq(steps: seq<Step>, run: nat): nat {
    if steps == [] then 0
    else
      var last, rest := steps[|steps| - 1], MaxSeq(steps[..|steps| - 1], run);
      if last.run == run && last.seqNo > rest then last.seqNo else rest
  }

  /** Every run's steps are numbered 1, 2, 3, ... in order. */
  ghost predicate Numbered(steps: seq<Step>) {
    forall i :: 0 <= i < |steps| ==> steps[i].seqNo == |KindsOf(steps[..i], steps[i].run)| + 1
  }

  lemma {:induction false} MaxSeqCounts(steps: seq<Step>, run: nat)
    requires Numbered(steps)
    ensures MaxSeq(steps, run) == |KindsOf(steps, run)|
  {
    if steps != [] {
      var n := |steps| - 1;
      assert Numbered(steps[..n]) by {
        forall i | 0 <= i < n ensures steps[..n][i].seqNo == |KindsOf(steps[..n][..i], steps[..n][i].run)| + 1 {
          assert steps[..n][..i] == steps[..i];
        }
      }
      MaxSeqCounts(steps[..n], run);
    }
  }

  lemma KindsSnoc(steps: seq<Step>, step: Step, r: nat)
    ensures KindsOf(steps + [step], r) == KindsOf(steps, r) + if step.run == r then [step.kind] else []
  {
    assert (steps + [step])[..|steps|] == steps;
  }

  lemma NumberedSnoc(steps: seq<Step>, step: Step)
    requires Numbered(steps) && step.seqNo == |KindsOf(steps, step.run)| + 1
    ensures Numbered(steps + [step])
  {
    var now := steps + [step];
    assert now[..|steps|] == steps;
    forall i | 0 <= i < |now| ensures now[i].seqNo == |KindsOf(now[..i], now[i].run)| + 1 {
      if i < |steps| {
        assert now[..i] == steps[..i];
      }
    }
  }

  lemma StepAppended(steps: seq<Step>, run: nat, kind: StepKind)
    requires Numbered(steps)
    ensures var now := steps + [Step(run, MaxSeq(steps, run) + 1, kind)];
            && Numbered(now)
            && forall r :: KindsOf(now, r) == KindsOf(steps, r) + if r == run then [kind] else []
  {
    var step := Step(run, MaxSeq(steps, run) + 1, kind);
    MaxSeqCounts(steps, run);
    NumberedSnoc(steps, step);
    forall r: nat ensures KindsOf(steps + [step], r) == KindsOf(steps, r) + if r == run then [kind] else [] {
      KindsSnoc(steps, step, r);
    }
  }

  // ---------------------------------------------------------------------------
  // Spending
  // ---------------------------------------------------------------------------

  /** COALESCE(SUM(cost_tiyn), 0) over an organization's runs since a point in time. */
  function CostSince(runs: seq<Run>, org: string, since: int): int {
    if runs == [] then 0
    else
      var r := runs[|runs| - 1];
      CostSince(runs[..|runs| - 1], org, since) + if r.org == org && r.createdAt >= since then r.cost else 0
  }

  lemma {:induction false} CostOfUpdate(runs: seq<Run>, id: nat, r: Run, org: string, since: int)
    requires id < |runs| && r.org == runs[id].org && r.createdAt == runs[id].createdAt && r.cost == runs[id].cost
    ensures CostSince(runs[id := r], org, since) == CostSince(runs, org, since)
  {
    var n := |runs| - 1;
    if id == n {
      assert runs[id := r][..n] == runs[..n];
    } else {
      assert runs[id := r][..n] == runs[..n][id := r];
      CostOfUpdate(runs[..n], id, r, org, since);
    }
  }

  /** A run after one more model call. */
  function Used(r: Run, input: int, output: int, cost: int): Run {
    Run(r.org, r.createdAt, r.status, r.inputTokens + input, r.outputTokens + output, r.cost + cost)
  }

  /** One more model call of a run raises the sum of its organization by its cost, and no other's. */
  lemma {:induction false} CostOfSpending(runs: seq<Run>, id: nat, input: int, output: int, cost: int,
                                          org: string, since: int)
    requires id < |runs|
    ensures CostSince(runs[id := Used(runs[id], input, output, cost)], org, since) ==
            CostSince(runs, org, since) + if runs[id].org == org && runs[id].createdAt >= since then cost else 0
  {
    var n, used := |runs| - 1, Used(runs[id], input, output, cost);
    if id == n {
      assert runs[id := used][..n] == runs[..n];
    } else {
      assert runs[id := used][..n] == runs[..n][id := used];
      CostOfSpending(runs[..n], id, input, output, cost, org, since);
    }
  }

  /** A new run has cost nothing yet, and an empty table nothing at all. */
  lemma CostOfStarting(runs: seq<Run>, r: Run, org: string, since: int)
    ensures CostSince([], org, since) == 0
    ensures CostSince(runs + [r], org, since) ==
            CostSince(runs, org, since) + if r.org == org && r.createdAt >= since then r.cost else 0
  {
    assert (runs + [r])[..|runs|] == runs;
  }

  // ---------------------------------------------------------------------------
  // The repository
  // ---------------------------------------------------------------------------

  class Repository {
    var runs: seq<Run>
    var steps: seq<Step>
    var approvals: seq<Approval>
    /** The runs finish_run was called for, in order. */
    ghost var finished: seq<nat>

    ghost predicate Valid()
      reads this
    {
      Numbered(steps) && forall i :: 0 <= i < |steps| ==> steps[i].run < |runs|
    }

    constructor ()
      ensures Valid() && runs == [] && steps == [] && approvals == [] && finished == []
    {
      runs, steps, approvals, finished := [], [], [], [];
    }

    method StartRun(org: string, now: int) returns (id: nat)
      requires Valid()
      modifies `runs
      ensures Valid() && id == |old(runs)|
      ensures runs == old(runs) + [Run(org, now, Running, 0, 0, 0)]
      ensures KindsOf(steps, id) == []
    {
      NoStepsYet(steps, |runs|);
      id := |runs|;
      runs := runs + [Run(org, now, Running, 0, 0, 0)];
    }

    method FinishRun(org: string, id: nat, status: Status) returns (found: bool)
      requires Valid()
      modifies `runs, `finished
      ensures Valid() && finished == old(finished) + [id]
      ensures found == (id < |old(runs)| && old(runs)[id].org == org)
      ensures runs == if found then old(runs)[id := old(runs)[id].(status := status)] else old(runs)
    {
      finished := finished + [id];
      found := id < |runs| && runs[id].org == org;
      if found {
        runs := runs[id := runs[id].(status := status)];
      }
    }

    /** Adds, never overwrites: a run makes many model calls. */
    method AddUsage(org: string, id: nat, input: int, output: int, cost: int) returns (found: bool)
      requires Valid()
      modifies `runs
      ensures Valid() && found == (id < |old(runs)| && old(runs)[id].org == org)
      ensures runs == if !found then old(runs) else
                      var r := old(runs)[id];
                      old(runs)[id := Used(r, input, output, cost)]
    {
      found := id < |runs| && runs[id].org == org;
      if found {
        var r := runs[id];
        runs := runs[id := r.(inputTokens := r.inputTokens + input, outputTokens := r.outputTokens + output,
                              cost := r.cost + cost)];
      }
    }

    /** The database numbers the step. */
    method AppendStep(id: nat, kind: StepKind)
      requires Valid() && id < |runs|
      modifies `steps
      ensures Valid() && old(steps) <= steps
      ensures forall r :: KindsOf(steps, r) == KindsOf(old(steps), r) + if r == id then [kind] else []
    {
      StepAppended(steps, id, kind);
      steps := steps + [Step(id, MaxSeq(steps, id) + 1, kind)];
    }

    method RequestApproval(org: string, run: nat, action: string, payload: Json, humanDiff: string)
      returns (id: nat)
      requires Valid()
      modifies `approvals
      ensures Valid() && id == |old(approvals)|
      ensures approvals == old(approvals) + [Approval(org, run, action, payload, humanDiff, Pending, None)]
    {
      id := |approvals|;
      approvals := approvals + [Approval(org, run, action, payload, humanDiff, Pending, None)];
    }

    /** Compare-and-set: only a pending request of the same organization is decided. */
    method Decide(org: string, id: nat, status: ApprovalStatus, who: string) returns (decided: bool)
      requires Valid()
      modifies `approvals
      ensures Valid() && |approvals| == |old(approvals)|
      ensures decided ==
        (id < |old(approvals)| && old(approvals)[id].org == org && old(approvals)[id].status == Pending)
      ensures approvals ==
        if id < |old(approvals)| then old(approvals)[id := Decided(old(approvals)[id], org, status, who)]
        else old(approvals)
      ensures decided ==> approvals[id].status == status && approvals[id].decidedBy == Some(who)
      ensures !decided ==> approvals == old(approvals)
    {
      decided := id < |approvals| && approvals[id].org == org && approvals[id].status == Pending;
      if decided {
        approvals := approvals[id := approvals[id].(status := status, decidedBy := Some(who))];
      }
    }
  }

  lemma {:induction false} NoStepsYet(steps: seq<Step>, run: nat)
    requires forall i :: 0 <= i < |steps| ==> steps[i].run < run
    ensures KindsOf(steps, run) == []
  {
    if steps != [] {
      NoStepsYet(steps[..|steps| - 1], run);
    }
  }

  function Decided(a: Approval, org: string, status: ApprovalStatus, who: string): Approval {
    if a.org == org && a.status == Pending then a.(status := status, decidedBy := Some(who)) else a
  }

  /** A decision by one member of the organization, as a request sees it. */
  datatype MemberDecision = ByMember(status: ApprovalStatus, who: string)

  function DecidedAll(a: Approval, org: string, ds: seq<MemberDecision>): Approval
    decreases |ds|
  {
    if ds == [] then a else DecidedAll(Decided(a, org, ds[0].status, ds[0].who), org, ds[1..])
  }

  /** The first decision stands, together with who took it, whatever is tried afterwards. */
  lemma {:induction false} FirstDecisionStands(a: Approval, ds: seq<MemberDecision>)
    requires forall d :: d in ds ==> d.status != Pending
    ensures DecidedAll(a, a.org, ds) ==
            if ds == [] || a.status != Pending then a
            else a.(status := ds[0].status, decidedBy := Some(ds[0].who))
    decreases |ds|
  {
    if ds != [] {
      FirstDecisionStands(Decided(a, a.org, ds[0].status, ds[0].who), ds[1..]);
    }
  }

  // ---------------------------------------------------------------------------
  // uuid[] as text
  // ---------------------------------------------------------------------------

  /** The scanner's state: the finished items and the one being read. */
  datatype Scan = Scan(items: seq<string>, cur: string)

  function ScanStep(s: Scan, c: char): Scan {
    if c == '{' || c == '}' || c == '"' then s
    else if c == ',' then Scan(if s.cur != "" then s.items + [s.cur] else s.items, "")
    else s.(cur := s.cur + [c])
  }

  function Scanned(raw: string): Scan {
    if raw == [] then Scan([], "") else ScanStep(Scanned(raw[..|raw| - 1]), raw[|raw| - 1])
  }

  function ParsedArray(raw: string): seq<string> {
    var s := Scanned(raw);
    if s.cur != "" then s.items + [s.cur] else s.items
  }

  lemma ScanAppend(raw: string, c: char)
    ensures Scanned(raw + [c]) == ScanStep(Scanned(raw), c)
  {
    assert (raw + [c])[..|raw|] == raw;
  }

  method ParseUuidArray(raw: string) returns (out: seq<string>)
    ensures out == ParsedArray(raw)
  {
    out := [];
    var cur := "";
    for i := 0 to |raw|
      invariant Scan(out, cur) == Scanned(raw[..i])
    {
      var c := raw[i];
      ScanAppend(raw[..i], c);
      assert raw[..i + 1] == raw[..i] + [c];
      if c == '{' || c == '}' || c == '"' {
        continue;
      }
      if c == ',' {
        if cur != "" {
          out := out + [cur];
        }
        cur := "";
        continue;
      }
      cur := cur + [c];
    }
    assert raw[..|raw|] == raw;
    if cur != "" {
      out := out + [cur];
    }
  }

  predicate Plain(item: string) {
    item != "" && '{' !in item && '}' !in item && '"' !in item && ',' !in item
  }

  lemma {:induction false} ScannedIsPlain(raw: string)
    ensures forall i :: 0 <= i < |Scanned(raw).items| ==> Plain(Scanned(raw).items[i])
    ensures Scanned(raw).cur != "" ==> Plain(Scanned(raw).cur)
  {
    if raw != [] {
      ScannedIsPlain(raw[..|raw| - 1]);
    }
  }

  /** Whatever the text, no item read from it is empty or holds a brace, a quote or a comma. */
  lemma ItemsArePlain(raw: string)
    ensures forall item :: item in ParsedArray(raw) ==> Plain(item)
  {
    ScannedIsPlain(raw);
  }

  /** How PostgreSQL prints an array of identifiers, without the closing brace. */
  function Printed(items: seq<string>): string {
    if items == [] then "{"
    else if |items| == 1 then "{" + items[0]
    else Printed(items[..|items| - 1]) + "," + items[|items| - 1]
  }

  lemma {:induction false} ScanPlain(raw: string, item: string)
    requires item == "" || Plain(item)
    ensures Scanned(raw + item) == Scan(Scanned(raw).items, Scanned(raw).cur + item)
  {
    if item == "" {
      assert raw + item == raw;
      assert Scanned(raw).cur + item == Scanned(raw).cur;
    } else {
      var n := |item| - 1;
      assert raw + item == raw + item[..n] + [item[n]];
      ScanAppend(raw + item[..n], item[n]);
      assert item[n] in item;
      ScanPlain(raw, item[..n]);
      assert Scanned(raw).cur + item[..n] + [item[n]] == Scanned(raw).cur + item;
    }
  }

  lemma ScanFirst(item: string)
    requires Plain(item)
    ensures Scanned("{" + item) == Scan([], item)
  {
    ScanAppend("", '{');
    assert "" + ['{'] == "{";
    ScanPlain("{", item);
    assert "" + item == item;
  }

  lemma ScanOneMore(before: string, done: seq<string>, last: string, item: string)
    requires Scanned(before) == Scan(done, last) && last != "" && Plain(item)
    ensures Scanned(before + "," + item) == Scan(done + [last], item)
  {
    ScanAppend(before, ',');
    ScanPlain(before + ",", item);
    assert "" + item == item;
  }

  lemma {:induction false} ScanPrinted(items: seq<string>)
    requires items != [] && forall i :: 0 <= i < |items| ==> Plain(items[i])
    ensures Scanned(Printed(items)) == Scan(items[..|items| - 1], items[|items| - 1])
  {
    var n := |items| - 1;
    if n == 0 {
      ScanFirst(items[0]);
    } else {
      ScanPrinted(items[..n]);
      assert Plain(items[n - 1]) && items[..n][n - 1] == items[n - 1];
      assert items[..n][..n - 1] + [items[n - 1]] == items[..n];
      ScanOneMore(Printed(items[..n]), items[..n][..n - 1], items[n - 1], items[n]);
    }
  }

  /** The closing brace and the last item, however the text before them came about. */
  lemma ParsedToTheEnd(raw: string, items: seq<string>)
    requires items != [] && items[|items| - 1] != ""
    requires Scanned(raw) == Scan(items[..|items| - 1], items[|items| - 1])
    ensures ParsedArray(raw + "}") == items
  {
    ScanAppend(raw, '}');
    assert items[..|items| - 1] + [items[|items| - 1]] == items;
  }

  lemma EmptyArray()
    ensures ParsedArray("{" + "}") == []
  {
    ScanAppend("", '{');
    assert "" + ['{'] == "{";
    ScanAppend("{", '}');
  }

  /** Reading a printed array of identifiers gives the identifiers back, in order. */
  lemma ArrayRoundTrip(items: seq<string>)
    requires forall i :: 0 <= i < |items| ==> Plain(items[i])
    ensures ParsedArray(Printed(items) + "}") == items
  {
    if items == [] {
      EmptyArray();
    } else {
      ScanPrinted(items);
      assert Plain(items[|items| - 1]);
      ParsedToTheEnd(Printed(items), items);
    }
  }
}

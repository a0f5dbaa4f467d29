/**
 The autonomy policy engine: whether the agent may perform an action by itself, needs a
 human's approval, or must not perform it at all.
 */
module AutonomyPolicy {
  import opened Wrappers

  /** From the most permissive to the most restrictive. */
  datatype Mode = Auto | Approve | Forbid

  function Rank(m: Mode): nat {
    match m
    case Auto => 0
    case Approve => 1
    case Forbid => 2
  }

  function ModeName(m: Mode): string {
    match m
    case Auto => "auto"
    case Approve => "approve"
    case Forbid => "forbid"
  }

  function ParseMode(s: string): Option<Mode> {
    if s == "auto" then Some(Auto)
    else if s == "approve" then Some(Approve)
    else if s == "forbid" then Some(Forbid)
    else None
  }

  /** The names are the modes: exactly the three names parse, each to its own mode. */
  lemma NamesAndModes(s: string, m: Mode)
    ensures ParseMode(s) == Some(m) <==> s == ModeName(m)
  {
  }

  function StrictestOf(a: Mode, b: Mode): Mode {
    if Rank(a) >= Rank(b) then a else b
  }

  /** A loaded row of autonomy_policies.  An absent limit is no limit; an empty list is no list. */
  datatype Policy = Policy(
    mode: Mode,
    maxAmount: Option<int>,
    allowlist: seq<string>,
    docType: Option<string>,
    requirePriorApproval: bool)

  datatype Action = Action(
    name: string,
    amount: Option<int>,
    counterparty: Option<string>,
    docType: Option<string>,
    hasPriorApproval: bool)

  datatype Reason =
    | NoPolicy
    | ForbiddenByPolicy
    | ApprovalRequired
    | AllowedByPolicy
    | NoAmount
    | OverLimit
    | NotListed
    | NoCounterparty
    | OtherDocType
    | NotYetApproved

  datatype Decision = Decision(mode: Mode, reason: Reason)

  /** evaluate(): each violated bound lowers an automatic verdict to approval. */
  method Evaluate(policy: Option<Policy>, action: Action) returns (d: Decision)
    ensures d.mode == Verdict(policy, action)
    ensures d.reason == Explanation(policy, action)
  {
    if policy.None? {
      return Decision(Approve, NoPolicy);
    }
    var p := policy.value;
    if p.mode == Forbid {
      return Decision(Forbid, ForbiddenByPolicy);
    }
    if p.mode == Approve {
      return Decision(Approve, ApprovalRequired);
    }
    var mode, reason := Auto, AllowedByPolicy;
    if p.maxAmount.Some? {
      if action.amount.None? {
        mode, reason := StrictestOf(mode, Approve), NoAmount;
      } else if action.amount.value > p.maxAmount.value {
        mode, reason := StrictestOf(mode, Approve), OverLimit;
      }
    }
    if p.allowlist != [] {
      var listed := action.counterparty.Some? && action.counterparty.value in p.allowlist;
      if !listed {
        mode := StrictestOf(mode, Approve);
        reason := if action.counterparty.Some? then NotListed else NoCounterparty;
      }
    }
    if p.docType.Some? && action.docType.Some? && p.docType.value != action.docType.value {
      mode, reason := StrictestOf(mode, Approve), OtherDocType;
    }
    if p.requirePriorApproval && !action.hasPriorApproval {
      mode, reason := StrictestOf(mode, Approve), NotYetApproved;
    }
    d := Decision(mode, reason);
  }

  // ---------------------------------------------------------------------------
  // The verdict as a join of independent checks
  // ---------------------------------------------------------------------------

  predicate AmountOk(p: Policy, a: Action) {
    p.maxAmount.Some? ==> a.amount.Some? && a.amount.value <= p.maxAmount.value
  }

  predicate CounterpartyOk(p: Policy, a: Action) {
    p.allowlist != [] ==> a.counterparty.Some? && a.counterparty.value in p.allowlist
  }

  predicate DocTypeOk(p: Policy, a: Action) {
    p.docType.Some? && a.docType.Some? ==> p.docType == a.docType
  }

  predicate PriorOk(p: Policy, a: Action) {
    p.requirePriorApproval ==> a.hasPriorApproval
  }

  function Check(ok: bool): Mode { if ok then Auto else Approve }

  /** The verdict of the mode and of each bound, taken alone. */
  function Checks(p: Policy, a: Action): seq<Mode> {
    [p.mode, Check(AmountOk(p, a)), Check(CounterpartyOk(p, a)), Check(DocTypeOk(p, a)), Check(PriorOk(p, a))]
  }

  function Join(modes: seq<Mode>): Mode {
    if modes == [] then Auto else StrictestOf(modes[0], Join(modes[1..]))
  }

  function Verdict(policy: Option<Policy>, a: Action): Mode {
    if policy.None? then Approve else
    var p := policy.value;
    StrictestOf(p.mode, Check(AmountOk(p, a) && CounterpartyOk(p, a) && DocTypeOk(p, a) && PriorOk(p, a)))
  }

  /** The reason kept is that of the last bound that failed. */
  function Explanation(policy: Option<Policy>, a: Action): Reason {
    if policy.None? then NoPolicy else
    var p := policy.value;
    if p.mode == Forbid then ForbiddenByPolicy
    else if p.mode == Approve then ApprovalRequired
    else if !PriorOk(p, a) then NotYetApproved
    else if !DocTypeOk(p, a) then OtherDocType
    else if !CounterpartyOk(p, a) then if a.counterparty.Some? then NotListed else NoCounterparty
    else if !AmountOk(p, a) then if a.amount.Some? then OverLimit else NoAmount
    else AllowedByPolicy
  }

  lemma {:induction false} JoinOf(modes: seq<Mode>)
    ensures forall m :: m in modes ==> Rank(m) <= Rank(Join(modes))
    ensures Join(modes) == Auto || Join(modes) in modes
  {
    if modes != [] {
      JoinOf(modes[1..]);
    }
  }

  /** In whatever order, and however often, the checks are consulted, the verdict is their join. */
  lemma VerdictIsOrderFree(p: Policy, a: Action, modes: seq<Mode>)
    requires forall m :: m in modes <==> m in Checks(p, a)
    ensures Verdict(Some(p), a) == Join(modes)
  {
    JoinOf(modes);
    assert Checks(p, a)[0] in modes && Checks(p, a)[1] in modes && Checks(p, a)[2] in modes
        && Checks(p, a)[3] in modes && Checks(p, a)[4] in modes;
    assert Join(modes) in modes || Join(modes) == Auto;
    assert forall m :: m in modes ==> Rank(m) <= Rank(Verdict(Some(p), a));
  }

  // ---------------------------------------------------------------------------
  // Tightening a policy
  // ---------------------------------------------------------------------------

  ghost predicate TighterBounds(q: Policy, p: Policy) {
    && (p.maxAmount.Some? ==> q.maxAmount.Some? && q.maxAmount.value <= p.maxAmount.value)
    && (p.allowlist != [] ==> q.allowlist != [] && forall c :: c in q.allowlist ==> c in p.allowlist)
    && (p.docType.Some? ==> q.docType == p.docType)
    && (p.requirePriorApproval ==> q.requirePriorApproval)
  }

  /** q is at least as strict as p; the bounds matter only while q is automatic. */
  ghost predicate Tighter(q: Policy, p: Policy) {
    Rank(q.mode) >= Rank(p.mode) && (q.mode.Auto? ==> TighterBounds(q, p))
  }

  /** The most harmless action that q lets pass, with the given fields replaced. */
  function Passing(q: Policy): Action {
    Action("", Some(if q.maxAmount.Some? then q.maxAmount.value else 0),
           if q.allowlist != [] then Some(q.allowlist[0]) else None,
           None, true)
  }

  lemma LooserBoundIsFelt(q: Policy, p: Policy) returns (a: Action)
    requires q.mode.Auto? && p.mode.Auto? && !TighterBounds(q, p)
    ensures Verdict(Some(q), a) == Auto && Verdict(Some(p), a) == Approve
  {
    a := Passing(q);
    if p.maxAmount.Some? && !(q.maxAmount.Some? && q.maxAmount.value <= p.maxAmount.value) {
      a := a.(amount := Some(if q.maxAmount.Some? then q.maxAmount.value else p.maxAmount.value + 1));
    } else if p.allowlist != [] && q.allowlist == [] {
    } else if c :| p.allowlist != [] && c in q.allowlist && c !in p.allowlist {
      a := a.(counterparty := Some(c));
    } else if p.docType.Some? && q.docType != p.docType {
      var other := if q.docType.Some? then q.docType.value else p.docType.value + "x";
      a := a.(docType := Some(other));
    } else {
      a := a.(hasPriorApproval := false);
    }
  }

  /**
   A policy is never weaker than another, on any action, if and only if it is tighter: so
   tightening never weakens a verdict, and emptying an allowlist is not tightening.
   */
  lemma TighterIsExact(q: Policy, p: Policy)
    ensures Tighter(q, p) <==> forall a :: Rank(Verdict(Some(q), a)) >= Rank(Verdict(Some(p), a))
  {
    if !Tighter(q, p) {
      var a := Passing(q);
      if Rank(q.mode) < Rank(p.mode) {
        assert Verdict(Some(q), a) == q.mode;
      } else {
        a := LooserBoundIsFelt(q, p);
      }
      assert Rank(Verdict(Some(q), a)) < Rank(Verdict(Some(p), a));
    }
  }

  /** Without a policy the agent never acts alone; with one, only inside every bound. */
  lemma AutomaticMeansWithinBounds(policy: Option<Policy>, a: Action)
    ensures Verdict(policy, a) == Auto <==>
              && policy.Some? && policy.value.mode == Auto
              && (policy.value.maxAmount.Some? ==> a.amount.Some? && a.amount.value <= policy.value.maxAmount.value)
              && (policy.value.allowlist != [] ==>
                    a.counterparty.Some? && a.counterparty.value in policy.value.allowlist)
              && (policy.value.docType.None? || a.docType.None? || a.docType.value == policy.value.docType.value)
              && (policy.value.requirePriorApproval ==> a.hasPriorApproval)
    ensures Verdict(policy, a) == Forbid <==> policy.Some? && policy.value.mode == Forbid
  {
  }

  /**
   The reason given is a true one: the policy's own mode, or under an automatic policy the last
   bound the action does not meet, in the order amount, counterparty, document type, approval.
   */
  lemma ReasonsAreTrue(p: Policy, a: Action)
    ensures var why := Explanation(Some(p), a);
            var unapproved := p.requirePriorApproval && !a.hasPriorApproval;
            var otherType := p.docType.Some? && a.docType.Some? && a.docType != p.docType;
            var unlisted := p.allowlist != [] && (a.counterparty.Some? ==> a.counterparty.value !in p.allowlist);
            && (why == ForbiddenByPolicy <==> p.mode == Forbid)
            && (why == ApprovalRequired <==> p.mode == Approve)
            && (why == NotYetApproved <==> p.mode == Auto && unapproved)
            && (why == OtherDocType <==> p.mode == Auto && otherType && !unapproved)
            && (why == NotListed <==> p.mode == Auto && unlisted && a.counterparty.Some? && !otherType && !unapproved)
            && (why == NoCounterparty <==>
                  p.mode == Auto && unlisted && a.counterparty.None? && !otherType && !unapproved)
            && (why == OverLimit <==>
                  p.mode == Auto && p.maxAmount.Some? && a.amount.Some? && a.amount.value > p.maxAmount.value &&
                  !unlisted && !otherType && !unapproved)
            && (why == NoAmount <==>
                  p.mode == Auto && p.maxAmount.Some? && a.amount.None? && !unlisted && !otherType && !unapproved)
            && (why == AllowedByPolicy <==> Verdict(Some(p), a) == Auto)
            && why != NoPolicy
  {
  }
}

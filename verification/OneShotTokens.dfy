/**
 One-shot account tokens: a handler verifies a signed token against the clock, then
 consumes it by inserting a row that a periodic reaper deletes once the guard period
 is over.  `UsedTokens` is the table; the system interleaves any number of handlers
 with the clock and the reaper.

 Two clocks are at work.  The signer and the verifier count whole seconds; the table
 keeps the database's timestamps, which are finer.  Instants here are ticks of the finer
 clock, `rate` of them to a second.
 */
module OneShotTokens {

  type Rate = n: nat | n > 0 witness 1

  /**
   What matters of a token: its identity (the hash the table is keyed by), the instant it
   was signed, the whole second signed into it as its expiry, and the guard period, in
   ticks, of the route it belongs to.
   */
  datatype Token = Token(id: nat, signed: nat, expires: nat, guard: nat)

  /** The routes guarded by the table, with the lifetime their tokens are issued for. */
  datatype Purpose = Confirm | ResetPassword | ChangeEmail

  function Lifetime(p: Purpose): nat {
    if p.Confirm? then 24 * 7 * 3600 else 3600
  }

  /** The guard period each route passes to ConsumeOnce. */
  function GuardPeriod(p: Purpose): nat {
    match p
    case Confirm => 7 * 24 * 3600
    case ResetPassword => 3600
    case ChangeEmail => 3600
  }

  /** Lifetime and guard are given in seconds; the lifetime counts from the second of signing. */
  function Sign(id: nat, signed: nat, lifetime: nat, guard: nat, rate: Rate): Token {
    Token(id, signed, signed / rate + lifetime, guard * rate)
  }

  function Issue(p: Purpose, id: nat, signed: nat, rate: Rate): Token {
    Sign(id, signed, Lifetime(p), GuardPeriod(p), rate)
  }

  /** The verifier's check of the expiry, on its clock of whole seconds. */
  predicate Unexpired(t: Token, now: nat, rate: Rate) {
    !(t.expires < now / rate)
  }

  /** The end of the second a token expires in. */
  function LastInstant(t: Token, rate: Rate): nat {
    (t.expires + 1) * rate - 1
  }

  /** The instant up to which a row written when the token was signed would be kept. */
  function GuardEnd(t: Token): nat {
    t.signed + t.guard
  }

  lemma UnexpiredUpToLastInstant(t: Token, now: nat, rate: Rate)
    ensures Unexpired(t, now, rate) <==> now <= LastInstant(t, rate)
  {
    var second := now / rate;
    assert now == second * rate + now % rate;
    if t.expires < second {
      assert (t.expires + 1) * rate <= second * rate;
    } else {
      assert second * rate <= t.expires * rate;
    }
  }

  /** The database's answer to the insert.  `Lost`: committed, but the reply never came. */
  datatype Answer = Replied | Failed | Lost

  /** The row's expiry counts from the instant its transaction began. */
  function Inserted(rows: map<Token, nat>, t: Token, began: nat, a: Answer): map<Token, nat> {
    if a.Failed? || t in rows then rows else rows[t := began + t.guard]
  }

  function Reaped(rows: map<Token, nat>, began: nat): map<Token, nat> {
    map t | t in rows && !(rows[t] < began) :: rows[t]
  }

  class UsedTokens {
    var rows: map<Token, nat>

    constructor ()
      ensures rows == map[]
    {
      rows := map[];
    }

    /** INSERT ... ON CONFLICT DO NOTHING; any database error refuses the token. */
    method ConsumeOnce(t: Token, began: nat, answer: Answer) returns (first: bool)
      modifies this
      ensures first == (answer.Replied? && t !in old(rows))
      ensures rows == Inserted(old(rows), t, began, answer)
    {
      if answer.Failed? {
        return false;
      }
      first := t !in rows;
      if first {
        rows := rows[t := began + t.guard];
      }
      if answer.Lost? {
        return false;
      }
    }

    method Reap(began: nat, fails: bool)
      modifies this
      ensures rows == if fails then old(rows) else Reaped(old(rows), began)
    {
      if fails {
        return;
      }
      rows := Reaped(rows, began);
    }
  }

  // ---------------------------------------------------------------------------
  // The system
  // ---------------------------------------------------------------------------

  /** A token a handler verified, and when. */
  datatype Session = Session(token: Token, at: nat)

  /** When the transaction of a token's last insert began, and the latest reaper run since. */
  datatype Insert = Insert(began: nat, reaped: nat)

  /**
   `verified` are the handlers between their two steps, with the token each verified and
   when; `log` the tokens accepted so far; `inserts` the history of the rows.
   */
  datatype System = System(
    rate: Rate,
    now: nat,
    rows: map<Token, nat>,
    verified: map<nat, Session>,
    log: seq<Token>,
    inserts: map<Token, Insert>)

  /** A statement of the database takes effect now, in a transaction that began no later. */
  datatype Event =
    | Tick(ticks: nat)
    | Verify(handler: nat, token: Token)
    | Consume(handler: nat, began: nat, answer: Answer)
    | Reap(began: nat, fails: bool)

  predicate Enabled(s: System, e: Event) {
    match e
    case Tick(_) => true
    case Verify(h, t) => h !in s.verified && t.signed <= s.now && Unexpired(t, s.now, s.rate)
    case Consume(h, b, _) => h in s.verified && s.verified[h].at <= b <= s.now
    case Reap(b, _) => b <= s.now
  }

  predicate Accepts(s: System, e: Event)
    requires Enabled(s, e)
  {
    e.Consume? && e.answer.Replied? && s.verified[e.handler].token !in s.rows
  }

  function Max(a: nat, b: nat): nat {
    if a < b then b else a
  }

  function Step(s: System, e: Event): System
    requires Enabled(s, e)
  {
    match e
    case Tick(d) => s.(now := s.now + d)
    case Verify(h, t) => s.(verified := s.verified[h := Session(t, s.now)])
    case Consume(h, b, a) =>
      var t := s.verified[h].token;
      s.(rows := Inserted(s.rows, t, b, a),
         verified := s.verified - {h},
         log := if Accepts(s, e) then s.log + [t] else s.log,
         inserts := if a.Failed? || t in s.rows then s.inserts else s.inserts[t := Insert(b, b)])
    case Reap(b, fails) =>
      if fails then s else
        s.(rows := Reaped(s.rows, b),
           inserts := map t | t in s.inserts :: s.inserts[t].(reaped := Max(s.inserts[t].reaped, b)))
  }

  function Init(rate: Rate, now: nat): System {
    System(rate, now, map[], map[], [], map[])
  }

  function Run(s: System, es: seq<Event>): System
    requires Legal(s, es)
    decreases |es|
  {
    if es == [] then s else Run(Step(s, es[0]), es[1..])
  }

  predicate Legal(s: System, es: seq<Event>)
    decreases |es|
  {
    es == [] || (Enabled(s, es[0]) && Legal(Step(s, es[0]), es[1..]))
  }

  predicate ConsumesOf(s: System, e: Event, t: Token)
    requires Enabled(s, e)
  {
    e.Consume? && s.verified[e.handler].token == t
  }

  /** Every consume of t comes no later than the deadline. */
  predicate Prompt(s: System, es: seq<Event>, t: Token, deadline: nat)
    requires Legal(s, es)
    decreases |es|
  {
    es == [] ||
    ((ConsumesOf(s, es[0], t) ==> s.now <= deadline) &&
     Prompt(Step(s, es[0]), es[1..], t, deadline))
  }

  /** Every consume of t comes within the delay after the same handler verified it. */
  predicate Timely(s: System, es: seq<Event>, t: Token, delay: nat)
    requires Legal(s, es)
    decreases |es|
  {
    es == [] ||
    ((ConsumesOf(s, es[0], t) ==> s.now <= s.verified[es[0].handler].at + delay) &&
     Timely(Step(s, es[0]), es[1..], t, delay))
  }

  function Uses(log: seq<Token>, t: Token): nat {
    if log == [] then 0 else Uses(log[..|log| - 1], t) + if log[|log| - 1] == t then 1 else 0
  }

  /** However a run starts and goes, t is accepted at most once if its consumes keep the deadline. */
  ghost predicate OnceBy(t: Token, rate: Rate, deadline: nat) {
    forall start, es :: Legal(Init(rate, start), es) && Prompt(Init(rate, start), es, t, deadline)
      ==> Uses(Run(Init(rate, start), es).log, t) <= 1
  }

  /** The same if every handler consumes within the delay after verifying. */
  ghost predicate OnceWithin(t: Token, rate: Rate, delay: nat) {
    forall start, es :: Legal(Init(rate, start), es) && Timely(Init(rate, start), es, t, delay)
      ==> Uses(Run(Init(rate, start), es).log, t) <= 1
  }

  // ---------------------------------------------------------------------------
  // The invariant
  // ---------------------------------------------------------------------------

  /** The row of a token is there unless a reaper began after its guard period. */
  ghost predicate Inv(s: System) {
    && (forall t :: t in s.inserts ==>
          t.signed <= s.inserts[t].began <= s.inserts[t].reaped <= s.now)
    && (forall t :: t in s.rows <==>
          t in s.inserts && s.inserts[t].reaped <= s.inserts[t].began + t.guard)
    && (forall t :: t in s.rows ==> s.rows[t] == s.inserts[t].began + t.guard)
    && (forall h :: h in s.verified ==>
          var v := s.verified[h]; v.token.signed <= v.at <= s.now && Unexpired(v.token, v.at, s.rate))
    && (forall t :: t in s.log ==> t in s.inserts)
  }

  lemma ConsumeKeepsInv(s: System, e: Event)
    requires Inv(s) && Enabled(s, e) && e.Consume?
    ensures Inv(Step(s, e))
  {
  }

  lemma ReapKeepsInv(s: System, e: Event)
    requires Inv(s) && Enabled(s, e) && e.Reap?
    ensures Inv(Step(s, e))
  {
  }

  lemma StepKeepsInv(s: System, e: Event)
    requires Inv(s) && Enabled(s, e)
    ensures Inv(Step(s, e))
  {
    match e
    case Consume(_, _, _) => ConsumeKeepsInv(s, e);
    case Reap(_, _) => ReapKeepsInv(s, e);
    case _ =>
  }

  lemma {:induction false} RunKeepsInv(s: System, es: seq<Event>)
    requires Inv(s) && Legal(s, es)
    ensures Inv(Run(s, es))
    decreases |es|
  {
    if es != [] {
      StepKeepsInv(s, es[0]);
      RunKeepsInv(Step(s, es[0]), es[1..]);
    }
  }

  lemma UsesAppend(log: seq<Token>, u: Token, t: Token)
    ensures Uses(log + [u], t) == Uses(log, t) + if u == t then 1 else 0
  {
    assert (log + [u])[..|log|] == log;
  }

  // ---------------------------------------------------------------------------
  // Theorems
  // ---------------------------------------------------------------------------

  /**
   After any run: a consume is accepted exactly when the database answers and the token
   was never recorded, or a reaper that began after its guard period has run since.
   */
  lemma WhenAConsumeIsAccepted(rate: Rate, start: nat, es: seq<Event>, e: Event)
    requires Legal(Init(rate, start), es) && e.Consume? && Enabled(Run(Init(rate, start), es), e)
    ensures var s := Run(Init(rate, start), es);
            var t := s.verified[e.handler].token;
            Accepts(s, e) <==>
              && e.answer.Replied?
              && (t in s.inserts ==> s.inserts[t].reaped > s.inserts[t].began + t.guard)
  {
    RunKeepsInv(Init(rate, start), es);
  }

  lemma {:induction false} PromptRunUsesOnce(s: System, es: seq<Event>, t: Token, deadline: nat)
    requires Inv(s) && Legal(s, es) && Prompt(s, es, t, deadline)
    requires deadline <= GuardEnd(t)
    requires Uses(s.log, t) <= if t in s.inserts then 1 else 0
    ensures Uses(Run(s, es).log, t) <= 1
    decreases |es|
  {
    if es != [] {
      PromptStepUsesOnce(s, es[0], t, deadline);
      PromptRunUsesOnce(Step(s, es[0]), es[1..], t, deadline);
    }
  }

  lemma PromptStepUsesOnce(s: System, e: Event, t: Token, deadline: nat)
    requires Inv(s) && Enabled(s, e) && deadline <= GuardEnd(t)
    requires ConsumesOf(s, e, t) ==> s.now <= deadline
    requires Uses(s.log, t) <= if t in s.inserts then 1 else 0
    ensures Inv(Step(s, e)) && Step(s, e).rate == s.rate
    ensures Uses(Step(s, e).log, t) <= if t in Step(s, e).inserts then 1 else 0
  {
    StepKeepsInv(s, e);
    if e.Consume? {
      UsesAppend(s.log, s.verified[e.handler].token, t);
    }
  }

  /**
   A token whose guard period reaches the deadline is accepted at most once, whatever the
   interleaving, the clock, the reaper and the database do, as long as no handler consumes
   it after the deadline.
   */
  lemma AcceptedAtMostOnce(t: Token, rate: Rate, deadline: nat)
    requires deadline <= GuardEnd(t)
    ensures OnceBy(t, rate, deadline)
  {
    forall start, es | Legal(Init(rate, start), es) && Prompt(Init(rate, start), es, t, deadline)
      ensures Uses(Run(Init(rate, start), es).log, t) <= 1
    {
      PromptRunUsesOnce(Init(rate, start), es, t, deadline);
    }
  }

  /** A timely handler consumes no later than the delay after the verifier's last instant. */
  lemma {:induction false} TimelyIsPrompt(s: System, es: seq<Event>, t: Token, delay: nat)
    requires Inv(s) && Legal(s, es) && Timely(s, es, t, delay)
    ensures Prompt(s, es, t, LastInstant(t, s.rate) + delay)
    decreases |es|
  {
    if es != [] {
      StepKeepsInv(s, es[0]);
      if ConsumesOf(s, es[0], t) {
        UnexpiredUpToLastInstant(t, s.verified[es[0].handler].at, s.rate);
      }
      TimelyIsPrompt(Step(s, es[0]), es[1..], t, delay);
    }
  }

  // ---------------------------------------------------------------------------
  // Runs that use a token twice
  // ---------------------------------------------------------------------------

  /** One step in front of a run. */
  lemma Before(s: System, e: Event, es: seq<Event>, t: Token, deadline: nat, delay: nat)
    requires Enabled(s, e) && Legal(Step(s, e), es)
    ensures Legal(s, [e] + es) && Run(s, [e] + es) == Run(Step(s, e), es)
    ensures Prompt(s, [e] + es, t, deadline) <==>
            (ConsumesOf(s, e, t) ==> s.now <= deadline) && Prompt(Step(s, e), es, t, deadline)
    ensures Timely(s, [e] + es, t, delay) <==>
            (ConsumesOf(s, e, t) ==> s.now <= s.verified[e.handler].at + delay) &&
            Timely(Step(s, e), es, t, delay)
  {
    assert ([e] + es)[1..] == es;
  }

  /** A handler verifies now, stalls, and consumes at the instant the row has been reaped. */
  function SecondUse(t: Token, stall: nat, end: nat): seq<Event> {
    [Verify(1, t)] + ([Tick(stall)] + ([Reap(end, false)] + ([Consume(1, end, Replied)] + [])))
  }

  /** The first handler verifies and consumes as the token is signed; a while later comes the second. */
  function Replay(t: Token, wait: nat, stall: nat): seq<Event> {
    [Verify(0, t)] + ([Consume(0, t.signed, Replied)] + ([Tick(wait)] +
    SecondUse(t, stall, t.signed + wait + stall)))
  }

  /** Where the second use starts: the token was used once and its row runs out before the end. */
  ghost predicate UsedOnce(s: System, t: Token, stall: nat, end: nat) {
    && s.verified == map[] && s.log == [t]
    && t in s.rows && s.rows[t] < end == s.now + stall
    && t.signed <= s.now && Unexpired(t, s.now, s.rate)
  }

  /** The state before the last consume, and what the consume does to the log. */
  lemma SecondUseEnds(s: System, t: Token, stall: nat, end: nat)
    requires UsedOnce(s, t, stall, end)
    ensures var s3 := Step(Step(Step(s, Verify(1, t)), Tick(stall)), Reap(end, false));
            && s3.verified == map[1 := Session(t, s.now)] && s3.now == end
            && Uses(Step(s3, Consume(1, end, Replied)).log, t) == 2
  {
    UsesAppend([], t, t);
    UsesAppend([] + [t], t, t);
  }

  lemma SecondUseAccepted(s: System, t: Token, stall: nat, end: nat, deadline: nat, delay: nat)
    requires UsedOnce(s, t, stall, end)
    ensures var es := SecondUse(t, stall, end);
            && Legal(s, es) && Uses(Run(s, es).log, t) == 2
            && (end <= deadline ==> Prompt(s, es, t, deadline))
            && (stall <= delay ==> Timely(s, es, t, delay))
  {
    var s1 := Step(s, Verify(1, t));
    var s2 := Step(s1, Tick(stall));
    var s3 := Step(s2, Reap(end, false));
    SecondUseEnds(s, t, stall, end);
    var e3: seq<Event> := [Consume(1, end, Replied)] + [];
    Before(s3, Consume(1, end, Replied), [], t, deadline, delay);
    var e2 := [Reap(end, false)] + e3;
    Before(s2, Reap(end, false), e3, t, deadline, delay);
    var e1 := [Tick(stall)] + e2;
    Before(s1, Tick(stall), e2, t, deadline, delay);
    Before(s, Verify(1, t), e1, t, deadline, delay);
  }

  lemma ReplayUsesTwice(t: Token, rate: Rate, wait: nat, stall: nat, deadline: nat, delay: nat)
    requires t.signed + wait + stall == GuardEnd(t) + 1 && t.signed + wait <= LastInstant(t, rate)
    ensures var s, es := Init(rate, t.signed), Replay(t, wait, stall);
            && Legal(s, es) && Uses(Run(s, es).log, t) == 2
            && (GuardEnd(t) < deadline ==> Prompt(s, es, t, deadline))
            && (stall <= delay ==> Timely(s, es, t, delay))
  {
    UnexpiredUpToLastInstant(t, t.signed, rate);
    UnexpiredUpToLastInstant(t, t.signed + wait, rate);
    var end := t.signed + wait + stall;
    var s0 := Init(rate, t.signed);
    var s1 := Step(s0, Verify(0, t));
    var s2 := Step(s1, Consume(0, t.signed, Replied));
    var s3 := Step(s2, Tick(wait));
    assert UsedOnce(s3, t, stall, end);
    SecondUseAccepted(s3, t, stall, end, deadline, delay);
    var e3 := SecondUse(t, stall, end);
    var e2 := [Tick(wait)] + e3;
    Before(s2, Tick(wait), e3, t, deadline, delay);
    var e1 := [Consume(0, t.signed, Replied)] + e2;
    Before(s1, Consume(0, t.signed, Replied), e2, t, deadline, delay);
    Before(s0, Verify(0, t), e1, t, deadline, delay);
  }

  /** A run that uses a token twice, for any delay and deadline it meets. */
  lemma ReplayRefutes(t: Token, rate: Rate, wait: nat, stall: nat)
    requires t.signed + wait + stall == GuardEnd(t) + 1 && t.signed + wait <= LastInstant(t, rate)
    ensures forall deadline :: GuardEnd(t) < deadline ==> !OnceBy(t, rate, deadline)
    ensures forall delay :: stall <= delay ==> !OnceWithin(t, rate, delay)
  {
    var s, es := Init(rate, t.signed), Replay(t, wait, stall);
    forall deadline | GuardEnd(t) < deadline ensures !OnceBy(t, rate, deadline) {
      ReplayUsesTwice(t, rate, wait, stall, deadline, 0);
      assert Legal(s, es) && Prompt(s, es, t, deadline);
    }
    forall delay | stall <= delay ensures !OnceWithin(t, rate, delay) {
      ReplayUsesTwice(t, rate, wait, stall, 0, delay);
      assert Legal(s, es) && Timely(s, es, t, delay);
    }
  }

  // ---------------------------------------------------------------------------
  // What the guard period has to cover
  // ---------------------------------------------------------------------------

  /**
   With a deadline for consuming, one acceptance in every run is what a guard period up to the
   deadline buys, no more and no less.
   */
  lemma GuardMustCoverDeadline(t: Token, rate: Rate, deadline: nat)
    requires Unexpired(t, t.signed, rate)
    ensures OnceBy(t, rate, deadline) <==> deadline <= GuardEnd(t)
  {
    if deadline <= GuardEnd(t) {
      AcceptedAtMostOnce(t, rate, deadline);
    } else {
      UnexpiredUpToLastInstant(t, t.signed, rate);
      ReplayRefutes(t, rate, 0, t.guard + 1);
    }
  }

  /**
   With a bound on the delay between the two steps of a handler, every run uses the token at
   most once if and only if the guard period covers that delay after the last instant at which
   the verifier accepts.
   */
  lemma GuardMustCoverLifetimeAndDelay(t: Token, rate: Rate, delay: nat)
    requires Unexpired(t, t.signed, rate)
    ensures OnceWithin(t, rate, delay) <==> LastInstant(t, rate) + delay <= GuardEnd(t)
  {
    var last := LastInstant(t, rate);
    if last + delay <= GuardEnd(t) {
      forall start, es | Legal(Init(rate, start), es) && Timely(Init(rate, start), es, t, delay)
        ensures Uses(Run(Init(rate, start), es).log, t) <= 1
      {
        TimelyIsPrompt(Init(rate, start), es, t, delay);
        PromptRunUsesOnce(Init(rate, start), es, t, last + delay);
      }
    } else {
      UnexpiredUpToLastInstant(t, t.signed, rate);
      var gone := t.guard + 1;
      var wait: nat := if last - t.signed < gone then last - t.signed else gone;
      ReplayRefutes(t, rate, wait, gone - wait);
    }
  }

  /** Handlers that consume while the verifier still accepts: the guard must reach its last instant. */
  lemma GuardMustCoverLifetime(t: Token, rate: Rate)
    ensures OnceBy(t, rate, LastInstant(t, rate)) <==> LastInstant(t, rate) <= GuardEnd(t)
  {
    if LastInstant(t, rate) <= GuardEnd(t) {
      AcceptedAtMostOnce(t, rate, LastInstant(t, rate));
    } else {
      UnexpiredUpToLastInstant(t, t.signed, rate);
      GuardMustCoverDeadline(t, rate, LastInstant(t, rate));
    }
  }

  // ---------------------------------------------------------------------------
  // The tokens of the application
  // ---------------------------------------------------------------------------

  /** When the last instant of a token with this lifetime is, counted from the instant it was signed. */
  lemma LastInstantOf(id: nat, signed: nat, lifetime: nat, guard: nat, rate: Rate)
    ensures var t := Sign(id, signed, lifetime, guard, rate);
            && Unexpired(t, signed, rate)
            && LastInstant(t, rate) == signed - signed % rate + lifetime * rate + rate - 1
  {
    var second := signed / rate;
    assert signed == second * rate + signed % rate;
    assert (second + lifetime + 1) * rate == second * rate + lifetime * rate + rate;
  }

  /**
   Tokens the application issues, on each of its three routes, are accepted at most once by a
   deadline if and only if it comes within their lifetime counted from the instant of signing.
   The verifier goes on accepting until the second of expiry is over.
   */
  lemma IssuedTokensAreOneShot(p: Purpose, id: nat, signed: nat, rate: Rate, deadline: nat)
    ensures OnceBy(Issue(p, id, signed, rate), rate, deadline) <==> deadline <= signed + Lifetime(p) * rate
  {
    LastInstantOf(id, signed, Lifetime(p), GuardPeriod(p), rate);
    GuardMustCoverDeadline(Issue(p, id, signed, rate), rate, deadline);
  }

  /**
   Handlers that consume as they verify are not enough on any of the three routes: a token is
   safe with them only if it was signed on the last tick of a second, and with a delay never.
   */
  lemma RoutesTolerateNoDelay(p: Purpose, id: nat, signed: nat, rate: Rate, delay: nat)
    ensures OnceWithin(Issue(p, id, signed, rate), rate, delay) <==>
            delay == 0 && signed % rate == rate - 1
  {
    LastInstantOf(id, signed, Lifetime(p), GuardPeriod(p), rate);
    GuardMustCoverLifetimeAndDelay(Issue(p, id, signed, rate), rate, delay);
  }

  /**
   A reset token signed a tenth into second 1000 is consumed at once; its row is kept until a
   tenth into second 4600, the second the token expires in.  It is reaped a tenth later, and at
   that very instant the token is verified and consumed again.
   */
  lemma NoDelayReplays(id: nat)
    ensures var t := Issue(ResetPassword, id, 10001, 10);
            var s, es := Init(10, 10001), Replay(t, 36001, 0);
            Legal(s, es) && Timely(s, es, t, 0) && Uses(Run(s, es).log, t) == 2
  {
    ReplayUsesTwice(Issue(ResetPassword, id, 10001, 10), 10, 36001, 0, 0, 0);
  }

  lemma EnoughGuard(id: nat, signed: nat, lifetime: nat, guard: nat, rate: Rate, seconds: nat)
    requires lifetime + 1 + seconds <= guard
    ensures OnceWithin(Sign(id, signed, lifetime, guard, rate), rate, seconds * rate)
  {
    LastInstantOf(id, signed, lifetime, guard, rate);
    assert lifetime * rate + rate + seconds * rate == (lifetime + 1 + seconds) * rate <= guard * rate;
    GuardMustCoverLifetimeAndDelay(Sign(id, signed, lifetime, guard, rate), rate, seconds * rate);
  }

  /** A token signed at the beginning of a second. */
  lemma TooLittleGuard(lifetime: nat, guard: nat, rate: Rate, seconds: nat)
    requires rate > 1 && guard < lifetime + 1 + seconds
    ensures !OnceWithin(Sign(0, 0, lifetime, guard, rate), rate, seconds * rate)
  {
    LastInstantOf(0, 0, lifetime, guard, rate);
    assert lifetime * rate + rate + seconds * rate == (lifetime + 1 + seconds) * rate >= guard * rate + rate by {
      assert (lifetime + 1 + seconds) * rate >= (guard + 1) * rate;
    }
    GuardMustCoverLifetimeAndDelay(Sign(0, 0, lifetime, guard, rate), rate, seconds * rate);
  }

  /**
   What a caller can check: on a clock finer than the second, whenever tokens are signed,
   handlers that consume within so many seconds use each of them at most once if and only if the
   guard period is at least the lifetime, one second and those seconds.
   */
  lemma GuardNeedsOneMoreSecond(lifetime: nat, guard: nat, rate: Rate, seconds: nat)
    requires rate > 1
    ensures (forall id, signed :: OnceWithin(Sign(id, signed, lifetime, guard, rate), rate, seconds * rate))
            <==> lifetime + 1 + seconds <= guard
  {
    if lifetime + 1 + seconds <= guard {
      forall id, signed ensures OnceWithin(Sign(id, signed, lifetime, guard, rate), rate, seconds * rate) {
        EnoughGuard(id, signed, lifetime, guard, rate, seconds);
      }
    } else {
      TooLittleGuard(lifetime, guard, rate, seconds);
    }
  }

  /**
   Verification and consumption are two steps, so promptness is needed: for every token that
   is valid when signed, however long the guard, a stalled handler can use it a second time.
   */
  lemma StalledHandlerReplays(t: Token, rate: Rate)
    requires Unexpired(t, t.signed, rate)
    ensures var s, es := Init(rate, t.signed), Replay(t, 0, t.guard + 1);
            Legal(s, es) && Uses(Run(s, es).log, t) == 2 && !Prompt(s, es, t, GuardEnd(t))
  {
    UnexpiredUpToLastInstant(t, t.signed, rate);
    ReplayUsesTwice(t, rate, 0, t.guard + 1, 0, 0);
    if Prompt(Init(rate, t.signed), Replay(t, 0, t.guard + 1), t, GuardEnd(t)) {
      AcceptedAtMostOnce(t, rate, GuardEnd(t));
      assert false;
    }
  }
}

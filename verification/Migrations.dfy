/**
 The SQL migration runner.  A boot takes a snapshot of the recorded versions and then
 walks the sorted files; for each one the snapshot does not list, it takes the advisory
 lock, looks again, and applies the file.  A transactional file commits its DDL and its
 row together; a no-transaction file commits them one after the other.

 The first half is one boot on its own.  The second half is a fleet: any number of boots
 over one directory and one database, interleaved at every statement, any of which may
 die at any point and boot again.
 */
module Migrations {

  import opened Wrappers

  /** A file of the directory; its position in the sorted listing is its identity. */
  datatype File = File(version: nat, noTransaction: bool)

  ghost predicate Sorted(files: seq<File>) {
    forall i, j :: 0 <= i < j < |files| ==> files[i].version <= files[j].version
  }

  // ---------------------------------------------------------------------------
  // One boot
  // ---------------------------------------------------------------------------

  /** The files among files[i..] not recorded in `table`, in order. */
  function Pending(files: seq<File>, table: set<nat>, i: nat): seq<nat>
    requires i <= |files|
    decreases |files| - i
  {
    if i == |files| then []
    else (if files[i].version in table then [] else [i]) + Pending(files, table, i + 1)
  }

  /** The files among files[i..] a lone boot applies: the first pending one of each version. */
  function Fresh(files: seq<File>, table: set<nat>, i: nat): seq<nat>
    requires i <= |files|
    decreases |files| - i
  {
    if i == |files| then []
    else if files[i].version in table then Fresh(files, table, i + 1)
    else [i] + Fresh(files, table + {files[i].version}, i + 1)
  }

  function Versions(files: seq<File>, i: nat): set<nat>
    requires i <= |files|
    decreases |files| - i
  {
    if i == |files| then {} else {files[i].version} + Versions(files, i + 1)
  }

  /** What the runner touches: the rows of schema_migrations and the DDL already committed. */
  class Database {
    var table: set<nat>
    var ddl: seq<nat>

    constructor (table: set<nat>)
      ensures this.table == table && ddl == []
    {
      this.table, this.ddl := table, [];
    }

    /** One transaction under the transaction-scoped lock: re-check, DDL, row. */
    method ApplyInTransaction(files: seq<File>, i: nat) returns (applied: bool)
      requires i < |files|
      modifies this
      ensures applied == (files[i].version !in old(table))
      ensures table == old(table) + {files[i].version}
      ensures ddl == old(ddl) + if applied then [i] else []
    {
      if files[i].version in table {
        return false;
      }
      ddl := ddl + [i];
      table := table + {files[i].version};
      return true;
    }

    /** Autocommit under the session lock: the two writes are two commits. */
    method ApplyNoTransaction(files: seq<File>, i: nat) returns (applied: bool)
      requires i < |files|
      modifies this
      ensures applied == (files[i].version !in old(table))
      ensures table == old(table) + {files[i].version}
      ensures ddl == old(ddl) + if applied then [i] else []
    {
      applied := false;
      var seen := files[i].version in table;
      if !seen {
        ddl := ddl + [i];
        table := table + {files[i].version};
        applied := true;
      }
    }

    /** initialize(): nobody else is booting. */
    method Initialize(files: seq<File>) returns (appliedCount: nat, skippedCount: nat)
      modifies this
      ensures table == old(table) + Versions(files, 0)
      ensures ddl == old(ddl) + Fresh(files, old(table), 0)
      ensures appliedCount == |Fresh(files, old(table), 0)|
      ensures appliedCount + skippedCount == |files|
    {
      appliedCount, skippedCount := 0, 0;
      var applied := table;
      for i := 0 to |files|
        invariant applied <= table
        invariant table + Versions(files, i) == old(table) + Versions(files, 0)
        invariant ddl + Fresh(files, table, i) == old(ddl) + Fresh(files, old(table), 0)
        invariant appliedCount + |Fresh(files, table, i)| == |Fresh(files, old(table), 0)|
        invariant appliedCount + skippedCount == i
      {
        if files[i].version in applied {
          skippedCount := skippedCount + 1;
          continue;
        }
        ghost var before := ddl;
        ghost var rest := Fresh(files, table + {files[i].version}, i + 1);
        assert table + {files[i].version} == table || files[i].version !in table;
        var didApply;
        if files[i].noTransaction {
          didApply := ApplyNoTransaction(files, i);
        } else {
          didApply := ApplyInTransaction(files, i);
        }
        assert before + ([i] + rest) == (before + [i]) + rest;
        if didApply {
          appliedCount := appliedCount + 1;
        } else {
          skippedCount := skippedCount + 1;
        }
      }
    }

    /** list_pending(): read-only, for the verify mode. */
    method ListPending(files: seq<File>) returns (pending: seq<nat>)
      ensures pending == Pending(files, table, 0)
    {
      pending := [];
      for i := 0 to |files|
        invariant pending + Pending(files, table, i) == Pending(files, table, 0)
      {
        if files[i].version !in table {
          assert pending + ([i] + Pending(files, table, i + 1)) == (pending + [i]) + Pending(files, table, i + 1);
          pending := pending + [i];
        }
      }
    }
  }

  ghost predicate IsPending(files: seq<File>, table: set<nat>, j: nat) {
    j < |files| && files[j].version !in table
  }

  ghost predicate Rising(list: seq<nat>) { forall a, b :: 0 <= a < b < |list| ==> list[a] < list[b] }

  lemma RisingCons(i: nat, list: seq<nat>)
    requires Rising(list) && forall j :: j in list ==> i < j
    ensures Rising([i] + list)
  {
    assert forall a :: 0 <= a < |list| ==> list[a] in list;
  }

  /** The verify mode lists the files without a row, all of them, once and in order. */
  lemma {:induction false} PendingAre(files: seq<File>, table: set<nat>, i: nat)
    requires i <= |files|
    ensures forall j :: j in Pending(files, table, i) <==> i <= j && IsPending(files, table, j)
    ensures Rising(Pending(files, table, i))
    decreases |files| - i
  {
    if i < |files| {
      PendingAre(files, table, i + 1);
      RisingCons(i, Pending(files, table, i + 1));
    }
  }

  /** No earlier file from the i-th on has the version of file j. */
  ghost predicate FirstOfItsVersion(files: seq<File>, i: nat, j: nat)
    requires j < |files|
  {
    forall k :: i <= k < j ==> files[k].version != files[j].version
  }

  /** A lone boot applies the first file of every version without a row, each once and in order. */
  lemma {:induction false} FreshAre(files: seq<File>, table: set<nat>, i: nat)
    requires i <= |files|
    ensures forall j :: j in Fresh(files, table, i) <==>
              i <= j && IsPending(files, table, j) && FirstOfItsVersion(files, i, j)
    ensures Rising(Fresh(files, table, i))
    decreases |files| - i
  {
    if i < |files| {
      var v := files[i].version;
      var rest := Fresh(files, if v in table then table else table + {v}, i + 1);
      FreshAre(files, if v in table then table else table + {v}, i + 1);
      forall j ensures j in Fresh(files, table, i) <==>
                 i <= j && IsPending(files, table, j) && FirstOfItsVersion(files, i, j)
      {
        FreshStep(files, table, i, j);
      }
      RisingCons(i, rest);
    }
  }

  lemma FreshStep(files: seq<File>, table: set<nat>, i: nat, j: nat)
    requires i < |files|
    requires var t := if files[i].version in table then table else table + {files[i].version};
             j in Fresh(files, t, i + 1) <==>
               i + 1 <= j && IsPending(files, t, j) && FirstOfItsVersion(files, i + 1, j)
    ensures j in Fresh(files, table, i) <==>
              i <= j && IsPending(files, table, j) && FirstOfItsVersion(files, i, j)
  {
    if i < j < |files| {
      assert FirstOfItsVersion(files, i, j) <==>
             FirstOfItsVersion(files, i + 1, j) && files[i].version != files[j].version;
    }
  }

  lemma {:induction false} VersionsAre(files: seq<File>, i: nat, v: nat)
    requires i <= |files|
    ensures v in Versions(files, i) <==> exists j :: i <= j < |files| && files[j].version == v
    decreases |files| - i
  {
    if i < |files| {
      VersionsAre(files, i + 1, v);
    }
  }

  /** Two files of one version that are both pending. */
  ghost predicate PendingTwins(files: seq<File>, table: set<nat>, i: nat) {
    exists j, k :: i <= j < k < |files| && files[j].version == files[k].version && files[j].version !in table
  }

  lemma {:induction false} FreshIsShorter(files: seq<File>, small: set<nat>, big: set<nat>, i: nat)
    requires i <= |files| && small <= big
    ensures |Fresh(files, big, i)| <= |Pending(files, small, i)|
    ensures (exists k :: i <= k < |files| && files[k].version in big - small) ==>
              |Fresh(files, big, i)| < |Pending(files, small, i)|
    decreases |files| - i
  {
    if i < |files| {
      var v := files[i].version;
      if v in big {
        FreshIsShorter(files, small, big, i + 1);
      } else {
        FreshIsShorter(files, small, big + {v}, i + 1);
        if k :| i <= k < |files| && files[k].version in big - small {
          assert i + 1 <= k;
          assert files[k].version in big + {v} - small;
        }
      }
    }
  }

  /**
   The verify mode lists exactly what a lone boot would apply if and only if no two
   pending files share a version; otherwise it lists more.
   */
  lemma {:induction false} VerifyModeListsWhatABootApplies(files: seq<File>, table: set<nat>, i: nat)
    requires i <= |files|
    ensures Pending(files, table, i) == Fresh(files, table, i) <==> !PendingTwins(files, table, i)
    decreases |files| - i
  {
    if i == |files| { return; }
    var v := files[i].version;
    if v in table {
      VerifyModeListsWhatABootApplies(files, table, i + 1);
      TwinsAfterSettled(files, table, i);
    } else if k :| i + 1 <= k < |files| && files[k].version == v {
      FreshIsShorter(files, table, table + {v}, i + 1);
      assert files[k].version in table + {v} - table;
      assert files[i].version == files[k].version;
    } else {
      VerifyModeListsWhatABootApplies(files, table, i + 1);
      SkippingUnused(files, table, v, i + 1);
      assert Fresh(files, table, i)[1..] == Fresh(files, table, i + 1);
      assert Pending(files, table, i)[1..] == Pending(files, table, i + 1);
      TwinsAfterSettled(files, table, i);
    }
  }

  /** A file that is applied, or whose version is its own, has no pending twin. */
  lemma TwinsAfterSettled(files: seq<File>, table: set<nat>, i: nat)
    requires i < |files|
    requires files[i].version in table || forall k :: i + 1 <= k < |files| ==> files[k].version != files[i].version
    ensures PendingTwins(files, table, i) <==> PendingTwins(files, table, i + 1)
  {
    if PendingTwins(files, table, i) {
      var j, k :| i <= j < k < |files| && files[j].version == files[k].version && files[j].version !in table;
      assert i + 1 <= j;
    }
  }

  lemma {:induction false} SkippingUnused(files: seq<File>, table: set<nat>, v: nat, i: nat)
    requires i <= |files|
    requires forall k :: i <= k < |files| ==> files[k].version != v
    ensures Fresh(files, table + {v}, i) == Fresh(files, table, i)
    decreases |files| - i
  {
    if i < |files| {
      var w := files[i].version;
      if w in table {
        SkippingUnused(files, table, v, i + 1);
      } else {
        SkippingUnused(files, table + {w}, v, i + 1);
        assert table + {v} + {w} == table + {w} + {v};
      }
    }
  }

  // ---------------------------------------------------------------------------
  // A fleet of boots
  // ---------------------------------------------------------------------------

  /**
   Where one runner stands.  `Checked` has seen under the lock that its file has no row;
   `Ran` has committed the DDL of a no-transaction file and not yet its row.  `seen` is
   the snapshot taken before the loop, stale from then on.
   */
  datatype Runner =
    | Boot
    | At(i: nat, seen: set<nat>)
    | Locked(i: nat, seen: set<nat>)
    | Checked(i: nat, seen: set<nat>)
    | Ran(i: nat, seen: set<nat>)
    | Unlocking(i: nat, seen: set<nat>)
    | Finished
    | Down

  /**
   `rows` are the versions recorded by this fleet, in commit order, on top of the rows
   `initial` that were there before; `ddl` are the files whose DDL was committed, in
   commit order; `torn` are the files whose runner died between DDL and row.
   */
  datatype Fleet = Fleet(
    initial: set<nat>,
    rows: seq<nat>,
    lock: Option<nat>,
    runners: seq<Runner>,
    ddl: seq<nat>,
    torn: seq<nat>)
  {
    predicate Recorded(v: nat) { v in initial || v in rows }

    function Snapshot(): set<nat> { initial + set v | v in rows }
  }

  datatype Event =
    | Start(r: nat)
    | Pass(r: nat)
    | Lock(r: nat)
    | Check(r: nat)
    | Commit(r: nat)
    | Abort(r: nat)
    | RunDdl(r: nat)
    | InsertRow(r: nat)
    | Unlock(r: nat)
    | Crash(r: nat)
    | Restart(r: nat)

  predicate InLock(p: Runner) { p.Locked? || p.Checked? || p.Ran? || p.Unlocking? }

  predicate Enabled(files: seq<File>, s: Fleet, e: Event) {
    e.r < |s.runners| &&
    var p := s.runners[e.r];
    match e
    case Start(_) => p.Boot?
    case Pass(_) => p.At? && (p.i >= |files| || files[p.i].version in p.seen)
    case Lock(_) => p.At? && p.i < |files| && files[p.i].version !in p.seen && s.lock.None?
    case Check(_) => p.Locked? && p.i < |files|
    case Commit(_) => p.Checked? && p.i < |files| && !files[p.i].noTransaction
    case Abort(_) => (p.Locked? || p.Checked?) && p.i < |files| && !files[p.i].noTransaction
    case RunDdl(_) => p.Checked? && p.i < |files| && files[p.i].noTransaction
    case InsertRow(_) => p.Ran? && p.i < |files|
    case Unlock(_) => p.Unlocking?
    case Crash(_) => !p.Finished? && !p.Down?
    case Restart(_) => p.Down?
  }

  function Step(files: seq<File>, s: Fleet, e: Event): Fleet
    requires Enabled(files, s, e)
  {
    var r, p := e.r, s.runners[e.r];
    match e
    case Start(_) =>
      s.(runners := s.runners[r := if files == [] then Finished else At(0, s.Snapshot())])
    case Pass(_) =>
      s.(runners := s.runners[r := if p.i >= |files| then Finished else At(p.i + 1, p.seen)])
    case Lock(_) =>
      s.(lock := Some(r), runners := s.runners[r := Locked(p.i, p.seen)])
    case Check(_) =>
      if !s.Recorded(files[p.i].version) then s.(runners := s.runners[r := Checked(p.i, p.seen)])
      else if files[p.i].noTransaction then s.(runners := s.runners[r := Unlocking(p.i, p.seen)])
      else s.(lock := None, runners := s.runners[r := At(p.i + 1, p.seen)])
    case Commit(_) =>
      s.(lock := None, ddl := s.ddl + [p.i], rows := s.rows + [files[p.i].version],
         runners := s.runners[r := At(p.i + 1, p.seen)])
    case Abort(_) =>
      s.(lock := None, runners := s.runners[r := At(p.i, p.seen)])
    case RunDdl(_) =>
      s.(ddl := s.ddl + [p.i], runners := s.runners[r := Ran(p.i, p.seen)])
    case InsertRow(_) =>
      s.(rows := s.rows + [files[p.i].version], runners := s.runners[r := Unlocking(p.i, p.seen)])
    case Unlock(_) =>
      s.(lock := None, runners := s.runners[r := At(p.i + 1, p.seen)])
    case Crash(_) =>
      s.(lock := if InLock(p) then None else s.lock,
         torn := if p.Ran? then s.torn + [p.i] else s.torn,
         runners := s.runners[r := Down])
    case Restart(_) =>
      s.(runners := s.runners[r := Boot])
  }

  function Init(initial: set<nat>, n: nat): Fleet {
    Fleet(initial, [], None, seq(n, _ => Boot), [], [])
  }

  ghost predicate Leads(files: seq<File>, s: Fleet, es: seq<Event>, s': Fleet)
    decreases |es|
  {
    if es == [] then s' == s
    else Enabled(files, s, es[0]) && Leads(files, Step(files, s, es[0]), es[1..], s')
  }

  ghost predicate Reachable(files: seq<File>, initial: set<nat>, n: nat, s: Fleet) {
    exists es :: Leads(files, Init(initial, n), es, s)
  }

  // ---------------------------------------------------------------------------
  // The invariant
  // ---------------------------------------------------------------------------

  ghost predicate LockHeldBy(s: Fleet) {
    && (s.lock.Some? ==> s.lock.value < |s.runners|)
    && (forall r :: 0 <= r < |s.runners| ==> (InLock(s.runners[r]) <==> s.lock == Some(r)))
  }

  /** All files before position i are recorded. */
  ghost predicate DoneBefore(files: seq<File>, s: Fleet, i: nat) {
    i <= |files| && forall j :: 0 <= j < i ==> s.Recorded(files[j].version)
  }

  ghost predicate RunnerOk(files: seq<File>, s: Fleet, p: Runner) {
    && (p.Finished? ==> DoneBefore(files, s, |files|))
    && (p.At? || InLock(p) ==> DoneBefore(files, s, p.i) && p.seen <= s.Snapshot())
    && (InLock(p) ==> p.i < |files|)
    && (p.Checked? || p.Ran? ==> !s.Recorded(files[p.i].version))
    && (p.Ran? ==> files[p.i].noTransaction)
    && (p.Unlocking? ==> s.Recorded(files[p.i].version))
  }

  /** A log holds positions of the directory. */
  ghost predicate Positions(files: seq<File>, log: seq<nat>) {
    forall a :: 0 <= a < |log| ==> log[a] < |files|
  }

  ghost predicate LogsOk(files: seq<File>, s: Fleet) {
    && Positions(files, s.ddl)
    && (forall k :: k in s.ddl ==> files[k].version !in s.initial)
    && (forall k :: k in s.ddl && !files[k].noTransaction ==> files[k].version in s.rows)
    && Positions(files, s.torn)
    && (forall k :: k in s.torn ==> files[k].noTransaction)
  }

  /** Whatever has run, everything before it in the directory is recorded. */
  ghost predicate Downward(files: seq<File>, s: Fleet)
    requires Positions(files, s.ddl)
  {
    && (forall k, j :: k in s.ddl && 0 <= j < |files| && files[j].version < files[k].version ==>
          s.Recorded(files[j].version))
    && (forall v, j :: v in s.rows && 0 <= j < |files| && files[j].version < v ==> s.Recorded(files[j].version))
    && (forall v :: v in s.rows ==> v !in s.initial && exists j :: 0 <= j < |files| && files[j].version == v)
  }

  ghost predicate Increasing(rows: seq<nat>) {
    forall a, b :: 0 <= a < b < |rows| ==> rows[a] < rows[b]
  }

  /** A DDL commit of a version not seen earlier in the log is above everything earlier. */
  ghost predicate FirstRunsIncrease(files: seq<File>, ddl: seq<nat>)
    requires Positions(files, ddl)
  {
    forall a, b :: 0 <= a < b < |ddl| && (forall c :: 0 <= c < b ==> files[ddl[c]].version != files[ddl[b]].version)
      ==> files[ddl[a]].version < files[ddl[b]].version
  }

  /** After a transactional file has committed, nothing of its version runs again. */
  ghost predicate TransactionalLast(files: seq<File>, ddl: seq<nat>)
    requires Positions(files, ddl)
  {
    forall a, b :: 0 <= a < b < |ddl| && !files[ddl[a]].noTransaction
      ==> files[ddl[a]].version != files[ddl[b]].version
  }

  /** How often the DDL of version v stands in a log of file positions. */
  ghost function Times(files: seq<File>, log: seq<nat>, v: nat): nat {
    if log == [] then 0
    else
      var k := log[|log| - 1];
      Times(files, log[..|log| - 1], v) + if k < |files| && files[k].version == v then 1 else 0
  }

  ghost predicate InFlight(files: seq<File>, s: Fleet, v: nat) {
    s.lock.Some? && s.lock.value < |s.runners| &&
    var p := s.runners[s.lock.value];
    p.Ran? && p.i < |files| && files[p.i].version == v
  }

  /** Every committed DDL ended in a row, in a crash before its row, or is between the two right now. */
  ghost predicate Balanced(files: seq<File>, s: Fleet, v: nat) {
    Times(files, s.ddl, v) ==
    Times(files, s.torn, v) + (if v in s.rows then 1 else 0) + (if InFlight(files, s, v) then 1 else 0)
  }

  ghost predicate Inv(files: seq<File>, s: Fleet) {
    && LockHeldBy(s)
    && (forall r :: 0 <= r < |s.runners| ==> RunnerOk(files, s, s.runners[r]))
    && LogsOk(files, s)
    && Downward(files, s)
    && Increasing(s.rows)
    && FirstRunsIncrease(files, s.ddl)
    && TransactionalLast(files, s.ddl)
    && (forall v :: Balanced(files, s, v))
  }

  lemma TimesAppend(files: seq<File>, log: seq<nat>, k: nat, v: nat)
    ensures Times(files, log + [k], v) ==
            Times(files, log, v) + if k < |files| && files[k].version == v then 1 else 0
  {
    assert (log + [k])[..|log|] == log;
  }

  /** Moving one runner, with more rows only if it held the lock, keeps the others in order. */
  lemma OthersOk(files: seq<File>, s: Fleet, s': Fleet, r: nat)
    requires Inv(files, s) && r < |s.runners| && |s'.runners| == |s.runners| && s'.initial == s.initial
    requires forall x :: 0 <= x < |s.runners| && x != r ==> s'.runners[x] == s.runners[x]
    requires s'.rows == s.rows || (s.lock == Some(r) && s.rows <= s'.rows)
    requires RunnerOk(files, s', s'.runners[r])
    ensures forall x :: 0 <= x < |s.runners| ==> RunnerOk(files, s', s'.runners[x])
  {
    assert forall v :: s.Recorded(v) ==> s'.Recorded(v);
    forall x | 0 <= x < |s.runners| && x != r ensures RunnerOk(files, s', s'.runners[x]) {
      assert RunnerOk(files, s, s.runners[x]);
      assert s.Snapshot() <= s'.Snapshot();
      assert s'.rows != s.rows ==> !InLock(s.runners[x]);
    }
  }

  /** Steps that touch no log: only who is in flight could move, and it does not. */
  lemma QuietKeeps(files: seq<File>, s: Fleet, s': Fleet, r: nat)
    requires Inv(files, s) && r < |s.runners| && |s'.runners| == |s.runners|
    requires s' == s.(runners := s'.runners, lock := s'.lock)
    requires forall x :: 0 <= x < |s.runners| && x != r ==> s'.runners[x] == s.runners[x]
    requires RunnerOk(files, s', s'.runners[r])
    requires !s.runners[r].Ran? && !s'.runners[r].Ran?
    requires s'.lock == s.lock || s'.lock == Some(r) || s.lock == Some(r)
    requires LockHeldBy(s')
    ensures Inv(files, s')
  {
    OthersOk(files, s, s', r);
    forall v ensures Balanced(files, s', v) {
      assert Balanced(files, s, v);
      assert InFlight(files, s, v) == InFlight(files, s', v);
    }
  }

  lemma EarlierFilesRecorded(files: seq<File>, s: Fleet, i: nat)
    requires Sorted(files) && i < |files| && DoneBefore(files, s, i)
    ensures forall j :: 0 <= j < |files| && files[j].version < files[i].version ==> s.Recorded(files[j].version)
  {
    forall j | 0 <= j < |files| && files[j].version < files[i].version ensures s.Recorded(files[j].version) {
      assert j < i;
    }
  }

  /** Under the lock and with everything before it recorded, a file's DDL comes in version order. */
  lemma DdlInOrder(files: seq<File>, s: Fleet, i: nat)
    requires Inv(files, s) && i < |files| && !s.Recorded(files[i].version)
    ensures Positions(files, s.ddl + [i]) && FirstRunsIncrease(files, s.ddl + [i])
  {
    var ddl, n := s.ddl + [i], |s.ddl|;
    forall a, b | 0 <= a < b < |ddl| && (forall c :: 0 <= c < b ==> files[ddl[c]].version != files[ddl[b]].version)
      ensures files[ddl[a]].version < files[ddl[b]].version
    {
      if b < n {
        forall c | 0 <= c < b ensures files[s.ddl[c]].version != files[s.ddl[b]].version {
          assert ddl[c] == s.ddl[c];
        }
      } else {
        assert s.ddl[a] in s.ddl;
      }
    }
  }

  lemma DdlAfterTransactional(files: seq<File>, s: Fleet, i: nat)
    requires Inv(files, s) && i < |files| && !s.Recorded(files[i].version)
    ensures Positions(files, s.ddl + [i]) && TransactionalLast(files, s.ddl + [i])
  {
    var ddl := s.ddl + [i];
    forall a, b | 0 <= a < b < |ddl| && !files[ddl[a]].noTransaction
      ensures files[ddl[a]].version != files[ddl[b]].version
    {
      assert ddl[a] == s.ddl[a] && s.ddl[a] in s.ddl;
    }
  }

  lemma RowAppended(files: seq<File>, s: Fleet, i: nat)
    requires Inv(files, s) && i < |files| && !s.Recorded(files[i].version)
    ensures Increasing(s.rows + [files[i].version])
  {
    var v := files[i].version;
    forall a | 0 <= a < |s.rows| ensures s.rows[a] < v {
      assert s.rows[a] in s.rows;
    }
  }

  lemma CommitRunners(files: seq<File>, s: Fleet, r: nat)
    requires Inv(files, s) && Enabled(files, s, Commit(r))
    ensures var s' := Step(files, s, Commit(r));
            forall x :: 0 <= x < |s'.runners| ==> RunnerOk(files, s', s'.runners[x])
  {
    var p, s' := s.runners[r], Step(files, s, Commit(r));
    assert RunnerOk(files, s, p);
    assert forall w :: s'.Recorded(w) <==> s.Recorded(w) || w == files[p.i].version;
    assert RunnerOk(files, s', s'.runners[r]);
    OthersOk(files, s, s', r);
  }

  lemma CommitLogs(files: seq<File>, s: Fleet, r: nat)
    requires Sorted(files) && Inv(files, s) && Enabled(files, s, Commit(r))
    ensures var s' := Step(files, s, Commit(r)); LogsOk(files, s') && Downward(files, s')
  {
    var p, s' := s.runners[r], Step(files, s, Commit(r));
    assert RunnerOk(files, s, p);
    EarlierFilesRecorded(files, s, p.i);
    assert forall w :: s'.Recorded(w) <==> s.Recorded(w) || w == files[p.i].version;
  }

  lemma CommitBalance(files: seq<File>, s: Fleet, r: nat, w: nat)
    requires LockHeldBy(s) && Balanced(files, s, w) && Enabled(files, s, Commit(r))
    requires files[s.runners[r].i].version !in s.rows
    ensures Balanced(files, Step(files, s, Commit(r)), w)
  {
    assert s.lock == Some(r) && !InFlight(files, s, w);
    TimesAppend(files, s.ddl, s.runners[r].i, w);
  }

  lemma CommitOrders(files: seq<File>, s: Fleet, r: nat)
    requires Sorted(files) && Inv(files, s) && Enabled(files, s, Commit(r))
    ensures var s' := Step(files, s, Commit(r));
            && Positions(files, s'.ddl) && FirstRunsIncrease(files, s'.ddl)
            && TransactionalLast(files, s'.ddl) && Increasing(s'.rows)
  {
    var p := s.runners[r];
    assert RunnerOk(files, s, p);
    DdlInOrder(files, s, p.i);
    DdlAfterTransactional(files, s, p.i);
    RowAppended(files, s, p.i);
  }

  lemma CommitKeeps(files: seq<File>, s: Fleet, r: nat)
    requires Sorted(files) && Inv(files, s) && Enabled(files, s, Commit(r))
    ensures Inv(files, Step(files, s, Commit(r)))
  {
    var s' := Step(files, s, Commit(r));
    assert RunnerOk(files, s, s.runners[r]);
    CommitOrders(files, s, r);
    CommitRunners(files, s, r);
    CommitLogs(files, s, r);
    forall w ensures Balanced(files, s', w) {
      CommitBalance(files, s, r, w);
    }
  }

  lemma RunDdlLogs(files: seq<File>, s: Fleet, r: nat)
    requires Sorted(files) && Inv(files, s) && Enabled(files, s, RunDdl(r))
    ensures var s' := Step(files, s, RunDdl(r)); LogsOk(files, s') && Downward(files, s')
  {
    var p, s' := s.runners[r], Step(files, s, RunDdl(r));
    assert RunnerOk(files, s, p);
    EarlierFilesRecorded(files, s, p.i);
    assert forall w :: s'.Recorded(w) <==> s.Recorded(w);
  }

  lemma RunDdlBalance(files: seq<File>, s: Fleet, r: nat, w: nat)
    requires Inv(files, s) && Enabled(files, s, RunDdl(r))
    ensures Balanced(files, Step(files, s, RunDdl(r)), w)
  {
    assert Balanced(files, s, w);
    TimesAppend(files, s.ddl, s.runners[r].i, w);
  }

  lemma RunDdlKeeps(files: seq<File>, s: Fleet, r: nat)
    requires Sorted(files) && Inv(files, s) && Enabled(files, s, RunDdl(r))
    ensures Inv(files, Step(files, s, RunDdl(r)))
  {
    var p, s' := s.runners[r], Step(files, s, RunDdl(r));
    assert RunnerOk(files, s, p);
    DdlInOrder(files, s, p.i);
    DdlAfterTransactional(files, s, p.i);
    OthersOk(files, s, s', r);
    RunDdlLogs(files, s, r);
    forall w ensures Balanced(files, s', w) {
      RunDdlBalance(files, s, r, w);
    }
  }

  lemma InsertRowBalance(files: seq<File>, s: Fleet, r: nat, w: nat)
    requires Inv(files, s) && Enabled(files, s, InsertRow(r))
    ensures Balanced(files, Step(files, s, InsertRow(r)), w)
  {
    assert Balanced(files, s, w);
  }

  lemma InsertRowRunners(files: seq<File>, s: Fleet, r: nat)
    requires Inv(files, s) && Enabled(files, s, InsertRow(r))
    ensures var s' := Step(files, s, InsertRow(r));
            forall x :: 0 <= x < |s'.runners| ==> RunnerOk(files, s', s'.runners[x])
  {
    var p, s' := s.runners[r], Step(files, s, InsertRow(r));
    assert RunnerOk(files, s, p);
    assert forall w :: s'.Recorded(w) <==> s.Recorded(w) || w == files[p.i].version;
    OthersOk(files, s, s', r);
  }

  lemma InsertRowKeeps(files: seq<File>, s: Fleet, r: nat)
    requires Sorted(files) && Inv(files, s) && Enabled(files, s, InsertRow(r))
    ensures Inv(files, Step(files, s, InsertRow(r)))
  {
    var p, s' := s.runners[r], Step(files, s, InsertRow(r));
    assert RunnerOk(files, s, p);
    RowAppended(files, s, p.i);
    assert forall w :: s'.Recorded(w) <==> s.Recorded(w) || w == files[p.i].version;
    EarlierFilesRecorded(files, s, p.i);
    InsertRowRunners(files, s, r);
    forall w ensures Balanced(files, s', w) {
      InsertRowBalance(files, s, r, w);
    }
  }

  lemma CrashKeeps(files: seq<File>, s: Fleet, r: nat)
    requires Inv(files, s) && Enabled(files, s, Crash(r))
    ensures Inv(files, Step(files, s, Crash(r)))
  {
    var p, s' := s.runners[r], Step(files, s, Crash(r));
    assert RunnerOk(files, s, p);
    if p.Ran? {
      assert forall w :: s'.Recorded(w) <==> s.Recorded(w);
      OthersOk(files, s, s', r);
      forall w ensures Balanced(files, s', w) {
        assert Balanced(files, s, w);
        TimesAppend(files, s.torn, p.i, w);
      }
    } else {
      QuietKeeps(files, s, s', r);
    }
  }

  lemma StartKeeps(files: seq<File>, s: Fleet, r: nat)
    requires Inv(files, s) && Enabled(files, s, Start(r))
    ensures Inv(files, Step(files, s, Start(r)))
  {
    assert RunnerOk(files, s, s.runners[r]);
    QuietKeeps(files, s, Step(files, s, Start(r)), r);
  }

  lemma PassKeeps(files: seq<File>, s: Fleet, r: nat)
    requires Inv(files, s) && Enabled(files, s, Pass(r))
    ensures Inv(files, Step(files, s, Pass(r)))
  {
    assert RunnerOk(files, s, s.runners[r]);
    QuietKeeps(files, s, Step(files, s, Pass(r)), r);
  }

  lemma LockKeeps(files: seq<File>, s: Fleet, r: nat)
    requires Inv(files, s) && Enabled(files, s, Lock(r))
    ensures Inv(files, Step(files, s, Lock(r)))
  {
    assert RunnerOk(files, s, s.runners[r]);
    QuietKeeps(files, s, Step(files, s, Lock(r)), r);
  }

  lemma CheckKeeps(files: seq<File>, s: Fleet, r: nat)
    requires Inv(files, s) && Enabled(files, s, Check(r))
    ensures Inv(files, Step(files, s, Check(r)))
  {
    assert RunnerOk(files, s, s.runners[r]);
    QuietKeeps(files, s, Step(files, s, Check(r)), r);
  }

  lemma AbortKeeps(files: seq<File>, s: Fleet, r: nat)
    requires Inv(files, s) && Enabled(files, s, Abort(r))
    ensures Inv(files, Step(files, s, Abort(r)))
  {
    assert RunnerOk(files, s, s.runners[r]);
    QuietKeeps(files, s, Step(files, s, Abort(r)), r);
  }

  lemma UnlockKeeps(files: seq<File>, s: Fleet, r: nat)
    requires Inv(files, s) && Enabled(files, s, Unlock(r))
    ensures Inv(files, Step(files, s, Unlock(r)))
  {
    assert RunnerOk(files, s, s.runners[r]);
    QuietKeeps(files, s, Step(files, s, Unlock(r)), r);
  }

  lemma RestartKeeps(files: seq<File>, s: Fleet, r: nat)
    requires Inv(files, s) && Enabled(files, s, Restart(r))
    ensures Inv(files, Step(files, s, Restart(r)))
  {
    assert RunnerOk(files, s, s.runners[r]);
    QuietKeeps(files, s, Step(files, s, Restart(r)), r);
  }

  lemma StepKeepsInv(files: seq<File>, s: Fleet, e: Event)
    requires Sorted(files) && Inv(files, s) && Enabled(files, s, e)
    ensures Inv(files, Step(files, s, e))
  {
    match e
    case Start(r) => StartKeeps(files, s, r);
    case Pass(r) => PassKeeps(files, s, r);
    case Lock(r) => LockKeeps(files, s, r);
    case Check(r) => CheckKeeps(files, s, r);
    case Commit(r) => CommitKeeps(files, s, r);
    case Abort(r) => AbortKeeps(files, s, r);
    case RunDdl(r) => RunDdlKeeps(files, s, r);
    case InsertRow(r) => InsertRowKeeps(files, s, r);
    case Unlock(r) => UnlockKeeps(files, s, r);
    case Crash(r) => CrashKeeps(files, s, r);
    case Restart(r) => RestartKeeps(files, s, r);
  }

  lemma InitInv(files: seq<File>, initial: set<nat>, n: nat)
    ensures Inv(files, Init(initial, n))
  {
  }

  lemma {:induction false} LeadsKeepsInv(files: seq<File>, s: Fleet, es: seq<Event>, s': Fleet)
    requires Sorted(files) && Inv(files, s) && Leads(files, s, es, s')
    ensures Inv(files, s') && s'.initial == s.initial
    decreases |es|
  {
    if es != [] {
      StepKeepsInv(files, s, es[0]);
      LeadsKeepsInv(files, Step(files, s, es[0]), es[1..], s');
    }
  }

  lemma ReachableInv(files: seq<File>, initial: set<nat>, n: nat, s: Fleet)
    requires Sorted(files) && Reachable(files, initial, n, s)
    ensures Inv(files, s) && s.initial == initial
  {
    var es :| Leads(files, Init(initial, n), es, s);
    InitInv(files, initial, n);
    LeadsKeepsInv(files, Init(initial, n), es, s);
  }

  // ---------------------------------------------------------------------------
  // Theorems about every run of every fleet
  // ---------------------------------------------------------------------------

  /**
   A transactional file's DDL is committed at most once, never for a version recorded before,
   and nothing of its version is committed after it.
   */
  lemma TransactionalFilesRunOnce(files: seq<File>, initial: set<nat>, n: nat, s: Fleet, a: nat, b: nat)
    requires Sorted(files) && Reachable(files, initial, n, s)
    requires a < |s.ddl| && b < |s.ddl| && s.ddl[a] == s.ddl[b] < |files|
    ensures files[s.ddl[a]].version !in initial
    ensures !files[s.ddl[a]].noTransaction ==> a == b
    ensures !files[s.ddl[a]].noTransaction ==>
              forall c :: a < c < |s.ddl| ==> s.ddl[c] < |files| && files[s.ddl[c]].version != files[s.ddl[a]].version
  {
    ReachableInv(files, initial, n, s);
  }

  /** The DDL of a version, counted: one per crash in the gap, and one more if it was seen through. */
  lemma DdlRunsAreAccountedFor(files: seq<File>, initial: set<nat>, n: nat, s: Fleet, v: nat)
    requires Sorted(files) && Reachable(files, initial, n, s)
    ensures Times(files, s.ddl, v) <= 1 + Times(files, s.torn, v)
    ensures v in s.rows ==> Times(files, s.ddl, v) == 1 + Times(files, s.torn, v)
    ensures v !in s.rows && !InFlight(files, s, v) ==> Times(files, s.ddl, v) == Times(files, s.torn, v)
  {
    ReachableInv(files, initial, n, s);
    assert Balanced(files, s, v);
    if InFlight(files, s, v) {
      assert RunnerOk(files, s, s.runners[s.lock.value]);
    }
  }

  /** Whatever rows the table started with, versions are first run, and recorded, in increasing order. */
  lemma VersionsGoUp(files: seq<File>, initial: set<nat>, n: nat, s: Fleet)
    requires Sorted(files) && Reachable(files, initial, n, s)
    ensures Positions(files, s.ddl) && FirstRunsIncrease(files, s.ddl)
    ensures Increasing(s.rows)
  {
    ReachableInv(files, initial, n, s);
  }

  lemma {:induction false} NothingPending(files: seq<File>, table: set<nat>, i: nat)
    requires i <= |files| && forall j :: 0 <= j < |files| ==> files[j].version in table
    ensures Pending(files, table, i) == []
    decreases |files| - i
  {
    if i < |files| {
      NothingPending(files, table, i + 1);
    }
  }

  /** One finished runner is enough for the verify mode to find nothing to do. */
  lemma FinishedMeansUpToDate(files: seq<File>, initial: set<nat>, n: nat, s: Fleet, r: nat)
    requires Sorted(files) && Reachable(files, initial, n, s)
    requires r < |s.runners| && s.runners[r].Finished?
    ensures forall j :: 0 <= j < |files| ==> files[j].version in s.Snapshot()
    ensures Pending(files, s.Snapshot(), 0) == []
  {
    ReachableInv(files, initial, n, s);
    assert RunnerOk(files, s, s.runners[r]);
    NothingPending(files, s.Snapshot(), 0);
  }

  /** The advisory lock excludes, and no DDL or row is committed for a version that has its row. */
  lemma LockExcludes(files: seq<File>, initial: set<nat>, n: nat, s: Fleet, e: Event, q: nat)
    requires Sorted(files) && Reachable(files, initial, n, s) && Enabled(files, s, e)
    requires q < |s.runners| && InLock(s.runners[e.r]) && InLock(s.runners[q])
    ensures q == e.r
    ensures e.Commit? || e.RunDdl? || e.InsertRow? ==> files[s.runners[e.r].i].version !in s.Snapshot()
  {
    ReachableInv(files, initial, n, s);
    assert RunnerOk(files, s, s.runners[e.r]);
  }

  // ---------------------------------------------------------------------------
  // A fleet left alone finishes
  // ---------------------------------------------------------------------------

  /** Neither a crash nor an error nor a new boot. */
  predicate Undisturbed(e: Event) { !e.Crash? && !e.Abort? && !e.Restart? }

  predicate Unfinished(p: Runner) { !p.Finished? && !p.Down? }

  lemma SomeStepIsEnabled(files: seq<File>, s: Fleet, r: nat) returns (e: Event)
    requires Inv(files, s) && r < |s.runners| && Unfinished(s.runners[r])
    ensures Enabled(files, s, e) && Undisturbed(e)
  {
    var h := if s.lock.Some? && s.lock.value < |s.runners| then s.lock.value else r;
    var p, q := s.runners[h], s.runners[r];
    assert RunnerOk(files, s, p) && RunnerOk(files, s, q);
    if q.At? && (q.i >= |files| || files[q.i].version in q.seen) {
      e := Pass(r);
    } else if q.Boot? {
      e := Start(r);
    } else if p.Locked? {
      e := Check(h);
    } else if p.Checked? {
      e := if files[p.i].noTransaction then RunDdl(h) else Commit(h);
    } else if p.Ran? {
      e := InsertRow(h);
    } else if p.Unlocking? {
      e := Unlock(h);
    } else {
      e := Lock(r);
    }
  }

  /** No run gets stuck: while a runner is neither finished nor dead, some runner can advance. */
  lemma FleetNeverDeadlocks(files: seq<File>, initial: set<nat>, n: nat, s: Fleet, r: nat) returns (e: Event)
    requires Sorted(files) && Reachable(files, initial, n, s)
    requires r < |s.runners| && Unfinished(s.runners[r])
    ensures Enabled(files, s, e) && Undisturbed(e)
  {
    ReachableInv(files, initial, n, s);
    e := SomeStepIsEnabled(files, s, r);
  }

  /** An upper bound on the steps a runner has before it, at most five for each file and two more. */
  function ToGo(files: seq<File>, p: Runner): nat {
    match p
    case Boot => 5 * |files| + 2
    case At(i, _) => if i <= |files| then 5 * (|files| - i) + 1 else 1
    case Locked(i, _) => if i < |files| then 5 * (|files| - i) else 0
    case Checked(i, _) => if i < |files| then 5 * (|files| - i) - 1 else 0
    case Ran(i, _) => if i < |files| then 5 * (|files| - i) - 2 else 0
    case Unlocking(i, _) => if i < |files| then 5 * (|files| - i) - 3 else 0
    case Finished => 0
    case Down => 0
  }

  function Work(files: seq<File>, runners: seq<Runner>): nat {
    if runners == [] then 0 else Work(files, runners[..|runners| - 1]) + ToGo(files, runners[|runners| - 1])
  }

  lemma {:induction false} WorkUpdate(files: seq<File>, runners: seq<Runner>, r: nat, p: Runner)
    requires r < |runners|
    ensures Work(files, runners[r := p]) == Work(files, runners) - ToGo(files, runners[r]) + ToGo(files, p)
  {
    var n := |runners| - 1;
    if r == n {
      assert runners[r := p][..n] == runners[..n];
    } else {
      assert runners[r := p][..n] == runners[..n][r := p];
      WorkUpdate(files, runners[..n], r, p);
    }
  }

  /** Every undisturbed step of any runner leaves the fleet less to do. */
  lemma StepsUseUpWork(files: seq<File>, s: Fleet, e: Event)
    requires Inv(files, s) && Enabled(files, s, e) && Undisturbed(e)
    ensures Work(files, Step(files, s, e).runners) < Work(files, s.runners)
  {
    var s' := Step(files, s, e);
    assert RunnerOk(files, s, s.runners[e.r]);
    assert s'.runners == s.runners[e.r := s'.runners[e.r]];
    WorkUpdate(files, s.runners, e.r, s'.runners[e.r]);
  }

  /** However the runners interleave, a fleet left alone comes to rest within the work it has. */
  lemma {:induction false} UndisturbedRunsEnd(files: seq<File>, s: Fleet, es: seq<Event>, s': Fleet)
    requires Sorted(files) && Inv(files, s) && Leads(files, s, es, s')
    requires forall e :: e in es ==> Undisturbed(e)
    ensures |es| + Work(files, s'.runners) <= Work(files, s.runners)
    decreases |es|
  {
    if es != [] {
      assert es[0] in es;
      StepKeepsInv(files, s, es[0]);
      StepsUseUpWork(files, s, es[0]);
      UndisturbedRunsEnd(files, Step(files, s, es[0]), es[1..], s');
    }
  }

  /** And where no runner can advance, every runner that is up has finished. */
  lemma RestMeansFinished(files: seq<File>, initial: set<nat>, n: nat, s: Fleet)
    requires Sorted(files) && Reachable(files, initial, n, s)
    requires forall e :: Undisturbed(e) ==> !Enabled(files, s, e)
    ensures forall r :: 0 <= r < |s.runners| ==> s.runners[r].Finished? || s.runners[r].Down?
  {
    forall r | 0 <= r < |s.runners| ensures s.runners[r].Finished? || s.runners[r].Down? {
      if Unfinished(s.runners[r]) {
        var e := FleetNeverDeadlocks(files, initial, n, s, r);
        assert false;
      }
    }
  }

  /** From any reachable state, with or without dead runners, the others can all be brought to the end. */
  lemma FleetCanFinish(files: seq<File>, initial: set<nat>, n: nat, s: Fleet) returns (es: seq<Event>, s': Fleet)
    requires Sorted(files) && Reachable(files, initial, n, s)
    ensures Leads(files, s, es, s') && forall e :: e in es ==> Undisturbed(e)
    ensures forall r :: 0 <= r < |s'.runners| ==> !Unfinished(s'.runners[r])
  {
    ReachableInv(files, initial, n, s);
    es, s' := FinishAll(files, s);
  }

  lemma {:induction false} FinishAll(files: seq<File>, s: Fleet) returns (es: seq<Event>, s': Fleet)
    requires Sorted(files) && Inv(files, s)
    ensures Leads(files, s, es, s') && forall e :: e in es ==> Undisturbed(e)
    ensures forall r :: 0 <= r < |s'.runners| ==> !Unfinished(s'.runners[r])
    decreases Work(files, s.runners)
  {
    if r :| 0 <= r < |s.runners| && Unfinished(s.runners[r]) {
      var e := SomeStepIsEnabled(files, s, r);
      StepKeepsInv(files, s, e);
      StepsUseUpWork(files, s, e);
      var rest;
      rest, s' := FinishAll(files, Step(files, s, e));
      es := [e] + rest;
      assert es[1..] == rest;
    } else {
      es, s' := [], s;
    }
  }

  // ---------------------------------------------------------------------------
  // The verify mode on two files of one version
  // ---------------------------------------------------------------------------

  /** Both twins are listed, one of them is applied. */
  lemma TwinsAreListedTwice()
    ensures var files := [File(7, false), File(7, true)];
            Pending(files, {}, 0) == [0, 1] && Fresh(files, {}, 0) == [0] && PendingTwins(files, {}, 0)
  {
    var files := [File(7, false), File(7, true)];
    assert files[0].version == files[1].version == 7;
    assert Pending(files, {}, 2) == [] && Fresh(files, {7}, 2) == [];
    assert Pending(files, {}, 1) == [1] && Fresh(files, {7}, 1) == [];
    assert {} + {7} == {7};
  }
}

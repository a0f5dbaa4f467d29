/**
 The jobs gauges: a recurring tick copies the depth of every queue into a gauge labelled
 by job type, resets the types that have drained, and writes the aggregate under the
 special label `_total`.
 */
module QueueGauge {

  const TOTAL := "_total"

  /** The sum of all depths. */
  ghost function Sum(depths: map<string, nat>): nat
    decreases depths.Keys
  {
    if depths == map[] then 0
    else
      var t :| t in depths;
      depths[t] + Sum(depths - {t})
  }

  /** The order in which a map is summed does not matter. */
  lemma {:induction false} SumSplit(depths: map<string, nat>, t: string)
    requires t in depths
    ensures Sum(depths) == depths[t] + Sum(depths - {t})
    decreases depths.Keys
  {
    var u :| u in depths && Sum(depths) == depths[u] + Sum(depths - {u});
    if u != t {
      SumSplit(depths - {u}, t);
      SumSplit(depths - {t}, u);
      assert depths - {u} - {t} == depths - {t} - {u};
    }
  }

  /** What a refresh job keeps between ticks: the gauge family, and every type it ever published. */
  datatype Board = Board(gauge: map<string, int>, everSeen: set<string>)

  function Depth(perType: map<string, nat>, t: string): nat {
    if t in perType then perType[t] else 0
  }

  /** What the gauge shows after a tick, label by label. */
  ghost function Shown(b: Board, perType: map<string, nat>): Board {
    var seen := b.everSeen + perType.Keys;
    Board(map t | t in b.gauge.Keys + seen + {TOTAL} ::
            if t == TOTAL then Sum(perType)
            else if t in seen then Depth(perType, t)
            else b.gauge[t],
          seen)
  }

  class GaugeTask {
    var gauge: map<string, int>
    var everSeen: set<string>

    ghost function Now(): Board
      reads this
    {
      Board(gauge, everSeen)
    }

    constructor ()
      ensures gauge == map[] && everSeen == {}
    {
      gauge, everSeen := map[], {};
    }

    /** The first loop: publish every depth and add them up. */
    method Publish(perType: map<string, nat>) returns (total: nat)
      modifies this
      ensures total == Sum(perType)
      ensures everSeen == old(everSeen) + perType.Keys
      ensures gauge.Keys == old(gauge).Keys + perType.Keys
      ensures forall t :: t in gauge ==> gauge[t] == if t in perType then perType[t] else old(gauge)[t]
    {
      total := 0;
      var left := perType.Keys;
      assert (map t | t in left :: perType[t]) == perType;
      while left != {}
        invariant left <= perType.Keys
        invariant everSeen == old(everSeen) + (perType.Keys - left)
        invariant gauge.Keys == old(gauge).Keys + (perType.Keys - left)
        invariant forall t :: t in gauge ==> gauge[t] == if t in perType.Keys - left then perType[t] else old(gauge)[t]
        invariant total + Sum(map t | t in left :: perType[t]) == Sum(perType)
        decreases left
      {
        var t :| t in left;
        ghost var rest := map u | u in left :: perType[u];
        SumSplit(rest, t);
        assert rest - {t} == map u | u in left - {t} :: perType[u];
        gauge := gauge[t := perType[t]];
        everSeen := everSeen + {t};
        total := total + perType[t];
        left := left - {t};
      }
    }

    /** The second loop: a type missing from the snapshot has drained. */
    method ResetDrained(perType: map<string, nat>)
      modifies this
      ensures everSeen == old(everSeen)
      ensures gauge.Keys == old(gauge).Keys + (everSeen - perType.Keys)
      ensures forall t :: t in gauge ==> gauge[t] == if t in everSeen - perType.Keys then 0 else old(gauge)[t]
    {
      var left := everSeen;
      while left != {}
        invariant left <= everSeen && everSeen == old(everSeen)
        invariant gauge.Keys == old(gauge).Keys + (everSeen - left - perType.Keys)
        invariant forall t :: t in gauge ==>
          gauge[t] == if t in everSeen - left - perType.Keys then 0 else old(gauge)[t]
        decreases left
      {
        var t :| t in left;
        if t !in perType {
          gauge := gauge[t := 0];
        }
        left := left - {t};
      }
    }

    /** One tick over the snapshot the queue backend returned; `live` is the teardown guard. */
    method Tick(live: bool, perType: map<string, nat>)
      modifies this
      ensures Now() == if live then Shown(old(Now()), perType) else old(Now())
    {
      if !live {
        return;
      }
      var total := Publish(perType);
      ghost var published := gauge;
      ResetDrained(perType);
      ghost var reset := gauge;
      gauge := gauge[TOTAL := total];
      TwoLoopsShow(old(gauge), published, reset, old(everSeen), perType);
    }
  }

  /** What the two loops and the aggregate add up to, label by label. */
  lemma TwoLoopsShow(was: map<string, int>, published: map<string, int>, reset: map<string, int>,
                     seenBefore: set<string>, perType: map<string, nat>)
    requires published.Keys == was.Keys + perType.Keys
    requires forall t :: t in published ==> published[t] == if t in perType then perType[t] else was[t]
    requires reset.Keys == published.Keys + (seenBefore + perType.Keys - perType.Keys)
    requires forall t :: t in reset ==>
               reset[t] == if t in seenBefore + perType.Keys - perType.Keys then 0 else published[t]
    ensures reset[TOTAL := Sum(perType)] == Shown(Board(was, seenBefore), perType).gauge
  {
    var now, shown := reset[TOTAL := Sum(perType)], Shown(Board(was, seenBefore), perType).gauge;
    assert now.Keys == shown.Keys;
    forall t | t in now ensures now[t] == shown[t] {
      if t != TOTAL && t in perType {
        assert reset[t] == published[t] == perType[t];
      }
    }
  }

  // ---------------------------------------------------------------------------
  // Every run of ticks
  // ---------------------------------------------------------------------------

  /** The board after the snapshots `ticks`, oldest first. */
  ghost function After(ticks: seq<map<string, nat>>): Board {
    if ticks == [] then Board(map[], {})
    else Shown(After(ticks[..|ticks| - 1]), ticks[|ticks| - 1])
  }

  ghost function EverPublished(ticks: seq<map<string, nat>>): set<string> {
    if ticks == [] then {} else EverPublished(ticks[..|ticks| - 1]) + ticks[|ticks| - 1].Keys
  }

  /** Every type ever published shows its current depth, and `_total` shows the sum. */
  ghost predicate Faithful(b: Board, ever: set<string>, now: map<string, nat>) {
    && TOTAL in b.gauge && b.gauge[TOTAL] == Sum(now)
    && forall t :: t in ever ==> t in b.gauge && b.gauge[t] == Depth(now, t)
  }

  lemma {:induction false} LabelsOfARun(ticks: seq<map<string, nat>>)
    ensures After(ticks).everSeen == EverPublished(ticks)
    ensures After(ticks).gauge.Keys == if ticks == [] then {} else EverPublished(ticks) + {TOTAL}
  {
    if ticks != [] {
      LabelsOfARun(ticks[..|ticks| - 1]);
    }
  }

  /**
   After every tick of every run the gauges are faithful, and show no other labels, unless a
   job type is called `_total` and is not alone in having jobs.
   */
  lemma GaugesFollowTheQueues(ticks: seq<map<string, nat>>)
    requires ticks != []
    ensures var now, ever := ticks[|ticks| - 1], EverPublished(ticks);
            Faithful(After(ticks), ever, now) <==> (TOTAL !in ever || Depth(now, TOTAL) == Sum(now))
    ensures After(ticks).gauge.Keys == EverPublished(ticks) + {TOTAL}
  {
    LabelsOfARun(ticks);
    LabelsOfARun(ticks[..|ticks| - 1]);
  }

  lemma {:induction false} SumOfZeros(depths: map<string, nat>)
    ensures Sum(depths) == 0 <==> forall t :: t in depths ==> depths[t] == 0
    decreases depths.Keys
  {
    if depths != map[] {
      var t :| t in depths && Sum(depths) == depths[t] + Sum(depths - {t});
      SumOfZeros(depths - {t});
      assert forall u :: u in depths && u != t ==> depths[u] == (depths - {t})[u];
    }
  }

  /** One tick over two queues, one of them named `_total`: its gauge shows three jobs where it has one. */
  lemma TotalCollides()
    ensures var depths := map[TOTAL := 1, "mail" := 2];
            && After([depths]).gauge[TOTAL] == 3 && TOTAL in EverPublished([depths])
            && !Faithful(After([depths]), EverPublished([depths]), depths)
  {
    var depths: map<string, nat> := map[TOTAL := 1, "mail" := 2];
    assert [depths][..0] == [];
    SumSplit(depths, TOTAL);
    SumSplit(depths - {TOTAL}, "mail");
    assert depths - {TOTAL} - {"mail"} == map[];
    assert (depths - {TOTAL})["mail"] == 2;
    GaugesFollowTheQueues([depths]);
  }

  /** The colliding case, spelled out: the label lies exactly when another type has jobs too. */
  lemma CollisionShows(depths: map<string, nat>)
    ensures Depth(depths, TOTAL) == Sum(depths) <==> forall t :: t in depths && t != TOTAL ==> depths[t] == 0
  {
    if TOTAL in depths {
      SumSplit(depths, TOTAL);
      SumOfZeros(depths - {TOTAL});
      assert forall t :: t in depths && t != TOTAL ==> depths[t] == (depths - {TOTAL})[t];
    } else {
      SumOfZeros(depths);
    }
  }
}

/** The allocation engine stated on values: first-fit by priority.
    Busbar::distributeLoadsToPowerSources, Busbar::performLoadShedding and
    Grid::performSystemWideLoadShedding all run the same pass: reset the
    sources, visit the loads in ascending priority rank, and give each
    connected load to the first source (in the order the sources are listed)
    whose canSupplyPower holds. The methods in Busbars and Grids are proved
    to leave their objects in the state these functions compute. */
module Allocation {
  import opened PowerSources
  import opened Loads

  /** The loads and sources one pass works on: those of a bus in connection
      order, or those of the whole grid in id order. */
  datatype Snapshot = Snapshot(loads: seq<LoadState>, sources: seq<SourceState>)

  predicate LoadsValid(ls: seq<LoadState>) {
    forall i :: 0 <= i < |ls| ==> ls[i].Valid()
  }

  predicate SourcesValid(ss: seq<SourceState>) {
    forall k :: 0 <= k < |ss| ==> ss[k].Valid()
  }

  predicate SnapshotValid(s: Snapshot) {
    LoadsValid(s.loads) && SourcesValid(s.sources)
  }

  /** Every source's draw fits its capacity. */
  predicate AllWithinCapacity(ss: seq<SourceState>) {
    forall k :: 0 <= k < |ss| ==> ss[k].WithinCapacity()
  }

  /** Served implies connected, load by load. */
  predicate AllConsistent(ls: seq<LoadState>) {
    forall i :: 0 <= i < |ls| ==> ls[i].Consistent()
  }

  /** Every connected load is served. */
  predicate AllConnectedServed(ls: seq<LoadState>) {
    forall i :: 0 <= i < |ls| ==> ls[i].connected ==> ls[i].served
  }

  // ------------------------------------------------------------------
  // Tallies in kW

  /** Summed demand of the connected loads. */
  function ConnectedDemand(ls: seq<LoadState>): real
  {
    if ls == [] then 0.0
    else ConnectedDemand(ls[..|ls| - 1]) + (if ls[|ls| - 1].connected then ls[|ls| - 1].demand else 0.0)
  }

  /** Summed demand of the connected loads that are served; with
      non-negative demands it lies between 0 and the connected demand. */
  function ServedDemand(ls: seq<LoadState>): real
  {
    if ls == [] then 0.0
    else
      var last := ls[|ls| - 1];
      ServedDemand(ls[..|ls| - 1]) + (if last.connected && last.served then last.demand else 0.0)
  }

  /** With non-negative demands, the served demand lies between 0 and the
      connected demand, so the shed load is never negative. */
  lemma {:induction false} ServedDemandBounds(ls: seq<LoadState>)
    requires LoadsValid(ls)
    ensures 0.0 <= ServedDemand(ls) <= ConnectedDemand(ls)
  {
    if ls != [] {
      ServedDemandBounds(ls[..|ls| - 1]);
    }
  }

  /** Summed draw of the sources. */
  function TotalDraw(ss: seq<SourceState>): real
  {
    if ss == [] then 0.0 else TotalDraw(ss[..|ss| - 1]) + ss[|ss| - 1].draw
  }

  /** Summed capacity of the operational sources. */
  function OperationalCapacity(ss: seq<SourceState>): real
  {
    if ss == [] then 0.0
    else OperationalCapacity(ss[..|ss| - 1]) + (if ss[|ss| - 1].operational then ss[|ss| - 1].capacity else 0.0)
  }

  /** Summed available capacity of the operational sources. */
  function AvailablePower(ss: seq<SourceState>): real
  {
    if ss == [] then 0.0
    else AvailablePower(ss[..|ss| - 1]) + (if ss[|ss| - 1].operational then ss[|ss| - 1].Available() else 0.0)
  }

  // ------------------------------------------------------------------
  // Visiting order

  /** `order` lists distinct indices below n. */
  predicate InRange(order: seq<nat>, n: nat) {
    forall t :: 0 <= t < |order| ==> order[t] < n
  }

  predicate Distinct(order: seq<nat>) {
    forall t1, t2 :: 0 <= t1 < t2 < |order| ==> order[t1] != order[t2]
  }

  predicate IsOrder(order: seq<nat>, n: nat) {
    InRange(order, n) && Distinct(order)
  }

  function Priorities(ls: seq<LoadState>): (ps: seq<Priority>)
    ensures |ps| == |ls|
    ensures forall i :: 0 <= i < |ls| ==> ps[i] == ls[i].priority
  {
    if ls == [] then [] else Priorities(ls[..|ls| - 1]) + [ls[|ls| - 1].priority]
  }

  /** The indices of rank r, ascending. */
  function WithRank(ps: seq<Priority>, r: nat): (o: seq<nat>)
    ensures InRange(o, |ps|)
  {
    if ps == [] then []
    else
      var o := WithRank(ps[..|ps| - 1], r);
      if ps[|ps| - 1].Rank() == r then o + [|ps| - 1] else o
  }

  /** The indices of rank r, then those of rank r + 1, ... up to 5. */
  function FromRank(ps: seq<Priority>, r: nat): (o: seq<nat>)
    ensures InRange(o, |ps|)
    decreases 6 - r
  {
    if r > 5 then [] else WithRank(ps, r) + FromRank(ps, r + 1)
  }

  /** The order in which a pass visits the loads: ascending rank. The source
      calls std::sort, which leaves the order of equal ranks open; this model
      fixes the stable outcome (equal ranks in list order). */
  function RankOrder(ps: seq<Priority>): (o: seq<nat>)
    ensures InRange(o, |ps|)
  {
    FromRank(ps, 1)
  }

  /** Every index o lists has rank at least r. */
  predicate RanksFrom(ps: seq<Priority>, o: seq<nat>, r: nat) {
    forall t :: 0 <= t < |o| ==> o[t] < |ps| && r <= ps[o[t]].Rank()
  }

  /** o lists every index of rank at least r. */
  predicate CoversFrom(ps: seq<Priority>, o: seq<nat>, r: nat) {
    forall i :: 0 <= i < |ps| && r <= ps[i].Rank() ==> i in o
  }

  /** Along o, ranks never decrease and equal ranks appear in ascending
      index order. */
  predicate RankSorted(ps: seq<Priority>, o: seq<nat>) {
    InRange(o, |ps|) &&
    forall t1, t2 :: 0 <= t1 < t2 < |o| ==>
      ps[o[t1]].Rank() < ps[o[t2]].Rank() || (ps[o[t1]].Rank() == ps[o[t2]].Rank() && o[t1] < o[t2])
  }

  /** WithRank lists, ascending, exactly the indices of rank r. */
  lemma {:induction false} WithRankSpec(ps: seq<Priority>, r: nat)
    ensures forall t :: 0 <= t < |WithRank(ps, r)| ==> ps[WithRank(ps, r)[t]].Rank() == r
    ensures forall t1, t2 :: 0 <= t1 < t2 < |WithRank(ps, r)| ==> WithRank(ps, r)[t1] < WithRank(ps, r)[t2]
    ensures forall i :: 0 <= i < |ps| && ps[i].Rank() == r ==> i in WithRank(ps, r)
  {
    if ps != [] {
      var q := ps[..|ps| - 1];
      WithRankSpec(q, r);
      assert forall i :: 0 <= i < |q| ==> q[i] == ps[i];
    }
  }

  /** Ascending indices of rank r followed by a rank-sorted list of ranks
      above r is rank-sorted. */
  lemma ConcatRankSorted(ps: seq<Priority>, a: seq<nat>, b: seq<nat>, r: nat)
    requires InRange(a, |ps|) && forall t :: 0 <= t < |a| ==> ps[a[t]].Rank() == r
    requires forall t1, t2 :: 0 <= t1 < t2 < |a| ==> a[t1] < a[t2]
    requires RanksFrom(ps, b, r + 1) && RankSorted(ps, b)
    ensures RankSorted(ps, a + b) && RanksFrom(ps, a + b, r)
  {
    var o := a + b;
    forall t1, t2 | 0 <= t1 < t2 < |o|
      ensures ps[o[t1]].Rank() < ps[o[t2]].Rank() || (ps[o[t1]].Rank() == ps[o[t2]].Rank() && o[t1] < o[t2])
    {
      if t2 < |a| {
        assert o[t1] == a[t1] && o[t2] == a[t2];
      } else if t1 >= |a| {
        assert o[t1] == b[t1 - |a|] && o[t2] == b[t2 - |a|];
      } else {
        assert o[t1] == a[t1] && o[t2] == b[t2 - |a|];
      }
    }
  }

  /** FromRank lists every index of rank at least r, once each, ranks never
      decreasing and equal ranks in ascending index order. */
  lemma {:induction false} FromRankSpec(ps: seq<Priority>, r: nat)
    ensures RanksFrom(ps, FromRank(ps, r), r)
    ensures CoversFrom(ps, FromRank(ps, r), r)
    ensures RankSorted(ps, FromRank(ps, r))
    decreases 6 - r
  {
    if r <= 5 {
      var a := WithRank(ps, r);
      var b := FromRank(ps, r + 1);
      assert a + b == FromRank(ps, r);
      WithRankSpec(ps, r);
      FromRankSpec(ps, r + 1);
      ConcatRankSorted(ps, a, b, r);
      forall i | 0 <= i < |ps| && r <= ps[i].Rank() ensures i in a + b {
        if ps[i].Rank() == r { assert i in a; } else { assert i in b; }
      }
    }
  }

  /** The visiting order lists every load exactly once, ranks never
      decrease along it, and equal ranks keep their list order. */
  lemma RankOrderSpec(ps: seq<Priority>)
    ensures IsOrder(RankOrder(ps), |ps|)
    ensures forall i :: 0 <= i < |ps| ==> i in RankOrder(ps)
    ensures forall t1, t2 :: 0 <= t1 < t2 < |RankOrder(ps)| ==>
              ps[RankOrder(ps)[t1]].Rank() <= ps[RankOrder(ps)[t2]].Rank()
    ensures forall t1, t2 :: (0 <= t1 < t2 < |RankOrder(ps)| &&
              ps[RankOrder(ps)[t1]].Rank() == ps[RankOrder(ps)[t2]].Rank()) ==>
              RankOrder(ps)[t1] < RankOrder(ps)[t2]
  {
    FromRankSpec(ps, 1);
  }

  /** A load of strictly lower rank is visited before one of higher rank. */
  lemma RankOrderVisitsLowerRankFirst(ps: seq<Priority>, a: nat, b: nat)
    requires a < |ps| && b < |ps| && ps[a].Rank() < ps[b].Rank()
    ensures exists ta, tb :: 0 <= ta < tb < |RankOrder(ps)| && RankOrder(ps)[ta] == a && RankOrder(ps)[tb] == b
  {
    var o := RankOrder(ps);
    RankOrderSpec(ps);
    assert a in o && b in o;
    var ta :| 0 <= ta < |o| && o[ta] == a;
    var tb :| 0 <= tb < |o| && o[tb] == b;
  }

  // ------------------------------------------------------------------
  // One pass

  /** The first source, in list order, that can supply the demand; |ss| when
      none can. */
  function FirstFit(ss: seq<SourceState>, demand: real): (k: nat)
    ensures k <= |ss|
    ensures k < |ss| ==> ss[k].CanSupply(demand)
    ensures forall j :: 0 <= j < k ==> !ss[j].CanSupply(demand)
  {
    if ss == [] then 0
    else if ss[0].CanSupply(demand) then 0
    else 1 + FirstFit(ss[1..], demand)
  }

  /** FirstFit is the first position whose source can supply the demand. */
  lemma {:induction false} FirstFitIs(ss: seq<SourceState>, demand: real, k: nat)
    requires k <= |ss| && (k < |ss| ==> ss[k].CanSupply(demand))
    requires forall j :: 0 <= j < k ==> !ss[j].CanSupply(demand)
    ensures FirstFit(ss, demand) == k
  {
    if k > 0 {
      assert !ss[0].CanSupply(demand);
      FirstFitIs(ss[1..], demand, k - 1);
    }
  }

  /** A connected load that some source can still take. */
  predicate Fits(s: Snapshot, i: nat)
    requires i < |s.loads|
  {
    s.loads[i].connected && FirstFit(s.sources, s.loads[i].demand) < |s.sources|
  }

  /** One load of a pass: a disconnected load is skipped; a connected one is
      added to the first source that can supply it and marked served, or
      marked unserved when no source can. */
  function Step(s: Snapshot, i: nat): Snapshot
    requires i < |s.loads|
  {
    var l := s.loads[i];
    if !l.connected then s
    else
      var k := FirstFit(s.sources, l.demand);
      if k < |s.sources| then
        Snapshot(s.loads[i := l.(served := true)], s.sources[k := s.sources[k].AddLoad(l.demand)])
      else
        Snapshot(s.loads[i := l.(served := false)], s.sources)
  }

  /** The loads of `order` visited in turn. */
  function Run(s: Snapshot, order: seq<nat>): (r: Snapshot)
    requires InRange(order, |s.loads|)
    ensures |r.loads| == |s.loads| && |r.sources| == |s.sources|
    decreases |order|
  {
    if order == [] then s
    else Step(Run(s, order[..|order| - 1]), order[|order| - 1])
  }

  function ClearServed(ls: seq<LoadState>): (r: seq<LoadState>)
    ensures |r| == |ls|
    ensures forall i :: 0 <= i < |ls| ==> r[i] == ls[i].(served := false)
  {
    if ls == [] then [] else ClearServed(ls[..|ls| - 1]) + [ls[|ls| - 1].(served := false)]
  }

  function ResetSources(ss: seq<SourceState>): (r: seq<SourceState>)
    ensures |r| == |ss|
    ensures forall k :: 0 <= k < |ss| ==> r[k] == ss[k].Reset()
  {
    if ss == [] then [] else ResetSources(ss[..|ss| - 1]) + [ss[|ss| - 1].Reset()]
  }

  /** Clearing the served flags leaves the priorities, and so the visiting
      order, alone. */
  lemma PrioritiesClearServed(ls: seq<LoadState>)
    ensures Priorities(ClearServed(ls)) == Priorities(ls)
  {
    assert forall i :: 0 <= i < |ls| ==> ClearServed(ls)[i].priority == ls[i].priority;
  }

  /** A full pass: every source reset, every served flag cleared, then the
      loads visited in rank order. */
  function Allocate(s: Snapshot): Snapshot {
    Run(Cleared(s), RankOrder(Priorities(s.loads)))
  }

  /** Busbar::performLoadShedding: the same pass, except that it does not
      clear the served flags first. */
  function Shed(s: Snapshot): Snapshot {
    Run(Snapshot(s.loads, ResetSources(s.sources)), RankOrder(Priorities(s.loads)))
  }

  /** The ids of the connected, unserved loads of ls, in the order given: the
      loads a shedding pass reports. */
  function UnservedIds(ls: seq<LoadState>, order: seq<nat>): seq<string>
    requires InRange(order, |ls|)
  {
    if order == [] then []
    else
      var l := ls[order[|order| - 1]];
      UnservedIds(ls, order[..|order| - 1]) + (if l.connected && !l.served then [l.id] else [])
  }

  // ------------------------------------------------------------------
  // Lemmas about a pass

  /** A pass changes only served flags and draws. */
  lemma {:induction false} RunFrame(s: Snapshot, order: seq<nat>)
    requires InRange(order, |s.loads|)
    ensures forall i :: 0 <= i < |s.loads| ==>
              Run(s, order).loads[i] == s.loads[i].(served := Run(s, order).loads[i].served)
    ensures forall k :: 0 <= k < |s.sources| ==>
              Run(s, order).sources[k] == s.sources[k].(draw := Run(s, order).sources[k].draw)
  {
    if order != [] {
      RunFrame(s, order[..|order| - 1]);
    }
  }

  /** A load the order does not list keeps its state. */
  lemma {:induction false} RunUntouched(s: Snapshot, order: seq<nat>, j: nat)
    requires InRange(order, |s.loads|) && j < |s.loads| && j !in order
    ensures Run(s, order).loads[j] == s.loads[j]
  {
    if order != [] {
      assert j !in order[..|order| - 1];
      RunUntouched(s, order[..|order| - 1], j);
    }
  }

  /** Running two orders one after the other is running their concatenation. */
  lemma {:induction false} RunAppend(s: Snapshot, p: seq<nat>, q: seq<nat>)
    requires InRange(p + q, |s.loads|)
    ensures InRange(p, |s.loads|) && InRange(q, |s.loads|)
    ensures Run(s, p + q) == Run(Run(s, p), q)
  {
    assert forall t :: 0 <= t < |p| ==> p[t] == (p + q)[t];
    assert forall t :: 0 <= t < |q| ==> q[t] == (p + q)[|p| + t];
    if q == [] {
      assert p + q == p;
    } else {
      assert (p + q)[..|p + q| - 1] == p + q[..|q| - 1];
      RunAppend(s, p, q[..|q| - 1]);
    }
  }

  /** Offline sources keep their state, so a reset offline source carries
      no draw after the pass. */
  lemma {:induction false} RunOfflineUnchanged(s: Snapshot, order: seq<nat>, k: nat)
    requires InRange(order, |s.loads|) && k < |s.sources| && !s.sources[k].operational
    ensures Run(s, order).sources[k] == s.sources[k]
  {
    if order != [] {
      RunOfflineUnchanged(s, order[..|order| - 1], k);
    }
  }

  /** A pass keeps magnitudes non-negative and every draw within its capacity. */
  lemma {:induction false} RunWithinCapacity(s: Snapshot, order: seq<nat>)
    requires InRange(order, |s.loads|)
    requires SnapshotValid(s) && AllWithinCapacity(s.sources)
    ensures SnapshotValid(Run(s, order)) && AllWithinCapacity(Run(s, order).sources)
  {
    if order != [] {
      var p := order[..|order| - 1];
      RunWithinCapacity(s, p);
      RunFrame(s, p);
    }
  }

  /** A pass never marks a disconnected load served. */
  lemma {:induction false} RunConsistent(s: Snapshot, order: seq<nat>)
    requires InRange(order, |s.loads|) && AllConsistent(s.loads)
    ensures AllConsistent(Run(s, order).loads)
  {
    if order != [] {
      RunConsistent(s, order[..|order| - 1]);
    }
  }

  /** A pass leaves a load's fields other than the served flag alone. */
  lemma RunKeepsLoad(s: Snapshot, order: seq<nat>, i: nat)
    requires InRange(order, |s.loads|) && i < |s.loads|
    ensures Run(s, order).loads[i] == s.loads[i].(served := Run(s, order).loads[i].served)
  {
    RunFrame(s, order);
  }

  /** A source's draw only grows during a pass (demands are non-negative),
      and nothing else about it changes. */
  lemma {:induction false} RunDrawGrows(s: Snapshot, order: seq<nat>, k: nat)
    requires InRange(order, |s.loads|) && LoadsValid(s.loads) && k < |s.sources|
    ensures Run(s, order).sources[k] == s.sources[k].(draw := Run(s, order).sources[k].draw)
    ensures s.sources[k].draw <= Run(s, order).sources[k].draw
  {
    if order != [] {
      var p := order[..|order| - 1];
      RunDrawGrows(s, p, k);
      RunKeepsLoad(s, p, order[|order| - 1]);
    }
  }

  /** Extending the visited prefix by one visits the next load. */
  lemma RunNext(s: Snapshot, order: seq<nat>, t: nat)
    requires InRange(order, |s.loads|) && t < |order|
    ensures InRange(order[..t], |s.loads|) && InRange(order[..t + 1], |s.loads|)
    ensures Run(s, order[..t + 1]) == Step(Run(s, order[..t]), order[t])
  {
    assert order[..t + 1][..t] == order[..t];
  }

  /** A load the pass has not reached yet keeps its starting state. */
  lemma RunNotYetVisited(s: Snapshot, order: seq<nat>, t: nat)
    requires IsOrder(order, |s.loads|) && t < |order|
    ensures InRange(order[..t], |s.loads|)
    ensures Run(s, order[..t]).loads[order[t]] == s.loads[order[t]]
  {
    assert order[t] !in order[..t];
    RunUntouched(s, order[..t], order[t]);
  }

  /** Every connected load among those p lists is served. */
  predicate VisitedServed(ls: seq<LoadState>, p: seq<nat>)
    requires InRange(p, |ls|)
  {
    forall u :: 0 <= u < |p| ==> ls[p[u]].connected ==> ls[p[u]].served
  }

  /** All loads visited so far were served exactly when those before the
      last were and the last one, if connected, was too. */
  lemma RunNextVisitedServed(s: Snapshot, order: seq<nat>, t: nat)
    requires IsOrder(order, |s.loads|) && t < |order|
    ensures InRange(order[..t], |s.loads|) && InRange(order[..t + 1], |s.loads|)
    ensures VisitedServed(Run(s, order[..t + 1]).loads, order[..t + 1]) <==>
              VisitedServed(Run(s, order[..t]).loads, order[..t]) &&
              (Run(s, order[..t + 1]).loads[order[t]].connected ==> Run(s, order[..t + 1]).loads[order[t]].served)
  {
    RunNext(s, order, t);
    var p := order[..t];
    var m := Run(s, p).loads;
    var r := Run(s, order[..t + 1]).loads;
    forall u | 0 <= u < t ensures r[p[u]] == m[p[u]] {
      assert p[u] != order[t];
    }
  }

  /** No load is marked served. */
  predicate NoneServed(ls: seq<LoadState>) {
    forall i :: 0 <= i < |ls| ==> !ls[i].served
  }

  /** The loads visited so far are all served exactly when those before the
      last were and the last one, if connected, found a source. */
  lemma RunNextServed(s: Snapshot, order: seq<nat>, t: nat)
    requires IsOrder(order, |s.loads|) && t < |order|
    ensures InRange(order[..t], |s.loads|) && InRange(order[..t + 1], |s.loads|)
    ensures VisitedServed(Run(s, order[..t + 1]).loads, order[..t + 1]) <==>
              VisitedServed(Run(s, order[..t]).loads, order[..t]) &&
              (Run(s, order[..t]).loads[order[t]].connected ==> Fits(Run(s, order[..t]), order[t]))
  {
    RunNext(s, order, t);
    RunNextVisitedServed(s, order, t);
  }

  /** Offering a load that is not marked served and that no source can take
      changes nothing. */
  lemma StepKeeps(s: Snapshot, i: nat)
    requires i < |s.loads| && !s.loads[i].served && !Fits(s, i)
    ensures Step(s, i) == s
  {
    assert s.loads[i := s.loads[i].(served := false)] == s.loads;
  }

  /** One turn of a pass over cleared flags: the visited load is served and
      its source charged when it fits, and otherwise nothing changes; the
      visited loads stay all served exactly when this one, if connected,
      fits. */
  lemma ServeNext(s: Snapshot, order: seq<nat>, t: nat)
    requires IsOrder(order, |s.loads|) && t < |order| && NoneServed(s.loads)
    ensures InRange(order[..t], |s.loads|) && InRange(order[..t + 1], |s.loads|)
    ensures var m := Run(s, order[..t]);
            Run(s, order[..t + 1]) == (if Fits(m, order[t]) then Step(m, order[t]) else m)
    ensures var m := Run(s, order[..t]);
            VisitedServed(Run(s, order[..t + 1]).loads, order[..t + 1]) <==>
              VisitedServed(m.loads, order[..t]) && (m.loads[order[t]].connected ==> Fits(m, order[t]))
  {
    RunNext(s, order, t);
    RunNextServed(s, order, t);
    RunNotYetVisited(s, order, t);
    var m := Run(s, order[..t]);
    if !Fits(m, order[t]) {
      StepKeeps(m, order[t]);
    }
  }

  /** Every one of n loads is listed. */
  predicate Covers(order: seq<nat>, n: nat) {
    forall i :: 0 <= i < n ==> i in order
  }

  /** An order listing every load visits every connected load. */
  lemma VisitedServedAll(ls: seq<LoadState>, order: seq<nat>)
    requires InRange(order, |ls|) && Covers(order, |ls|)
    ensures VisitedServed(ls, order) <==> AllConnectedServed(ls)
  {
    if VisitedServed(ls, order) {
      forall i | 0 <= i < |ls| && ls[i].connected ensures ls[i].served {
        assert i in order;
        var u :| 0 <= u < |order| && order[u] == i;
      }
    }
  }

  /** The priority order of a list of loads lists each of them once. */
  lemma PassOrder(ls: seq<LoadState>)
    ensures IsOrder(RankOrder(Priorities(ls)), |ls|) && Covers(RankOrder(Priorities(ls)), |ls|)
  {
    RankOrderSpec(Priorities(ls));
  }

  /** The report grows by the id of the load just visited when it is left
      unserved. */
  lemma RunNextUnservedIds(s: Snapshot, order: seq<nat>, t: nat)
    requires IsOrder(order, |s.loads|) && t < |order|
    ensures InRange(order[..t], |s.loads|) && InRange(order[..t + 1], |s.loads|)
    ensures var l := Run(s, order[..t + 1]).loads[order[t]];
            UnservedIds(Run(s, order[..t + 1]).loads, order[..t + 1]) ==
              UnservedIds(Run(s, order[..t]).loads, order[..t]) + (if l.connected && !l.served then [l.id] else [])
  {
    RunNext(s, order, t);
    var p := order[..t];
    assert order[..t + 1][..t] == p;
    var m := Run(s, p).loads;
    var r := Run(s, order[..t + 1]).loads;
    forall u | 0 <= u < t ensures r[p[u]] == m[p[u]] {
      assert p[u] != order[t];
    }
    UnservedIdsFrame(r, m, p);
  }

  /** After a pass, a connected load listed in the order is served exactly
      when, at its turn, some source could supply it. */
  lemma ServedIffFitAtTurn(s: Snapshot, order: seq<nat>, t: nat)
    requires IsOrder(order, |s.loads|) && t < |order| && s.loads[order[t]].connected
    ensures InRange(order[..t], |s.loads|)
    ensures Run(s, order).loads[order[t]].served == Fits(Run(s, order[..t]), order[t])
  {
    var i := order[t];
    assert order == order[..t + 1] + order[t + 1..];
    assert order[..t + 1][..t] == order[..t];
    RunAppend(s, order[..t + 1], order[t + 1..]);
    var mid := Run(s, order[..t + 1]);
    var rest := order[t + 1..];
    assert i !in rest by {
      forall u | 0 <= u < |rest| ensures rest[u] != i {
        assert rest[u] == order[t + 1 + u];
      }
    }
    RunUntouched(mid, rest, i);
    RunFrame(s, order[..t]);
  }

  /** Sums change as a single served flag or draw changes. */
  lemma {:induction false} ServedDemandServe(ls: seq<LoadState>, i: nat)
    requires i < |ls| && ls[i].connected && !ls[i].served
    ensures ServedDemand(ls[i := ls[i].(served := true)]) == ServedDemand(ls) + ls[i].demand
  {
    var n := |ls|;
    var ls' := ls[i := ls[i].(served := true)];
    if i < n - 1 {
      assert ls'[..n - 1] == ls[..n - 1][i := ls[i].(served := true)];
      ServedDemandServe(ls[..n - 1], i);
    } else {
      assert ls'[..n - 1] == ls[..n - 1];
    }
  }

  lemma {:induction false} TotalDrawAdd(ss: seq<SourceState>, k: nat, d: real)
    requires k < |ss|
    ensures TotalDraw(ss[k := ss[k].(draw := ss[k].draw + d)]) == TotalDraw(ss) + d
  {
    var n := |ss|;
    var ss' := ss[k := ss[k].(draw := ss[k].draw + d)];
    if k < n - 1 {
      assert ss'[..n - 1] == ss[..n - 1][k := ss[k].(draw := ss[k].draw + d)];
      TotalDrawAdd(ss[..n - 1], k, d);
    } else {
      assert ss'[..n - 1] == ss[..n - 1];
    }
  }

  /** Conservation: when the loads a pass visits start unserved, the draw it
      adds to the sources is exactly the demand it marks served. */
  lemma {:induction false} RunConservesPower(s: Snapshot, order: seq<nat>)
    requires IsOrder(order, |s.loads|)
    requires forall t :: 0 <= t < |order| ==> !s.loads[order[t]].served
    ensures TotalDraw(Run(s, order).sources) - ServedDemand(Run(s, order).loads)
         == TotalDraw(s.sources) - ServedDemand(s.loads)
  {
    if order != [] {
      var p := order[..|order| - 1];
      var i := order[|order| - 1];
      RunConservesPower(s, p);
      var m := Run(s, p);
      assert i !in p;
      RunUntouched(s, p, i);
      var l := m.loads[i];
      if l.connected {
        var k := FirstFit(m.sources, l.demand);
        if k < |m.sources| {
          ServedDemandServe(m.loads, i);
          TotalDrawAdd(m.sources, k, l.demand);
          assert m.sources[k].AddLoad(l.demand) == m.sources[k].(draw := m.sources[k].draw + l.demand);
        } else {
          assert m.loads[i := l.(served := false)] == m.loads;
        }
      }
    }
  }

  /** Maximality: a connected load that a pass leaves unserved fits on no
      source, even at the end of the pass. */
  lemma {:induction false} RunMaximal(s: Snapshot, order: seq<nat>)
    requires IsOrder(order, |s.loads|) && LoadsValid(s.loads)
    ensures forall t, k :: (0 <= t < |order| && 0 <= k < |s.sources| &&
              Run(s, order).loads[order[t]].connected && !Run(s, order).loads[order[t]].served) ==>
              !Run(s, order).sources[k].CanSupply(Run(s, order).loads[order[t]].demand)
  {
    if order != [] {
      var p := order[..|order| - 1];
      var i := order[|order| - 1];
      RunMaximal(s, p);
      RunFrame(s, p);
      var m := Run(s, p);
      var r := Run(s, order);
      assert r == Step(m, i);
      forall t, k | 0 <= t < |order| && 0 <= k < |s.sources| &&
          r.loads[order[t]].connected && !r.loads[order[t]].served
        ensures !r.sources[k].CanSupply(r.loads[order[t]].demand)
      {
        if t < |order| - 1 {
          assert order[t] == p[t];
          assert order[t] != i;
          assert r.loads[order[t]] == m.loads[order[t]];
          assert !m.sources[k].CanSupply(m.loads[order[t]].demand);
        }
      }
    }
  }

  /** Priority is respected: when a load is shed while a load of strictly
      higher rank number (lower priority) is served, the shed load demands
      strictly more. A load is never shed in favour of a lower-priority load
      of equal or larger demand. */
  lemma LaterServedLoadIsSmaller(s: Snapshot, order: seq<nat>, ta: nat, tb: nat)
    requires IsOrder(order, |s.loads|) && LoadsValid(s.loads)
    requires ta < tb < |order|
    requires s.loads[order[ta]].connected && s.loads[order[tb]].connected
    requires !Run(s, order).loads[order[ta]].served && Run(s, order).loads[order[tb]].served
    ensures s.loads[order[ta]].demand > s.loads[order[tb]].demand
  {
    var a, b := order[ta], order[tb];
    ServedIffFitAtTurn(s, order, ta);
    ServedIffFitAtTurn(s, order, tb);
    var ma := Run(s, order[..ta]);
    var mb := Run(s, order[..tb]);
    RunKeepsLoad(s, order[..ta], a);
    RunKeepsLoad(s, order[..tb], b);
    RunSplit(s, order, ta, tb);
    var k := FirstFit(mb.sources, s.loads[b].demand);
    RunDrawGrows(ma, order[ta..tb], k);
    assert mb.sources[k].CanSupply(s.loads[b].demand);
    assert !ma.sources[k].CanSupply(s.loads[a].demand);
  }

  /** The pass up to tb continues the pass up to ta, from a state whose
      demands are still valid. */
  lemma RunSplit(s: Snapshot, order: seq<nat>, ta: nat, tb: nat)
    requires InRange(order, |s.loads|) && LoadsValid(s.loads) && ta <= tb <= |order|
    ensures InRange(order[..ta], |s.loads|) && InRange(order[ta..tb], |s.loads|)
    ensures LoadsValid(Run(s, order[..ta]).loads)
    ensures Run(s, order[..tb]) == Run(Run(s, order[..ta]), order[ta..tb])
  {
    assert order[..tb] == order[..ta] + order[ta..tb];
    RunAppend(s, order[..ta], order[ta..tb]);
    RunFrame(s, order[..ta]);
  }

  // ------------------------------------------------------------------
  // Properties of a full pass

  /** Allocation does not depend on the served flags or draws it starts from. */
  lemma AllocateIgnoresAllocation(s: Snapshot, s': Snapshot)
    requires ClearServed(s.loads) == ClearServed(s'.loads)
    requires ResetSources(s.sources) == ResetSources(s'.sources)
    ensures Allocate(s) == Allocate(s')
  {
    assert Priorities(s.loads) == Priorities(s'.loads) by {
      assert forall i :: 0 <= i < |s.loads| ==> s.loads[i].priority == ClearServed(s.loads)[i].priority;
      assert forall i :: 0 <= i < |s.loads| ==> s'.loads[i].priority == ClearServed(s'.loads)[i].priority;
    }
  }

  /** Running the pass again on its own outcome reproduces that outcome. */
  lemma AllocateIdempotent(s: Snapshot)
    ensures Allocate(Allocate(s)) == Allocate(s)
  {
    var r := Allocate(s);
    RunFrame(Cleared(s), RankOrder(Priorities(s.loads)));
    assert ResetSources(r.sources) == ResetSources(s.sources);
    assert ClearServed(r.loads) == ClearServed(s.loads);
    AllocateIgnoresAllocation(r, s);
  }

  /** Without sources, the pass leaves every load unserved. */
  lemma {:induction false} RunWithoutSources(s: Snapshot, order: seq<nat>)
    requires InRange(order, |s.loads|) && s.sources == []
    requires forall i :: 0 <= i < |s.loads| ==> !s.loads[i].served
    ensures Run(s, order) == s
  {
    if order != [] {
      RunWithoutSources(s, order[..|order| - 1]);
      var i := order[|order| - 1];
      assert s.loads[i := s.loads[i].(served := false)] == s.loads;
    }
  }

  lemma AllocateWithoutSources(s: Snapshot)
    requires s.sources == []
    ensures Allocate(s) == Snapshot(ClearServed(s.loads), [])
  {
    RunWithoutSources(Cleared(s), RankOrder(Priorities(s.loads)));
  }

  /** Two states that agree except for the served flags of connected loads
      that `rest` still lists. */
  predicate SameUpTo(m1: Snapshot, m2: Snapshot, rest: seq<nat>) {
    |m1.loads| == |m2.loads| && m1.sources == m2.sources &&
    (forall i :: 0 <= i < |m1.loads| ==> m1.loads[i].(served := false) == m2.loads[i].(served := false)) &&
    (forall i :: 0 <= i < |m1.loads| && m1.loads[i] != m2.loads[i] ==> m1.loads[i].connected && i in rest)
  }

  /** Visiting the next load of `rest` settles its served flag the same way
      in both states. */
  lemma StepOverwritesServed(m1: Snapshot, m2: Snapshot, rest: seq<nat>)
    requires rest != [] && IsOrder(rest, |m1.loads|) && SameUpTo(m1, m2, rest)
    ensures SameUpTo(Step(m1, rest[0]), Step(m2, rest[0]), rest[1..])
  {
    var i := rest[0];
    var r1, r2 := Step(m1, i), Step(m2, i);
    assert m1.loads[i].(served := false) == m2.loads[i].(served := false);
    if !m1.loads[i].connected {
      assert m1.loads[i] == m2.loads[i];
    }
    assert r1.loads[i] == r2.loads[i];
    assert rest == [i] + rest[1..];
    forall j | 0 <= j < |m1.loads| && r1.loads[j] != r2.loads[j]
      ensures r1.loads[j].connected && j in rest[1..]
    {
      assert j != i;
    }
  }

  /** Two starting states that differ only in the served flags of connected
      loads the order still has to visit end the pass alike. */
  lemma {:induction false} RunOverwritesServed(m1: Snapshot, m2: Snapshot, rest: seq<nat>)
    requires IsOrder(rest, |m1.loads|) && SameUpTo(m1, m2, rest)
    ensures Run(m1, rest) == Run(m2, rest)
    decreases |rest|
  {
    if rest == [] {
      assert m1.loads == m2.loads;
    } else {
      var i := rest[0];
      var tail := rest[1..];
      assert [i] + tail == rest;
      StepOverwritesServed(m1, m2, rest);
      RunAppend(m1, [i], tail);
      RunAppend(m2, [i], tail);
      assert Run(m1, [i]) == Step(m1, i) && Run(m2, [i]) == Step(m2, i) by {
        assert [i][..0] == [];
      }
      RunOverwritesServed(Step(m1, i), Step(m2, i), tail);
    }
  }

  /** The shedding pass, run on loads that respect "served implies
      connected", ends exactly as the distribution pass does. */
  lemma ShedMatchesAllocate(s: Snapshot)
    requires AllConsistent(s.loads)
    ensures Shed(s) == Allocate(s)
  {
    var order := RankOrder(Priorities(s.loads));
    ShedStartAgrees(s);
    RunOverwritesServed(Snapshot(s.loads, ResetSources(s.sources)), Cleared(s), order);
  }

  /** The shedding pass starts where the distribution pass does, except for
      served flags of connected loads, all of which it visits. */
  lemma ShedStartAgrees(s: Snapshot)
    requires AllConsistent(s.loads)
    ensures IsOrder(RankOrder(Priorities(s.loads)), |s.loads|)
    ensures SameUpTo(Snapshot(s.loads, ResetSources(s.sources)), Cleared(s), RankOrder(Priorities(s.loads)))
  {
    RankOrderSpec(Priorities(s.loads));
  }

  /** Shedding after a distribution pass reproduces its partition and draws. */
  lemma ShedAfterAllocate(s: Snapshot)
    ensures Shed(Allocate(s)) == Allocate(s)
  {
    AllocateConsistent(s);
    ShedMatchesAllocate(Allocate(s));
    AllocateIdempotent(s);
  }

  /** The snapshot a full pass starts from. */
  function Cleared(s: Snapshot): (s0: Snapshot)
    ensures |s0.loads| == |s.loads| && |s0.sources| == |s.sources|
  {
    Snapshot(ClearServed(s.loads), ResetSources(s.sources))
  }

  /** After a full pass on valid input, magnitudes are non-negative and every
      draw fits its capacity. */
  lemma AllocateWithinCapacity(s: Snapshot)
    requires SnapshotValid(s)
    ensures SnapshotValid(Allocate(s)) && AllWithinCapacity(Allocate(s).sources)
  {
    RunWithinCapacity(Cleared(s), RankOrder(Priorities(s.loads)));
  }

  /** After a full pass, offline sources carry no draw. */
  lemma AllocateOfflineIdle(s: Snapshot, k: nat)
    requires k < |s.sources| && !s.sources[k].operational
    ensures k < |Allocate(s).sources| && Allocate(s).sources[k].draw == 0.0
  {
    RunOfflineUnchanged(Cleared(s), RankOrder(Priorities(s.loads)), k);
  }

  /** After a full pass, only connected loads are served. */
  lemma AllocateConsistent(s: Snapshot)
    ensures AllConsistent(Allocate(s).loads)
  {
    RunConsistent(Cleared(s), RankOrder(Priorities(s.loads)));
  }

  /** After a full pass, the sources' total draw is the served demand: each
      served load sits on exactly one source. */
  lemma AllocateConservesPower(s: Snapshot)
    ensures TotalDraw(Allocate(s).sources) == ServedDemand(Allocate(s).loads)
  {
    var order := RankOrder(Priorities(s.loads));
    RankOrderSpec(Priorities(s.loads));
    RunConservesPower(Cleared(s), order);
    ZeroTotals(Cleared(s));
  }

  /** After a full pass on valid input, no connected load left unserved
      would fit on any source. */
  lemma AllocateMaximal(s: Snapshot, i: nat, k: nat)
    requires LoadsValid(s.loads)
    requires i < |s.loads| && k < |s.sources|
    requires Allocate(s).loads[i].connected && !Allocate(s).loads[i].served
    ensures !Allocate(s).sources[k].CanSupply(Allocate(s).loads[i].demand)
  {
    var order := RankOrder(Priorities(s.loads));
    RankOrderSpec(Priorities(s.loads));
    RunMaximal(Cleared(s), order);
    assert i in order;
    var t :| 0 <= t < |order| && order[t] == i;
  }

  /** A reset snapshot carries no draw and serves no demand. */
  lemma ZeroTotals(s0: Snapshot)
    requires forall i :: 0 <= i < |s0.loads| ==> !s0.loads[i].served
    requires forall k :: 0 <= k < |s0.sources| ==> s0.sources[k].draw == 0.0
    ensures TotalDraw(s0.sources) == 0.0 && ServedDemand(s0.loads) == 0.0
  {
    ZeroDraw(s0.sources);
    ZeroServed(s0.loads);
  }

  lemma {:induction false} ZeroDraw(ss: seq<SourceState>)
    requires forall k :: 0 <= k < |ss| ==> ss[k].draw == 0.0
    ensures TotalDraw(ss) == 0.0
  {
    if ss != [] {
      ZeroDraw(ss[..|ss| - 1]);
    }
  }

  lemma {:induction false} ZeroServed(ls: seq<LoadState>)
    requires forall i :: 0 <= i < |ls| ==> !ls[i].served
    ensures ServedDemand(ls) == 0.0
  {
    if ls != [] {
      ZeroServed(ls[..|ls| - 1]);
    }
  }

  /** Priority in a full pass: when a connected load is shed while a
      connected load of strictly lower priority is served, the shed load
      demands strictly more. */
  lemma AllocateRespectsPriority(s: Snapshot, a: nat, b: nat)
    requires SnapshotValid(s)
    requires a < |s.loads| && b < |s.loads|
    requires s.loads[a].connected && s.loads[b].connected
    requires s.loads[a].priority.Rank() < s.loads[b].priority.Rank()
    requires !Allocate(s).loads[a].served && Allocate(s).loads[b].served
    ensures s.loads[a].demand > s.loads[b].demand
  {
    var ps := Priorities(s.loads);
    var order := RankOrder(ps);
    RankOrderSpec(ps);
    RankOrderVisitsLowerRankFirst(ps, a, b);
    var ta, tb :| 0 <= ta < tb < |order| && order[ta] == a && order[tb] == b;
    LaterServedLoadIsSmaller(Cleared(s), order, ta, tb);
  }

  /** The shedding report lists exactly the connected loads left unserved. */
  lemma AllocateReport(s: Snapshot, id: string)
    ensures id in UnservedIds(Allocate(s).loads, RankOrder(Priorities(s.loads))) <==>
              exists i :: 0 <= i < |s.loads| && Allocate(s).loads[i].connected &&
                          !Allocate(s).loads[i].served && Allocate(s).loads[i].id == id
  {
    var order := RankOrder(Priorities(s.loads));
    var ls := Allocate(s).loads;
    RankOrderSpec(Priorities(s.loads));
    UnservedIdsMember(ls, order, id);
    if id in UnservedIds(ls, order) {
      var t :| 0 <= t < |order| && ls[order[t]].connected && !ls[order[t]].served && ls[order[t]].id == id;
      assert order[t] < |s.loads|;
    }
    if exists i :: 0 <= i < |s.loads| && ls[i].connected && !ls[i].served && ls[i].id == id {
      var i :| 0 <= i < |s.loads| && ls[i].connected && !ls[i].served && ls[i].id == id;
      assert i in order;
      var t :| 0 <= t < |order| && order[t] == i;
      assert ls[order[t]].connected && !ls[order[t]].served && ls[order[t]].id == id;
    }
  }

  lemma {:induction false} UnservedIdsMember(ls: seq<LoadState>, order: seq<nat>, id: string)
    requires InRange(order, |ls|)
    ensures id in UnservedIds(ls, order) <==>
              exists t :: 0 <= t < |order| && ls[order[t]].connected && !ls[order[t]].served && ls[order[t]].id == id
  {
    if order != [] {
      var p := order[..|order| - 1];
      UnservedIdsMember(ls, p, id);
      if exists t :: 0 <= t < |order| && ls[order[t]].connected && !ls[order[t]].served && ls[order[t]].id == id {
        var t :| 0 <= t < |order| && ls[order[t]].connected && !ls[order[t]].served && ls[order[t]].id == id;
        if t < |p| {
          assert p[t] == order[t];
        }
      }
      if exists t :: 0 <= t < |p| && ls[p[t]].connected && !ls[p[t]].served && ls[p[t]].id == id {
        var t :| 0 <= t < |p| && ls[p[t]].connected && !ls[p[t]].served && ls[p[t]].id == id;
        assert order[t] == p[t];
      }
    }
  }

  /** UnservedIds reads only the loads the order lists. */
  lemma {:induction false} UnservedIdsFrame(ls1: seq<LoadState>, ls2: seq<LoadState>, order: seq<nat>)
    requires |ls1| == |ls2| && InRange(order, |ls1|)
    requires forall t :: 0 <= t < |order| ==> ls1[order[t]] == ls2[order[t]]
    ensures UnservedIds(ls1, order) == UnservedIds(ls2, order)
  {
    if order != [] {
      UnservedIdsFrame(ls1, ls2, order[..|order| - 1]);
    }
  }

  /** A pass leaves the priorities, and so the visiting order, alone. */
  lemma AllocatePriorities(s: Snapshot)
    ensures Priorities(Allocate(s).loads) == Priorities(s.loads)
  {
    RunFrame(Cleared(s), RankOrder(Priorities(s.loads)));
    PrioritiesClearServed(s.loads);
  }

  /** Resetting and clearing before a full pass changes nothing of its
      outcome, nor of its visiting order. */
  lemma AllocateCleared(s: Snapshot)
    ensures Priorities(Cleared(s).loads) == Priorities(s.loads)
    ensures Allocate(Cleared(s)) == Allocate(s)
  {
    PrioritiesClearServed(s.loads);
    assert ClearServed(ClearServed(s.loads)) == ClearServed(s.loads);
    assert ResetSources(ResetSources(s.sources)) == ResetSources(s.sources);
    AllocateIgnoresAllocation(Cleared(s), s);
  }

  /** Nothing is reported when every connected load is served. */
  lemma {:induction false} UnservedIdsNone(ls: seq<LoadState>, order: seq<nat>)
    requires InRange(order, |ls|) && AllConnectedServed(ls)
    ensures UnservedIds(ls, order) == []
  {
    if order != [] {
      UnservedIdsNone(ls, order[..|order| - 1]);
    }
  }

  /** After a full pass, every offline source carries no draw. */
  lemma AllocateOfflineIdleAll(s: Snapshot)
    ensures forall k :: 0 <= k < |Allocate(s).sources| && !Allocate(s).sources[k].operational ==>
              Allocate(s).sources[k].draw == 0.0
  {
    RunFrame(Cleared(s), RankOrder(Priorities(s.loads)));
    forall k | 0 <= k < |Allocate(s).sources| && !Allocate(s).sources[k].operational
      ensures Allocate(s).sources[k].draw == 0.0
    {
      AllocateOfflineIdle(s, k);
    }
  }

  /** Sources within capacity, offline ones idle, draw no more than the
      capacity of the operational ones. */
  lemma {:induction false} DrawWithinSupply(ss: seq<SourceState>)
    requires SourcesValid(ss) && AllWithinCapacity(ss)
    requires forall k :: 0 <= k < |ss| && !ss[k].operational ==> ss[k].draw == 0.0
    ensures TotalDraw(ss) <= OperationalCapacity(ss)
  {
    if ss != [] {
      DrawWithinSupply(ss[..|ss| - 1]);
    }
  }

  /** After a full pass on valid input, the served demand lies between 0
      and the capacity of the operational sources. */
  lemma AllocateWithinSupply(s: Snapshot)
    requires SnapshotValid(s)
    ensures 0.0 <= ServedDemand(Allocate(s).loads) <= OperationalCapacity(Allocate(s).sources)
  {
    AllocateWithinCapacity(s);
    AllocateOfflineIdleAll(s);
    AllocateConservesPower(s);
    ServedDemandBounds(Allocate(s).loads);
    DrawWithinSupply(Allocate(s).sources);
  }
}

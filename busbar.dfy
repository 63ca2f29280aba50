/** A busbar: the ordered lists of loads and sources connected to it and an
    energized flag (src/Busbar.cpp), together with the loops every
    allocation pass is built from. */
module Busbars {
  import opened PowerSources
  import opened Loads
  import opened Allocation
  import opened Registries

  /** The ids of a list of loads (ids never change, so this reads nothing). */
  function LoadIds(ls: seq<Load>): (r: seq<string>)
    ensures |r| == |ls|
    ensures forall i :: 0 <= i < |ls| ==> r[i] == ls[i].id
  {
    seq(|ls|, i requires 0 <= i < |ls| => ls[i].id)
  }

  function SourceIds(ss: seq<PowerSource>): (r: seq<string>)
    ensures |r| == |ss|
    ensures forall k :: 0 <= k < |ss| ==> r[k] == ss[k].id
  {
    seq(|ss|, k requires 0 <= k < |ss| => ss[k].id)
  }

  /** The current states of a list of loads, in list order. */
  function LoadStates(ls: seq<Load>): (r: seq<LoadState>)
    reads ls
    ensures |r| == |ls|
  {
    seq(|ls|, i requires 0 <= i < |ls| reads ls => ls[i].State())
  }

  function SourceStates(ss: seq<PowerSource>): (r: seq<SourceState>)
    reads ss
    ensures |r| == |ss|
  {
    seq(|ss|, k requires 0 <= k < |ss| reads ss => ss[k].State())
  }

  /** Position i of LoadStates is the state of load i. */
  lemma {:induction false} LoadStatesAt(ls: seq<Load>)
    ensures forall i :: 0 <= i < |ls| ==> LoadStates(ls)[i] == ls[i].State()
  {
    if ls != [] {
      LoadStatesAt(ls[..|ls| - 1]);
    }
  }

  /** Position i of LoadStates is the state of load i, one position at a
      time. */
  lemma {:induction false} LoadStateAt(ls: seq<Load>, i: nat)
    requires i < |ls|
    ensures LoadStates(ls)[i] == ls[i].State()
  {
    if i < |ls| - 1 {
      LoadStateAt(ls[..|ls| - 1], i);
    }
  }

  lemma {:induction false} SourceStatesAt(ss: seq<PowerSource>)
    ensures forall k :: 0 <= k < |ss| ==> SourceStates(ss)[k] == ss[k].State()
  {
    if ss != [] {
      SourceStatesAt(ss[..|ss| - 1]);
    }
  }

  /** The states of a list in which only load i may have changed. */
  lemma LoadStatesUpdate(ls: seq<Load>, i: nat, before: seq<LoadState>)
    requires i < |ls| && |before| == |ls|
    requires forall j :: 0 <= j < |ls| && j != i ==> ls[j].State() == before[j]
    ensures LoadStates(ls) == before[i := ls[i].State()]
  {
    LoadStatesAt(ls);
  }

  /** The states of a list in which only source k may have changed. */
  lemma SourceStatesUpdate(ss: seq<PowerSource>, k: nat, before: seq<SourceState>)
    requires k < |ss| && |before| == |ss|
    requires forall j :: 0 <= j < |ss| && j != k ==> ss[j].State() == before[j]
    ensures SourceStates(ss) == before[k := ss[k].State()]
  {
    SourceStatesAt(ss);
  }

  /** Dropping position k of a list of loads drops it from their states and
      ids; a list without repeats keeps none of the dropped object. */
  lemma LoadsRemove(ls: seq<Load>, k: nat)
    requires k < |ls|
    ensures LoadStates(ls[..k] + ls[k + 1..]) == LoadStates(ls)[..k] + LoadStates(ls)[k + 1..]
    ensures LoadIds(ls[..k] + ls[k + 1..]) == LoadIds(ls)[..k] + LoadIds(ls)[k + 1..]
    ensures NoDup(ls) ==> NoDup(ls[..k] + ls[k + 1..]) && ls[k] !in ls[..k] + ls[k + 1..]
  {
    LoadStatesRemove(ls, k);
    LoadIdsRemove(ls, k);
    DropKeepsNoDup(ls, k);
  }

  lemma LoadStatesRemove(ls: seq<Load>, k: nat)
    requires k < |ls|
    ensures LoadStates(ls[..k] + ls[k + 1..]) == LoadStates(ls)[..k] + LoadStates(ls)[k + 1..]
  {
    var r := ls[..k] + ls[k + 1..];
    var st := LoadStates(ls);
    forall j | 0 <= j < |r| ensures LoadStates(r)[j] == (st[..k] + st[k + 1..])[j] {
      LoadStateAt(r, j);
      if j < k {
        LoadStateAt(ls, j);
      } else {
        LoadStateAt(ls, j + 1);
      }
    }
  }

  lemma LoadIdsRemove(ls: seq<Load>, k: nat)
    requires k < |ls|
    ensures LoadIds(ls[..k] + ls[k + 1..]) == LoadIds(ls)[..k] + LoadIds(ls)[k + 1..]
  {
    var r := ls[..k] + ls[k + 1..];
    var ids := LoadIds(ls);
    forall j | 0 <= j < |r| ensures LoadIds(r)[j] == (ids[..k] + ids[k + 1..])[j] {
      if j < k {
        assert r[j] == ls[j];
      } else {
        assert r[j] == ls[j + 1];
      }
    }
  }

  /** Dropping position k of a list of sources drops it from their ids. */
  lemma SourcesRemove(ss: seq<PowerSource>, k: nat)
    requires k < |ss|
    ensures SourceIds(ss[..k] + ss[k + 1..]) == SourceIds(ss)[..k] + SourceIds(ss)[k + 1..]
    ensures NoDup(ss) ==> NoDup(ss[..k] + ss[k + 1..])
  {
    SourceIdsRemove(ss, k);
    DropKeepsNoDup(ss, k);
  }

  lemma SourceIdsRemove(ss: seq<PowerSource>, k: nat)
    requires k < |ss|
    ensures SourceIds(ss[..k] + ss[k + 1..]) == SourceIds(ss)[..k] + SourceIds(ss)[k + 1..]
  {
    var r := ss[..k] + ss[k + 1..];
    var ids := SourceIds(ss);
    forall j | 0 <= j < |r| ensures SourceIds(r)[j] == (ids[..k] + ids[k + 1..])[j] {
      if j < k {
        assert r[j] == ss[j];
      } else {
        assert r[j] == ss[j + 1];
      }
    }
  }

  /** The load disconnectLoad(id) acts on: the first with the id, if any. */
  function FirstWithId(ls: seq<Load>, id: string): set<Load> {
    var k := Find(LoadIds(ls), id);
    if k < |ls| then {ls[k]} else {}
  }

  /** What an allocation pass over these loads and sources works on. */
  function StateOf(ls: seq<Load>, ss: seq<PowerSource>): Snapshot
    reads ls, ss
  {
    Snapshot(LoadStates(ls), SourceStates(ss))
  }

  /** Calls resetLoading on every source in turn. */
  method ResetAll(ss: seq<PowerSource>)
    modifies ss
    ensures SourceStates(ss) == ResetSources(old(SourceStates(ss)))
  {
    SourceStatesAt(ss);
    for k := 0 to |ss|
      invariant forall j :: 0 <= j < k ==> ss[j].State() == old(ss[j].State()).Reset()
      invariant forall j :: k <= j < |ss| && ss[j] !in ss[..k] ==> ss[j].State() == old(ss[j].State())
    {
      ss[k].ResetLoading();
    }
    SourceStatesAt(ss);
  }

  /** Calls setServed(false) on every load in turn. */
  method ClearAll(ls: seq<Load>)
    modifies ls
    ensures LoadStates(ls) == ClearServed(old(LoadStates(ls)))
  {
    LoadStatesAt(ls);
    for i := 0 to |ls|
      invariant forall j :: 0 <= j < i ==> ls[j].State() == old(ls[j].State()).(served := false)
      invariant forall j :: i <= j < |ls| && ls[j] !in ls[..i] ==> ls[j].State() == old(ls[j].State())
    {
      ls[i].SetServed(false);
    }
    LoadStatesAt(ls);
  }

  /** The inner loop of every pass (src/Busbar.cpp:115-122, src/Grid.cpp:155-163):
      offer connected load i to the sources in list order and give it to the
      first whose canSupplyPower holds, marking it served. When none can take
      it, nothing changes. */
  method Visit(ls: seq<Load>, ss: seq<PowerSource>, i: nat, ghost s: Snapshot) returns (served: bool)
    requires NoDup(ss) && i < |ls| && ls[i].isConnected
    requires NoDup(ls) && StateOf(ls, ss) == s
    modifies ls[i], ss
    ensures served == Fits(s, i)
    ensures StateOf(ls, ss) == if served then Step(s, i) else s
  {
    LoadStatesAt(ls);
    SourceStatesAt(ss);
    var load := ls[i];
    var demand := load.powerDemand;
    served := false;
    var k := 0;
    while k < |ss|
      invariant 0 <= k <= |ss|
      invariant forall j :: 0 <= j < k ==> !s.sources[j].CanSupply(demand)
      invariant !served && StateOf(ls, ss) == s
    {
      LoadStatesAt(ls);
      SourceStatesAt(ss);
      if ss[k].CanSupplyPower(demand) {
        FirstFitIs(s.sources, demand, k);
        var accepted := ss[k].AddLoad(demand);
        load.SetServed(true);
        served := true;
        LoadStatesUpdate(ls, i, s.loads);
        SourceStatesUpdate(ss, k, s.sources);
        return;
      }
      k := k + 1;
    }
    FirstFitIs(s.sources, demand, k);
  }

  /** setServed(false) on load i, seen on the snapshot of the pass. */
  method Unserve(ls: seq<Load>, ss: seq<PowerSource>, i: nat, ghost s: Snapshot)
    requires NoDup(ls) && i < |ls| && StateOf(ls, ss) == s
    modifies ls[i]
    ensures StateOf(ls, ss) == s.(loads := s.loads[i := s.loads[i].(served := false)])
  {
    LoadStatesAt(ls);
    ls[i].SetServed(false);
    LoadStatesUpdate(ls, i, s.loads);
    assert SourceStates(ss) == s.sources;
  }

  /** The preparation of a distribution pass: every source reset, then
      every served flag cleared. */
  method ResetAndClear(ls: seq<Load>, ss: seq<PowerSource>)
    modifies ls, ss
    ensures LoadStates(ls) == ClearServed(old(LoadStates(ls)))
    ensures SourceStates(ss) == ResetSources(old(SourceStates(ss)))
  {
    ghost var l0 := LoadStates(ls);
    ResetAll(ss);
    assert LoadStates(ls) == l0;
    ghost var rs := SourceStates(ss);
    ClearAll(ls);
    assert SourceStates(ss) == rs;
  }

  /** The main loop of distributeLoadsToPowerSources, on loads whose served
      flags are cleared: the loads are visited in the given order (the
      priority order, which lists each load once), and the result records
      whether every connected load was served. */
  method ServePass(ls: seq<Load>, ss: seq<PowerSource>, order: seq<nat>) returns (ok: bool)
    requires NoDup(ls) && NoDup(ss) && NoneServed(LoadStates(ls))
    requires IsOrder(order, |ls|) && Covers(order, |ls|)
    modifies ls, ss
    ensures StateOf(ls, ss) == Run(old(StateOf(ls, ss)), order)
    ensures ok <==> AllConnectedServed(LoadStates(ls))
  {
    ghost var s0 := StateOf(ls, ss);
    ok := true;
    var t := 0;
    while t < |order|
      invariant t <= |order|
      invariant InRange(order[..t], |s0.loads|)
      invariant StateOf(ls, ss) == Run(s0, order[..t])
      invariant ok <==> VisitedServed(Run(s0, order[..t]).loads, order[..t])
    {
      var i := order[t];
      ghost var m := Run(s0, order[..t]);
      ServeNext(s0, order, t);
      LoadStateAt(ls, i);
      if ls[i].isConnected {
        var served := Visit(ls, ss, i, m);
        if !served {
          ok := false;
        }
      }
      t := t + 1;
    }
    assert order[..t] == order;
    ghost var r := Run(s0, order);
    VisitedServedAll(r.loads, order);
    assert LoadStates(ls) == r.loads;
  }

  /** The main loop of performLoadShedding and of the system-wide pass: the
      loads are visited in the given order, each connected load that no
      source can take is marked unserved, and the ids of those loads are
      reported in visiting order. */
  method ShedPass(ls: seq<Load>, ss: seq<PowerSource>, order: seq<nat>) returns (shed: seq<string>)
    requires NoDup(ls) && NoDup(ss) && IsOrder(order, |ls|)
    modifies ls, ss
    ensures StateOf(ls, ss) == Run(old(StateOf(ls, ss)), order)
    ensures shed == UnservedIds(LoadStates(ls), order)
  {
    ghost var s0 := StateOf(ls, ss);
    shed := [];
    var t := 0;
    while t < |order|
      invariant t <= |order|
      invariant InRange(order[..t], |s0.loads|)
      invariant StateOf(ls, ss) == Run(s0, order[..t])
      invariant shed == UnservedIds(Run(s0, order[..t]).loads, order[..t])
    {
      var i := order[t];
      ghost var m := Run(s0, order[..t]);
      RunNext(s0, order, t);
      RunNextUnservedIds(s0, order, t);
      LoadStateAt(ls, i);
      var load := ls[i];
      if load.isConnected {
        var served := Visit(ls, ss, i, m);
        if !served {
          Unserve(ls, ss, i, m);
          shed := shed + [load.id];
        }
      }
      t := t + 1;
    }
    assert order[..t] == order;
    assert LoadStates(ls) == Run(s0, order).loads;
  }

  /** distributeLoadsToPowerSources on a bus's lists of loads and sources.
      Without sources every load is marked unserved and the pass fails.
      Otherwise the sources are reset, the served flags cleared, the loads
      sorted by priority rank and visited in that order: disconnected loads
      are skipped, and each connected load goes to the first source, in
      list order, that can supply it. The result is true exactly when every
      connected load ends up served. */
  method DistributeLists(ls: seq<Load>, ss: seq<PowerSource>) returns (ok: bool)
    requires NoDup(ls) && NoDup(ss)
    modifies ls, ss
    ensures StateOf(ls, ss) == Allocate(old(StateOf(ls, ss)))
    ensures ok <==> |ss| > 0 && AllConnectedServed(LoadStates(ls))
  {
    ghost var s := StateOf(ls, ss);
    if |ss| == 0 {
      ClearAll(ls);
      AllocateWithoutSources(s);
      assert StateOf(ls, ss) == Allocate(s);
      return false;
    }
    ResetAndClear(ls, ss);
    ghost var c := Cleared(s);
    assert StateOf(ls, ss) == c;
    assert NoneServed(c.loads);
    var order := RankOrder(Priorities(LoadStates(ls)));
    PrioritiesClearServed(s.loads);
    PassOrder(s.loads);
    ok := ServePass(ls, ss, order);
    assert StateOf(ls, ss) == Run(c, order);
    assert order == RankOrder(Priorities(s.loads));
  }

  /** performLoadShedding on a bus's lists: the sources are reset (served
      flags are not cleared first) and the loads visited as in
      DistributeLists, each connected load that no source can take being
      marked unserved and reported, in visiting order. */
  method ShedLists(ls: seq<Load>, ss: seq<PowerSource>) returns (shed: seq<string>)
    requires NoDup(ls) && NoDup(ss)
    modifies ls, ss
    ensures StateOf(ls, ss) == Shed(old(StateOf(ls, ss)))
    ensures shed == UnservedIds(LoadStates(ls), RankOrder(Priorities(old(LoadStates(ls)))))
  {
    ghost var s := StateOf(ls, ss);
    ResetAll(ss);
    assert LoadStates(ls) == s.loads;
    var order := RankOrder(Priorities(LoadStates(ls)));
    PassOrder(s.loads);
    shed := ShedPass(ls, ss, order);
  }

  class Busbar {
    const id: string
    var connectedLoads: seq<Load>
    var connectedSources: seq<PowerSource>
    var energized: bool

    /** No load or source is listed twice, and the bus is energized exactly
        when it has a source. */
    predicate Valid()
      reads this
    {
      NoDup(connectedLoads) && NoDup(connectedSources) && energized == (|connectedSources| > 0)
    }

    /** What an allocation pass on this bus works on. */
    function State(): Snapshot
      reads this, connectedLoads, connectedSources
    {
      StateOf(connectedLoads, connectedSources)
    }

    /** A new bus has nothing connected and is de-energized. */
    constructor (id: string)
      ensures this.id == id && connectedLoads == [] && connectedSources == [] && !energized
      ensures Valid()
    {
      this.id := id;
      connectedLoads := [];
      connectedSources := [];
      energized := false;
    }

    /** getTotalConnectedLoad: the summed demand of the connected loads. */
    method GetTotalConnectedLoad() returns (total: real)
      ensures total == ConnectedDemand(LoadStates(connectedLoads))
    {
      total := 0.0;
      for i := 0 to |connectedLoads|
        invariant total == ConnectedDemand(LoadStates(connectedLoads)[..i])
      {
        assert LoadStates(connectedLoads)[..i + 1][..i] == LoadStates(connectedLoads)[..i];
        if connectedLoads[i].isConnected {
          total := total + connectedLoads[i].powerDemand;
        }
      }
      assert LoadStates(connectedLoads)[..|connectedLoads|] == LoadStates(connectedLoads);
    }

    /** getTotalAvailablePower: the summed available capacity of the
        operational sources. */
    method GetTotalAvailablePower() returns (total: real)
      ensures total == AvailablePower(SourceStates(connectedSources))
    {
      total := 0.0;
      for k := 0 to |connectedSources|
        invariant total == AvailablePower(SourceStates(connectedSources)[..k])
      {
        assert SourceStates(connectedSources)[..k + 1][..k] == SourceStates(connectedSources)[..k];
        if connectedSources[k].operational {
          total := total + connectedSources[k].GetAvailableCapacity();
        }
      }
      assert SourceStates(connectedSources)[..|connectedSources|] == SourceStates(connectedSources);
    }

    /** connectLoad: the load is appended and marked connected. */
    method ConnectLoad(load: Load)
      requires Valid() && load !in connectedLoads
      modifies this, load
      ensures Valid()
      ensures connectedLoads == old(connectedLoads) + [load]
      ensures connectedSources == old(connectedSources) && energized == old(energized)
      ensures load.State() == old(load.State()).(connected := true)
      ensures State() == old(State()).(loads := old(State()).loads + [load.State()])
    {
      connectedLoads := connectedLoads + [load];
      load.Connect();
    }

    /** disconnectLoad: the first load with the id, if any, is marked
        disconnected (and so unserved) and leaves the list; the others keep
        their order and their state. An unknown id changes nothing. */
    method DisconnectLoad(loadId: string)
      requires Valid()
      modifies this, FirstWithId(connectedLoads, loadId)
      ensures Valid()
      ensures connectedSources == old(connectedSources) && energized == old(energized)
      ensures Find(LoadIds(old(connectedLoads)), loadId) == |old(connectedLoads)| ==>
                connectedLoads == old(connectedLoads)
      ensures var k := Find(LoadIds(old(connectedLoads)), loadId);
              k < |old(connectedLoads)| ==>
                connectedLoads == old(connectedLoads)[..k] + old(connectedLoads)[k + 1..] &&
                old(connectedLoads)[k].State() == old(connectedLoads[k].State()).(connected := false, served := false)
      ensures old(NoDup(LoadIds(connectedLoads))) ==> loadId !in LoadIds(connectedLoads)
    {
      var k := FindLoad(connectedLoads, loadId);
      if k < |connectedLoads| {
        connectedLoads[k].Disconnect();
        LoadsRemove(connectedLoads, k);
        connectedLoads := connectedLoads[..k] + connectedLoads[k + 1..];
        if NoDup(LoadIds(old(connectedLoads))) {
          DropKeepsNoDup(LoadIds(old(connectedLoads)), k);
        }
      }
    }

    /** distributeLoadsToPowerSources (see DistributeLists). */
    method Distribute() returns (ok: bool)
      requires Valid()
      modifies connectedLoads, connectedSources
      ensures State() == Allocate(old(State()))
      ensures ok <==> |connectedSources| > 0 && AllConnectedServed(State().loads)
    {
      ok := DistributeLists(connectedLoads, connectedSources);
    }

    /** performLoadShedding (see ShedLists); the shed loads are reported in
        the order they were visited. */
    method PerformLoadShedding() returns (shed: seq<string>)
      requires Valid()
      modifies connectedLoads, connectedSources
      ensures State() == Shed(old(State()))
      ensures shed == UnservedIds(State().loads, RankOrder(Priorities(old(State()).loads)))
    {
      shed := ShedLists(connectedLoads, connectedSources);
    }

    /** connectSource: the source is appended and the bus is energized. */
    method ConnectSource(source: PowerSource)
      requires Valid() && source !in connectedSources
      modifies this
      ensures Valid() && energized
      ensures connectedSources == old(connectedSources) + [source]
      ensures connectedLoads == old(connectedLoads)
    {
      connectedSources := connectedSources + [source];
      energized := |connectedSources| > 0;
    }

    /** disconnectSource: the first source with the id, if any, leaves the
        list, and the bus stays energized only while it has a source. An
        unknown id changes nothing. */
    method DisconnectSource(sourceId: string)
      requires Valid()
      modifies this
      ensures Valid()
      ensures connectedLoads == old(connectedLoads)
      ensures Find(SourceIds(old(connectedSources)), sourceId) == |old(connectedSources)| ==>
                connectedSources == old(connectedSources) && energized == old(energized)
      ensures var k := Find(SourceIds(old(connectedSources)), sourceId);
              k < |old(connectedSources)| ==>
                connectedSources == old(connectedSources)[..k] + old(connectedSources)[k + 1..]
      ensures energized == (|connectedSources| > 0)
      ensures old(NoDup(SourceIds(connectedSources))) ==> sourceId !in SourceIds(connectedSources)
    {
      var k := FindSource(connectedSources, sourceId);
      if k < |connectedSources| {
        SourcesRemove(connectedSources, k);
        connectedSources := connectedSources[..k] + connectedSources[k + 1..];
        energized := |connectedSources| > 0;
        if NoDup(SourceIds(old(connectedSources))) {
          DropKeepsNoDup(SourceIds(old(connectedSources)), k);
        }
      }
    }
  }

  /** std::find_if over a list of loads by id. */
  method FindLoad(ls: seq<Load>, id: string) returns (k: nat)
    ensures k == Find(LoadIds(ls), id)
  {
    k := 0;
    while k < |ls| && ls[k].id != id
      invariant k <= |ls|
      invariant forall j :: 0 <= j < k ==> ls[j].id != id
    {
      k := k + 1;
    }
    FindIs(LoadIds(ls), id, k);
  }

  /** std::find_if over a list of sources by id. */
  method FindSource(ss: seq<PowerSource>, id: string) returns (k: nat)
    ensures k == Find(SourceIds(ss), id)
  {
    k := 0;
    while k < |ss| && ss[k].id != id
      invariant k <= |ss|
      invariant forall j :: 0 <= j < k ==> ss[j].id != id
    {
      k := k + 1;
    }
    FindIs(SourceIds(ss), id, k);
  }

  /** Dropping position k forgets whatever was written there. */
  lemma DropUpdated<T>(xs: seq<T>, k: nat, x: T)
    requires k < |xs|
    ensures xs[k := x][..k] + xs[k := x][k + 1..] == xs[..k] + xs[k + 1..]
  {
    assert xs[k := x][..k] == xs[..k];
    assert xs[k := x][k + 1..] == xs[k + 1..];
  }
}

/** The grid (src/Grid.cpp): an ordered list of busbars, the registries of
    every load and source keyed by id, and the statistics of the last
    allocation. Each entity is stored once, in its registry; a bus lists
    the ids it holds (see GridStores). */
module Grids {
  import opened PowerSources
  import opened Loads
  import opened Allocation
  import opened Registries
  import opened GridStores

  /** What Grid::performLoadShedding reports for one bus: the connected
      loads a full pass leaves unserved, in visiting order. */
  function BusReport(v: Snapshot): seq<string> {
    RankOrderSpec(Priorities(v.loads));
    UnservedIds(Allocate(v).loads, RankOrder(Priorities(v.loads)))
  }

  /** The reports of the buses, in bus order. */
  function Reports(vs: seq<Snapshot>): seq<string> {
    if vs == [] then [] else Reports(vs[..|vs| - 1]) + BusReport(vs[|vs| - 1])
  }

  /** The reports of one more bus. */
  lemma ReportsNext(vs: seq<Snapshot>, j: nat)
    requires j < |vs|
    ensures Reports(vs[..j + 1]) == Reports(vs[..j]) + BusReport(vs[j])
  {
    assert vs[..j + 1][..j] == vs[..j];
  }

  /** Reporting on the cleared snapshots of the buses is reporting on the
      snapshots themselves. */
  lemma {:induction false} ReportsCleared(vs: seq<Snapshot>, ws: seq<Snapshot>)
    requires |ws| == |vs| && forall j :: 0 <= j < |vs| ==> ws[j] == Cleared(vs[j])
    ensures Reports(ws) == Reports(vs)
  {
    if vs != [] {
      var n := |vs| - 1;
      ReportsCleared(vs[..n], ws[..n]);
      AllocateCleared(vs[n]);
    }
  }

  /** getSupplyUtilizationPercent on the figures: 0 without supply, and
      otherwise the served demand as a percentage of the supply. */
  function Utilization(served: real, supply: real): (r: real)
    ensures supply > 0.0 ==> r * supply == served * 100.0
    ensures supply <= 0.0 ==> r == 0.0
  {
    if supply > 0.0 then served / supply * 100.0 else 0.0
  }

  /** Serving no more than the supply uses between 0 and 100 percent of it. */
  lemma UtilizationBounds(served: real, supply: real)
    requires 0.0 <= served <= supply
    ensures 0.0 <= Utilization(served, supply) <= 100.0
  {
    if supply > 0.0 {
      var r := Utilization(served, supply);
      assert r * supply <= 100.0 * supply;
    }
  }

  class Grid {
    const name: string
    var busbars: seq<Bus>
    /** The keys of allLoads in ascending order: the iteration order of the
        std::map. */
    var loadIds: seq<string>
    var allLoads: map<string, LoadState>
    var sourceIds: seq<string>
    var allSources: map<string, SourceState>
    var totalDemand: real
    var totalSupply: real
    var servedDemand: real
    var shedLoad: real

    /** Registries and buses describe the same entities. */
    ghost predicate Valid()
      reads this
    {
      LoadRegistry(loadIds, allLoads) && SourceRegistry(sourceIds, allSources) &&
      BusesOk(busbars, allLoads, allSources)
    }

    /** The four statistics fields. */
    function Figures(): (real, real, real, real)
      reads this
    {
      (totalDemand, totalSupply, servedDemand, shedLoad)
    }

    /** What each bus's allocation pass sees, in bus order. */
    ghost function Views(): (vs: seq<Snapshot>)
      reads this
      requires Valid()
      ensures |vs| == |busbars|
    {
      ViewsOf(busbars, allLoads, allSources)
    }

    /** What the system-wide pass sees: every load and every source in id
        order. */
    ghost function RegistryView(): Snapshot
      reads this
      requires Valid()
    {
      View(loadIds, sourceIds, allLoads, allSources)
    }

    /** The statistics fields hold what updateStatistics derives from the
        registries: the demand of the connected loads, the capacity of the
        operational sources, the demand of the connected served loads and
        the difference of the first and the last. */
    ghost predicate Tallied()
      reads this
      requires Valid()
    {
      totalDemand == ConnectedDemand(RegistryView().loads) &&
      totalSupply == OperationalCapacity(RegistryView().sources) &&
      servedDemand == ServedDemand(RegistryView().loads) &&
      shedLoad == totalDemand - servedDemand
    }

    /** getSupplyUtilizationPercent. */
    function GetSupplyUtilizationPercent(): (r: real)
      reads this
      ensures totalSupply > 0.0 ==> r * totalSupply == servedDemand * 100.0
      ensures totalSupply <= 0.0 ==> r == 0.0
    {
      Utilization(servedDemand, totalSupply)
    }

    /** A new grid has no buses, nothing registered and zero statistics. */
    constructor (name: string)
      ensures Valid() && this.name == name
      ensures busbars == [] && loadIds == [] && allLoads == map[] && sourceIds == [] && allSources == map[]
      ensures Figures() == (0.0, 0.0, 0.0, 0.0)
    {
      this.name := name;
      busbars := [];
      loadIds := [];
      allLoads := map[];
      sourceIds := [];
      allSources := map[];
      totalDemand := 0.0;
      totalSupply := 0.0;
      servedDemand := 0.0;
      shedLoad := 0.0;
    }

    /** addBusbar with a newly constructed bus: appended at the end, empty
        and de-energized. */
    method AddBusbar(id: string)
      requires Valid()
      modifies this
      ensures Valid()
      ensures busbars == old(busbars) + [Bus(id, [], [], false)]
      ensures loadIds == old(loadIds) && allLoads == old(allLoads)
      ensures sourceIds == old(sourceIds) && allSources == old(allSources)
      ensures Figures() == old(Figures())
    {
      AddBusKeeps(busbars, allLoads, allSources, id);
      busbars := busbars + [Bus(id, [], [], false)];
    }

    /** getBusbar: the position of the first bus with the id, or the number
        of buses when there is none. */
    method GetBusbar(busId: string) returns (k: nat)
      ensures k <= |busbars|
      ensures k < |busbars| ==> busbars[k].id == busId
      ensures forall j :: 0 <= j < k ==> busbars[j].id != busId
      ensures k == Find(BusIds(busbars), busId)
    {
      k := 0;
      while k < |busbars| && busbars[k].id != busId
        invariant k <= |busbars|
        invariant forall j :: 0 <= j < k ==> busbars[j].id != busId
      {
        k := k + 1;
      }
      FindIs(BusIds(busbars), busId, k);
    }

    /** addLoad: with an unknown bus id nothing changes; otherwise the load
        is connected to the first bus with that id and registered under
        its own id. */
    method AddLoad(load: LoadState, busId: string)
      requires Valid() && load.id !in allLoads && load.Valid()
      modifies this
      ensures Valid()
      ensures var k := Find(BusIds(old(busbars)), busId);
              if k == |old(busbars)| then
                busbars == old(busbars) && allLoads == old(allLoads) && loadIds == old(loadIds)
              else
                busbars == old(busbars)[k := ConnectLoad(old(busbars)[k], load.id)] &&
                allLoads == old(allLoads)[load.id := load.(connected := true)] &&
                loadIds == Insert(old(loadIds), load.id)
      ensures sourceIds == old(sourceIds) && allSources == old(allSources)
      ensures Figures() == old(Figures())
    {
      var k := GetBusbar(busId);
      if k < |busbars| {
        var l := load.(connected := true);
        AddLoadKeeps(busbars, allLoads, allSources, k, l);
        LoadRegistryInsert(loadIds, allLoads, l);
        busbars := busbars[k := ConnectLoad(busbars[k], load.id)];
        allLoads := allLoads[load.id := l];
        loadIds := Insert(loadIds, load.id);
      }
    }

    /** addSource: with an unknown bus id nothing changes; otherwise the
        source is connected to the first bus with that id, which becomes
        energized, and registered under its own id. */
    method AddSource(source: SourceState, busId: string)
      requires Valid() && source.id !in allSources && source.Valid()
      modifies this
      ensures Valid()
      ensures var k := Find(BusIds(old(busbars)), busId);
              if k == |old(busbars)| then
                busbars == old(busbars) && allSources == old(allSources) && sourceIds == old(sourceIds)
              else
                busbars == old(busbars)[k := ConnectSource(old(busbars)[k], source.id)] &&
                allSources == old(allSources)[source.id := source] &&
                sourceIds == Insert(old(sourceIds), source.id)
      ensures loadIds == old(loadIds) && allLoads == old(allLoads)
      ensures Figures() == old(Figures())
    {
      var k := GetBusbar(busId);
      if k < |busbars| {
        AddSourceKeeps(busbars, allLoads, allSources, k, source);
        SourceRegistryInsert(sourceIds, allSources, source);
        busbars := busbars[k := ConnectSource(busbars[k], source.id)];
        allSources := allSources[source.id := source];
        sourceIds := Insert(sourceIds, source.id);
      }
    }

    /** removeLoad: an unknown id changes nothing; a registered one is
        disconnected from every bus and erased from the registry, so no
        reference to it remains. */
    method RemoveLoad(loadId: string)
      requires Valid()
      modifies this
      ensures Valid()
      ensures loadId !in old(allLoads) ==>
                busbars == old(busbars) && allLoads == old(allLoads) && loadIds == old(loadIds)
      ensures loadId in old(allLoads) ==>
                busbars == DropLoad(old(busbars), loadId) && allLoads == old(allLoads) - {loadId} &&
                loadIds == Erase(old(loadIds), loadId)
      ensures loadId !in allLoads && forall j :: 0 <= j < |busbars| ==> loadId !in busbars[j].loadIds
      ensures sourceIds == old(sourceIds) && allSources == old(allSources)
      ensures Figures() == old(Figures())
    {
      if loadId in allLoads {
        var bs := DisconnectLoadEverywhere(busbars, loadId);
        DropLoadLists(busbars, allLoads, allSources, loadId);
        RemoveLoadKeeps(busbars, allLoads, allSources, loadId);
        LoadRegistryRemove(loadIds, allLoads, loadId);
        busbars := bs;
        allLoads := allLoads - {loadId};
        loadIds := Erase(loadIds, loadId);
      } else {
        FreshLoadNowhere(busbars, allLoads, allSources, loadId);
      }
    }

    /** removeSource: an unknown id changes nothing; a registered one is
        disconnected from every bus (a bus left without sources is no
        longer energized) and erased from the registry. */
    method RemoveSource(sourceId: string)
      requires Valid()
      modifies this
      ensures Valid()
      ensures sourceId !in old(allSources) ==>
                busbars == old(busbars) && allSources == old(allSources) && sourceIds == old(sourceIds)
      ensures sourceId in old(allSources) ==>
                busbars == DropSource(old(busbars), sourceId) && allSources == old(allSources) - {sourceId} &&
                sourceIds == Erase(old(sourceIds), sourceId)
      ensures sourceId !in allSources && forall j :: 0 <= j < |busbars| ==> sourceId !in busbars[j].sourceIds
      ensures loadIds == old(loadIds) && allLoads == old(allLoads)
      ensures Figures() == old(Figures())
    {
      if sourceId in allSources {
        var bs := DisconnectSourceEverywhere(busbars, sourceId);
        DropSourceLists(busbars, allLoads, allSources, sourceId);
        RemoveSourceKeeps(busbars, allLoads, allSources, sourceId);
        SourceRegistryRemove(sourceIds, allSources, sourceId);
        busbars := bs;
        allSources := allSources - {sourceId};
        sourceIds := Erase(sourceIds, sourceId);
      } else {
        FreshSourceNowhere(busbars, allLoads, allSources, sourceId);
      }
    }

    /** removeBusbar: an unknown bus id changes nothing; otherwise every
        load and source of the first bus with that id leaves its registry
        and the bus is erased. */
    method RemoveBusbar(busId: string)
      requires Valid()
      modifies this
      ensures Valid()
      ensures var k := Find(BusIds(old(busbars)), busId);
              if k == |old(busbars)| then
                busbars == old(busbars) && allLoads == old(allLoads) && allSources == old(allSources) &&
                loadIds == old(loadIds) && sourceIds == old(sourceIds)
              else
                busbars == old(busbars)[..k] + old(busbars)[k + 1..] &&
                allLoads == Without(old(allLoads), old(busbars)[k].loadIds) &&
                loadIds == EraseAll(old(loadIds), old(busbars)[k].loadIds) &&
                allSources == Without(old(allSources), old(busbars)[k].sourceIds) &&
                sourceIds == EraseAll(old(sourceIds), old(busbars)[k].sourceIds)
      ensures Figures() == old(Figures())
    {
      var k := GetBusbar(busId);
      if k < |busbars| {
        RemoveBusAt(k);
      }
    }

    /** updateStatistics: the four figures recomputed from the registries;
        the shed load is never negative. */
    method UpdateStatistics()
      requires Valid()
      modifies this
      ensures Valid() && Tallied()
      ensures 0.0 <= servedDemand <= totalDemand && shedLoad >= 0.0
      ensures busbars == old(busbars) && loadIds == old(loadIds) && allLoads == old(allLoads)
      ensures sourceIds == old(sourceIds) && allSources == old(allSources)
    {
      RegistriesFiled(loadIds, sourceIds, allLoads, allSources);
      ServedDemandBounds(At(loadIds, allLoads));
      var demand, served := TallyLoads(loadIds, allLoads);
      var supply := TallySources(sourceIds, allSources);
      totalDemand, servedDemand, totalSupply := demand, served, supply;
      shedLoad := totalDemand - servedDemand;
    }

    /** distributeLoadOptimally: every source is reset and every served
        flag cleared, then each bus in turn runs its distribution pass, and
        its shedding pass when that fails. Each bus ends as a full pass over
        that bus alone leaves it, so a load is served only by a source on
        its own bus; the reports of the shedding passes come in bus order,
        and the statistics are brought up to date. */
    method DistributeLoadOptimally() returns (shed: seq<string>)
      requires Valid()
      modifies this
      ensures Valid() && Tallied()
      ensures busbars == old(busbars) && loadIds == old(loadIds) && sourceIds == old(sourceIds)
      ensures forall j :: 0 <= j < |busbars| ==> Views()[j] == Allocate(old(Views())[j])
      ensures shed == Reports(old(Views()))
    {
      var lm, sm, r := DistributeStore(busbars, loadIds, allLoads, sourceIds, allSources);
      allLoads, allSources := lm, sm;
      shed := r;
      UpdateStatistics();
    }

    /** performSystemWideLoadShedding: every source is reset and every
        served flag cleared, then the loads of the whole grid are visited
        in priority order and offered to the sources of the whole grid in
        id order, whatever bus they sit on; the connected loads left
        unserved are reported in visiting order. Afterwards every draw fits
        its capacity, offline sources carry nothing, only connected loads
        are served and the utilisation lies between 0 and 100 percent. */
    method PerformSystemWideLoadShedding() returns (shed: seq<string>)
      requires Valid()
      modifies this
      ensures Valid() && Tallied()
      ensures busbars == old(busbars) && loadIds == old(loadIds) && sourceIds == old(sourceIds)
      ensures RegistryView() == Allocate(old(RegistryView()))
      ensures shed == UnservedIds(RegistryView().loads, RankOrder(Priorities(old(RegistryView()).loads)))
      ensures AllWithinCapacity(RegistryView().sources) && AllConsistent(RegistryView().loads)
      ensures forall k :: 0 <= k < |sourceIds| && !RegistryView().sources[k].operational ==>
                RegistryView().sources[k].draw == 0.0
      ensures 0.0 <= GetSupplyUtilizationPercent() <= 100.0
    {
      ghost var v := RegistryView();
      RegistriesFiled(loadIds, sourceIds, allLoads, allSources);
      var lm, sm, r := ShedStore(loadIds, allLoads, sourceIds, allSources, busbars);
      AllocateWithinCapacity(v);
      AllocateConsistent(v);
      AllocateOfflineIdleAll(v);
      AllocateWithinSupply(v);
      allLoads, allSources := lm, sm;
      shed := r;
      UpdateStatistics();
      UtilizationBounds(servedDemand, totalSupply);
    }

    /** The erasing half of removeBusbar, on the bus at position k. */
    method RemoveBusAt(k: nat)
      requires Valid() && k < |busbars|
      modifies this
      ensures Valid()
      ensures busbars == old(busbars)[..k] + old(busbars)[k + 1..]
      ensures allLoads == Without(old(allLoads), old(busbars)[k].loadIds)
      ensures loadIds == EraseAll(old(loadIds), old(busbars)[k].loadIds)
      ensures allSources == Without(old(allSources), old(busbars)[k].sourceIds)
      ensures sourceIds == EraseAll(old(sourceIds), old(busbars)[k].sourceIds)
      ensures Figures() == old(Figures())
    {
      var b := busbars[k];
      RemoveBusKeeps(busbars, allLoads, allSources, k);
      LoadRegistryErase(loadIds, allLoads, b.loadIds);
      SourceRegistryErase(sourceIds, allSources, b.sourceIds);
      var lm, lids := EraseEach(allLoads, loadIds, b.loadIds);
      var sm, sids := EraseEach(allSources, sourceIds, b.sourceIds);
      allLoads, loadIds, allSources, sourceIds := lm, lids, sm, sids;
      busbars := busbars[..k] + busbars[k + 1..];
    }
  }

  /** The loop of removeLoad: disconnectLoad on every bus in turn. */
  method DisconnectLoadEverywhere(bs: seq<Bus>, id: string) returns (r: seq<Bus>)
    ensures r == DropLoad(bs, id)
  {
    r := bs;
    for j := 0 to |r|
      invariant |r| == |bs|
      invariant forall j' :: 0 <= j' < j ==> r[j'] == DisconnectLoad(bs[j'], id)
      invariant forall j' :: j <= j' < |r| ==> r[j'] == bs[j']
    {
      r := r[j := DisconnectLoad(r[j], id)];
    }
  }

  /** The loop of removeSource: disconnectSource on every bus in turn. */
  method DisconnectSourceEverywhere(bs: seq<Bus>, id: string) returns (r: seq<Bus>)
    ensures r == DropSource(bs, id)
  {
    r := bs;
    for j := 0 to |r|
      invariant |r| == |bs|
      invariant forall j' :: 0 <= j' < j ==> r[j'] == DisconnectSource(bs[j'], id)
      invariant forall j' :: j <= j' < |r| ==> r[j'] == bs[j']
    {
      r := r[j := DisconnectSource(r[j], id)];
    }
  }

  /** The loops of removeBusbar: every id of ex erased from a registry and
      from its ordered keys, one after the other. */
  method EraseEach<T>(m: map<string, T>, ids: seq<string>, ex: seq<string>) returns (m': map<string, T>, ids': seq<string>)
    ensures m' == Without(m, ex) && ids' == EraseAll(ids, ex)
  {
    m', ids' := m, ids;
    for i := 0 to |ex|
      invariant m' == Without(m, ex[..i]) && ids' == EraseAll(ids, ex[..i])
    {
      assert ex[..i + 1][..i] == ex[..i];
      m' := m' - {ex[i]};
      ids' := Erase(ids', ex[i]);
    }
    assert ex[..|ex|] == ex;
  }

  // ------------------------------------------------------------------
  // Allocation passes over the store

  /** resetLoading on every source filed under an id of ids. */
  method ResetEach(sm: map<string, SourceState>, ids: seq<string>) returns (sm': map<string, SourceState>)
    requires Registered(ids, sm)
    ensures sm' == ResetOn(sm, ids)
  {
    sm' := sm;
    for i := 0 to |ids|
      invariant sm' == ResetOn(sm, ids[..i])
    {
      ResetOnNext(sm, ids[..i], ids[i]);
      assert ids[..i + 1] == ids[..i] + [ids[i]];
      sm' := sm'[ids[i] := sm'[ids[i]].Reset()];
    }
    assert ids[..|ids|] == ids;
  }

  /** setServed(false) on every load filed under an id of ids. */
  method ClearEach(lm: map<string, LoadState>, ids: seq<string>) returns (lm': map<string, LoadState>)
    requires Registered(ids, lm)
    ensures lm' == ClearOn(lm, ids)
  {
    lm' := lm;
    for i := 0 to |ids|
      invariant lm' == ClearOn(lm, ids[..i])
    {
      ClearOnNext(lm, ids[..i], ids[i]);
      assert ids[..i + 1] == ids[..i] + [ids[i]];
      lm' := lm'[ids[i] := lm'[ids[i]].(served := false)];
    }
    assert ids[..|ids|] == ids;
  }

  /** The inner loop of every pass (src/Busbar.cpp:115-122,
      src/Grid.cpp:155-163): the connected load at position i of lids is
      offered to the sources of sids in turn and given to the first whose
      canSupplyPower holds, which marks it served; when none can take it,
      nothing changes. */
  method Offer(lids: seq<string>, sids: seq<string>, lm: map<string, LoadState>, sm: map<string, SourceState>, i: nat)
    returns (lm': map<string, LoadState>, sm': map<string, SourceState>, served: bool)
    requires Listed(lids, sids, lm, sm) && Filed(lm, sm) && i < |lids| && lm[lids[i]].connected
    ensures Touched(lm, sm, lm', sm', lids, sids)
    ensures served == Fits(View(lids, sids, lm, sm), i)
    ensures View(lids, sids, lm', sm') ==
              if served then Step(View(lids, sids, lm, sm), i) else View(lids, sids, lm, sm)
  {
    ghost var s := View(lids, sids, lm, sm);
    var load := lm[lids[i]];
    var demand := load.demand;
    lm', sm', served := lm, sm, false;
    var k := 0;
    while k < |sids|
      invariant k <= |sids|
      invariant forall j :: 0 <= j < k ==> !s.sources[j].CanSupply(demand)
    {
      var source := sm[sids[k]];
      if source.CanSupply(demand) {
        FirstFitIs(s.sources, demand, k);
        sm' := sm[sids[k] := source.AddLoad(demand)];
        lm' := lm[lids[i] := load.(served := true)];
        served := true;
        AtUpdate(sids, sm, k, source.AddLoad(demand));
        AtUpdate(lids, lm, i, load.(served := true));
        return;
      }
      k := k + 1;
    }
    FirstFitIs(s.sources, demand, k);
  }

  /** One turn of the distribution loop: the load order[t] is offered when
      it is connected, and ok is cleared when it finds no source. */
  method ServeTurn(lids: seq<string>, sids: seq<string>, lm: map<string, LoadState>, sm: map<string, SourceState>,
                   order: seq<nat>, t: nat, ok: bool, ghost s0: Snapshot)
    returns (lm': map<string, LoadState>, sm': map<string, SourceState>, ok': bool)
    requires Listed(lids, sids, lm, sm) && Filed(lm, sm)
    requires IsOrder(order, |lids|) && t < |order| && |s0.loads| == |lids| && NoneServed(s0.loads)
    requires InRange(order[..t], |lids|) && View(lids, sids, lm, sm) == Run(s0, order[..t])
    requires ok <==> VisitedServed(Run(s0, order[..t]).loads, order[..t])
    ensures Touched(lm, sm, lm', sm', lids, sids) && InRange(order[..t + 1], |lids|)
    ensures View(lids, sids, lm', sm') == Run(s0, order[..t + 1])
    ensures ok' <==> VisitedServed(Run(s0, order[..t + 1]).loads, order[..t + 1])
  {
    var i := order[t];
    ServeNext(s0, order, t);
    lm', sm', ok' := lm, sm, ok;
    if lm[lids[i]].connected {
      var served;
      lm', sm', served := Offer(lids, sids, lm, sm, i);
      if !served {
        ok' := false;
      }
    }
  }

  /** The main loop of distributeLoadsToPowerSources on cleared flags: the
      loads are visited in the given order, and the result records whether
      every connected load was served. */
  method ServeIn(lids: seq<string>, sids: seq<string>, lm: map<string, LoadState>, sm: map<string, SourceState>,
                 order: seq<nat>) returns (lm': map<string, LoadState>, sm': map<string, SourceState>, ok: bool)
    requires Listed(lids, sids, lm, sm) && Filed(lm, sm)
    requires NoneServed(View(lids, sids, lm, sm).loads) && IsOrder(order, |lids|) && Covers(order, |lids|)
    ensures Touched(lm, sm, lm', sm', lids, sids)
    ensures View(lids, sids, lm', sm') == Run(View(lids, sids, lm, sm), order)
    ensures ok <==> AllConnectedServed(View(lids, sids, lm', sm').loads)
  {
    ghost var s0 := View(lids, sids, lm, sm);
    lm', sm', ok := lm, sm, true;
    var t := 0;
    while t < |order|
      invariant t <= |order| && InRange(order[..t], |lids|)
      invariant Touched(lm, sm, lm', sm', lids, sids)
      invariant View(lids, sids, lm', sm') == Run(s0, order[..t])
      invariant ok <==> VisitedServed(Run(s0, order[..t]).loads, order[..t])
    {
      var lm1, sm1, ok1 := ServeTurn(lids, sids, lm', sm', order, t, ok, s0);
      TouchedTrans(lm, sm, lm', sm', lm1, sm1, lids, sids);
      lm', sm', ok := lm1, sm1, ok1;
      t := t + 1;
    }
    assert order[..t] == order;
    VisitedServedAll(Run(s0, order).loads, order);
  }

  /** One turn of the shedding loop: the load order[t] is offered when it is
      connected, and marked unserved and reported when it finds no source. */
  method ShedTurn(lids: seq<string>, sids: seq<string>, lm: map<string, LoadState>, sm: map<string, SourceState>,
                  order: seq<nat>, t: nat, shed: seq<string>, ghost s0: Snapshot)
    returns (lm': map<string, LoadState>, sm': map<string, SourceState>, shed': seq<string>)
    requires Listed(lids, sids, lm, sm) && Filed(lm, sm)
    requires IsOrder(order, |lids|) && t < |order| && |s0.loads| == |lids|
    requires InRange(order[..t], |lids|) && View(lids, sids, lm, sm) == Run(s0, order[..t])
    requires shed == UnservedIds(Run(s0, order[..t]).loads, order[..t])
    ensures Touched(lm, sm, lm', sm', lids, sids) && InRange(order[..t + 1], |lids|)
    ensures View(lids, sids, lm', sm') == Run(s0, order[..t + 1])
    ensures shed' == UnservedIds(Run(s0, order[..t + 1]).loads, order[..t + 1])
  {
    var i := order[t];
    RunNext(s0, order, t);
    RunNextUnservedIds(s0, order, t);
    lm', sm', shed' := lm, sm, shed;
    var load := lm[lids[i]];
    if load.connected {
      var served;
      lm', sm', served := Offer(lids, sids, lm, sm, i);
      if !served {
        AtUpdate(lids, lm', i, load.(served := false));
        lm' := lm'[lids[i] := load.(served := false)];
        shed' := shed + [load.id];
      }
    }
  }

  /** The main loop of performLoadShedding and of the system-wide pass: the
      loads are visited in the given order, each connected load no source
      can take is marked unserved, and their ids are reported in visiting
      order. */
  method ShedIn(lids: seq<string>, sids: seq<string>, lm: map<string, LoadState>, sm: map<string, SourceState>,
                order: seq<nat>) returns (lm': map<string, LoadState>, sm': map<string, SourceState>, shed: seq<string>)
    requires Listed(lids, sids, lm, sm) && Filed(lm, sm) && IsOrder(order, |lids|)
    ensures Touched(lm, sm, lm', sm', lids, sids)
    ensures View(lids, sids, lm', sm') == Run(View(lids, sids, lm, sm), order)
    ensures shed == UnservedIds(View(lids, sids, lm', sm').loads, order)
  {
    ghost var s0 := View(lids, sids, lm, sm);
    lm', sm', shed := lm, sm, [];
    var t := 0;
    while t < |order|
      invariant t <= |order| && InRange(order[..t], |lids|)
      invariant Touched(lm, sm, lm', sm', lids, sids)
      invariant View(lids, sids, lm', sm') == Run(s0, order[..t])
      invariant shed == UnservedIds(Run(s0, order[..t]).loads, order[..t])
    {
      var lm1, sm1, shed1 := ShedTurn(lids, sids, lm', sm', order, t, shed, s0);
      TouchedTrans(lm, sm, lm', sm', lm1, sm1, lids, sids);
      lm', sm', shed := lm1, sm1, shed1;
      t := t + 1;
    }
    assert order[..t] == order;
    assert View(lids, sids, lm', sm') == Run(s0, order);
  }

  /** Busbar::distributeLoadsToPowerSources on bus b of the store. Without
      sources every load of the bus is marked unserved and the pass fails;
      otherwise its sources are reset, its loads' flags cleared and its
      loads visited in priority order. The result is true exactly when the
      bus has a source and every connected load on it is served. */
  method DistributeBus(b: Bus, lm: map<string, LoadState>, sm: map<string, SourceState>)
    returns (lm': map<string, LoadState>, sm': map<string, SourceState>, ok: bool)
    requires BusOk(b, lm, sm) && Filed(lm, sm)
    ensures Touched(lm, sm, lm', sm', b.loadIds, b.sourceIds)
    ensures View(b.loadIds, b.sourceIds, lm', sm') == Allocate(View(b.loadIds, b.sourceIds, lm, sm))
    ensures ok <==> |b.sourceIds| > 0 && AllConnectedServed(View(b.loadIds, b.sourceIds, lm', sm').loads)
  {
    ghost var s := View(b.loadIds, b.sourceIds, lm, sm);
    ResetClearTouched(lm, sm, b.loadIds, b.sourceIds);
    AtClearOn(b.loadIds, lm, b.loadIds);
    if |b.sourceIds| == 0 {
      lm' := ClearEach(lm, b.loadIds);
      sm' := sm;
      AllocateWithoutSources(s);
      return lm', sm', false;
    }
    var sm0 := ResetEach(sm, b.sourceIds);
    var lm0 := ClearEach(lm, b.loadIds);
    AtResetOn(b.sourceIds, sm, b.sourceIds);
    assert View(b.loadIds, b.sourceIds, lm0, sm0) == Cleared(s);
    var order := RankOrder(Priorities(At(b.loadIds, lm0)));
    PrioritiesClearServed(s.loads);
    PassOrder(s.loads);
    lm', sm', ok := ServeIn(b.loadIds, b.sourceIds, lm0, sm0, order);
    TouchedTrans(lm, sm, lm0, sm0, lm', sm', b.loadIds, b.sourceIds);
  }

  /** Busbar::performLoadShedding on bus b of the store: its sources are
      reset (served flags are not cleared first) and its loads visited in
      priority order; each connected load no source can take is marked
      unserved and reported, in visiting order. */
  method ShedBus(b: Bus, lm: map<string, LoadState>, sm: map<string, SourceState>)
    returns (lm': map<string, LoadState>, sm': map<string, SourceState>, shed: seq<string>)
    requires BusOk(b, lm, sm) && Filed(lm, sm)
    ensures Touched(lm, sm, lm', sm', b.loadIds, b.sourceIds)
    ensures View(b.loadIds, b.sourceIds, lm', sm') == Shed(View(b.loadIds, b.sourceIds, lm, sm))
    ensures shed == UnservedIds(View(b.loadIds, b.sourceIds, lm', sm').loads,
                                RankOrder(Priorities(View(b.loadIds, b.sourceIds, lm, sm).loads)))
  {
    ghost var s := View(b.loadIds, b.sourceIds, lm, sm);
    ResetClearTouched(lm, sm, [], b.sourceIds);
    var sm0 := ResetEach(sm, b.sourceIds);
    AtResetOn(b.sourceIds, sm, b.sourceIds);
    assert ClearOn(lm, []) == lm;
    var order := RankOrder(Priorities(At(b.loadIds, lm)));
    PassOrder(s.loads);
    lm', sm', shed := ShedIn(b.loadIds, b.sourceIds, lm, sm0, order);
    TouchedTrans(lm, sm, lm, sm0, lm', sm', b.loadIds, b.sourceIds);
  }

  /** The distribution pass on a bus reports exactly what its shedding
      pass would report after it. */
  lemma BusReportNext(v: Snapshot)
    ensures Shed(Allocate(v)) == Allocate(v)
    ensures BusReport(v) ==
              UnservedIds(Shed(Allocate(v)).loads, RankOrder(Priorities(Allocate(v).loads)))
    ensures AllConnectedServed(Allocate(v).loads) ==> BusReport(v) == []
  {
    ShedAfterAllocate(v);
    AllocatePriorities(v);
    RankOrderSpec(Priorities(v.loads));
    if AllConnectedServed(Allocate(v).loads) {
      UnservedIdsNone(Allocate(v).loads, RankOrder(Priorities(v.loads)));
    }
  }

  /** How far distributeLoadOptimally's bus loop has come on a store that
      started as lm0, sm0 with views v0: the buses before j are allocated,
      the others untouched, and their reports collected. */
  ghost predicate BusesDone(bs: seq<Bus>, lm0: map<string, LoadState>, sm0: map<string, SourceState>,
                            v0: seq<Snapshot>, j: nat,
                            lm: map<string, LoadState>, sm: map<string, SourceState>, shed: seq<string>)
  {
    lm.Keys == lm0.Keys && sm.Keys == sm0.Keys && Filed(lm, sm) && AllBusOk(bs, lm, sm) &&
    |v0| == |bs| && j <= |bs| &&
    (forall j' :: 0 <= j' < j ==> ViewsOf(bs, lm, sm)[j'] == Allocate(v0[j'])) &&
    (forall j' :: j <= j' < |bs| ==> ViewsOf(bs, lm, sm)[j'] == v0[j']) &&
    shed == Reports(v0[..j])
  }

  /** One bus of distributeLoadOptimally's loop: the distribution pass,
      then the shedding pass when the distribution failed. */
  method DistributeOn(bs: seq<Bus>, j: nat, lm: map<string, LoadState>, sm: map<string, SourceState>,
                      shed: seq<string>, ghost lm0: map<string, LoadState>, ghost sm0: map<string, SourceState>,
                      ghost v0: seq<Snapshot>)
    returns (lm': map<string, LoadState>, sm': map<string, SourceState>, shed': seq<string>)
    requires Disjoint(bs) && j < |bs| && BusesDone(bs, lm0, sm0, v0, j, lm, sm, shed)
    ensures BusesDone(bs, lm0, sm0, v0, j + 1, lm', sm', shed')
  {
    var b := bs[j];
    assert BusOk(b, lm, sm);
    ghost var v := View(b.loadIds, b.sourceIds, lm, sm);
    assert v == v0[j];
    BusReportNext(v);
    var ok;
    lm', sm', ok := DistributeBus(b, lm, sm);
    var r := [];
    if !ok {
      var lm1, sm1;
      lm1, sm1, r := ShedBus(b, lm', sm');
      TouchedTrans(lm, sm, lm', sm', lm1, sm1, b.loadIds, b.sourceIds);
      lm', sm' := lm1, sm1;
    }
    OtherViewsKept(bs, lm, sm, lm', sm', j);
    ReportsNext(v0, j);
    shed' := shed + r;
  }

  /** The bus loop of distributeLoadOptimally, on a store whose sources are
      reset and whose flags are cleared: each bus ends as a full pass over
      it alone leaves it, and the reports of the buses are collected in bus
      order. */
  method DistributeBuses(bs: seq<Bus>, lm: map<string, LoadState>, sm: map<string, SourceState>)
    returns (lm': map<string, LoadState>, sm': map<string, SourceState>, shed: seq<string>)
    requires AllBusOk(bs, lm, sm) && Disjoint(bs) && Filed(lm, sm)
    ensures lm'.Keys == lm.Keys && sm'.Keys == sm.Keys && Filed(lm', sm') && AllBusOk(bs, lm', sm')
    ensures forall j :: 0 <= j < |bs| ==> ViewsOf(bs, lm', sm')[j] == Allocate(ViewsOf(bs, lm, sm)[j])
    ensures shed == Reports(ViewsOf(bs, lm, sm))
  {
    ghost var v0 := ViewsOf(bs, lm, sm);
    lm', sm', shed := lm, sm, [];
    for j := 0 to |bs|
      invariant BusesDone(bs, lm, sm, v0, j, lm', sm', shed)
    {
      lm', sm', shed := DistributeOn(bs, j, lm', sm', shed, lm, sm, v0);
    }
    assert v0[..|bs|] == v0;
  }

  /** The first loop of updateStatistics: the summed demand of the
      connected loads and of the connected, served ones, in id order. */
  method TallyLoads(ids: seq<string>, lm: map<string, LoadState>) returns (demand: real, served: real)
    requires Registered(ids, lm)
    ensures demand == ConnectedDemand(At(ids, lm)) && served == ServedDemand(At(ids, lm))
  {
    ghost var ls := At(ids, lm);
    demand, served := 0.0, 0.0;
    for i := 0 to |ids|
      invariant demand == ConnectedDemand(ls[..i]) && served == ServedDemand(ls[..i])
    {
      assert ls[..i + 1][..i] == ls[..i];
      var l := lm[ids[i]];
      if l.connected {
        demand := demand + l.demand;
        if l.served {
          served := served + l.demand;
        }
      }
    }
    assert ls[..|ids|] == ls;
  }

  /** The second loop of updateStatistics: the summed capacity of the
      operational sources, in id order. */
  method TallySources(ids: seq<string>, sm: map<string, SourceState>) returns (supply: real)
    requires Registered(ids, sm)
    ensures supply == OperationalCapacity(At(ids, sm))
  {
    ghost var ss := At(ids, sm);
    supply := 0.0;
    for k := 0 to |ids|
      invariant supply == OperationalCapacity(ss[..k])
    {
      assert ss[..k + 1][..k] == ss[..k];
      var source := sm[ids[k]];
      if source.operational {
        supply := supply + source.capacity;
      }
    }
    assert ss[..|ids|] == ss;
  }

  /** The value half of distributeLoadOptimally on a consistent store: the
      reset, the clearing and the bus loop. */
  method DistributeStore(bs: seq<Bus>, lids: seq<string>, lm: map<string, LoadState>,
                         sids: seq<string>, sm: map<string, SourceState>)
    returns (lm': map<string, LoadState>, sm': map<string, SourceState>, shed: seq<string>)
    requires LoadRegistry(lids, lm) && SourceRegistry(sids, sm) && BusesOk(bs, lm, sm)
    ensures LoadRegistry(lids, lm') && SourceRegistry(sids, sm') && BusesOk(bs, lm', sm')
    ensures forall j :: 0 <= j < |bs| ==> ViewsOf(bs, lm', sm')[j] == Allocate(ViewsOf(bs, lm, sm)[j])
    ensures shed == Reports(ViewsOf(bs, lm, sm))
  {
    ghost var v0 := ViewsOf(bs, lm, sm);
    RegistriesFiled(lids, sids, lm, sm);
    ResetClearTouched(lm, sm, lids, sids);
    var sm0 := ResetEach(sm, sids);
    var lm0 := ClearEach(lm, lids);
    ClearedViews(bs, lids, lm, sids, sm);
    ghost var w := ViewsOf(bs, lm0, sm0);
    lm', sm', shed := DistributeBuses(bs, lm0, sm0);
    forall j | 0 <= j < |bs| ensures ViewsOf(bs, lm', sm')[j] == Allocate(v0[j]) {
      AllocateCleared(v0[j]);
    }
    ReportsCleared(v0, w);
    StoreKeep(lids, sids, bs, lm, sm, lm', sm');
  }

  /** The value half of performSystemWideLoadShedding on a consistent
      store: the reset, the clearing and one pass over the whole grid. */
  method ShedStore(lids: seq<string>, lm: map<string, LoadState>, sids: seq<string>, sm: map<string, SourceState>,
                   ghost bs: seq<Bus>)
    returns (lm': map<string, LoadState>, sm': map<string, SourceState>, shed: seq<string>)
    requires LoadRegistry(lids, lm) && SourceRegistry(sids, sm) && BusesOk(bs, lm, sm)
    ensures LoadRegistry(lids, lm') && SourceRegistry(sids, sm') && BusesOk(bs, lm', sm')
    ensures View(lids, sids, lm', sm') == Allocate(View(lids, sids, lm, sm))
    ensures shed == UnservedIds(View(lids, sids, lm', sm').loads, RankOrder(Priorities(View(lids, sids, lm, sm).loads)))
  {
    ghost var v := View(lids, sids, lm, sm);
    RegistriesFiled(lids, sids, lm, sm);
    ResetClearTouched(lm, sm, lids, sids);
    var sm0 := ResetEach(sm, sids);
    var lm0 := ClearEach(lm, lids);
    AtResetOn(sids, sm, sids);
    AtClearOn(lids, lm, lids);
    assert View(lids, sids, lm0, sm0) == Cleared(v);
    var order := RankOrder(Priorities(At(lids, lm0)));
    PrioritiesClearServed(v.loads);
    PassOrder(v.loads);
    SortedNoDup(lids);
    SortedNoDup(sids);
    lm', sm', shed := ShedIn(lids, sids, lm0, sm0, order);
    TouchedTrans(lm, sm, lm0, sm0, lm', sm', lids, sids);
    StoreKeep(lids, sids, bs, lm, sm, lm', sm');
  }
}

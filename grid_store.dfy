/** The grid's containers on values (include/Grid.h:16-18, src/Grid.cpp).
    Buses and registries share their entities through std::shared_ptr in the
    source; here each entity is stored once, in the registry under its id,
    and a bus lists the ids of what it holds in connection order. This
    module states when such a store is consistent and proves that the add
    and remove operations of the grid keep it so. */
module GridStores {
  import opened PowerSources
  import opened Loads
  import opened Allocation
  import opened Registries

  /** A busbar as the grid holds it: its id, the ids of its loads and of
      its sources in connection order, and its energized flag. */
  datatype Bus = Bus(id: string, loadIds: seq<string>, sourceIds: seq<string>, energized: bool)

  /** Busbar::connectLoad on a bus of ids: appended at the end. */
  function ConnectLoad(b: Bus, id: string): Bus {
    b.(loadIds := b.loadIds + [id])
  }

  /** Busbar::connectSource: appended, and energized since the list is no
      longer empty. */
  function ConnectSource(b: Bus, id: string): Bus {
    var r := b.sourceIds + [id];
    b.(sourceIds := r, energized := |r| > 0)
  }

  /** Busbar::disconnectLoad: the first occurrence leaves the list. */
  function DisconnectLoad(b: Bus, id: string): Bus {
    b.(loadIds := RemoveFirst(b.loadIds, id))
  }

  /** Busbar::disconnectSource: the energized flag is recomputed only when
      the source was found. */
  function DisconnectSource(b: Bus, id: string): Bus {
    if Find(b.sourceIds, id) < |b.sourceIds| then
      var r := RemoveFirst(b.sourceIds, id);
      b.(sourceIds := r, energized := |r| > 0)
    else b
  }

  /** The bus ids in order, searched by Grid::getBusbar. */
  function BusIds(bs: seq<Bus>): (r: seq<string>)
    ensures |r| == |bs|
  {
    seq(|bs|, j requires 0 <= j < |bs| => bs[j].id)
  }

  // ------------------------------------------------------------------
  // Consistency of the store

  predicate Registered<T>(ids: seq<string>, m: map<string, T>) {
    forall i :: 0 <= i < |ids| ==> ids[i] in m
  }

  /** No id of a occurs in b. */
  predicate Apart(a: seq<string>, b: seq<string>) {
    forall i :: 0 <= i < |a| ==> a[i] !in b
  }

  /** A registry of loads: ascending keys, each entry filed under its own
      id, non-negative demands. */
  ghost predicate LoadRegistry(ids: seq<string>, m: map<string, LoadState>) {
    Sorted(ids) && (forall k :: k in m <==> k in ids) &&
    forall k :: k in m ==> m[k].id == k && m[k].Valid()
  }

  ghost predicate SourceRegistry(ids: seq<string>, m: map<string, SourceState>) {
    Sorted(ids) && (forall k :: k in m <==> k in ids) &&
    forall k :: k in m ==> m[k].id == k && m[k].Valid()
  }

  /** A bus lists registered entities without repeats, and it is energized
      exactly when it has a source. */
  predicate BusOk(b: Bus, lm: map<string, LoadState>, sm: map<string, SourceState>) {
    NoDup(b.loadIds) && NoDup(b.sourceIds) &&
    Registered(b.loadIds, lm) && Registered(b.sourceIds, sm) &&
    b.energized == (|b.sourceIds| > 0)
  }

  /** No entity sits on two buses. */
  predicate Disjoint(bs: seq<Bus>) {
    forall j1, j2 :: 0 <= j1 < |bs| && 0 <= j2 < |bs| && j1 != j2 ==>
      Apart(bs[j1].loadIds, bs[j2].loadIds) && Apart(bs[j1].sourceIds, bs[j2].sourceIds)
  }

  predicate HoldsLoad(bs: seq<Bus>, id: string) {
    exists j :: 0 <= j < |bs| && id in bs[j].loadIds
  }

  predicate HoldsSource(bs: seq<Bus>, id: string) {
    exists j :: 0 <= j < |bs| && id in bs[j].sourceIds
  }

  /** Every registered entity sits on some bus. */
  predicate Covered(bs: seq<Bus>, lm: map<string, LoadState>, sm: map<string, SourceState>) {
    (forall k :: k in lm ==> HoldsLoad(bs, k)) && (forall k :: k in sm ==> HoldsSource(bs, k))
  }

  /** The buses and the registries describe the same entities: the
      registries hold exactly what the buses list, each on one bus. */
  predicate BusesOk(bs: seq<Bus>, lm: map<string, LoadState>, sm: map<string, SourceState>) {
    AllBusOk(bs, lm, sm) && Disjoint(bs) && Covered(bs, lm, sm)
  }

  predicate AllBusOk(bs: seq<Bus>, lm: map<string, LoadState>, sm: map<string, SourceState>) {
    forall j :: 0 <= j < |bs| ==> BusOk(bs[j], lm, sm)
  }

  /** The snapshot a pass over the loads lids and the sources sids sees. */
  function View(lids: seq<string>, sids: seq<string>, lm: map<string, LoadState>, sm: map<string, SourceState>): (s: Snapshot)
    requires Registered(lids, lm) && Registered(sids, sm)
    ensures |s.loads| == |lids| && |s.sources| == |sids|
  {
    Snapshot(At(lids, lm), At(sids, sm))
  }

  /** The snapshot of every bus, in bus order. */
  function ViewsOf(bs: seq<Bus>, lm: map<string, LoadState>, sm: map<string, SourceState>): (vs: seq<Snapshot>)
    requires AllBusOk(bs, lm, sm)
    ensures |vs| == |bs|
  {
    seq(|bs|, j requires 0 <= j < |bs| && BusOk(bs[j], lm, sm) => View(bs[j].loadIds, bs[j].sourceIds, lm, sm))
  }

  // ------------------------------------------------------------------
  // Bulk updates of a registry

  /** Every source filed under an id of ex reset. */
  function ResetOn(m: map<string, SourceState>, ex: seq<string>): (r: map<string, SourceState>)
    ensures r.Keys == m.Keys
  {
    map k | k in m :: if k in ex then m[k].Reset() else m[k]
  }

  /** Every load filed under an id of ex marked unserved. */
  function ClearOn(m: map<string, LoadState>, ex: seq<string>): (r: map<string, LoadState>)
    ensures r.Keys == m.Keys
  {
    map k | k in m :: if k in ex then m[k].(served := false) else m[k]
  }

  /** The registry after erasing every id of ex. */
  function Without<T>(m: map<string, T>, ex: seq<string>): (r: map<string, T>)
    ensures forall k :: k in r <==> k in m && k !in ex
  {
    map k | k in m && k !in ex :: m[k]
  }

  /** The keys after erasing every id of ex, one after the other. */
  function EraseAll(ids: seq<string>, ex: seq<string>): (r: seq<string>)
    ensures forall y :: y in r <==> y in ids && y !in ex
  {
    if ex == [] then ids else Erase(EraseAll(ids, ex[..|ex| - 1]), ex[|ex| - 1])
  }

  lemma {:induction false} EraseAllSorted(ids: seq<string>, ex: seq<string>)
    requires Sorted(ids)
    ensures Sorted(EraseAll(ids, ex))
  {
    if ex != [] {
      EraseAllSorted(ids, ex[..|ex| - 1]);
      EraseSorted(EraseAll(ids, ex[..|ex| - 1]), ex[|ex| - 1]);
    }
  }

  /** Seen through ids, resetting the sources of ex (a superset) resets them
      all. */
  lemma AtResetOn(ids: seq<string>, m: map<string, SourceState>, ex: seq<string>)
    requires Registered(ids, m) && forall i :: 0 <= i < |ids| ==> ids[i] in ex
    ensures At(ids, ResetOn(m, ex)) == ResetSources(At(ids, m))
  {
  }

  lemma AtClearOn(ids: seq<string>, m: map<string, LoadState>, ex: seq<string>)
    requires Registered(ids, m) && forall i :: 0 <= i < |ids| ==> ids[i] in ex
    ensures At(ids, ClearOn(m, ex)) == ClearServed(At(ids, m))
  {
  }

  /** Changing one entry changes one position of the view. */
  lemma AtUpdate<T>(ids: seq<string>, m: map<string, T>, i: nat, v: T)
    requires Registered(ids, m) && NoDup(ids) && i < |ids|
    ensures At(ids, m[ids[i] := v]) == At(ids, m)[i := v]
  {
  }

  // ------------------------------------------------------------------
  // The registries under the add and remove operations

  lemma LoadRegistryInsert(ids: seq<string>, m: map<string, LoadState>, l: LoadState)
    requires LoadRegistry(ids, m) && l.id !in m && l.Valid()
    ensures LoadRegistry(Insert(ids, l.id), m[l.id := l])
  {
    InsertSorted(ids, l.id);
  }

  lemma SourceRegistryInsert(ids: seq<string>, m: map<string, SourceState>, s: SourceState)
    requires SourceRegistry(ids, m) && s.id !in m && s.Valid()
    ensures SourceRegistry(Insert(ids, s.id), m[s.id := s])
  {
    InsertSorted(ids, s.id);
  }

  lemma LoadRegistryErase(ids: seq<string>, m: map<string, LoadState>, ex: seq<string>)
    requires LoadRegistry(ids, m)
    ensures LoadRegistry(EraseAll(ids, ex), Without(m, ex))
  {
    EraseAllSorted(ids, ex);
  }

  lemma SourceRegistryErase(ids: seq<string>, m: map<string, SourceState>, ex: seq<string>)
    requires SourceRegistry(ids, m)
    ensures SourceRegistry(EraseAll(ids, ex), Without(m, ex))
  {
    EraseAllSorted(ids, ex);
  }

  /** A new, empty bus keeps the store consistent. */
  lemma AddBusKeeps(bs: seq<Bus>, lm: map<string, LoadState>, sm: map<string, SourceState>, id: string)
    requires BusesOk(bs, lm, sm)
    ensures BusesOk(bs + [Bus(id, [], [], false)], lm, sm)
  {
    var bs' := bs + [Bus(id, [], [], false)];
    AddBusOk(bs, lm, sm, id);
    AddBusDisjoint(bs, id);
    CoveredGrow(bs, bs', lm, sm);
  }

  lemma AddBusOk(bs: seq<Bus>, lm: map<string, LoadState>, sm: map<string, SourceState>, id: string)
    requires AllBusOk(bs, lm, sm)
    ensures AllBusOk(bs + [Bus(id, [], [], false)], lm, sm)
  {
  }

  lemma AddBusDisjoint(bs: seq<Bus>, id: string)
    requires Disjoint(bs)
    ensures Disjoint(bs + [Bus(id, [], [], false)])
  {
  }

  /** Buses that keep their lists keep covering the registries. */
  lemma CoveredGrow(bs: seq<Bus>, bs': seq<Bus>, lm: map<string, LoadState>, sm: map<string, SourceState>)
    requires Covered(bs, lm, sm) && |bs| <= |bs'|
    requires forall j :: 0 <= j < |bs| ==> bs'[j] == bs[j]
    ensures Covered(bs', lm, sm)
  {
    forall k | k in lm ensures HoldsLoad(bs', k) {
      var j :| 0 <= j < |bs| && k in bs[j].loadIds;
      assert k in bs'[j].loadIds;
    }
    forall k | k in sm ensures HoldsSource(bs', k) {
      var j :| 0 <= j < |bs| && k in bs[j].sourceIds;
      assert k in bs'[j].sourceIds;
    }
  }

  /** An unregistered id is on no bus. */
  lemma FreshLoadNowhere(bs: seq<Bus>, lm: map<string, LoadState>, sm: map<string, SourceState>, id: string)
    requires AllBusOk(bs, lm, sm) && id !in lm
    ensures forall j :: 0 <= j < |bs| ==> id !in bs[j].loadIds
  {
    forall j | 0 <= j < |bs| ensures id !in bs[j].loadIds {
      assert Registered(bs[j].loadIds, lm);
    }
  }

  lemma FreshSourceNowhere(bs: seq<Bus>, lm: map<string, LoadState>, sm: map<string, SourceState>, id: string)
    requires AllBusOk(bs, lm, sm) && id !in sm
    ensures forall j :: 0 <= j < |bs| ==> id !in bs[j].sourceIds
  {
    forall j | 0 <= j < |bs| ensures id !in bs[j].sourceIds {
      assert Registered(bs[j].sourceIds, sm);
    }
  }

  /** Connecting a new load to bus k and registering it keeps the store
      consistent. */
  lemma AddLoadKeeps(bs: seq<Bus>, lm: map<string, LoadState>, sm: map<string, SourceState>, k: nat, l: LoadState)
    requires BusesOk(bs, lm, sm) && k < |bs| && l.id !in lm
    ensures BusesOk(bs[k := ConnectLoad(bs[k], l.id)], lm[l.id := l], sm)
  {
    FreshLoadNowhere(bs, lm, sm, l.id);
    AddLoadOk(bs, lm, sm, k, l);
    AddLoadDisjoint(bs, k, l.id);
    AddLoadCovered(bs, lm, sm, k, l);
  }

  lemma AddLoadOk(bs: seq<Bus>, lm: map<string, LoadState>, sm: map<string, SourceState>, k: nat, l: LoadState)
    requires AllBusOk(bs, lm, sm) && k < |bs|
    requires forall j :: 0 <= j < |bs| ==> l.id !in bs[j].loadIds
    ensures AllBusOk(bs[k := ConnectLoad(bs[k], l.id)], lm[l.id := l], sm)
  {
    var bs' := bs[k := ConnectLoad(bs[k], l.id)];
    forall j | 0 <= j < |bs'| ensures BusOk(bs'[j], lm[l.id := l], sm) {
      assert BusOk(bs[j], lm, sm);
    }
  }

  lemma AddLoadDisjoint(bs: seq<Bus>, k: nat, id: string)
    requires Disjoint(bs) && k < |bs|
    requires forall j :: 0 <= j < |bs| ==> id !in bs[j].loadIds
    ensures Disjoint(bs[k := ConnectLoad(bs[k], id)])
  {
    var bs' := bs[k := ConnectLoad(bs[k], id)];
    forall j1, j2 | 0 <= j1 < |bs'| && 0 <= j2 < |bs'| && j1 != j2
      ensures Apart(bs'[j1].loadIds, bs'[j2].loadIds) && Apart(bs'[j1].sourceIds, bs'[j2].sourceIds)
    {
      assert Apart(bs[j1].loadIds, bs[j2].loadIds) && Apart(bs[j1].sourceIds, bs[j2].sourceIds);
    }
  }

  lemma AddLoadCovered(bs: seq<Bus>, lm: map<string, LoadState>, sm: map<string, SourceState>, k: nat, l: LoadState)
    requires Covered(bs, lm, sm) && k < |bs|
    ensures Covered(bs[k := ConnectLoad(bs[k], l.id)], lm[l.id := l], sm)
  {
    var bs' := bs[k := ConnectLoad(bs[k], l.id)];
    forall x | x in lm[l.id := l] ensures HoldsLoad(bs', x) {
      if x == l.id {
        assert x in bs'[k].loadIds;
      } else {
        var j :| 0 <= j < |bs| && x in bs[j].loadIds;
        assert x in bs'[j].loadIds;
      }
    }
    forall x | x in sm ensures HoldsSource(bs', x) {
      var j :| 0 <= j < |bs| && x in bs[j].sourceIds;
      assert bs'[j].sourceIds == bs[j].sourceIds;
    }
  }

  /** Connecting a new source to bus k and registering it keeps the store
      consistent. */
  lemma AddSourceKeeps(bs: seq<Bus>, lm: map<string, LoadState>, sm: map<string, SourceState>, k: nat, s: SourceState)
    requires BusesOk(bs, lm, sm) && k < |bs| && s.id !in sm
    ensures BusesOk(bs[k := ConnectSource(bs[k], s.id)], lm, sm[s.id := s])
  {
    FreshSourceNowhere(bs, lm, sm, s.id);
    AddSourceOk(bs, lm, sm, k, s);
    AddSourceDisjoint(bs, k, s.id);
    AddSourceCovered(bs, lm, sm, k, s);
  }

  lemma AddSourceOk(bs: seq<Bus>, lm: map<string, LoadState>, sm: map<string, SourceState>, k: nat, s: SourceState)
    requires AllBusOk(bs, lm, sm) && k < |bs|
    requires forall j :: 0 <= j < |bs| ==> s.id !in bs[j].sourceIds
    ensures AllBusOk(bs[k := ConnectSource(bs[k], s.id)], lm, sm[s.id := s])
  {
    var bs' := bs[k := ConnectSource(bs[k], s.id)];
    forall j | 0 <= j < |bs'| ensures BusOk(bs'[j], lm, sm[s.id := s]) {
      assert BusOk(bs[j], lm, sm);
    }
  }

  lemma AddSourceDisjoint(bs: seq<Bus>, k: nat, id: string)
    requires Disjoint(bs) && k < |bs|
    requires forall j :: 0 <= j < |bs| ==> id !in bs[j].sourceIds
    ensures Disjoint(bs[k := ConnectSource(bs[k], id)])
  {
    var bs' := bs[k := ConnectSource(bs[k], id)];
    forall j1, j2 | 0 <= j1 < |bs'| && 0 <= j2 < |bs'| && j1 != j2
      ensures Apart(bs'[j1].loadIds, bs'[j2].loadIds) && Apart(bs'[j1].sourceIds, bs'[j2].sourceIds)
    {
      assert Apart(bs[j1].loadIds, bs[j2].loadIds) && Apart(bs[j1].sourceIds, bs[j2].sourceIds);
    }
  }

  lemma AddSourceCovered(bs: seq<Bus>, lm: map<string, LoadState>, sm: map<string, SourceState>, k: nat, s: SourceState)
    requires Covered(bs, lm, sm) && k < |bs|
    ensures Covered(bs[k := ConnectSource(bs[k], s.id)], lm, sm[s.id := s])
  {
    var bs' := bs[k := ConnectSource(bs[k], s.id)];
    forall x | x in lm ensures HoldsLoad(bs', x) {
      var j :| 0 <= j < |bs| && x in bs[j].loadIds;
      assert bs'[j].loadIds == bs[j].loadIds;
    }
    forall x | x in sm[s.id := s] ensures HoldsSource(bs', x) {
      if x == s.id {
        assert x in bs'[k].sourceIds;
      } else {
        var j :| 0 <= j < |bs| && x in bs[j].sourceIds;
        assert x in bs'[j].sourceIds;
      }
    }
  }

  /** Grid::removeLoad's loop over the buses: disconnectLoad on each. */
  function DropLoad(bs: seq<Bus>, id: string): (r: seq<Bus>)
    ensures |r| == |bs|
  {
    seq(|bs|, j requires 0 <= j < |bs| => DisconnectLoad(bs[j], id))
  }

  /** Grid::removeSource's loop over the buses: disconnectSource on each. */
  function DropSource(bs: seq<Bus>, id: string): (r: seq<Bus>)
    ensures |r| == |bs|
  {
    seq(|bs|, j requires 0 <= j < |bs| => DisconnectSource(bs[j], id))
  }

  lemma LoadRegistryRemove(ids: seq<string>, m: map<string, LoadState>, id: string)
    requires LoadRegistry(ids, m)
    ensures LoadRegistry(Erase(ids, id), m - {id})
  {
    EraseSorted(ids, id);
  }

  lemma SourceRegistryRemove(ids: seq<string>, m: map<string, SourceState>, id: string)
    requires SourceRegistry(ids, m)
    ensures SourceRegistry(Erase(ids, id), m - {id})
  {
    EraseSorted(ids, id);
  }

  /** Removing a load from every bus and from the registry keeps the store
      consistent. */
  lemma RemoveLoadKeeps(bs: seq<Bus>, lm: map<string, LoadState>, sm: map<string, SourceState>, id: string)
    requires BusesOk(bs, lm, sm)
    ensures BusesOk(DropLoad(bs, id), lm - {id}, sm)
  {
    DropLoadLists(bs, lm, sm, id);
    DropLoadOk(bs, lm, sm, id);
    DropLoadDisjoint(bs, lm, sm, id);
    DropLoadCovered(bs, lm, sm, id);
  }

  /** What each bus lists once the load is gone. */
  lemma DropLoadLists(bs: seq<Bus>, lm: map<string, LoadState>, sm: map<string, SourceState>, id: string)
    requires AllBusOk(bs, lm, sm)
    ensures forall j :: 0 <= j < |bs| ==> NoDup(DropLoad(bs, id)[j].loadIds)
    ensures forall j, y :: 0 <= j < |bs| ==> (y in DropLoad(bs, id)[j].loadIds <==> y in bs[j].loadIds && y != id)
    ensures forall j :: 0 <= j < |bs| ==> DropLoad(bs, id)[j].sourceIds == bs[j].sourceIds
  {
    forall j | 0 <= j < |bs|
      ensures NoDup(DropLoad(bs, id)[j].loadIds)
      ensures forall y :: y in DropLoad(bs, id)[j].loadIds <==> y in bs[j].loadIds && y != id
    {
      assert BusOk(bs[j], lm, sm);
      RemoveFirstSpec(bs[j].loadIds, id);
    }
  }

  lemma DropLoadOk(bs: seq<Bus>, lm: map<string, LoadState>, sm: map<string, SourceState>, id: string)
    requires AllBusOk(bs, lm, sm)
    requires forall j :: 0 <= j < |bs| ==> NoDup(DropLoad(bs, id)[j].loadIds)
    requires forall j, y :: 0 <= j < |bs| ==> (y in DropLoad(bs, id)[j].loadIds <==> y in bs[j].loadIds && y != id)
    requires forall j :: 0 <= j < |bs| ==> DropLoad(bs, id)[j].sourceIds == bs[j].sourceIds
    ensures AllBusOk(DropLoad(bs, id), lm - {id}, sm)
  {
    var bs' := DropLoad(bs, id);
    forall j | 0 <= j < |bs'| ensures BusOk(bs'[j], lm - {id}, sm) {
      assert BusOk(bs[j], lm, sm);
      forall i | 0 <= i < |bs'[j].loadIds| ensures bs'[j].loadIds[i] in lm - {id} {
        assert bs'[j].loadIds[i] in bs'[j].loadIds;
      }
    }
  }

  lemma DropLoadDisjoint(bs: seq<Bus>, lm: map<string, LoadState>, sm: map<string, SourceState>, id: string)
    requires Disjoint(bs)
    requires forall j, y :: 0 <= j < |bs| ==> (y in DropLoad(bs, id)[j].loadIds <==> y in bs[j].loadIds && y != id)
    requires forall j :: 0 <= j < |bs| ==> DropLoad(bs, id)[j].sourceIds == bs[j].sourceIds
    ensures Disjoint(DropLoad(bs, id))
  {
    var bs' := DropLoad(bs, id);
    forall j1, j2 | 0 <= j1 < |bs'| && 0 <= j2 < |bs'| && j1 != j2
      ensures Apart(bs'[j1].loadIds, bs'[j2].loadIds) && Apart(bs'[j1].sourceIds, bs'[j2].sourceIds)
    {
      assert Apart(bs[j1].loadIds, bs[j2].loadIds) && Apart(bs[j1].sourceIds, bs[j2].sourceIds);
      forall i | 0 <= i < |bs'[j1].loadIds| ensures bs'[j1].loadIds[i] !in bs'[j2].loadIds {
        var y := bs'[j1].loadIds[i];
        assert y in bs'[j1].loadIds;
        var u :| 0 <= u < |bs[j1].loadIds| && bs[j1].loadIds[u] == y;
      }
    }
  }

  lemma DropLoadCovered(bs: seq<Bus>, lm: map<string, LoadState>, sm: map<string, SourceState>, id: string)
    requires Covered(bs, lm, sm)
    requires forall j, y :: 0 <= j < |bs| ==> (y in DropLoad(bs, id)[j].loadIds <==> y in bs[j].loadIds && y != id)
    requires forall j :: 0 <= j < |bs| ==> DropLoad(bs, id)[j].sourceIds == bs[j].sourceIds
    ensures Covered(DropLoad(bs, id), lm - {id}, sm)
  {
    var bs' := DropLoad(bs, id);
    forall x | x in lm - {id} ensures HoldsLoad(bs', x) {
      var j :| 0 <= j < |bs| && x in bs[j].loadIds;
      assert x in bs'[j].loadIds;
    }
    forall x | x in sm ensures HoldsSource(bs', x) {
      var j :| 0 <= j < |bs| && x in bs[j].sourceIds;
      assert x in bs'[j].sourceIds;
    }
  }

  /** Removing a source from every bus and from the registry keeps the
      store consistent. */
  lemma RemoveSourceKeeps(bs: seq<Bus>, lm: map<string, LoadState>, sm: map<string, SourceState>, id: string)
    requires BusesOk(bs, lm, sm)
    ensures BusesOk(DropSource(bs, id), lm, sm - {id})
  {
    DropSourceLists(bs, lm, sm, id);
    DropSourceOk(bs, lm, sm, id);
    DropSourceDisjoint(bs, lm, sm, id);
    DropSourceCovered(bs, lm, sm, id);
  }

  lemma DropSourceLists(bs: seq<Bus>, lm: map<string, LoadState>, sm: map<string, SourceState>, id: string)
    requires AllBusOk(bs, lm, sm)
    ensures forall j :: 0 <= j < |bs| ==> NoDup(DropSource(bs, id)[j].sourceIds)
    ensures forall j, y :: 0 <= j < |bs| ==> (y in DropSource(bs, id)[j].sourceIds <==> y in bs[j].sourceIds && y != id)
    ensures forall j :: 0 <= j < |bs| ==> DropSource(bs, id)[j].loadIds == bs[j].loadIds
    ensures forall j :: 0 <= j < |bs| ==> DropSource(bs, id)[j].energized == (|DropSource(bs, id)[j].sourceIds| > 0)
  {
    forall j | 0 <= j < |bs|
      ensures NoDup(DropSource(bs, id)[j].sourceIds)
      ensures forall y :: y in DropSource(bs, id)[j].sourceIds <==> y in bs[j].sourceIds && y != id
      ensures DropSource(bs, id)[j].energized == (|DropSource(bs, id)[j].sourceIds| > 0)
    {
      assert BusOk(bs[j], lm, sm);
      RemoveFirstSpec(bs[j].sourceIds, id);
    }
  }

  lemma DropSourceOk(bs: seq<Bus>, lm: map<string, LoadState>, sm: map<string, SourceState>, id: string)
    requires AllBusOk(bs, lm, sm)
    requires forall j :: 0 <= j < |bs| ==> NoDup(DropSource(bs, id)[j].sourceIds)
    requires forall j, y :: 0 <= j < |bs| ==> (y in DropSource(bs, id)[j].sourceIds <==> y in bs[j].sourceIds && y != id)
    requires forall j :: 0 <= j < |bs| ==> DropSource(bs, id)[j].loadIds == bs[j].loadIds
    requires forall j :: 0 <= j < |bs| ==> DropSource(bs, id)[j].energized == (|DropSource(bs, id)[j].sourceIds| > 0)
    ensures AllBusOk(DropSource(bs, id), lm, sm - {id})
  {
    var bs' := DropSource(bs, id);
    forall j | 0 <= j < |bs'| ensures BusOk(bs'[j], lm, sm - {id}) {
      assert BusOk(bs[j], lm, sm);
      forall i | 0 <= i < |bs'[j].sourceIds| ensures bs'[j].sourceIds[i] in sm - {id} {
        assert bs'[j].sourceIds[i] in bs'[j].sourceIds;
      }
    }
  }

  lemma DropSourceDisjoint(bs: seq<Bus>, lm: map<string, LoadState>, sm: map<string, SourceState>, id: string)
    requires Disjoint(bs)
    requires forall j, y :: 0 <= j < |bs| ==> (y in DropSource(bs, id)[j].sourceIds <==> y in bs[j].sourceIds && y != id)
    requires forall j :: 0 <= j < |bs| ==> DropSource(bs, id)[j].loadIds == bs[j].loadIds
    ensures Disjoint(DropSource(bs, id))
  {
    var bs' := DropSource(bs, id);
    forall j1, j2 | 0 <= j1 < |bs'| && 0 <= j2 < |bs'| && j1 != j2
      ensures Apart(bs'[j1].loadIds, bs'[j2].loadIds) && Apart(bs'[j1].sourceIds, bs'[j2].sourceIds)
    {
      assert Apart(bs[j1].loadIds, bs[j2].loadIds) && Apart(bs[j1].sourceIds, bs[j2].sourceIds);
      forall i | 0 <= i < |bs'[j1].sourceIds| ensures bs'[j1].sourceIds[i] !in bs'[j2].sourceIds {
        var y := bs'[j1].sourceIds[i];
        assert y in bs'[j1].sourceIds;
        var u :| 0 <= u < |bs[j1].sourceIds| && bs[j1].sourceIds[u] == y;
      }
    }
  }

  lemma DropSourceCovered(bs: seq<Bus>, lm: map<string, LoadState>, sm: map<string, SourceState>, id: string)
    requires Covered(bs, lm, sm)
    requires forall j, y :: 0 <= j < |bs| ==> (y in DropSource(bs, id)[j].sourceIds <==> y in bs[j].sourceIds && y != id)
    requires forall j :: 0 <= j < |bs| ==> DropSource(bs, id)[j].loadIds == bs[j].loadIds
    ensures Covered(DropSource(bs, id), lm, sm - {id})
  {
    var bs' := DropSource(bs, id);
    forall x | x in lm ensures HoldsLoad(bs', x) {
      var j :| 0 <= j < |bs| && x in bs[j].loadIds;
      assert x in bs'[j].loadIds;
    }
    forall x | x in sm - {id} ensures HoldsSource(bs', x) {
      var j :| 0 <= j < |bs| && x in bs[j].sourceIds;
      assert x in bs'[j].sourceIds;
    }
  }

  /** Erasing bus k together with every entity it held keeps the store
      consistent. */
  lemma RemoveBusKeeps(bs: seq<Bus>, lm: map<string, LoadState>, sm: map<string, SourceState>, k: nat)
    requires BusesOk(bs, lm, sm) && k < |bs|
    ensures BusesOk(bs[..k] + bs[k + 1..], Without(lm, bs[k].loadIds), Without(sm, bs[k].sourceIds))
  {
    var bs' := bs[..k] + bs[k + 1..];
    assert forall j :: 0 <= j < |bs'| ==> bs'[j] == bs[if j < k then j else j + 1];
    RemoveBusOk(bs, lm, sm, k);
    RemoveBusDisjoint(bs, k);
    RemoveBusCovered(bs, lm, sm, k);
  }

  lemma RemoveBusOk(bs: seq<Bus>, lm: map<string, LoadState>, sm: map<string, SourceState>, k: nat)
    requires AllBusOk(bs, lm, sm) && Disjoint(bs) && k < |bs|
    ensures AllBusOk(bs[..k] + bs[k + 1..], Without(lm, bs[k].loadIds), Without(sm, bs[k].sourceIds))
  {
    var bs' := bs[..k] + bs[k + 1..];
    forall j' | 0 <= j' < |bs'| ensures BusOk(bs'[j'], Without(lm, bs[k].loadIds), Without(sm, bs[k].sourceIds)) {
      var j := if j' < k then j' else j' + 1;
      assert bs'[j'] == bs[j] && j != k;
      assert BusOk(bs[j], lm, sm);
      assert Apart(bs[j].loadIds, bs[k].loadIds) && Apart(bs[j].sourceIds, bs[k].sourceIds);
    }
  }

  lemma RemoveBusDisjoint(bs: seq<Bus>, k: nat)
    requires Disjoint(bs) && k < |bs|
    ensures Disjoint(bs[..k] + bs[k + 1..])
  {
    var bs' := bs[..k] + bs[k + 1..];
    forall j1, j2 | 0 <= j1 < |bs'| && 0 <= j2 < |bs'| && j1 != j2
      ensures Apart(bs'[j1].loadIds, bs'[j2].loadIds) && Apart(bs'[j1].sourceIds, bs'[j2].sourceIds)
    {
      var i1 := if j1 < k then j1 else j1 + 1;
      var i2 := if j2 < k then j2 else j2 + 1;
      assert bs'[j1] == bs[i1] && bs'[j2] == bs[i2];
      assert Apart(bs[i1].loadIds, bs[i2].loadIds) && Apart(bs[i1].sourceIds, bs[i2].sourceIds);
    }
  }

  lemma RemoveBusCovered(bs: seq<Bus>, lm: map<string, LoadState>, sm: map<string, SourceState>, k: nat)
    requires Covered(bs, lm, sm) && k < |bs|
    ensures Covered(bs[..k] + bs[k + 1..], Without(lm, bs[k].loadIds), Without(sm, bs[k].sourceIds))
  {
    var bs' := bs[..k] + bs[k + 1..];
    forall x | x in Without(lm, bs[k].loadIds) ensures HoldsLoad(bs', x) {
      var j :| 0 <= j < |bs| && x in bs[j].loadIds;
      var j' := if j < k then j else j - 1;
      assert bs'[j'] == bs[j];
    }
    forall x | x in Without(sm, bs[k].sourceIds) ensures HoldsSource(bs', x) {
      var j :| 0 <= j < |bs| && x in bs[j].sourceIds;
      var j' := if j < k then j else j - 1;
      assert bs'[j'] == bs[j];
    }
  }

  // ------------------------------------------------------------------
  // Views under the updates of an allocation pass

  /** Distinct registered loads and sources: what one pass runs over. */
  predicate Listed(lids: seq<string>, sids: seq<string>, lm: map<string, LoadState>, sm: map<string, SourceState>) {
    NoDup(lids) && NoDup(sids) && Registered(lids, lm) && Registered(sids, sm)
  }

  /** Entries may change but no key comes or goes: the store stays
      consistent. */
  lemma SameKeysKeep(bs: seq<Bus>, lm: map<string, LoadState>, sm: map<string, SourceState>,
                     lm': map<string, LoadState>, sm': map<string, SourceState>)
    requires BusesOk(bs, lm, sm) && lm'.Keys == lm.Keys && sm'.Keys == sm.Keys
    ensures BusesOk(bs, lm', sm')
  {
    SameKeysBusOk(bs, lm, sm, lm', sm');
    SameKeysCovered(bs, lm, sm, lm', sm');
  }

  lemma SameKeysBusOk(bs: seq<Bus>, lm: map<string, LoadState>, sm: map<string, SourceState>,
                      lm': map<string, LoadState>, sm': map<string, SourceState>)
    requires AllBusOk(bs, lm, sm) && lm'.Keys == lm.Keys && sm'.Keys == sm.Keys
    ensures AllBusOk(bs, lm', sm')
  {
    forall j | 0 <= j < |bs| ensures BusOk(bs[j], lm', sm') {
      assert BusOk(bs[j], lm, sm);
      assert forall x :: x in lm' <==> x in lm;
      assert forall x :: x in sm' <==> x in sm;
    }
  }

  lemma SameKeysCovered(bs: seq<Bus>, lm: map<string, LoadState>, sm: map<string, SourceState>,
                        lm': map<string, LoadState>, sm': map<string, SourceState>)
    requires Covered(bs, lm, sm) && lm'.Keys == lm.Keys && sm'.Keys == sm.Keys
    ensures Covered(bs, lm', sm')
  {
    assert forall x :: x in lm' <==> x in lm;
    assert forall x :: x in sm' <==> x in sm;
  }

  /** Replacing one registered load by a valid state with the same id
      keeps the store consistent. */
  lemma LoadEntryKeeps(lids: seq<string>, sids: seq<string>, bs: seq<Bus>, lm: map<string, LoadState>,
                       sm: map<string, SourceState>, k: string, v: LoadState)
    requires LoadRegistry(lids, lm) && SourceRegistry(sids, sm) && BusesOk(bs, lm, sm)
    requires k in lm && v.id == k && v.Valid()
    ensures LoadRegistry(lids, lm[k := v]) && SourceRegistry(sids, sm) && BusesOk(bs, lm[k := v], sm)
  {
    SameKeysKeep(bs, lm, sm, lm[k := v], sm);
  }

  lemma SourceEntryKeeps(lids: seq<string>, sids: seq<string>, bs: seq<Bus>, lm: map<string, LoadState>,
                         sm: map<string, SourceState>, k: string, v: SourceState)
    requires LoadRegistry(lids, lm) && SourceRegistry(sids, sm) && BusesOk(bs, lm, sm)
    requires k in sm && v.id == k && v.Valid()
    ensures LoadRegistry(lids, lm) && SourceRegistry(sids, sm[k := v]) && BusesOk(bs, lm, sm[k := v])
  {
    SameKeysKeep(bs, lm, sm, lm, sm[k := v]);
  }

  lemma ResetOnNext(m: map<string, SourceState>, ex: seq<string>, x: string)
    requires x in m
    ensures ResetOn(m, ex + [x]) == ResetOn(m, ex)[x := ResetOn(m, ex)[x].Reset()]
  {
  }

  lemma ClearOnNext(m: map<string, LoadState>, ex: seq<string>, x: string)
    requires x in m
    ensures ClearOn(m, ex + [x]) == ClearOn(m, ex)[x := ClearOn(m, ex)[x].(served := false)]
  {
  }

  /** Changes confined to the entities of bus j leave the other buses'
      snapshots alone. */
  lemma OtherViewsKept(bs: seq<Bus>, lm: map<string, LoadState>, sm: map<string, SourceState>,
                       lm': map<string, LoadState>, sm': map<string, SourceState>, j: nat)
    requires AllBusOk(bs, lm, sm) && Disjoint(bs) && j < |bs|
    requires AgreeOutside(lm, lm', bs[j].loadIds) && AgreeOutside(sm, sm', bs[j].sourceIds)
    ensures AllBusOk(bs, lm', sm')
    ensures forall j' :: 0 <= j' < |bs| && j' != j ==> ViewsOf(bs, lm', sm')[j'] == ViewsOf(bs, lm, sm)[j']
  {
    SameKeysBusOk(bs, lm, sm, lm', sm');
    forall j' | 0 <= j' < |bs| && j' != j ensures ViewsOf(bs, lm', sm')[j'] == ViewsOf(bs, lm, sm)[j'] {
      assert BusOk(bs[j'], lm, sm);
      assert Apart(bs[j'].loadIds, bs[j].loadIds) && Apart(bs[j'].sourceIds, bs[j].sourceIds);
      AtOutside(bs[j'].loadIds, lm, lm', bs[j].loadIds);
      AtOutside(bs[j'].sourceIds, sm, sm', bs[j].sourceIds);
    }
  }

  /** After every source of the registry is reset and every load cleared,
      each bus sees the cleared snapshot of what it saw before. */
  lemma ClearedViews(bs: seq<Bus>, lids: seq<string>, lm: map<string, LoadState>, sids: seq<string>, sm: map<string, SourceState>)
    requires LoadRegistry(lids, lm) && SourceRegistry(sids, sm) && AllBusOk(bs, lm, sm)
    ensures AllBusOk(bs, ClearOn(lm, lids), ResetOn(sm, sids))
    ensures forall j :: 0 <= j < |bs| ==>
              ViewsOf(bs, ClearOn(lm, lids), ResetOn(sm, sids))[j] == Cleared(ViewsOf(bs, lm, sm)[j])
  {
    SameKeysBusOk(bs, lm, sm, ClearOn(lm, lids), ResetOn(sm, sids));
    forall j | 0 <= j < |bs|
      ensures ViewsOf(bs, ClearOn(lm, lids), ResetOn(sm, sids))[j] == Cleared(ViewsOf(bs, lm, sm)[j])
    {
      assert BusOk(bs[j], lm, sm);
      AtClearOn(bs[j].loadIds, lm, lids);
      AtResetOn(bs[j].sourceIds, sm, sids);
    }
  }

  // ------------------------------------------------------------------
  // What a pass may change

  /** Every entry filed under its own id, with non-negative magnitudes. */
  ghost predicate Filed(lm: map<string, LoadState>, sm: map<string, SourceState>) {
    (forall k :: k in lm ==> lm[k].id == k && lm[k].Valid()) &&
    (forall k :: k in sm ==> sm[k].id == k && sm[k].Valid())
  }

  /** lm', sm' differ from lm, sm only in the entries of lids and sids, and
      are still filed. */
  ghost predicate Touched(lm: map<string, LoadState>, sm: map<string, SourceState>,
                          lm': map<string, LoadState>, sm': map<string, SourceState>,
                          lids: seq<string>, sids: seq<string>) {
    AgreeOutside(lm, lm', lids) && AgreeOutside(sm, sm', sids) && Filed(lm', sm')
  }

  lemma TouchedTrans(lm: map<string, LoadState>, sm: map<string, SourceState>,
                     lm1: map<string, LoadState>, sm1: map<string, SourceState>,
                     lm2: map<string, LoadState>, sm2: map<string, SourceState>,
                     lids: seq<string>, sids: seq<string>)
    requires Touched(lm, sm, lm1, sm1, lids, sids) && Touched(lm1, sm1, lm2, sm2, lids, sids)
    ensures Touched(lm, sm, lm2, sm2, lids, sids)
  {
  }

  /** A store whose entries changed in place, keys kept and still filed, is
      still consistent. */
  lemma StoreKeep(lids: seq<string>, sids: seq<string>, bs: seq<Bus>, lm: map<string, LoadState>,
                  sm: map<string, SourceState>, lm': map<string, LoadState>, sm': map<string, SourceState>)
    requires LoadRegistry(lids, lm) && SourceRegistry(sids, sm) && BusesOk(bs, lm, sm)
    requires lm'.Keys == lm.Keys && sm'.Keys == sm.Keys && Filed(lm', sm')
    ensures LoadRegistry(lids, lm') && SourceRegistry(sids, sm') && BusesOk(bs, lm', sm')
  {
    SameKeysKeep(bs, lm, sm, lm', sm');
    assert forall x :: x in lm' <==> x in lm;
    assert forall x :: x in sm' <==> x in sm;
  }

  lemma RegistriesFiled(lids: seq<string>, sids: seq<string>, lm: map<string, LoadState>, sm: map<string, SourceState>)
    requires LoadRegistry(lids, lm) && SourceRegistry(sids, sm)
    ensures Filed(lm, sm) && Registered(lids, lm) && Registered(sids, sm)
    ensures LoadsValid(At(lids, lm)) && SourcesValid(At(sids, sm))
  {
  }

  /** Resetting and clearing change only the entries they name. */
  lemma ResetClearTouched(lm: map<string, LoadState>, sm: map<string, SourceState>,
                          lids: seq<string>, sids: seq<string>)
    requires Filed(lm, sm)
    ensures Touched(lm, sm, ClearOn(lm, lids), ResetOn(sm, sids), lids, sids)
  {
  }
}

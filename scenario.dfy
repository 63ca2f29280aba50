/** The default scenario of the simulator (src/Simulator.cpp:12-43): two
    buses, three sources and five loads, all connected and none served
    before the first distribution. */
module Scenarios {
  import opened PowerSources
  import opened Loads
  import opened Allocation
  import opened Registries
  import opened GridStores
  import opened Grids

  const Gen1 := SourceState("GEN-1", 1000.0, 0.0, true)
  const Gen2 := SourceState("GEN-2", 500.0, 0.0, true)
  const Tr1 := SourceState("TR-1", 1500.0, 0.0, true)

  const Hosp1 := LoadState("HOSP-1", 600.0, LoadType.Critical, Priority.Critical, true, false)
  const Fact1 := LoadState("FACT-1", 800.0, Industrial, Medium, true, false)
  const Res1 := LoadState("RES-1", 400.0, Residential, Low, true, false)
  const Comm1 := LoadState("COMM-1", 300.0, Commercial, Medium, true, false)
  const Stlt1 := LoadState("STLT-1", 100.0, Commercial, Minimal, true, false)

  /** The Secondary bus, loads and sources in connection order. */
  const Secondary := Snapshot([Res1, Comm1, Stlt1], [Gen2])

  /** The Secondary bus visits COMM-1 (Medium), then RES-1 (Low), then
      STLT-1 (Minimal). */
  lemma SecondaryOrder()
    ensures RankOrder(Priorities(Secondary.loads)) == [1, 0, 2]
  {
    var ps := Priorities(Secondary.loads);
    assert ps == [Low, Medium, Minimal];
    WithRankTriple(Low, Medium, Minimal, 1);
    WithRankTriple(Low, Medium, Minimal, 2);
    WithRankTriple(Low, Medium, Minimal, 3);
    WithRankTriple(Low, Medium, Minimal, 4);
    WithRankTriple(Low, Medium, Minimal, 5);
    assert FromRank(ps, 5) == [2] + FromRank(ps, 6) == [2];
    assert FromRank(ps, 4) == [0] + [2];
    assert FromRank(ps, 3) == [1] + [0, 2];
    assert FromRank(ps, 2) == [] + [1, 0, 2];
    assert FromRank(ps, 1) == [] + [1, 0, 2];
  }

  /** The indices of rank r among three priorities. */
  lemma WithRankTriple(p: Priority, q: Priority, u: Priority, r: nat)
    ensures WithRank([p, q, u], r) ==
              (if p.Rank() == r then [0] else []) + (if q.Rank() == r then [1] else []) + (if u.Rank() == r then [2] else [])
  {
    WithRankPair(p, q, r);
    assert [p, q, u] == [p, q] + [u];
    WithRankSnoc([p, q], u, r);
  }

  /** The indices of rank r among two priorities. */
  lemma WithRankPair(p: Priority, q: Priority, r: nat)
    ensures WithRank([p, q], r) == (if p.Rank() == r then [0] else []) + (if q.Rank() == r then [1] else [])
  {
    var e: seq<Priority> := [];
    assert WithRank(e, r) == [];
    assert [p] == e + [p];
    WithRankSnoc(e, p, r);
    assert WithRank([p], r) == if p.Rank() == r then [0] else [];
    assert [p, q] == [p] + [q];
    WithRankSnoc([p], q, r);
  }

  /** The indices of rank r after one more priority. */
  lemma WithRankSnoc(ps: seq<Priority>, p: Priority, r: nat)
    ensures WithRank(ps + [p], r) == WithRank(ps, r) + (if p.Rank() == r then [|ps|] else [])
  {
    assert (ps + [p])[..|ps|] == ps;
  }

  /** On the Secondary bus COMM-1 takes 300 kW of GEN-2, RES-1 no longer
      fits and is shed, and STLT-1 takes 100 kW. */
  lemma SecondaryBus()
    ensures Allocate(Secondary) ==
              Snapshot([Res1, Comm1.(served := true), Stlt1.(served := true)], [Gen2.(draw := 400.0)])
    ensures BusReport(Secondary) == ["RES-1"]
  {
    SecondaryOrder();
    var order := [1, 0, 2];
    var c := Cleared(Secondary);
    assert c == Secondary;
    assert order[..2] == [1, 0] && order[..1] == [1] && order[..0] == [];
    var m1 := Snapshot([Res1, Comm1.(served := true), Stlt1], [Gen2.(draw := 300.0)]);
    var m3 := Snapshot([Res1, Comm1.(served := true), Stlt1.(served := true)], [Gen2.(draw := 400.0)]);
    assert FirstFit(c.sources, 300.0) == 0;
    assert Run(c, order[..1]) == m1;
    assert FirstFit(m1.sources, 400.0) == 1;
    assert Run(c, order[..2]) == m1;
    assert FirstFit(m1.sources, 100.0) == 0;
    assert Run(c, order) == m3;
    assert UnservedIds(m3.loads, order) == ["RES-1"] by {
      assert UnservedIds(m3.loads, order[..1]) == [];
      assert UnservedIds(m3.loads, order[..2]) == ["RES-1"];
    }
  }

  /** The Main bus, loads and sources in connection order. */
  const Main := Snapshot([Hosp1, Fact1], [Gen1, Tr1])

  /** On the Main bus HOSP-1 (Critical) takes 600 kW of GEN-1, and FACT-1,
      too large for what is left of GEN-1, takes 800 kW of TR-1. */
  lemma MainBus()
    ensures Allocate(Main) ==
              Snapshot([Hosp1.(served := true), Fact1.(served := true)], [Gen1.(draw := 600.0), Tr1.(draw := 800.0)])
    ensures BusReport(Main) == []
  {
    MainOrder();
    var order := [0, 1];
    var c := Cleared(Main);
    assert c == Main;
    assert order[..1] == [0] && order[..0] == [];
    var m1 := Snapshot([Hosp1.(served := true), Fact1], [Gen1.(draw := 600.0), Tr1]);
    var m2 := Snapshot([Hosp1.(served := true), Fact1.(served := true)], [Gen1.(draw := 600.0), Tr1.(draw := 800.0)]);
    assert FirstFit(c.sources, 600.0) == 0;
    assert Run(c, order[..1]) == m1;
    assert FirstFit(m1.sources, 800.0) == 1;
    assert Run(c, order) == m2;
    UnservedIdsNone(m2.loads, order);
  }

  /** The Main bus visits HOSP-1 (Critical), then FACT-1 (Medium). */
  lemma MainOrder()
    ensures RankOrder(Priorities(Main.loads)) == [0, 1]
  {
    var ps := Priorities(Main.loads);
    assert ps == [Priority.Critical, Medium];
    WithRankPair(Priority.Critical, Medium, 1);
    WithRankPair(Priority.Critical, Medium, 2);
    WithRankPair(Priority.Critical, Medium, 3);
    WithRankPair(Priority.Critical, Medium, 4);
    WithRankPair(Priority.Critical, Medium, 5);
    assert FromRank(ps, 5) == [] + FromRank(ps, 6) == [];
    assert FromRank(ps, 4) == [] + [];
    assert FromRank(ps, 3) == [1] + [];
    assert FromRank(ps, 2) == [] + [1];
    assert FromRank(ps, 1) == [0] + [1];
  }

  /** The figures after the first distribution of the default scenario,
      summed over its two buses: 2200 kW of connected demand, 3000 kW of
      operational supply, 1800 kW served (1400 on Main, 400 on
      Secondary), 400 kW shed and 60 percent utilisation. */
  lemma DefaultFigures()
    ensures var ls := Allocate(Main).loads + Allocate(Secondary).loads;
            var ss := Allocate(Main).sources + Allocate(Secondary).sources;
            ConnectedDemand(ls) == 2200.0 && OperationalCapacity(ss) == 3000.0 &&
            ServedDemand(ls) == 1800.0 && ConnectedDemand(ls) - ServedDemand(ls) == 400.0 &&
            Utilization(ServedDemand(ls), OperationalCapacity(ss)) == 60.0
  {
    MainBus();
    SecondaryBus();
    ServedSums();
    assert Allocate(Main).loads + Allocate(Secondary).loads == ServedLoads;
    assert Allocate(Main).sources + Allocate(Secondary).sources == LoadedSources;
    assert Utilization(1800.0, 3000.0) * 3000.0 == 1800.0 * 100.0;
  }

  /** The loads and sources of both buses after distribution, Main first. */
  const ServedLoads := [Hosp1.(served := true), Fact1.(served := true), Res1, Comm1.(served := true), Stlt1.(served := true)]
  const LoadedSources := [Gen1.(draw := 600.0), Tr1.(draw := 800.0), Gen2.(draw := 400.0)]

  /** The sums over those loads and sources, one load or source at a time. */
  lemma ServedSums()
    ensures ConnectedDemand(ServedLoads) == 2200.0 && ServedDemand(ServedLoads) == 1800.0
    ensures OperationalCapacity(LoadedSources) == 3000.0
  {
    var ls, ss := ServedLoads, LoadedSources;
    var p1 := [ls[0]];
    var p2 := p1 + [ls[1]];
    var p3 := p2 + [ls[2]];
    var p4 := p3 + [ls[3]];
    assert ls == p4 + [ls[4]];
    assert p1[..0] == [] && p2[..1] == p1 && p3[..2] == p2 && p4[..3] == p3 && (p4 + [ls[4]])[..4] == p4;
    assert ConnectedDemand(p1) == 600.0 && ServedDemand(p1) == 600.0;
    assert ConnectedDemand(p2) == 1400.0 && ServedDemand(p2) == 1400.0;
    assert ConnectedDemand(p3) == 1800.0 && ServedDemand(p3) == 1400.0;
    assert ConnectedDemand(p4) == 2100.0 && ServedDemand(p4) == 1700.0;
    var q1 := [ss[0]];
    var q2 := q1 + [ss[1]];
    assert ss == q2 + [ss[2]];
    assert q1[..0] == [] && q2[..1] == q1 && (q2 + [ss[2]])[..2] == q2;
    assert OperationalCapacity(q1) == 1000.0;
    assert OperationalCapacity(q2) == 2500.0;
  }
}

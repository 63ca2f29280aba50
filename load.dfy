/** A load: a demand, a type, a priority rank and the connected / served
    flags (src/Load.cpp, enums from include/Load.h). */
module Loads {

  /** LoadType: informational only, it takes no part in allocation. */
  datatype LoadType = Residential | Commercial | Industrial | Critical
  {
    /** getTypeString. */
    function Label(): (s: string)
      ensures |s| > 0
    {
      match this
      case Residential => "Residential"
      case Commercial => "Commercial"
      case Industrial => "Industrial"
      case Critical => "Critical"
    }
  }

  /** Priority: Critical (1) is served first, Minimal (5) is shed first. */
  datatype Priority = Critical | High | Medium | Low | Minimal
  {
    /** The enum's integer value (include/Load.h:16-22). */
    function Rank(): (n: nat)
      ensures 1 <= n <= 5
    {
      match this
      case Critical => 1
      case High => 2
      case Medium => 3
      case Low => 4
      case Minimal => 5
    }

    function Name(): string {
      match this
      case Critical => "Critical"
      case High => "High"
      case Medium => "Medium"
      case Low => "Low"
      case Minimal => "Minimal"
    }

    /** getPriorityString: the name followed by the rank in parentheses. */
    function Label(): (s: string)
      ensures s == Name() + " (" + [RankDigit()] + ")"
      ensures s[|s| - 2] == RankDigit()
    {
      match this
      case Critical => "Critical (1)"
      case High => "High (2)"
      case Medium => "Medium (3)"
      case Low => "Low (4)"
      case Minimal => "Minimal (5)"
    }

    /** The decimal digit of the rank. */
    function RankDigit(): char {
      (('0' as int) + Rank()) as char
    }
  }

  /** Two loads are ranked equally exactly when they have the same priority. */
  lemma RankInjective(p: Priority, q: Priority)
    ensures p.Rank() == q.Rank() <==> p == q
  {
  }

  /** Different type tags are printed differently. */
  lemma TypeLabelInjective(a: LoadType, b: LoadType)
    ensures a.Label() == b.Label() <==> a == b
  {
  }

  /** Different priorities are printed differently. */
  lemma PriorityLabelInjective(p: Priority, q: Priority)
    ensures p.Label() == q.Label() <==> p == q
  {
    if p.Label() == q.Label() {
      assert p.RankDigit() == q.RankDigit();
    }
  }

  /** The value of a load: every field of the object. */
  datatype LoadState = LoadState(
    id: string, demand: real, kind: LoadType, priority: Priority, connected: bool, served: bool)
  {
    predicate Valid() {
      demand >= 0.0
    }

    /** A served load is a connected one. */
    predicate Consistent() {
      served ==> connected
    }
  }

  class Load {
    const id: string
    var powerDemand: real
    const kind: LoadType
    const priority: Priority
    var isConnected: bool
    var isServed: bool

    /** The value of this object. */
    function State(): LoadState
      reads this
    {
      LoadState(id, powerDemand, kind, priority, isConnected, isServed)
    }

    predicate Valid()
      reads this
    {
      State().Valid()
    }

    /** A new load is neither connected nor served. */
    constructor (id: string, powerDemand: real, kind: LoadType, priority: Priority)
      ensures State() == LoadState(id, powerDemand, kind, priority, false, false)
      ensures State().Consistent()
      ensures powerDemand >= 0.0 ==> Valid()
    {
      this.id := id;
      this.powerDemand := powerDemand;
      this.kind := kind;
      this.priority := priority;
      this.isConnected := false;
      this.isServed := false;
    }

    /** setPowerDemand: only the demand changes. */
    method SetPowerDemand(demand: real)
      modifies this
      ensures State() == old(State()).(demand := demand)
      ensures demand >= 0.0 ==> Valid()
    {
      powerDemand := demand;
    }

    /** connect: sets the connected flag and leaves the served flag alone. */
    method Connect()
      modifies this
      ensures State() == old(State()).(connected := true)
      ensures State().Consistent()
      ensures Valid() == old(Valid())
    {
      isConnected := true;
    }

    /** disconnect: clears both flags, so a disconnected load is never served. */
    method Disconnect()
      modifies this
      ensures State() == old(State()).(connected := false, served := false)
      ensures State().Consistent()
      ensures Valid() == old(Valid())
    {
      isConnected := false;
      isServed := false;
    }

    /** setServed: only the served flag changes. */
    method SetServed(served: bool)
      modifies this
      ensures State() == old(State()).(served := served)
      ensures Valid() == old(Valid())
    {
      isServed := served;
    }

    function GetTypeString(): string
      reads this
    {
      kind.Label()
    }

    function GetPriorityString(): string
      reads this
    {
      priority.Label()
    }
  }
}

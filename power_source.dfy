/** A power source: a capacity, the draw currently placed on it and an
    operational flag (src/PowerSource.cpp). Magnitudes are kW, modelled as
    `real` instead of `double`. */
module PowerSources {

  /** The value of a source: every field of the object. */
  datatype SourceState = SourceState(id: string, capacity: real, draw: real, operational: bool)
  {
    /** Non-negative magnitudes, which the allocation passes rely on. */
    predicate Valid() {
      capacity >= 0.0 && draw >= 0.0
    }

    /** The draw fits the capacity. A capacity edit may break this until the
        next allocation pass. */
    predicate WithinCapacity() {
      draw <= capacity
    }

    /** getAvailableCapacity. */
    function Available(): (r: real)
      ensures !operational ==> r == 0.0
      ensures operational ==> r == capacity - draw
      ensures WithinCapacity() ==> r >= 0.0
    {
      if !operational then 0.0 else capacity - draw
    }

    /** canSupplyPower: an offline source supplies nothing; an online one
        accepts a request exactly when it still fits under the capacity. */
    predicate CanSupply(power: real) {
      operational && draw + power <= capacity
    }

    /** The state after addLoad(power): a refused request changes nothing. */
    function AddLoad(power: real): (r: SourceState)
      ensures r.id == id && r.capacity == capacity && r.operational == operational
      ensures CanSupply(power) ==> r.draw == draw + power
      ensures !CanSupply(power) ==> r == this
      ensures WithinCapacity() ==> r.WithinCapacity()
      ensures Valid() && power >= 0.0 ==> r.Valid()
    {
      if CanSupply(power) then this.(draw := draw + power) else this
    }

    /** The state after removeLoad(power): the draw is lowered and clamped at 0. */
    function RemoveLoad(power: real): (r: SourceState)
      ensures r == this.(draw := r.draw)
      ensures r.draw >= 0.0
      ensures draw - power >= 0.0 ==> r.draw == draw - power
      ensures draw - power < 0.0 ==> r.draw == 0.0
      ensures Valid() && WithinCapacity() && power >= 0.0 ==> r.Valid() && r.WithinCapacity()
    {
      this.(draw := if draw - power < 0.0 then 0.0 else draw - power)
    }

    /** The state after resetLoading. */
    function Reset(): (r: SourceState)
      ensures r == this.(draw := 0.0)
      ensures operational ==> r.Available() == capacity
      ensures Valid() ==> r.Valid() && r.WithinCapacity()
    {
      this.(draw := 0.0)
    }
  }

  /** Resetting twice is the same as resetting once. */
  lemma ResetIdempotent(s: SourceState)
    ensures s.Reset().Reset() == s.Reset()
  {
  }

  /** A refused request and an accepted one differ only in the draw, which
      grows by exactly the request. */
  lemma AddLoadThenRemoveLoad(s: SourceState, power: real)
    requires s.Valid() && power >= 0.0
    ensures s.AddLoad(power).RemoveLoad(if s.CanSupply(power) then power else 0.0) == s
  {
  }

  class PowerSource {
    const id: string
    var capacity: real
    var currentLoad: real
    var operational: bool

    /** The value of this object. */
    function State(): SourceState
      reads this
    {
      SourceState(id, capacity, currentLoad, operational)
    }

    predicate Valid()
      reads this
    {
      State().Valid()
    }

    /** A new source carries no draw and is operational. */
    constructor (id: string, capacity: real)
      ensures State() == SourceState(id, capacity, 0.0, true)
      ensures capacity >= 0.0 ==> Valid() && State().WithinCapacity()
    {
      this.id := id;
      this.capacity := capacity;
      this.currentLoad := 0.0;
      this.operational := true;
    }

    function GetAvailableCapacity(): real
      reads this
    {
      State().Available()
    }

    function CanSupplyPower(requestedPower: real): bool
      reads this
    {
      State().CanSupply(requestedPower)
    }

    /** Replaces the capacity; the draw is left as it is. */
    method SetCapacity(newCapacity: real)
      modifies this
      ensures State() == old(State()).(capacity := newCapacity)
      ensures old(Valid()) && newCapacity >= 0.0 ==> Valid()
    {
      capacity := newCapacity;
    }

    /** Replaces the operational flag; the draw is left as it is. */
    method SetOperational(isOperational: bool)
      modifies this
      ensures State() == old(State()).(operational := isOperational)
      ensures Valid() == old(Valid())
    {
      operational := isOperational;
    }

    /** addLoad: refused (and nothing changes) unless canSupplyPower holds;
        otherwise the draw grows by exactly the request. */
    method AddLoad(power: real) returns (ok: bool)
      modifies this
      ensures ok == old(State().CanSupply(power))
      ensures State() == old(State()).AddLoad(power)
      ensures ok ==> currentLoad == old(currentLoad) + power
      ensures !ok ==> unchanged(this)
      ensures old(State().WithinCapacity()) ==> State().WithinCapacity()
      ensures old(Valid()) && power >= 0.0 ==> Valid()
    {
      if !operational || !CanSupplyPower(power) {
        return false;
      }
      currentLoad := currentLoad + power;
      return true;
    }

    /** removeLoad: the draw drops by the amount and is clamped at zero. */
    method RemoveLoad(power: real)
      modifies this
      ensures State() == old(State()).RemoveLoad(power)
      ensures currentLoad >= 0.0
      ensures old(Valid()) ==> Valid()
    {
      currentLoad := currentLoad - power;
      if currentLoad < 0.0 {
        currentLoad := 0.0;
      }
    }

    /** resetLoading: the draw becomes zero and nothing else changes. */
    method ResetLoading()
      modifies this
      ensures State() == old(State()).Reset()
      ensures operational ==> GetAvailableCapacity() == capacity
      ensures old(Valid()) ==> Valid() && State().WithinCapacity()
    {
      currentLoad := 0.0;
    }
  }
}

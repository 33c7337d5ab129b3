/** The live-tracking panel's transport-type filter: a set of active types
    that buttons toggle, and the fleet fixture filtered by it. */
module TrackingFilter {

  /** A tracked vehicle, reduced to its id and its transport type. */
  datatype Vessel = Vessel(id: string, vesselType: string)

  /** The fixed fleet: three ships, three aircraft, three trains, in this order. */
  const AllVessels: seq<Vessel> := [
    Vessel("MSC-OSCAR-001", "sea"),
    Vessel("MAERSK-ESSEN-002", "sea"),
    Vessel("OOCL-HONGKONG-003", "sea"),
    Vessel("AC8945-AIR", "air"),
    Vessel("FX5102-AIR", "air"),
    Vessel("LH8505-AIR", "air"),
    Vessel("CN-308-RAIL", "rail"),
    Vessel("CPKC-140-RAIL", "rail"),
    Vessel("CN-198-RAIL", "rail")
  ]

  /** The types a fresh panel shows. */
  const DefaultTypes: set<string> := {"sea", "air", "rail"}

  /** The active set after toggling `t`. */
  function Toggled(active: set<string>, t: string): (r: set<string>)
    ensures t in r <==> t !in active
    ensures forall u :: u != t ==> (u in r <==> u in active)
  {
    if t in active then active - {t} else active + {t}
  }

  /** Toggling the same type twice restores the set. */
  lemma ToggleTwice(active: set<string>, t: string)
    ensures Toggled(Toggled(active, t), t) == active
  {
  }

  /** The vessels whose type is active, in fleet order. */
  function OfTypes(vessels: seq<Vessel>, active: set<string>): (r: seq<Vessel>)
    ensures forall v <- r :: v in vessels && v.vesselType in active
    ensures forall v <- vessels :: v.vesselType in active ==> v in r
    ensures |r| <= |vessels|
  {
    if vessels == [] then []
    else (if vessels[0].vesselType in active then [vessels[0]] else []) + OfTypes(vessels[1..], active)
  }

  /** Filtering keeps fleet order: it distributes over concatenation. */
  lemma {:induction false} OfTypesAppend(a: seq<Vessel>, b: seq<Vessel>, active: set<string>)
    ensures OfTypes(a + b, active) == OfTypes(a, active) + OfTypes(b, active)
  {
    if a == [] {
      assert a + b == b;
    } else {
      assert (a + b)[0] == a[0];
      assert (a + b)[1..] == a[1..] + b;
      OfTypesAppend(a[1..], b, active);
    }
  }

  /** With every type of the fleet active, the filter returns the whole fleet. */
  lemma {:induction false} OfTypesAll(vessels: seq<Vessel>, active: set<string>)
    requires forall v <- vessels :: v.vesselType in active
    ensures OfTypes(vessels, active) == vessels
  {
    if vessels != [] {
      OfTypesAll(vessels[1..], active);
      assert [vessels[0]] + vessels[1..] == vessels;
    }
  }

  /** How many vessels have type `t` (the count on each filter button). */
  function CountOfType(vessels: seq<Vessel>, t: string): nat {
    if vessels == [] then 0
    else (if vessels[0].vesselType == t then 1 else 0) + CountOfType(vessels[1..], t)
  }

  /** The fleet holds three vessels of each type, and no other type. */
  lemma FleetCounts()
    ensures CountOfType(AllVessels, "sea") == 3
    ensures CountOfType(AllVessels, "air") == 3
    ensures CountOfType(AllVessels, "rail") == 3
    ensures forall v <- AllVessels :: v.vesselType in DefaultTypes
  {
  }

  /** A fresh panel shows the whole fleet, in fixture order. */
  lemma DefaultShowsWholeFleet()
    ensures OfTypes(AllVessels, DefaultTypes) == AllVessels
  {
    FleetCounts();
    OfTypesAll(AllVessels, DefaultTypes);
  }

  /** The panel's filter state. */
  class LiveTrackingFilter {
    var activeFilters: set<string>

    /** All three types are shown at first. */
    constructor ()
      ensures activeFilters == DefaultTypes
    {
      activeFilters := DefaultTypes;
    }

    /** `toggleFilter`: flips whether `t` is shown, and nothing else. */
    method ToggleFilter(t: string)
      modifies this
      ensures activeFilters == Toggled(old(activeFilters), t)
      ensures t in activeFilters <==> t !in old(activeFilters)
      ensures forall u :: u != t ==> (u in activeFilters <==> u in old(activeFilters))
    {
      if t in activeFilters {
        activeFilters := activeFilters - {t};
      } else {
        activeFilters := activeFilters + {t};
      }
    }

    /** `isFilterActive`. */
    function IsFilterActive(t: string): (r: bool)
      reads this
      ensures r <==> t in activeFilters
    {
      t in activeFilters
    }

    /** `getFilteredVessels`: the fleet, in order, restricted to the shown types. */
    function GetFilteredVessels(): (r: seq<Vessel>)
      reads this
      ensures r == OfTypes(AllVessels, activeFilters)
      ensures forall v <- r :: v in AllVessels && v.vesselType in activeFilters
      ensures forall v <- AllVessels :: v.vesselType in activeFilters ==> v in r
      ensures activeFilters == {} ==> r == []
    {
      var shown := OfTypes(AllVessels, activeFilters);
      assert shown != [] ==> shown[0] in shown;
      shown
    }
  }
}

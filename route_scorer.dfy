/** The route calculator of the dashboard's main page: a fixed table of leg
    durations, a per-origin list of transshipment ("via") ports, a scorer that
    builds one sea + land plan per via-port, and a most-recent-first history of
    the best plan of each calculation, capped at ten entries. */
module RouteScorer {
  import opened StableSort
  import opened Numbers

  datatype Option<T> = None | Some(value: T)

  /** Leg durations in whole days. A leg from `a` to `b` is stored under the
      key `a + "-" + b`, exactly as the page builds its lookup keys. */
  const TransitData: map<string, int> := map[
    "Shanghai-PrinceRupert" := 14,
    "Shanghai-Vancouver" := 17,
    "Shanghai-LA" := 18,
    "Mumbai-Halifax" := 28,
    "Rotterdam-Montreal" := 11,
    "Rotterdam-Halifax" := 9,
    "PrinceRupert-Chicago" := 4,
    "PrinceRupert-Toronto" := 5,
    "Vancouver-Chicago" := 5,
    "Vancouver-Toronto" := 6,
    "Montreal-Toronto" := 2,
    "Halifax-Toronto" := 3,
    "Chicago-Memphis" := 2
  ]

  /** The geopolitical surcharge, in days, for the penalised origin. */
  const MumbaiPenalty := 12

  /** Length cap of the calculation history. */
  const HistoryCap := 10

  function LegKey(from: string, to: string): string {
    from + "-" + to
  }

  predicate HasLeg(from: string, to: string) {
    LegKey(from, to) in TransitData
  }

  /** A candidate route: sea leg origin to via, land leg via to destination. */
  datatype Plan = Plan(
    origin: string,
    destination: string,
    via: string,
    sea: int,
    land: int,
    penalty: int,
    total: int)

  /** The invariant every plan the scorer produces keeps. */
  predicate TotalIsSum(p: Plan) {
    p.total == p.sea + p.land + p.penalty
  }

  function TotalDays(p: Plan): int {
    p.total
  }

  /** A plan as saved in the history: the plan and when it was calculated. */
  datatype HistoryEntry = HistoryEntry(plan: Plan, timestamp: string)

  /** `calculateRoute`: no plan when either leg is missing from the table;
      otherwise both legs come from the table and the total is their sum plus
      the penalty. */
  function CalculateRoute(origin: string, destination: string, via: string, geoPenalty: int): (r: Option<Plan>)
    ensures r.None? <==> !HasLeg(origin, via) || !HasLeg(via, destination)
    ensures r.Some? ==>
      && r.value.origin == origin && r.value.destination == destination && r.value.via == via
      && r.value.sea == TransitData[LegKey(origin, via)]
      && r.value.land == TransitData[LegKey(via, destination)]
      && r.value.penalty == geoPenalty
      && TotalIsSum(r.value)
  {
    var seaKey := LegKey(origin, via);
    var landKey := LegKey(via, destination);
    if seaKey !in TransitData || landKey !in TransitData then None
    else
      var sea := TransitData[seaKey];
      var land := TransitData[landKey];
      Some(Plan(origin, destination, via, sea, land, geoPenalty, sea + land + geoPenalty))
  }

  /** The candidate via-ports of each known origin, in enumeration order. */
  function ViaPorts(origin: string): (r: seq<string>)
    ensures |r| <= 3
    ensures r == [] <==> origin !in {"Shanghai", "Mumbai", "Rotterdam"}
  {
    if origin == "Shanghai" then ["PrinceRupert", "Vancouver", "LA"]
    else if origin == "Mumbai" then ["Halifax"]
    else if origin == "Rotterdam" then ["Montreal", "Halifax"]
    else []
  }

  /** Every candidate via-port has a sea leg from its origin in the table. */
  lemma ViaPortsSailFromOrigin(origin: string)
    ensures forall v <- ViaPorts(origin) :: HasLeg(origin, v)
  {
    if origin == "Shanghai" {
      assert LegKey("Shanghai", "PrinceRupert") == "Shanghai-PrinceRupert";
      assert LegKey("Shanghai", "Vancouver") == "Shanghai-Vancouver";
      assert LegKey("Shanghai", "LA") == "Shanghai-LA";
    } else if origin == "Mumbai" {
      assert LegKey("Mumbai", "Halifax") == "Mumbai-Halifax";
    } else if origin == "Rotterdam" {
      assert LegKey("Rotterdam", "Montreal") == "Rotterdam-Montreal";
      assert LegKey("Rotterdam", "Halifax") == "Rotterdam-Halifax";
    }
  }

  /** The surcharge depends on origin and mode only, never on the via-port. */
  function GeoPenalty(origin: string, mode: string): (r: int)
    ensures r == MumbaiPenalty <==> origin == "Mumbai" && mode != "Safest"
    ensures r == 0 <==> !(origin == "Mumbai" && mode != "Safest")
  {
    if origin == "Mumbai" && mode != "Safest" then MumbaiPenalty else 0
  }

  /** The Premium adjustment: the land leg loses a day but never drops below
      one, and the total is recomputed; any other mode leaves the plan alone. */
  function AdjustForMode(p: Plan, mode: string): (r: Plan)
    ensures mode != "Premium" ==> r == p
    ensures mode == "Premium" ==>
      && r == p.(land := r.land, total := r.total)
      && r.land >= 1
      && (p.land >= 2 ==> r.land == p.land - 1)
      && (p.land < 2 ==> r.land == 1)
      && TotalIsSum(r)
  {
    if mode == "Premium" then
      var land := Max(1, p.land - 1);
      p.(land := land, total := p.sea + land + p.penalty)
    else p
  }

  /** The plan one via-port yields for this calculation, if it is viable. */
  function PlanVia(origin: string, destination: string, mode: string, via: string): (r: Option<Plan>)
    ensures r.Some? <==> HasLeg(origin, via) && HasLeg(via, destination)
    ensures r.Some? ==>
      && r.value.origin == origin && r.value.destination == destination && r.value.via == via
      && r.value.sea == TransitData[LegKey(origin, via)]
      && r.value.penalty == GeoPenalty(origin, mode)
      && r.value.land >= 1
      && TotalIsSum(r.value)
  {
    match CalculateRoute(origin, destination, via, GeoPenalty(origin, mode))
    case None => None
    case Some(p) => Some(AdjustForMode(p, mode))
  }

  /** The viable plans over `ports`, in the order of `ports` (map, then filter). */
  function Viable(origin: string, destination: string, mode: string, ports: seq<string>): (r: seq<Plan>)
    ensures |r| <= |ports|
  {
    if ports == [] then []
    else
      var prior := Viable(origin, destination, mode, ports[..|ports| - 1]);
      match PlanVia(origin, destination, mode, ports[|ports| - 1])
      case None => prior
      case Some(p) => prior + [p]
  }

  /** The via-ports of `ports` with both legs in the table, in order. */
  function ViablePorts(origin: string, destination: string, ports: seq<string>): seq<string> {
    if ports == [] then []
    else
      var prior := ViablePorts(origin, destination, ports[..|ports| - 1]);
      var v := ports[|ports| - 1];
      if HasLeg(origin, v) && HasLeg(v, destination) then prior + [v] else prior
  }

  function Vias(plans: seq<Plan>): seq<string> {
    seq(|plans|, i requires 0 <= i < |plans| => plans[i].via)
  }

  /** What a plan of a calculation for `origin`, `destination` and `mode` is. */
  predicate PlanOf(origin: string, destination: string, mode: string, p: Plan) {
    && p.origin == origin && p.destination == destination
    && p.via in ViaPorts(origin)
    && HasLeg(origin, p.via) && HasLeg(p.via, destination)
    && p.sea == TransitData[LegKey(origin, p.via)]
    && p.land == (if mode == "Premium" then Max(1, TransitData[LegKey(p.via, destination)] - 1)
                  else TransitData[LegKey(p.via, destination)])
    && p.penalty == GeoPenalty(origin, mode)
    && TotalIsSum(p)
  }

  /** The result list of `updateResults`: the viable plans sorted ascending by
      total days, ties in via-port order. */
  function RankedRoutes(origin: string, destination: string, mode: string): (r: seq<Plan>)
    ensures |r| <= |ViaPorts(origin)|
  {
    SortBy(Viable(origin, destination, mode, ViaPorts(origin)), TotalDays)
  }

  /** The viable plans are exactly one per viable port, in port order, and
      each is the plan the scorer promises for that port. */
  lemma {:induction false} ViableSpec(origin: string, destination: string, mode: string, ports: seq<string>)
    ensures Vias(Viable(origin, destination, mode, ports)) == ViablePorts(origin, destination, ports)
    ensures forall p <- Viable(origin, destination, mode, ports) ::
      p.via in ports && PlanVia(origin, destination, mode, p.via) == Some(p)
  {
    if ports != [] {
      var init := ports[..|ports| - 1];
      ViableSpec(origin, destination, mode, init);
      var prior := Viable(origin, destination, mode, init);
      var v := ports[|ports| - 1];
      assert ports == init + [v];
      match PlanVia(origin, destination, mode, v)
      case None =>
      case Some(p) =>
        assert Vias(prior + [p]) == Vias(prior) + [p.via];
    }
  }

  lemma {:induction false} ViablePortsSpec(origin: string, destination: string, ports: seq<string>)
    ensures forall v <- ports ::
      v in ViablePorts(origin, destination, ports) <==> HasLeg(origin, v) && HasLeg(v, destination)
  {
    if ports != [] {
      var init := ports[..|ports| - 1];
      ViablePortsSpec(origin, destination, init);
      assert ports == init + [ports[|ports| - 1]];
      assert forall v <- ViablePorts(origin, destination, init) :: v in init by {
        ViablePortsWithin(origin, destination, init);
      }
    }
  }

  lemma {:induction false} ViablePortsWithin(origin: string, destination: string, ports: seq<string>)
    ensures forall v <- ViablePorts(origin, destination, ports) :: v in ports
  {
    if ports != [] {
      var init := ports[..|ports| - 1];
      ViablePortsWithin(origin, destination, init);
      assert ports == init + [ports[|ports| - 1]];
    }
  }

  /** What `updateResults` promises about its result list: sorted ascending
      by total; one plan per via-port of the origin with both legs in the
      table and none for the others; every plan built from the table with the
      origin's penalty and the mode's adjustment, its total the sum of its
      parts; ties in via-port order. */
  lemma RankedRoutesSpec(origin: string, destination: string, mode: string)
    ensures Ascending(RankedRoutes(origin, destination, mode), TotalDays)
    ensures forall p <- RankedRoutes(origin, destination, mode) :: PlanOf(origin, destination, mode, p)
    ensures forall v <- ViaPorts(origin) ::
      (exists p <- RankedRoutes(origin, destination, mode) :: p.via == v)
        <==> HasLeg(origin, v) && HasLeg(v, destination)
    ensures forall t :: WithKey(RankedRoutes(origin, destination, mode), TotalDays, t)
                     == WithKey(Viable(origin, destination, mode, ViaPorts(origin)), TotalDays, t)
  {
    var viable := Viable(origin, destination, mode, ViaPorts(origin));
    SortBySorts(viable, TotalDays);
    RankedPlans(origin, destination, mode);
    RankedPorts(origin, destination, mode);
    forall t ensures WithKey(RankedRoutes(origin, destination, mode), TotalDays, t) == WithKey(viable, TotalDays, t) {
      SortByStable(viable, TotalDays, t);
    }
  }

  /** A viable port's plan is a plan of this calculation. */
  lemma PlanViaIsPlanOf(origin: string, destination: string, mode: string, p: Plan)
    requires p.via in ViaPorts(origin)
    requires PlanVia(origin, destination, mode, p.via) == Some(p)
    ensures PlanOf(origin, destination, mode, p)
  {
    var q := CalculateRoute(origin, destination, p.via, GeoPenalty(origin, mode));
    assert q.Some? && p == AdjustForMode(q.value, mode);
  }

  lemma RankedPlans(origin: string, destination: string, mode: string)
    ensures forall p <- RankedRoutes(origin, destination, mode) :: PlanOf(origin, destination, mode, p)
  {
    var ports := ViaPorts(origin);
    var viable := Viable(origin, destination, mode, ports);
    SortBySorts(viable, TotalDays);
    ViableSpec(origin, destination, mode, ports);
    forall p <- RankedRoutes(origin, destination, mode) ensures PlanOf(origin, destination, mode, p) {
      assert p in multiset(viable);
      PlanViaIsPlanOf(origin, destination, mode, p);
    }
  }

  lemma RankedPorts(origin: string, destination: string, mode: string)
    ensures forall v <- ViaPorts(origin) ::
      (exists p <- RankedRoutes(origin, destination, mode) :: p.via == v)
        <==> HasLeg(origin, v) && HasLeg(v, destination)
  {
    forall v <- ViaPorts(origin) | HasLeg(origin, v) && HasLeg(v, destination)
      ensures exists p <- RankedRoutes(origin, destination, mode) :: p.via == v
    {
      RankedHasPort(origin, destination, mode, v);
    }
    RankedOnlyViable(origin, destination, mode);
  }

  /** Every via-port with both legs yields a ranked plan. */
  lemma RankedHasPort(origin: string, destination: string, mode: string, v: string)
    requires v in ViaPorts(origin) && HasLeg(origin, v) && HasLeg(v, destination)
    ensures exists p <- RankedRoutes(origin, destination, mode) :: p.via == v
  {
    var ports := ViaPorts(origin);
    var viable := Viable(origin, destination, mode, ports);
    SortBySorts(viable, TotalDays);
    ViableSpec(origin, destination, mode, ports);
    ViablePortsSpec(origin, destination, ports);
    var vias := Vias(viable);
    var i :| 0 <= i < |vias| && vias[i] == v;
    assert viable[i] in multiset(RankedRoutes(origin, destination, mode));
    assert viable[i].via == v;
  }

  /** Every ranked plan goes through a via-port with both legs. */
  lemma RankedOnlyViable(origin: string, destination: string, mode: string)
    ensures forall p <- RankedRoutes(origin, destination, mode) :: HasLeg(origin, p.via) && HasLeg(p.via, destination)
  {
    var ports := ViaPorts(origin);
    var viable := Viable(origin, destination, mode, ports);
    SortBySorts(viable, TotalDays);
    ViableSpec(origin, destination, mode, ports);
    forall p <- RankedRoutes(origin, destination, mode) ensures HasLeg(origin, p.via) && HasLeg(p.via, destination) {
      assert p in multiset(viable);
      assert PlanVia(origin, destination, mode, p.via) == Some(p);
    }
  }

  /** An origin without a via-port list yields no route at all. */
  lemma UnknownOriginHasNoRoutes(origin: string, destination: string, mode: string)
    requires origin !in {"Shanghai", "Mumbai", "Rotterdam"}
    ensures RankedRoutes(origin, destination, mode) == []
  {
  }

  /** Shanghai to Toronto, standard service: via Prince Rupert in 19 days,
      then via Vancouver in 23; Los Angeles has no leg to Toronto. */
  lemma ShanghaiTorontoStandard()
    ensures RankedRoutes("Shanghai", "Toronto", "Standard") == [
      Plan("Shanghai", "Toronto", "PrinceRupert", 14, 5, 0, 19),
      Plan("Shanghai", "Toronto", "Vancouver", 17, 6, 0, 23)]
  {
    var byPrinceRupert := Plan("Shanghai", "Toronto", "PrinceRupert", 14, 5, 0, 19);
    var byVancouver := Plan("Shanghai", "Toronto", "Vancouver", 17, 6, 0, 23);
    ShanghaiTorontoLegs();
    var ports := ViaPorts("Shanghai");
    assert ports[..1][..0] == [] && ports[..2][..1] == ports[..1] && ports[..3] == ports;
    assert Viable("Shanghai", "Toronto", "Standard", ports[..1]) == [byPrinceRupert];
    assert Viable("Shanghai", "Toronto", "Standard", ports[..2]) == [byPrinceRupert, byVancouver];
    assert Viable("Shanghai", "Toronto", "Standard", ports) == [byPrinceRupert, byVancouver];
    assert SortBy([byVancouver], TotalDays) == [byVancouver];
  }

  lemma ShanghaiTorontoLegs()
    ensures PlanVia("Shanghai", "Toronto", "Standard", "PrinceRupert")
         == Some(Plan("Shanghai", "Toronto", "PrinceRupert", 14, 5, 0, 19))
    ensures PlanVia("Shanghai", "Toronto", "Standard", "Vancouver")
         == Some(Plan("Shanghai", "Toronto", "Vancouver", 17, 6, 0, 23))
    ensures PlanVia("Shanghai", "Toronto", "Standard", "LA") == None
  {
    ViaPrinceRupert();
    ViaVancouver();
    NoLegLAToronto();
  }

  lemma ViaPrinceRupert()
    ensures PlanVia("Shanghai", "Toronto", "Standard", "PrinceRupert")
         == Some(Plan("Shanghai", "Toronto", "PrinceRupert", 14, 5, 0, 19))
  {
    assert LegKey("Shanghai", "PrinceRupert") == "Shanghai-PrinceRupert";
    assert LegKey("PrinceRupert", "Toronto") == "PrinceRupert-Toronto";
  }

  lemma ViaVancouver()
    ensures PlanVia("Shanghai", "Toronto", "Standard", "Vancouver")
         == Some(Plan("Shanghai", "Toronto", "Vancouver", 17, 6, 0, 23))
  {
    assert LegKey("Shanghai", "Vancouver") == "Shanghai-Vancouver";
    assert LegKey("Vancouver", "Toronto") == "Vancouver-Toronto";
  }

  lemma NoLegLAToronto()
    ensures PlanVia("Shanghai", "Toronto", "Standard", "LA") == None
  {
    assert LegKey("LA", "Toronto") == "LA-Toronto";
  }

  /** From Mumbai the surcharge applies in every mode but Safest. */
  lemma MumbaiTorontoByMode()
    ensures RankedRoutes("Mumbai", "Toronto", "Standard") == [Plan("Mumbai", "Toronto", "Halifax", 28, 3, 12, 43)]
    ensures RankedRoutes("Mumbai", "Toronto", "Premium") == [Plan("Mumbai", "Toronto", "Halifax", 28, 2, 12, 42)]
    ensures RankedRoutes("Mumbai", "Toronto", "Safest") == [Plan("Mumbai", "Toronto", "Halifax", 28, 3, 0, 31)]
  {
    assert LegKey("Mumbai", "Halifax") == "Mumbai-Halifax";
    assert LegKey("Halifax", "Toronto") == "Halifax-Toronto";
    assert ["Halifax"][..0] == [];
  }

  /** The history after `saveToHistory`: the new entry first, the previous
      entries after it in order, and the last one dropped once the list has
      grown past the cap (one `pop`, as the page does). */
  function Saved(history: seq<HistoryEntry>, entry: HistoryEntry): (r: seq<HistoryEntry>)
    ensures 1 <= |r| <= |history| + 1 && r[0] == entry
    ensures r[1..] == history[..|r| - 1]
    ensures |history| < HistoryCap ==> |r| == |history| + 1
    ensures |history| >= HistoryCap ==> |r| == |history|
    ensures |history| <= HistoryCap ==> |r| <= HistoryCap
  {
    var grown := [entry] + history;
    if |grown| > HistoryCap then grown[..|grown| - 1] else grown
  }

  /** The map/filter stage of `updateResults`: one plan per via-port of the
      origin whose legs are both in the table, adjusted in place for Premium,
      in via-port order. */
  method ScoreViaPorts(origin: string, destination: string, mode: string) returns (viable: seq<Plan>)
    ensures viable == Viable(origin, destination, mode, ViaPorts(origin))
  {
    var options := ViaPorts(origin);
    var geoPenalty := GeoPenalty(origin, mode);
    viable := [];
    for i := 0 to |options|
      invariant viable == Viable(origin, destination, mode, options[..i])
    {
      assert options[..i + 1][..i] == options[..i];
      var route := CalculateRoute(origin, destination, options[i], geoPenalty);
      if route.Some? {
        var plan := route.value;
        if mode == "Premium" {
          plan := plan.(land := Max(1, plan.land - 1));
          plan := plan.(total := plan.sea + plan.land + plan.penalty);
        }
        assert plan == AdjustForMode(route.value, mode);
        viable := viable + [plan];
      }
    }
    assert options[..|options|] == options;
  }

  /** The page's calculation history, with the calculator that writes to it. */
  class RouteHistory {
    var entries: seq<HistoryEntry>

    /** Starts from the entries read back from storage (possibly none). */
    constructor (stored: seq<HistoryEntry>)
      ensures entries == stored
    {
      entries := stored;
    }

    /** `saveToHistory`: record `route`, stamped with `timestamp`. */
    method SaveToHistory(route: Plan, timestamp: string)
      modifies this
      ensures entries == Saved(old(entries), HistoryEntry(route, timestamp))
      ensures entries[0] == HistoryEntry(route, timestamp)
      ensures |old(entries)| <= HistoryCap ==> |entries| <= HistoryCap
    {
      entries := [HistoryEntry(route, timestamp)] + entries;
      if |entries| > HistoryCap {
        entries := entries[..|entries| - 1];
      }
    }

    /** The clear button: the history becomes empty. */
    method Clear()
      modifies this
      ensures entries == []
    {
      entries := [];
    }

    /** `updateResults`: score every via-port of the origin, drop the
        unviable ones, rank the rest, and record the best one (if any). */
    method UpdateResults(origin: string, destination: string, mode: string, timestamp: string)
      returns (results: seq<Plan>)
      modifies this
      ensures results == RankedRoutes(origin, destination, mode)
      ensures results == [] ==> entries == old(entries)
      ensures results != [] ==> entries == Saved(old(entries), HistoryEntry(results[0], timestamp))
    {
      var viable := ScoreViaPorts(origin, destination, mode);
      results := SortBy(viable, TotalDays);
      assert results == RankedRoutes(origin, destination, mode);
      if |results| > 0 {
        SaveToHistory(results[0], timestamp);
      }
    }
  }
}

/** `MarketDemand`: market figures, competitors and segments. Every
    parameter has a default. */
module MarketDemand {
  import opened Wrappers
  import opened Python
  import Store

  const StorageFile := "market_demand.json"

  /** The parameter names of `MarketDemand.__init__`, `self` included. */
  const InitParams: set<string> :=
    {"self", "total_addressable_market", "serviceable_available_market", "serviceable_obtainable_market",
     "growth_rate", "competitors", "market_segments", "id"}

  /** The attribute names every MarketDemand has. */
  const Fields: set<string> :=
    {"total_addressable_market", "serviceable_available_market", "serviceable_obtainable_market",
     "growth_rate", "competitors", "market_segments"}

  /** The default of a parameter: 0.0 for the four figures, None for the
      two collections. */
  function DefaultOf(k: string): Json
  {
    if k in {"competitors", "market_segments"} then Null else Float(0.0)
  }

  /** How `__init__` stores a parameter's value: competitors `or []`,
      segments `or {}`, every figure as passed. */
  function AsStored(k: string, v: Json): Json
  {
    if k == "competitors" then Or(v, Arr([]))
    else if k == "market_segments" then Or(v, Obj(map[]))
    else v
  }

  /** `MarketDemand(...)`: the four figures are stored as given (0.0 by
      default); competitors become [] and segments {} when falsy. */
  function New(totalAddressableMarket: Json := Float(0.0), serviceableAvailableMarket: Json := Float(0.0),
               serviceableObtainableMarket: Json := Float(0.0), growthRate: Json := Float(0.0),
               competitors: Json := Null, marketSegments: Json := Null, id: Json := Null): (r: Record)
    ensures r.Keys == Fields + (if id != Null then {"id"} else {})
    ensures id != Null ==> r["id"] == id
    ensures r["total_addressable_market"] == totalAddressableMarket
    ensures r["serviceable_available_market"] == serviceableAvailableMarket
    ensures r["serviceable_obtainable_market"] == serviceableObtainableMarket
    ensures r["growth_rate"] == growthRate
    ensures r["competitors"] == (if Truthy(competitors) then competitors else Arr([]))
    ensures r["market_segments"] == (if Truthy(marketSegments) then marketSegments else Obj(map[]))
  {
    Store.InitAttributes(id, map[
      "total_addressable_market" := totalAddressableMarket,
      "serviceable_available_market" := serviceableAvailableMarket,
      "serviceable_obtainable_market" := serviceableObtainableMarket,
      "growth_rate" := growthRate,
      "competitors" := Or(competitors, Arr([])),
      "market_segments" := Or(marketSegments, Obj(map[]))])
  }

  /** `MarketDemand(**kwargs)`: a TypeError for an unknown argument only,
      since nothing is required. */
  function FromKwargs(kwargs: Record): (r: Result<Record, PyError>)
    ensures r.Failure? <==> !(kwargs.Keys <= InitParams - {"self"})
    ensures r.Failure? ==> r.error.TypeError?
    ensures r.Success? ==> r.value.Keys == Fields + (if Get(kwargs, "id", Null) != Null then {"id"} else {})
    ensures r.Success? ==> r.value.Keys - {"id"} == InitParams - {"self", "id"}
    ensures r.Success? ==>
              forall k :: k in InitParams - {"self", "id"} ==> r.value[k] == AsStored(k, Get(kwargs, k, DefaultOf(k)))
    ensures r.Success? && Get(kwargs, "id", Null) != Null ==> r.value["id"] == kwargs["id"]
  {
    match BindError(kwargs, InitParams - {"self"}, {})
    case Some(e) => Failure(e)
    case None => Success(Instantiate(kwargs))
  }

  /** `__init__` run on arguments that bound: each parameter takes the value
      passed for it, or its default, and is stored as `__init__` stores it. */
  function Instantiate(kwargs: Record): (r: Record)
    ensures forall k :: k in InitParams - {"self", "id"} ==> k in r && r[k] == AsStored(k, Get(kwargs, k, DefaultOf(k)))
  {
    New(Get(kwargs, "total_addressable_market", Float(0.0)),
        Get(kwargs, "serviceable_available_market", Float(0.0)),
        Get(kwargs, "serviceable_obtainable_market", Float(0.0)),
        Get(kwargs, "growth_rate", Float(0.0)),
        Get(kwargs, "competitors", Null), Get(kwargs, "market_segments", Null),
        Get(kwargs, "id", Null))
  }

  /** With no arguments at all the constructor yields the full six-field
      map of defaults and no id. */
  lemma NoArgumentsGiveDefaults()
    ensures FromKwargs(map[]) == Success(map[
      "total_addressable_market" := Float(0.0),
      "serviceable_available_market" := Float(0.0),
      "serviceable_obtainable_market" := Float(0.0),
      "growth_rate" := Float(0.0),
      "competitors" := Arr([]),
      "market_segments" := Obj(map[])])
  {
  }
}

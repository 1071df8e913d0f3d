/** `Problem`: a problem statement with its context, impact, causes,
    stakeholders and the ids of its solutions. */
module Problem {
  import opened Wrappers
  import opened Python
  import Store

  const StorageFile := "problem.json"

  /** The parameter names of `Problem.__init__`, `self` included. */
  const InitParams: set<string> :=
    {"self", "description", "context", "impact", "root_causes", "stakeholders", "problem_solution_ids", "id"}

  /** The parameters without a default. */
  const Required: set<string> := {"description", "context", "impact"}

  /** The attribute names every Problem has. */
  const Fields: set<string> :=
    {"description", "context", "impact", "root_causes", "stakeholders", "problem_solution_ids"}

  /** The default of an optional parameter: all three lists default to None. */
  function DefaultOf(k: string): Json
  {
    Null
  }

  /** How `__init__` stores a parameter's value: the three lists `or []`,
      every other value as passed. */
  function AsStored(k: string, v: Json): Json
  {
    if k in {"root_causes", "stakeholders", "problem_solution_ids"} then Or(v, Arr([])) else v
  }

  /** `Problem(...)`: the three required values are stored as given (a None
      context included); the three lists become [] when falsy. */
  function New(description: Json, context: Json, impact: Json,
               rootCauses: Json := Null, stakeholders: Json := Null,
               problemSolutionIds: Json := Null, id: Json := Null): (r: Record)
    ensures r.Keys == Fields + (if id != Null then {"id"} else {})
    ensures id != Null ==> r["id"] == id
    ensures r["description"] == description && r["context"] == context && r["impact"] == impact
    ensures r["root_causes"] == (if Truthy(rootCauses) then rootCauses else Arr([]))
    ensures r["stakeholders"] == (if Truthy(stakeholders) then stakeholders else Arr([]))
    ensures r["problem_solution_ids"] == (if Truthy(problemSolutionIds) then problemSolutionIds else Arr([]))
  {
    Store.InitAttributes(id, map[
      "description" := description,
      "context" := context,
      "impact" := impact,
      "root_causes" := Or(rootCauses, Arr([])),
      "stakeholders" := Or(stakeholders, Arr([])),
      "problem_solution_ids" := Or(problemSolutionIds, Arr([]))])
  }

  /** `Problem(**kwargs)`: a TypeError for an unknown or a missing argument,
      otherwise the record built from the arguments and the defaults. */
  function FromKwargs(kwargs: Record): (r: Result<Record, PyError>)
    ensures r.Failure? <==> !(kwargs.Keys <= InitParams - {"self"}) || !(Required <= kwargs.Keys)
    ensures r.Failure? ==> r.error.TypeError?
    ensures r.Success? ==> r.value.Keys == Fields + (if Get(kwargs, "id", Null) != Null then {"id"} else {})
    ensures r.Success? ==> r.value.Keys - {"id"} == InitParams - {"self", "id"}
    ensures r.Success? ==> forall k :: k in Required ==> r.value[k] == kwargs[k]
    ensures r.Success? ==>
              forall k :: k in InitParams - {"self", "id"} ==> r.value[k] == AsStored(k, Get(kwargs, k, DefaultOf(k)))
    ensures r.Success? && Get(kwargs, "id", Null) != Null ==> r.value["id"] == kwargs["id"]
  {
    match BindError(kwargs, InitParams - {"self"}, Required)
    case Some(e) => Failure(e)
    case None =>
      Success(New(kwargs["description"], kwargs["context"], kwargs["impact"],
                  Get(kwargs, "root_causes", Null), Get(kwargs, "stakeholders", Null),
                  Get(kwargs, "problem_solution_ids", Null), Get(kwargs, "id", Null)))
  }
}

/** `SolutionMaturity`: a maturity level with a readiness score. Every
    field is required; nothing is checked. */
module SolutionMaturity {
  import opened Wrappers
  import opened Python
  import Store

  const StorageFile := "solution_maturity.json"

  /** The parameter names of `SolutionMaturity.__init__`, `self` included. */
  const InitParams: set<string> :=
    {"self", "level", "description", "readiness_score", "recommended_next_steps", "id"}

  /** The parameters without a default, which are also the attribute names. */
  const Required: set<string> := {"level", "description", "readiness_score", "recommended_next_steps"}

  /** `SolutionMaturity(...)`: every value stored exactly as given; the
      readiness score is not range-checked. */
  function New(level: Json, description: Json, readinessScore: Json, recommendedNextSteps: Json,
               id: Json := Null): (r: Record)
    ensures r.Keys == Required + (if id != Null then {"id"} else {})
    ensures id != Null ==> r["id"] == id
    ensures r["level"] == level && r["description"] == description
    ensures r["readiness_score"] == readinessScore && r["recommended_next_steps"] == recommendedNextSteps
  {
    Store.InitAttributes(id, map[
      "level" := level,
      "description" := description,
      "readiness_score" := readinessScore,
      "recommended_next_steps" := recommendedNextSteps])
  }

  /** `SolutionMaturity(**kwargs)`: a TypeError for an unknown or a missing
      argument; otherwise the arguments themselves become the record. */
  function FromKwargs(kwargs: Record): (r: Result<Record, PyError>)
    ensures r.Failure? <==> !(kwargs.Keys <= InitParams - {"self"}) || !(Required <= kwargs.Keys)
    ensures r.Failure? ==> r.error.TypeError?
    ensures r.Success? && Get(kwargs, "id", Null) != Null ==> r.value == kwargs
    ensures r.Success? ==> r.value.Keys == Required + (if Get(kwargs, "id", Null) != Null then {"id"} else {})
    ensures r.Success? ==> r.value.Keys - {"id"} == InitParams - {"self", "id"}
    ensures r.Success? ==> forall k :: k in InitParams - {"self", "id"} ==> r.value[k] == kwargs[k]
    ensures r.Success? && Get(kwargs, "id", Null) != Null ==> r.value["id"] == kwargs["id"]
  {
    match BindError(kwargs, InitParams - {"self"}, Required)
    case Some(e) => Failure(e)
    case None =>
      Success(New(kwargs["level"], kwargs["description"], kwargs["readiness_score"],
                  kwargs["recommended_next_steps"], Get(kwargs, "id", Null)))
  }
}

/** The older top-level `ProblemSolution`: the same four references, no
    status and no owner. Its `load_sub_object` and `to_full_dict` are the
    current class's, ProblemSolution.LoadSubObject and ProblemSolution.ToFullDict. */
module LegacyProblemSolution {
  import opened Wrappers
  import opened Python
  import Store
  import ProblemSolution

  const StorageFile := "problem_solution.json"

  /** The parameter names of the older `ProblemSolution.__init__`, `self` included. */
  const InitParams: set<string> :=
    {"self", "name", "problem_id", "market_demand_id", "solution_space_id", "solution_maturity_id", "id"}

  /** Every parameter but `id` is required, and they are also the attribute names. */
  const Required: set<string> :=
    {"name", "problem_id", "market_demand_id", "solution_space_id", "solution_maturity_id"}

  /** The older `ProblemSolution(...)`: the five values as given, no status
      check. */
  function New(name: Json, problemId: Json, marketDemandId: Json, solutionSpaceId: Json,
               solutionMaturityId: Json, id: Json := Null): (r: Record)
    ensures r.Keys == Required + (if id != Null then {"id"} else {})
    ensures id != Null ==> r["id"] == id
    ensures r["name"] == name && r["problem_id"] == problemId && r["market_demand_id"] == marketDemandId
      && r["solution_space_id"] == solutionSpaceId && r["solution_maturity_id"] == solutionMaturityId
  {
    Store.InitAttributes(id, map[
      "name" := name,
      "problem_id" := problemId,
      "market_demand_id" := marketDemandId,
      "solution_space_id" := solutionSpaceId,
      "solution_maturity_id" := solutionMaturityId])
  }

  /** The older `ProblemSolution(**kwargs)`: a TypeError for an unknown or a
      missing argument; any status is an unknown argument here. */
  function FromKwargs(kwargs: Record): (r: Result<Record, PyError>)
    ensures r.Failure? <==> !(kwargs.Keys <= InitParams - {"self"}) || !(Required <= kwargs.Keys)
    ensures r.Failure? ==> r.error.TypeError?
    ensures "status" in kwargs ==> r.Failure?
    ensures r.Success? ==> r.value.Keys == Required + (if Get(kwargs, "id", Null) != Null then {"id"} else {})
    ensures r.Success? ==> forall k :: k in Required ==> r.value[k] == kwargs[k]
    ensures r.Success? && Get(kwargs, "id", Null) != Null ==> r.value["id"] == kwargs["id"]
  {
    match BindError(kwargs, InitParams - {"self"}, Required)
    case Some(e) => Failure(e)
    case None =>
      Success(New(kwargs["name"], kwargs["problem_id"], kwargs["market_demand_id"],
                  kwargs["solution_space_id"], kwargs["solution_maturity_id"], Get(kwargs, "id", Null)))
  }

  /** The joined document of a solution that was never saved: seven keys,
      `updated_at` None, the id as given (None when absent), and each
      reference looked up in its own store. */
  lemma FullDictOfUnsaved(name: Json, problemId: Json, marketDemandId: Json, solutionSpaceId: Json,
                          solutionMaturityId: Json, id: Json, files: Store.FileSystem)
    ensures var full := ProblemSolution.ToFullDict(
              New(name, problemId, marketDemandId, solutionSpaceId, solutionMaturityId, id), files);
            && full.Keys == ProblemSolution.FullDictKeys
            && full["updated_at"] == Null && full["id"] == id && full["name"] == name
            && full["problem"] == ProblemSolution.LoadSubObject("problem.json", files, problemId)
            && full["market_demand"] == ProblemSolution.LoadSubObject("market_demand.json", files, marketDemandId)
            && full["solution_space"] == ProblemSolution.LoadSubObject("solution_space.json", files, solutionSpaceId)
            && full["solution_maturity"] ==
                 ProblemSolution.LoadSubObject("solution_maturity.json", files, solutionMaturityId)
  {
  }
}

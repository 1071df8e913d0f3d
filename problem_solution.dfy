/** `ProblemSolution`: a solution to a problem, tying together one Problem,
    MarketDemand, SolutionSpace and SolutionMaturity by id, with a status
    from a fixed list and an optional owning user. */
module ProblemSolution {
  import opened Wrappers
  import opened Python
  import Store
  import Problem
  import MarketDemand
  import SolutionSpace
  import SolutionMaturity

  const StorageFile := "problem_solution.json"

  /** `STATUS_VALUES` */
  const StatusValues: seq<string> := ["Idea", "In Development", "Testing", "Finished"]

  /** The parameter names of `ProblemSolution.__init__`, `self` included. */
  const InitParams: set<string> :=
    {"self", "name", "problem_id", "market_demand_id", "solution_space_id", "solution_maturity_id",
     "user_id", "status", "id"}

  /** The parameters without a default. */
  const Required: set<string> :=
    {"name", "problem_id", "market_demand_id", "solution_space_id", "solution_maturity_id"}

  /** The attribute names every ProblemSolution has. */
  const Fields: set<string> := Required + {"user_id", "status"}

  /** The error raised for a status outside `STATUS_VALUES`. */
  const InvalidStatus := ValueError("Invalid status. Must be one of ['Idea', 'In Development', 'Testing', 'Finished']")

  /** `status in STATUS_VALUES` */
  predicate ValidStatus(status: Json)
  {
    status.Str? && status.s in StatusValues
  }

  /** The default of an optional parameter: no owner, and status "Idea". */
  function DefaultOf(k: string): Json
  {
    if k == "status" then Str("Idea") else Null
  }

  /** `ProblemSolution(...)`: a ValueError, before anything is stored, when
      the status is not one of the four values; otherwise every value as
      given, with no owner and status "Idea" by default. */
  function New(name: Json, problemId: Json, marketDemandId: Json, solutionSpaceId: Json,
               solutionMaturityId: Json, userId: Json := Null, status: Json := Str("Idea"),
               id: Json := Null): (r: Result<Record, PyError>)
    ensures r.Failure? <==> status !in {Str("Idea"), Str("In Development"), Str("Testing"), Str("Finished")}
    ensures r.Failure? ==> r.error == InvalidStatus
    ensures r.Success? ==> r.value.Keys == Fields + (if id != Null then {"id"} else {})
    ensures r.Success? && id != Null ==> r.value["id"] == id
    ensures r.Success? ==>
              && r.value["name"] == name && r.value["problem_id"] == problemId
              && r.value["market_demand_id"] == marketDemandId && r.value["solution_space_id"] == solutionSpaceId
              && r.value["solution_maturity_id"] == solutionMaturityId
              && r.value["user_id"] == userId && r.value["status"] == status
  {
    if !ValidStatus(status) then Failure(InvalidStatus)
    else Success(Store.InitAttributes(id, map[
      "name" := name,
      "problem_id" := problemId,
      "market_demand_id" := marketDemandId,
      "solution_space_id" := solutionSpaceId,
      "solution_maturity_id" := solutionMaturityId,
      "user_id" := userId,
      "status" := status]))
  }

  /** `ProblemSolution(**kwargs)`: binding errors (TypeError) come before the
      status check (ValueError); an omitted status is "Idea", an omitted
      owner None. */
  function FromKwargs(kwargs: Record): (r: Result<Record, PyError>)
    ensures !(kwargs.Keys <= InitParams - {"self"}) || !(Required <= kwargs.Keys) ==>
              r.Failure? && r.error.TypeError?
    ensures kwargs.Keys <= InitParams - {"self"} && Required <= kwargs.Keys ==>
              (r.Failure? <==> !ValidStatus(Get(kwargs, "status", Str("Idea"))))
    ensures r.Failure? && r.error.ValueError? ==> r.error == InvalidStatus
    ensures r.Success? ==> r.value.Keys == Fields + (if Get(kwargs, "id", Null) != Null then {"id"} else {})
    ensures r.Success? ==> r.value.Keys - {"id"} == InitParams - {"self", "id"}
    ensures kwargs.Keys <= InitParams - {"self"} && Required <= kwargs.Keys && r.Failure? ==> r.error == InvalidStatus
    ensures r.Success? ==> forall k :: k in InitParams - {"self", "id"} ==> r.value[k] == Get(kwargs, k, DefaultOf(k))
    ensures r.Success? && Get(kwargs, "id", Null) != Null ==> r.value["id"] == kwargs["id"]
    ensures r.Success? && "status" !in kwargs ==> r.value["status"] == Str("Idea")
    ensures r.Success? && "user_id" !in kwargs ==> r.value["user_id"] == Null
  {
    match BindError(kwargs, InitParams - {"self"}, Required)
    case Some(e) => Failure(e)
    case None => Instantiate(kwargs)
  }

  /** `__init__` run on arguments that bound: each parameter takes the value
      passed for it, or its default, and is stored as passed once the status
      check lets it through. */
  function Instantiate(kwargs: Record): (r: Result<Record, PyError>)
    requires Required <= kwargs.Keys
    ensures r.Failure? <==> !ValidStatus(Get(kwargs, "status", Str("Idea")))
    ensures r.Failure? ==> r.error == InvalidStatus
    ensures r.Success? ==> r.value.Keys == Fields + (if Get(kwargs, "id", Null) != Null then {"id"} else {})
    ensures r.Success? ==>
              forall k :: k in InitParams - {"self", "id"} ==> k in r.value && r.value[k] == Get(kwargs, k, DefaultOf(k))
  {
    New(kwargs["name"], kwargs["problem_id"], kwargs["market_demand_id"], kwargs["solution_space_id"],
        kwargs["solution_maturity_id"], Get(kwargs, "user_id", Null), Get(kwargs, "status", Str("Idea")),
        Get(kwargs, "id", Null))
  }

  /** `load_sub_object`: the attribute dictionary of the record with that id
      in the given store, or None when there is none. */
  function LoadSubObject(storageFile: string, files: Store.FileSystem, objId: Json): (r: Json)
    ensures r.Obj? <==> Store.Find(Store.Stored(files, storageFile), objId).Some?
    ensures r.Obj? ==> r.fields != map[] && Store.IdOf(r.fields) == objId
                       && r.fields in Store.Stored(files, storageFile)
    ensures r.Obj? ==>
              var all := Store.Stored(files, storageFile);
              exists i :: 0 <= i < |all| && all[i] == r.fields &&
                forall j :: 0 <= j < i ==> Store.IdOf(all[j]) != objId
    ensures !r.Obj? ==> r == Null
    ensures r == Null && objId != Null ==>
              forall i :: 0 <= i < |Store.Stored(files, storageFile)| ==>
                Store.IdOf(Store.Stored(files, storageFile)[i]) != objId
  {
    match Store.FindById(Some(storageFile), files, objId).value
    case Some(rec) => Obj(rec)
    case None => Null
  }

  /** The keys of the joined document. */
  const FullDictKeys: set<string> :=
    {"id", "name", "updated_at", "problem", "market_demand", "solution_space", "solution_maturity"}

  /** `to_full_dict`: the solution's id, name and `updated_at` (None when
      never saved), and each referenced record resolved through its own
      class's store, None when it does not resolve. It only reads the files. */
  function ToFullDict(attrs: Record, files: Store.FileSystem): (r: Record)
    ensures r.Keys == FullDictKeys
    ensures r["id"] == Get(attrs, "id", Null) && r["name"] == Get(attrs, "name", Null)
    ensures "updated_at" !in attrs ==> r["updated_at"] == Null
    ensures "updated_at" in attrs ==> r["updated_at"] == attrs["updated_at"]
    ensures r["problem"] == LoadSubObject(Problem.StorageFile, files, Get(attrs, "problem_id", Null))
    ensures r["market_demand"] == LoadSubObject(MarketDemand.StorageFile, files, Get(attrs, "market_demand_id", Null))
    ensures r["solution_space"] == LoadSubObject(SolutionSpace.StorageFile, files, Get(attrs, "solution_space_id", Null))
    ensures r["solution_maturity"] ==
              LoadSubObject(SolutionMaturity.StorageFile, files, Get(attrs, "solution_maturity_id", Null))
  {
    var problem := LoadSubObject(Problem.StorageFile, files, Get(attrs, "problem_id", Null));
    var marketDemand := LoadSubObject(MarketDemand.StorageFile, files, Get(attrs, "market_demand_id", Null));
    var solutionSpace := LoadSubObject(SolutionSpace.StorageFile, files, Get(attrs, "solution_space_id", Null));
    var solutionMaturity :=
      LoadSubObject(SolutionMaturity.StorageFile, files, Get(attrs, "solution_maturity_id", Null));
    map k | k in FullDictKeys ::
      if k == "problem" then problem
      else if k == "market_demand" then marketDemand
      else if k == "solution_space" then solutionSpace
      else if k == "solution_maturity" then solutionMaturity
      else Get(attrs, k, Null)
  }

  /** A solution whose problem was saved under its `problem_id` has that
      saved problem inlined in its joined document. */
  lemma FullDictInlinesSavedProblem(attrs: Record, files: Store.FileSystem, problem: Record, now: string)
    requires "id" in problem
    requires Get(attrs, "problem_id", Null) == problem["id"]
    ensures var all := Store.Stored(files, Problem.StorageFile);
            var saved := Store.Prepared(problem, now, all);
            var files' := files[Problem.StorageFile := Store.Upsert(all, saved)];
            ToFullDict(attrs, files')["problem"] == Obj(saved)
  {
    var all := Store.Stored(files, Problem.StorageFile);
    Store.SavedRecordIsFound(all, Store.Prepared(problem, now, all));
  }
}

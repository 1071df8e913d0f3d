/** The record classes that live in the `classes` directory, and what the
    app asks of a class: its name, its storage file, the parameters of its
    `__init__` and calling it with keyword arguments. */
module RecordTypes {
  import opened Wrappers
  import opened Python
  import Problem
  import MarketDemand
  import SolutionSpace
  import SolutionMaturity
  import User
  import ProblemSolution

  datatype RecordType =
    | ProblemClass
    | MarketDemandClass
    | SolutionSpaceClass
    | SolutionMaturityClass
    | UserClass
    | ProblemSolutionClass

  /** `cls.__name__` */
  function ClassName(t: RecordType): string
  {
    match t
    case ProblemClass => "Problem"
    case MarketDemandClass => "MarketDemand"
    case SolutionSpaceClass => "SolutionSpace"
    case SolutionMaturityClass => "SolutionMaturity"
    case UserClass => "User"
    case ProblemSolutionClass => "ProblemSolution"
  }

  /** `cls.storage_file`: every discovered class declares one. */
  function StorageFile(t: RecordType): string
  {
    match t
    case ProblemClass => Problem.StorageFile
    case MarketDemandClass => MarketDemand.StorageFile
    case SolutionSpaceClass => SolutionSpace.StorageFile
    case SolutionMaturityClass => SolutionMaturity.StorageFile
    case UserClass => User.StorageFile
    case ProblemSolutionClass => ProblemSolution.StorageFile
  }

  /** Each class has a file of its own, so a save to one class's store
      never touches another's. */
  lemma StorageFilesDistinct(t: RecordType, u: RecordType)
    ensures t != u ==> StorageFile(t) != StorageFile(u)
  {
  }

  /** `inspect.signature(cls.__init__).parameters`, `self` and `id` included;
      no class takes `updated_at`, which only `save` sets. */
  function InitParams(t: RecordType): (r: set<string>)
    ensures "self" in r && "id" in r && "updated_at" !in r
  {
    match t
    case ProblemClass => Problem.InitParams
    case MarketDemandClass => MarketDemand.InitParams
    case SolutionSpaceClass => SolutionSpace.InitParams
    case SolutionMaturityClass => SolutionMaturity.InitParams
    case UserClass => User.InitParams
    case ProblemSolutionClass => ProblemSolution.InitParams
  }

  /** The parameters of `__init__` without a default. */
  function RequiredParams(t: RecordType): (r: set<string>)
    ensures r <= InitParams(t) - {"self", "id"}
  {
    match t
    case ProblemClass => Problem.Required
    case MarketDemandClass => {}
    case SolutionSpaceClass => SolutionSpace.Required
    case SolutionMaturityClass => SolutionMaturity.Required
    case UserClass => User.Required
    case ProblemSolutionClass => ProblemSolution.Required
  }

  /** The default value of parameter `k` of `__init__` (None for a parameter
      without one, which binding never leaves out). */
  function DefaultOf(t: RecordType, k: string): Json
  {
    match t
    case ProblemClass => Problem.DefaultOf(k)
    case MarketDemandClass => MarketDemand.DefaultOf(k)
    case SolutionSpaceClass => SolutionSpace.DefaultOf(k)
    case SolutionMaturityClass => Null
    case UserClass => User.DefaultOf(k)
    case ProblemSolutionClass => ProblemSolution.DefaultOf(k)
  }

  /** How `__init__` stores the value `v` of parameter `k`: through an
      `or []` / `or {}` fallback for the classes that have one, as passed
      otherwise. */
  function AsStored(t: RecordType, k: string, v: Json): Json
  {
    match t
    case ProblemClass => Problem.AsStored(k, v)
    case MarketDemandClass => MarketDemand.AsStored(k, v)
    case SolutionSpaceClass => SolutionSpace.AsStored(k, v)
    case _ => v
  }

  /** `cls(**kwargs)`: the attribute dictionary of the new object, or the
      exception its `__init__` raises. Binding fails with TypeError exactly
      for an unknown keyword or a missing required one. The attributes are
      exactly the parameters other than `self` and `id`, each holding the
      value passed for it (or its default) as `__init__` stores it, plus
      `id` when one was given. */
  function Construct(t: RecordType, kwargs: Record): (r: Result<Record, PyError>)
    ensures !(kwargs.Keys <= InitParams(t) - {"self"}) ==> r.Failure? && r.error.TypeError?
    ensures (!(kwargs.Keys <= InitParams(t) - {"self"}) || !(RequiredParams(t) <= kwargs.Keys)) <==>
              r.Failure? && r.error.TypeError?
    ensures r.Success? ==> r.value.Keys - {"id"} == InitParams(t) - {"self", "id"}
    ensures r.Success? ==> ("id" in r.value <==> Get(kwargs, "id", Null) != Null)
    ensures r.Failure? && r.error.ValueError? ==> t == ProblemSolutionClass
    ensures r.Success? ==>
              forall k :: k in InitParams(t) - {"self", "id"} ==>
                r.value[k] == AsStored(t, k, Get(kwargs, k, DefaultOf(t, k)))
    ensures r.Success? && Get(kwargs, "id", Null) != Null ==> r.value["id"] == kwargs["id"]
  {
    match t
    case ProblemClass => Problem.FromKwargs(kwargs)
    case MarketDemandClass => MarketDemand.FromKwargs(kwargs)
    case SolutionSpaceClass => SolutionSpace.FromKwargs(kwargs)
    case SolutionMaturityClass => SolutionMaturity.FromKwargs(kwargs)
    case UserClass => User.FromKwargs(kwargs)
    case ProblemSolutionClass => ProblemSolution.FromKwargs(kwargs)
  }
}

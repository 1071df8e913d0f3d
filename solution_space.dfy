/** `SolutionSpace`: a named field of possible solutions with the skills and
    technologies it needs. */
module SolutionSpace {
  import opened Wrappers
  import opened Python
  import Store

  const StorageFile := "solution_space.json"

  /** The parameter names of `SolutionSpace.__init__`, `self` included. */
  const InitParams: set<string> :=
    {"self", "name", "description", "required_skills", "technologies", "additional_notes", "id"}

  /** The parameters without a default. */
  const Required: set<string> := {"name", "description"}

  /** The attribute names every SolutionSpace has. */
  const Fields: set<string> := {"name", "description", "required_skills", "technologies", "additional_notes"}

  /** The default of an optional parameter: the lists and the notes default
      to None. */
  function DefaultOf(k: string): Json
  {
    Null
  }

  /** How `__init__` stores a parameter's value: skills and technologies
      `or []`, every other value (the notes included) as passed. */
  function AsStored(k: string, v: Json): Json
  {
    if k in {"required_skills", "technologies"} then Or(v, Arr([])) else v
  }

  /** `SolutionSpace(...)`: name and description as given; skills and
      technologies become [] when falsy; the notes are stored even when None. */
  function New(name: Json, description: Json, requiredSkills: Json := Null, technologies: Json := Null,
               additionalNotes: Json := Null, id: Json := Null): (r: Record)
    ensures r.Keys == Fields + (if id != Null then {"id"} else {})
    ensures id != Null ==> r["id"] == id
    ensures r["name"] == name && r["description"] == description
    ensures r["required_skills"] == (if Truthy(requiredSkills) then requiredSkills else Arr([]))
    ensures r["technologies"] == (if Truthy(technologies) then technologies else Arr([]))
    ensures r["additional_notes"] == additionalNotes
  {
    Store.InitAttributes(id, map[
      "name" := name,
      "description" := description,
      "required_skills" := Or(requiredSkills, Arr([])),
      "technologies" := Or(technologies, Arr([])),
      "additional_notes" := additionalNotes])
  }

  /** `SolutionSpace(**kwargs)`: a TypeError for an unknown argument or a
      missing name or description. */
  function FromKwargs(kwargs: Record): (r: Result<Record, PyError>)
    ensures r.Failure? <==> !(kwargs.Keys <= InitParams - {"self"}) || !(Required <= kwargs.Keys)
    ensures r.Failure? ==> r.error.TypeError?
    ensures r.Success? ==> r.value.Keys == Fields + (if Get(kwargs, "id", Null) != Null then {"id"} else {})
    ensures r.Success? ==> r.value.Keys - {"id"} == InitParams - {"self", "id"}
    ensures r.Success? ==>
              forall k :: k in InitParams - {"self", "id"} ==> r.value[k] == AsStored(k, Get(kwargs, k, DefaultOf(k)))
    ensures r.Success? && Get(kwargs, "id", Null) != Null ==> r.value["id"] == kwargs["id"]
    ensures r.Success? ==> r.value["additional_notes"] == Get(kwargs, "additional_notes", Null)
  {
    match BindError(kwargs, InitParams - {"self"}, Required)
    case Some(e) => Failure(e)
    case None =>
      Success(New(kwargs["name"], kwargs["description"], Get(kwargs, "required_skills", Null),
                  Get(kwargs, "technologies", Null), Get(kwargs, "additional_notes", Null),
                  Get(kwargs, "id", Null)))
  }
}

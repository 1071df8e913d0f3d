/** `User`: an account that may own problem solutions. */
module User {
  import opened Wrappers
  import opened Python
  import Store

  const StorageFile := "user.json"

  /** The parameter names of `User.__init__`, `self` included. */
  const InitParams: set<string> := {"self", "username", "email", "full_name", "is_active", "id"}

  /** The parameters without a default. */
  const Required: set<string> := {"username", "email"}

  /** The attribute names every User has. */
  const Fields: set<string> := {"username", "email", "full_name", "is_active"}

  /** The default of an optional parameter: no full name, and active. */
  function DefaultOf(k: string): Json
  {
    if k == "is_active" then Bool(true) else Null
  }

  /** `User(...)`: every value stored as given; the full name defaults to
      None and the account is active by default. */
  function New(username: Json, email: Json, fullName: Json := Null, isActive: Json := Bool(true),
               id: Json := Null): (r: Record)
    ensures r.Keys == Fields + (if id != Null then {"id"} else {})
    ensures id != Null ==> r["id"] == id
    ensures r["username"] == username && r["email"] == email
    ensures r["full_name"] == fullName && r["is_active"] == isActive
  {
    Store.InitAttributes(id, map[
      "username" := username,
      "email" := email,
      "full_name" := fullName,
      "is_active" := isActive])
  }

  /** `User(**kwargs)`: a TypeError for an unknown argument or a missing
      username or email; an omitted full name is None and an omitted
      `is_active` is True. */
  function FromKwargs(kwargs: Record): (r: Result<Record, PyError>)
    ensures r.Failure? <==> !(kwargs.Keys <= InitParams - {"self"}) || !(Required <= kwargs.Keys)
    ensures r.Failure? ==> r.error.TypeError?
    ensures r.Success? ==> r.value.Keys == Fields + (if Get(kwargs, "id", Null) != Null then {"id"} else {})
    ensures r.Success? ==> r.value.Keys - {"id"} == InitParams - {"self", "id"}
    ensures r.Success? ==> forall k :: k in InitParams - {"self", "id"} ==> r.value[k] == Get(kwargs, k, DefaultOf(k))
    ensures r.Success? && Get(kwargs, "id", Null) != Null ==> r.value["id"] == kwargs["id"]
    ensures r.Success? && "full_name" !in kwargs ==> r.value["full_name"] == Null
    ensures r.Success? && "is_active" !in kwargs ==> r.value["is_active"] == Bool(true)
  {
    match BindError(kwargs, InitParams - {"self"}, Required)
    case Some(e) => Failure(e)
    case None =>
      Success(New(kwargs["username"], kwargs["email"], Get(kwargs, "full_name", Null),
                  Get(kwargs, "is_active", Bool(true)), Get(kwargs, "id", Null)))
  }
}

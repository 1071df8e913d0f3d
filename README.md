# problems_backend_flask — a Dafny model

The backend is a Flask REST server. It keeps records of problems, market
demands, solution spaces, solution maturities, users and problem solutions,
one JSON file per record class. This project models its core in Dafny 4.11:

- **The record store** (`BaseObject`), module `Store`:
  - `load_all` reads a class's list of attribute dictionaries.
  - `find_by_id` returns the first record whose `id` equals the key.
  - `_next_id` gives one more than the largest integer id.
  - `save` stamps `updated_at`, assigns a fresh id when the record has
    none, replaces the first stored record with the same id in place or
    appends, and rewrites the file.

  The file system is a value (`FileSystem`, file name to list of records)
  held by a `Disk` object. `BaseObject` is a class whose `attributes` the
  methods update. `Save` is a loop proved against the functions `Prepared`
  and `Upsert`. A save keeps the store's invariant that no two records
  share an id (`UniqueIds`), and so do the POST and PUT handlers.
- **The record classes**: one module each for `Problem`, `MarketDemand`,
  `SolutionSpace`, `SolutionMaturity`, `User` and `ProblemSolution`, plus
  the older top-level `ProblemSolution` (module `LegacyProblemSolution`).
  - Each module has the constructor (`New`, with Python's default
    arguments and `or []` / `or {}` fallbacks).
  - Each module also has the call with keyword arguments (`FromKwargs`).
    Binding raises TypeError for an unexpected or a missing argument.
  - `ProblemSolution` adds the status check (ValueError) and the joined
    document `to_full_dict`.

  Module `RecordTypes` dispatches over the six discovered classes.
- **The REST layer** (`app.py`), module `App`:
  - the endpoint name (`name.lower() + 's'`) and the four routes of a class;
  - the four handlers: list, get, create and update;
  - the discovery of record classes in a directory.

  The handlers return a `Reply`: a response, an `abort`, or an exception
  that escapes the handler.

Values are the `Json` datatype (None, bool, int, float, str, list, dict).

Notes on the program's own behaviour, which the model reproduces as the
code has it:

- A `ProblemSolution` POST with an invalid `status` raises ValueError in
  the constructor. `create_object` catches only TypeError, so the
  ValueError escapes the handler (a server error), not a 400. See
  `App.CreateObject`, outcome `Raised`.
- `_next_id` returns `max + 1` over the integer ids. With only negative
  ids stored the fresh id can be 0 or negative. It is 1 when no record has
  an integer id or when the largest integer id is 0, and a bool id counts
  as an integer.
- A POST body that contains `id` is always rejected with 400, because
  `id` is removed from the allowed fields.
- A PUT whose body carries an `id` different from the URL's saves the
  merged record under the body's id: it replaces the first stored record
  with that id, or is appended when there is none, and the record found
  under the URL's id stays as it was. See `App.UpdateToNewIdAppends`.
- There is no `/problems_with_solutions` route in `app.py`; only the four
  generated routes per class exist.

## Model

| member | source | states |
|---|---|---|
| Store.LoadAll | classes/base_object.py:55-71 | fails with "Subclass must define storage_file." exactly when no file is declared; a missing file gives the empty list, an existing one its whole list |
| Store.FirstWithId | classes/base_object.py:85 | the index found holds a record with that id and no earlier record has it; None means no record has it |
| Store.FirstWithIdAt | classes/base_object.py:85 | the scan stops at the first record carrying the id |
| Store.Find | classes/base_object.py:85-86 | a result is a non-empty record with that id, the first such in the list; not found (for a non-None key) means no record carries the id |
| Store.FindById | classes/base_object.py:74-86 | fails exactly when no storage file is declared, otherwise is the lookup in the loaded list |
| Store.MaxIntId | classes/base_object.py:100-101 | None exactly when no id is an int (bools count); otherwise an upper bound of all int ids that one record carries |
| Store.NextId | classes/base_object.py:89-101 | exceeds every integer id in the list; is 1 when there is none; otherwise is one more than an existing id |
| Store.InitAttributes | classes/base_object.py:8-11 | the keyword arguments plus `id` exactly when the id is not None |
| Store.Prepared | classes/base_object.py:34-42 | keys grow by `updated_at` and `id` only; `updated_at` is the new timestamp; an existing id is kept; a new id is NextId and matches no stored record; all other fields unchanged |
| Store.UpsertReplacesFirstMatch | classes/base_object.py:44-47 | when record i is the first with the id, the written list is the old one with slot i replaced |
| Store.UpsertAppendsWhenAbsent | classes/base_object.py:48-49 | when no record has the id, the record is appended |
| Store.Upsert | classes/base_object.py:44-49 | the saved record is in the written list, which is at most one longer than the stored one; every stored record with another id is kept |
| Store.UpsertKeepsIdsUnique | classes/base_object.py:41-49 | a save keeps a store's ids unique: no two records that carry an id share it |
| Store.UpsertPlacement | classes/base_object.py:44-49 | the written list is "replace at the first match, else append" |
| Store.SavedRecordIsFound | classes/base_object.py:34-52 | after a save, `find_by_id` with the saved id returns exactly the saved record |
| Store.SaveWithoutIdAppends | classes/base_object.py:41-49 | a record saved without an id is appended after every stored record |
| Store.SaveWithKnownIdReplaces | classes/base_object.py:44-47 | saving under an id already stored keeps the length and changes only the first record with that id |
| Store.SaveIntoEmptyStore | classes/base_object.py:34-71 | a first save into a missing file writes a one-record list whose record has id 1, keeps its fields and is found by id 1 |
| Store.BaseObject.constructor | classes/base_object.py:8-11 | the object holds the given class name, storage file and attributes |
| Store.BaseObject.SetAttribute | classes/base_object.py:13-14 | only the given key changes, to the given value |
| Store.BaseObject.GetAttribute | classes/base_object.py:16-17 | the stored value, or the default when the key is absent |
| Store.BaseObject.ToDict | classes/base_object.py:31-32 | the attribute dictionary itself |
| Store.BaseObject.Save | classes/base_object.py:34-52 | without a storage file: ValueError and nothing changes; otherwise the attributes become Prepared and the class's file becomes Upsert of the loaded list, other files unchanged |
| Python.BindError | app.py:115-119 | no error exactly when every keyword is a parameter and every required parameter is given; an error is a TypeError |
| Problem.New | classes/problem.py:17-34 | exactly the six fields plus `id` when given; the required values as given; the three lists replaced by [] when falsy |
| Problem.FromKwargs | classes/problem.py:17-34 | TypeError exactly for an unknown or missing argument; otherwise each field holds the value passed (None when omitted), with root causes, stakeholders and solution ids replaced by [] when falsy; id stored exactly when given non-None |
| MarketDemand.New | classes/market_demand.py:16-33 | exactly the six fields plus `id` when given; figures as given (0.0 by default); competitors [] and segments {} when falsy |
| MarketDemand.FromKwargs | classes/market_demand.py:16-33 | TypeError exactly for an unknown argument, since nothing is required; otherwise each field holds the value passed, the figures defaulting to 0.0, competitors [] and segments {} when falsy; id stored exactly when given non-None |
| MarketDemand.Instantiate | classes/market_demand.py:16-33 | every field holds the keyword's value or its default, with the `or []` / `or {}` fallbacks applied |
| MarketDemand.NoArgumentsGiveDefaults | market_demand.py:6-22 | the call with no arguments yields the six defaults and no id |
| SolutionSpace.New | classes/solution_space.py:16-31 | exactly the five fields plus `id` when given; skills and technologies [] when falsy; notes as given |
| SolutionSpace.FromKwargs | classes/solution_space.py:16-31 | TypeError exactly for an unknown or missing argument; otherwise each field holds the value passed, notes defaulting to None and skills and technologies replaced by [] when falsy; id stored exactly when given non-None |
| SolutionMaturity.New | classes/solution_maturity.py:15-28 | exactly the four fields plus `id` when given, all as passed |
| SolutionMaturity.FromKwargs | classes/solution_maturity.py:15-28 | TypeError exactly for an unknown or missing argument; otherwise each field holds the value passed; with a non-None id the attributes are the keyword arguments themselves |
| User.New | classes/user.py:13-20 | exactly the four fields plus `id` when given, all as passed |
| User.FromKwargs | classes/user.py:13-20 | TypeError exactly for an unknown or missing argument; otherwise each field holds the value passed, full_name defaulting to None and is_active to True; id stored exactly when given non-None |
| ProblemSolution.New | classes/problem_solution.py:24-46 | ValueError exactly when status is not one of the four STATUS_VALUES; otherwise the seven fields as given plus id |
| ProblemSolution.FromKwargs | classes/problem_solution.py:24-46 | binding TypeError comes before the status check; once bound, the only failure is ValueError for an invalid status (default "Idea"); otherwise each field holds the value passed, the owner defaulting to None; id stored exactly when given non-None |
| ProblemSolution.Instantiate | classes/problem_solution.py:24-46 | once the required arguments are bound, a success holds each keyword's value or its default |
| ProblemSolution.LoadSubObject | classes/problem_solution.py:48-50 | a dict exactly when the id resolves in that class's store, and it is the first stored record with that id; otherwise None |
| ProblemSolution.ToFullDict | classes/problem_solution.py:52-61 | exactly the seven keys; id and name copied; `updated_at` None when never saved; each reference resolved in its own class's store |
| ProblemSolution.FullDictInlinesSavedProblem | classes/problem_solution.py:52-61 | once the referenced problem is saved, the joined document carries that saved problem |
| LegacyProblemSolution.New | problem_solution.py:10-24 | the five values as given plus id; there is no status |
| LegacyProblemSolution.FromKwargs | problem_solution.py:10-24 | TypeError exactly for an unknown or missing argument; any `status` keyword fails; otherwise each field holds the value passed; id stored exactly when given non-None |
| LegacyProblemSolution.FullDictOfUnsaved | problem_solution.py:30-39 | an unsaved solution's joined document has seven keys, `updated_at` None, id and name as given, references looked up in their stores |
| RecordTypes.StorageFilesDistinct | classes/problem_solution.py:11 | distinct record classes use distinct files, as the six `storage_file` declarations give them (also classes/problem.py:5, classes/market_demand.py:5, classes/solution_space.py:5, classes/solution_maturity.py:5, classes/user.py:5) |
| RecordTypes.InitParams | app.py:107 | the signature includes `self` and `id` |
| RecordTypes.RequiredParams | app.py:116 | the parameters without a default are init parameters other than self and id; a market demand has none |
| RecordTypes.Construct | app.py:116 | TypeError exactly when a keyword is unknown or a required parameter is missing; the attributes are the parameters other than self/id, plus id exactly when given non-None; each holds the value passed or the class's default, after the class's falsy fallbacks; only ProblemSolution raises ValueError |
| App.Lower | app.py:86 | same length, each character lowered |
| App.Endpoint | app.py:86 | the lowered class name followed by "s", with no upper-case letter |
| App.LowerConcat | app.py:86 | lowering distributes over concatenation |
| App.EndpointOfConcat | app.py:86 | a two-word class name is served under both words lowered and run together, then "s" |
| App.EndpointOfUser | app.py:86 | "User" is served under "users" |
| App.EndpointOfBus | app.py:86 | no irregular plurals: "Bus" becomes "buss" |
| App.Routes | app.py:86-123 | four routes: GET and POST on the endpoint, GET and PUT on endpoint/<int:obj_id>, with handler names built from the endpoint |
| App.RouteNamesDistinct | app.py:88-123 | the four handler names of a class are pairwise distinct |
| App.UnknownFields | app.py:107-111 | the body keys that are not init parameters (self and id excluded); `id` is always among them when sent |
| App.ListObjects | app.py:88-92 | 200 with every stored record in file order |
| App.GetObject | app.py:94-100 | 404 "<Class> not found" exactly when no record has the id; otherwise 200 with the first such record |
| App.CreateObject | app.py:102-121 | 400 listing unknown attributes before anything is built; 400 with the message on TypeError; other exceptions escape; otherwise 201 with the record appended under a fresh id; a store whose ids were unique keeps them unique |
| App.UpdateObject | app.py:123-138 | 404 "<Class> with id <n> not found" with nothing saved; otherwise the body merged over the found record is saved (placed by its own id, which the body may change) and returned with 200; a store whose ids were unique keeps them unique |
| App.UpdateKeepsPosition | app.py:131-138 | an update whose body has no id, or repeats the URL's, keeps the list's length and changes only the found record's slot |
| App.PostedValuesAreStored | app.py:102-121 | a successful POST stores each posted field's value (after the class's fallbacks), each omitted field's default, the timestamp and the fresh id |
| App.UpdateToNewIdAppends | app.py:131-138 | a PUT whose body carries an id no record has appends the merged record under that id |
| App.SaveLeavesOtherClasses | classes/base_object.py:51-52 | a save of one class leaves the list and get answers of every other class unchanged |
| App.CreatedRecordIsServed | app.py:102-121 | after a POST, GET with the fresh id answers 200 with the saved record |
| App.UpdatedRecordIsServed | app.py:123-138 | after a PUT whose body has no id or repeats the URL's, GET answers 200 with the updated record |
| App.LoadClassesFromDirectory | app.py:39-68 | the loops compute the discovery fold over the listing |
| App.IsClassFile | app.py:60 | a class file is long enough to strip ".py" from, and `__init__.py` is not one |
| App.ModulePath | app.py:61-62 | for a class file, the module path with ".py" put back is the directory, a dot and the file name |
| App.CollectMembers | app.py:65-67 | the inner loop never drops a name; each name maps to its earlier class or to a record class the module defines under that name |
| App.CollectFiles | app.py:58-68 | the outer loop never drops a name, and its only failure is ImportError |
| App.CollectMembersNames | app.py:65-67 | a module contributes exactly the names of its BaseObject subclasses other than BaseObject |
| App.DiscoveredNames | app.py:58-68 | a name is discovered exactly when some class file's module defines a record class under it |
| App.CollectMembersClass | app.py:65-67 | within a module the last record class under a name wins; a name the module does not define keeps its class |
| App.DiscoveredClasses | app.py:58-68 | a discovered name maps to the last record class defined under it in the last class file, in listing order, whose module defines one |
| App.DiscoveryFails | app.py:56-63 | discovery raises ImportError exactly when some class file's module path cannot be imported |

## Left out

- Flask itself is not modelled: the app object, CORS, `jsonify`, `request.json` parsing and `app.run`. Handlers take the parsed body as a dictionary and return a `Reply`.
- Non-dict request bodies and malformed JSON are not modelled (both are Flask's responsibility).
- File I/O and JSON formatting are not modelled: `open`, `json.load`/`json.dump` and the `indent=4` layout. Files are a map from name to record list, and a file holding something other than a list is not modelled.
- `datetime.now().isoformat()` is not modelled; the timestamp is the `now` parameter.
- `importlib.import_module`, `os.listdir` and `inspect.getmembers` are inputs of `App.LoadClassesFromDirectory`: the listing, and the classes each importable module defines. Only a module that cannot be found is modelled (ImportError); any other exception raised while importing a module, such as a SyntaxError, is not modelled.
- `__getattr__`/`__setattr__` attribute magic and `from_dict`'s bypass of `__init__` are not modelled separately; the model reads and writes the attribute dictionary directly.
- Aliasing is not modelled: `to_dict` returns the live dictionary and `save` stores the same object in the list it writes; the model copies values.
- Concurrent requests and lost updates between `load_all` and the write are not modelled.
- Python's cross-type equality is not modelled (`True == 1`, `1 == 1.0`): ids are compared structurally, so a stored id `True` does not match key 1 in the model. This changes `save`: `_next_id` skips float ids (classes/base_object.py:100) while the upsert compares with `==` (classes/base_object.py:45). With `[{"id": 1}, {"id": 2.0}]` stored, Python gives a POST the id 2 and overwrites the record with id 2.0, where the model appends. `Store.SaveWithoutIdAppends` and the unique-id invariant (`Store.UpsertKeepsIdsUnique`) hold for structural equality only.
- Floats are mathematical reals; rounding and NaN are not modelled.
- App.Lower: lowers ASCII letters only, not the full Unicode `str.lower`.
- Python.BindError: gives a fixed message text, not CPython's exact TypeError message.
- ProblemSolution.New: gives a fixed message text, not the exact formatted f-string.
- App.CreateObject: the unknown attributes are a set, because the order of `', '.join(unknown_fields)` depends on Python's set iteration.
- App.UpdateObject: the update loop visits keys in an arbitrary order, not the body's order; the result is the same because the keys are distinct.
- The top-level `problem.py`, `solution_space.py` and `solution_maturity.py` are not part of this model. The top-level `problem_solution.py` imports them; its model assumes they store under the same file names as their `classes/` versions. The top-level `market_demand.py` and `base_object.py` are identical in behaviour to their `classes/` versions and share their models.
- The test suite and the package's `__init__.py` are not modelled.

/** The REST layer: endpoint naming, the four handlers generated for every
    record class, and the discovery of record classes in a directory. A
    handler takes the files and the request and gives the reply; the
    handlers that save change the disk. */
module App {
  import opened Wrappers
  import opened Python
  import opened Store
  import opened RecordTypes

  // ---------------------------------------------------------------------
  // Endpoint naming

  /** `str.lower` on one character (ASCII letters). */
  function LowerChar(c: char): char
  {
    if 'A' <= c <= 'Z' then (c as int + 32) as char else c
  }

  /** `s.lower()`: every character lowered, the length kept. */
  function Lower(s: string): (r: string)
    ensures |r| == |s|
    ensures forall i :: 0 <= i < |s| ==> r[i] == LowerChar(s[i])
  {
    if s == [] then [] else [LowerChar(s[0])] + Lower(s[1..])
  }

  /** `cls.__name__.lower() + 's'`: the lowered class name with a plain "s"
      appended, no irregular plurals, and no upper-case letter left. */
  function Endpoint(className: string): (r: string)
    ensures |r| == |className| + 1 && r[|className|] == 's'
    ensures r[..|className|] == Lower(className)
    ensures forall i :: 0 <= i < |r| ==> !('A' <= r[i] <= 'Z')
  {
    Lower(className) + "s"
  }

  /** Lowering works character by character, so it distributes over `+`. */
  lemma LowerConcat(a: string, b: string)
    ensures Lower(a + b) == Lower(a) + Lower(b)
  {
    var whole, parts := Lower(a + b), Lower(a) + Lower(b);
    assert |whole| == |a| + |b| == |parts|;
    forall i | 0 <= i < |whole|
      ensures whole[i] == parts[i]
    {
      assert whole[i] == LowerChar((a + b)[i]);
      if i < |a| {
        assert (a + b)[i] == a[i] && parts[i] == Lower(a)[i];
      } else {
        assert (a + b)[i] == b[i - |a|] && parts[i] == Lower(b)[i - |a|];
      }
    }
    assert whole == parts;
  }

  /** A class name made of two words is served under both words lowered and
      run together, then "s": `ProblemSolution` under "problemsolutions". */
  lemma EndpointOfConcat(a: string, b: string)
    ensures Endpoint(a + b) == Lower(a) + Lower(b) + "s"
  {
    LowerConcat(a, b);
  }

  /** The `User` class is served under "users". */
  lemma EndpointOfUser()
    ensures Endpoint("User") == "users"
  {
    var s := "User";
    assert s[0] == 'U' && s[1] == 's' && s[2] == 'e' && s[3] == 'r';
    assert Lower(s) == "user";
  }

  /** No irregular plurals: a class `Bus` would be served under "buss". */
  lemma EndpointOfBus()
    ensures Endpoint("Bus") == "buss"
  {
    var s := "Bus";
    assert s[0] == 'B' && s[1] == 'u' && s[2] == 's';
    assert Lower(s) == "bus";
  }

  /** One route `register_routes_for_class` adds: HTTP method, URL rule and
      Flask endpoint (handler) name. */
  datatype Route = Route(verb: string, rule: string, name: string)

  /** The four routes of a class: list and create on "/<endpoint>", get and
      update on "/<endpoint>/<int:obj_id>"; the get, create and update
      handler names use the endpoint without its last character, which is
      the lowered class name. */
  function Routes(className: string): (r: seq<Route>)
    ensures |r| == 4
    ensures r[0].verb == "GET" && r[1].verb == "GET" && r[2].verb == "POST" && r[3].verb == "PUT"
    ensures r[0].rule == r[2].rule == "/" + Endpoint(className)
    ensures r[1].rule == r[3].rule == "/" + Endpoint(className) + "/<int:obj_id>"
    ensures r[0].name == "get_all_" + Endpoint(className)
    ensures r[1].name == "get_" + Lower(className)
    ensures r[2].name == "create_" + Lower(className)
    ensures r[3].name == "update_" + Lower(className)
  {
    var endpoint := Endpoint(className);
    var singular := endpoint[..|endpoint| - 1];
    assert singular == Lower(className);
    [Route("GET", "/" + endpoint, "get_all_" + endpoint),
     Route("GET", "/" + endpoint + "/<int:obj_id>", "get_" + singular),
     Route("POST", "/" + endpoint, "create_" + singular),
     Route("PUT", "/" + endpoint + "/<int:obj_id>", "update_" + singular)]
  }

  /** The four handler names of a class differ, so Flask accepts them all. */
  lemma RouteNamesDistinct(className: string)
    ensures forall i, j :: 0 <= i < j < |Routes(className)| ==> Routes(className)[i].name != Routes(className)[j].name
  {
    var r := Routes(className);
    var getAll, get, create, update := r[0].name, r[1].name, r[2].name, r[3].name;
    assert get[0] == 'g' && create[0] == 'c' && update[0] == 'u';
    assert getAll != get by {
      assert |getAll| == |Lower(className)| + 9 && |get| == |Lower(className)| + 4;
    }
    assert getAll[0] == 'g';
  }

  // ---------------------------------------------------------------------
  // Handlers

  /** The `description` given to `abort`: a text, or the list of unknown
      attributes (printed in Python's set order, which the model does not fix). */
  datatype Description = Text(text: string) | UnknownAttributes(fields: set<string>)

  /** What a handler does: a JSON response with a status, an `abort` with a
      status and description, or an exception that escapes the handler. */
  datatype Reply =
    | Respond(status: int, body: Json)
    | Abort(status: int, description: Description)
    | Raised(error: PyError)

  /** The keys POST accepts: the `__init__` parameters without `self` and `id`. */
  function AllowedFields(t: RecordType): set<string>
  {
    InitParams(t) - {"self", "id"}
  }

  /** The keys of a POST body that the class does not accept; `id` is always
      among them when the body has it. */
  function UnknownFields(t: RecordType, data: Record): (r: set<string>)
    ensures forall k :: k in r <==> k in data && k !in AllowedFields(t)
    ensures "id" in data ==> "id" in r
  {
    data.Keys - AllowedFields(t)
  }

  /** GET /<endpoint>: status 200 with every stored record, in file order. */
  function ListObjects(t: RecordType, files: FileSystem): (r: Reply)
    ensures var all := Stored(files, StorageFile(t));
            && r.Respond? && r.status == 200 && r.body.Arr? && |r.body.items| == |all|
            && forall i :: 0 <= i < |all| ==> r.body.items[i] == Obj(all[i])
  {
    var all := LoadAll(Some(StorageFile(t)), files).value;
    Respond(200, Arr(seq(|all|, i requires 0 <= i < |all| => Obj(all[i]))))
  }

  /** GET /<endpoint>/<id>: 404 "<ClassName> not found" exactly when no
      stored record has that id; otherwise 200 with the first such record. */
  function GetObject(t: RecordType, files: FileSystem, objId: nat): (r: Reply)
    ensures var all := Stored(files, StorageFile(t));
            r.Abort? <==> forall i :: 0 <= i < |all| ==> IdOf(all[i]) != Int(objId)
    ensures r.Abort? ==> r == Abort(404, Text(ClassName(t) + " not found"))
    ensures !r.Abort? ==>
              && r.Respond? && r.status == 200 && r.body.Obj?
              && Find(Stored(files, StorageFile(t)), Int(objId)) == Some(r.body.fields)
  {
    match FindById(Some(StorageFile(t)), files, Int(objId)).value
    case None => Abort(404, Text(ClassName(t) + " not found"))
    case Some(rec) => Respond(200, Obj(rec))
  }

  /** POST /<endpoint>: a body with a key the class does not accept (`id`
      included) is answered 400 before anything is built or saved; a
      TypeError from the constructor is answered 400 with its message, any
      other exception escapes; otherwise the new record gets a fresh id, is
      appended to the class's file and returned with status 201. */
  method CreateObject(t: RecordType, disk: Disk, data: Record, now: string) returns (r: Reply)
    modifies disk
    ensures UnknownFields(t, data) != {} ==>
              r == Abort(400, UnknownAttributes(UnknownFields(t, data))) && disk.files == old(disk.files)
    ensures UnknownFields(t, data) == {} && Construct(t, data).Failure? ==>
              && disk.files == old(disk.files)
              && (Construct(t, data).error.TypeError? ==> r == Abort(400, Text(Construct(t, data).error.message)))
              && (!Construct(t, data).error.TypeError? ==> r == Raised(Construct(t, data).error))
    ensures UnknownFields(t, data) == {} && Construct(t, data).Success? ==>
              var all := Stored(old(disk.files), StorageFile(t));
              var saved := Prepared(Construct(t, data).value, now, all);
              && saved["id"] == Int(NextId(all))
              && r == Respond(201, Obj(saved))
              && disk.files == old(disk.files)[StorageFile(t) := all + [saved]]
    ensures UniqueIds(Stored(old(disk.files), StorageFile(t))) ==> UniqueIds(Stored(disk.files, StorageFile(t)))
  {
    var unknown := UnknownFields(t, data);
    if unknown != {} {
      return Abort(400, UnknownAttributes(unknown));
    }
    var constructed := Construct(t, data);
    if constructed.Failure? {
      if constructed.error.TypeError? {
        return Abort(400, Text(constructed.error.message));
      }
      return Raised(constructed.error);
    }
    ghost var all := Stored(disk.files, StorageFile(t));
    var obj := new BaseObject(ClassName(t), Some(StorageFile(t)), constructed.value);
    // The class declares a storage file, so `save` cannot raise here.
    var _ := obj.Save(disk, now);
    SaveWithoutIdAppends(constructed.value, now, all);
    if UniqueIds(all) {
      UpsertKeepsIdsUnique(all, obj.attributes);
    }
    r := Respond(201, Obj(obj.ToDict()));
  }

  /** PUT /<endpoint>/<id>: 404 naming the class and id, with nothing saved,
      when no stored record has that id; otherwise every body key is set on
      the found record (unknown keys included, other keys untouched), the
      result is saved and returned with status 200. A body that keeps the id
      replaces the found record in place; a body carrying another id saves
      under that id instead (replacing the first record with it, or
      appending), and the found record stays as it was. */
  method UpdateObject(t: RecordType, disk: Disk, objId: nat, data: Record, now: string) returns (r: Reply)
    modifies disk
    ensures var all := Stored(old(disk.files), StorageFile(t));
            Find(all, Int(objId)).None? ==>
              && r == Abort(404, Text(ClassName(t) + " with id " + DecimalString(objId) + " not found"))
              && disk.files == old(disk.files)
    ensures var all := Stored(old(disk.files), StorageFile(t));
            Find(all, Int(objId)).Some? ==>
              var saved := Prepared(Find(all, Int(objId)).value + data, now, all);
              && r == Respond(200, Obj(saved))
              && disk.files == old(disk.files)[StorageFile(t) := Upsert(all, saved)]
    ensures UniqueIds(Stored(old(disk.files), StorageFile(t))) ==> UniqueIds(Stored(disk.files, StorageFile(t)))
  {
    var found := FindById(Some(StorageFile(t)), disk.files, Int(objId)).value;
    if found.None? {
      return Abort(404, Text(ClassName(t) + " with id " + DecimalString(objId) + " not found"));
    }
    var obj := new BaseObject(ClassName(t), Some(StorageFile(t)), found.value);
    var pending := data.Keys;
    while pending != {}
      invariant pending <= data.Keys
      invariant obj.attributes == found.value + (map k | k in data && k !in pending :: data[k])
      invariant disk.files == old(disk.files)
      decreases pending
    {
      var key :| key in pending;
      obj.SetAttribute(key, data[key]);
      pending := pending - {key};
    }
    assert (map k | k in data && k !in pending :: data[k]) == data;
    ghost var all := Stored(disk.files, StorageFile(t));
    // The class declares a storage file, so `save` cannot raise here.
    var _ := obj.Save(disk, now);
    if UniqueIds(all) {
      UpsertKeepsIdsUnique(all, obj.attributes);
    }
    r := Respond(200, Obj(obj.ToDict()));
  }

  /** A PUT whose body has no `id`, or repeats the URL's, keeps the record where it
      was: the list keeps its length, the found record's slot holds the
      updated record, and every other entry is unchanged. */
  lemma UpdateKeepsPosition(all: seq<Record>, objId: nat, data: Record, now: string, i: nat)
    requires i < |all| && IdOf(all[i]) == Int(objId)
    requires forall j :: 0 <= j < i ==> IdOf(all[j]) != Int(objId)
    requires Get(data, "id", Int(objId)) == Int(objId)
    ensures Find(all, Int(objId)) == Some(all[i])
    ensures var saved := Prepared(all[i] + data, now, all);
            && |Upsert(all, saved)| == |all|
            && Upsert(all, saved)[i] == saved
            && forall j :: 0 <= j < |all| && j != i ==> Upsert(all, saved)[j] == all[j]
  {
    assert FirstWithId(all, Int(objId)) == Some(i);
    assert "id" in all[i];
    assert (all[i] + data)["id"] == Int(objId);
    SaveWithKnownIdReplaces(all[i] + data, now, all, i);
  }

  /** What a POST stores is what it sent: every accepted field holds the
      value the body gave (through the class's `or` fallback), or the
      parameter's default when the body left it out; `updated_at` is the
      save time and `id` is fresh. */
  lemma PostedValuesAreStored(t: RecordType, files: FileSystem, data: Record, now: string)
    requires UnknownFields(t, data) == {} && Construct(t, data).Success?
    ensures var all := Stored(files, StorageFile(t));
            var saved := Prepared(Construct(t, data).value, now, all);
            && (forall k :: k in AllowedFields(t) ==> saved[k] == AsStored(t, k, Get(data, k, DefaultOf(t, k))))
            && (forall k :: k in data ==> saved[k] == AsStored(t, k, data[k]))
            && saved["updated_at"] == Str(now)
            && saved["id"] == Int(NextId(all))
  {
    var all := Stored(files, StorageFile(t));
    var attrs := Construct(t, data).value;
    var saved := Prepared(attrs, now, all);
    assert "id" !in data && "id" !in attrs;
    forall k | k in AllowedFields(t)
      ensures saved[k] == AsStored(t, k, Get(data, k, DefaultOf(t, k)))
    {
      assert k in attrs && k != "updated_at" && k != "id";
    }
    forall k | k in data
      ensures saved[k] == AsStored(t, k, data[k])
    {
      assert k in AllowedFields(t);
    }
  }

  /** A PUT whose body carries an id that no stored record has leaves the
      record it found where it was: the updated copy is appended under the
      new id. */
  lemma UpdateToNewIdAppends(all: seq<Record>, objId: nat, data: Record, now: string)
    requires Find(all, Int(objId)).Some?
    requires "id" in data && forall j :: 0 <= j < |all| ==> IdOf(all[j]) != data["id"]
    ensures var saved := Prepared(Find(all, Int(objId)).value + data, now, all);
            saved["id"] == data["id"] && Upsert(all, saved) == all + [saved]
  {
    var saved := Prepared(Find(all, Int(objId)).value + data, now, all);
    UpsertAppendsWhenAbsent(all, saved);
  }

  /** A save to one class's store leaves every other class as it was: its
      list and its lookups by id answer as before. */
  lemma SaveLeavesOtherClasses(t: RecordType, u: RecordType, files: FileSystem, written: seq<Record>, objId: nat)
    requires t != u
    ensures var after := files[StorageFile(t) := written];
            && ListObjects(u, after) == ListObjects(u, files)
            && GetObject(u, after, objId) == GetObject(u, files, objId)
  {
    StorageFilesDistinct(t, u);
    assert Stored(files[StorageFile(t) := written], StorageFile(u)) == Stored(files, StorageFile(u));
  }

  /** A record a POST created is served by GET under its fresh id: the
      file written by CreateObject answers 200 with the saved record. */
  lemma CreatedRecordIsServed(t: RecordType, files: FileSystem, data: Record, now: string, objId: nat)
    requires UnknownFields(t, data) == {} && Construct(t, data).Success?
    requires objId == NextId(Stored(files, StorageFile(t)))
    ensures var all := Stored(files, StorageFile(t));
            var saved := Prepared(Construct(t, data).value, now, all);
            GetObject(t, files[StorageFile(t) := all + [saved]], objId) == Respond(200, Obj(saved))
  {
    var all := Stored(files, StorageFile(t));
    var attrs := Construct(t, data).value;
    assert "id" !in data;
    var saved := Prepared(attrs, now, all);
    SaveWithoutIdAppends(attrs, now, all);
    SavedRecordIsFound(all, saved);
  }

  /** A PUT whose body leaves the id alone is visible to the next GET: the
      file written by UpdateObject answers 200 with the updated record. */
  lemma UpdatedRecordIsServed(t: RecordType, files: FileSystem, objId: nat, data: Record, now: string)
    requires Find(Stored(files, StorageFile(t)), Int(objId)).Some?
    requires Get(data, "id", Int(objId)) == Int(objId)
    ensures var all := Stored(files, StorageFile(t));
            var saved := Prepared(Find(all, Int(objId)).value + data, now, all);
            GetObject(t, files[StorageFile(t) := Upsert(all, saved)], objId) == Respond(200, Obj(saved))
  {
    var all := Stored(files, StorageFile(t));
    var found := Find(all, Int(objId)).value;
    assert IdOf(found) == Int(objId) && "id" in found;
    var saved := Prepared(found + data, now, all);
    assert saved["id"] == Int(objId);
    SavedRecordIsFound(all, saved);
  }

  // ---------------------------------------------------------------------
  // Discovery

  /** A class found in a module: BaseObject itself, a record class, or any
      other class. */
  datatype ClassRef = BaseObjectClass | RecordClass(t: RecordType) | OtherClass

  /** One `(name, class)` pair of `inspect.getmembers(module, inspect.isclass)`. */
  datatype Member = Member(name: string, cls: ClassRef)

  /** `filename.endswith('.py') and not filename.startswith('__')`: a class
      file is long enough to strip its extension, and the package's own
      `__init__.py` is not one. */
  function IsClassFile(filename: string): (b: bool)
    ensures b ==> |filename| >= 3 && filename != "__init__.py"
  {
    && |filename| >= 3 && filename[|filename| - 3..] == ".py"
    && !(|filename| >= 2 && filename[..2] == "__")
  }

  /** `f"{directory}.{filename[:-3]}"`: for a class file, the module path
      with ".py" put back is the directory, a dot and the file name. */
  function ModulePath(directory: string, filename: string): (p: string)
    requires |filename| >= 3
    ensures IsClassFile(filename) ==> p + ".py" == directory + "." + filename
  {
    assert filename == filename[..|filename| - 3] + filename[|filename| - 3..];
    directory + "." + filename[..|filename| - 3]
  }

  /** The inner loop: every subclass of BaseObject other than BaseObject
      itself is entered under its member name, a later one replacing an
      earlier one of the same name. */
  function CollectMembers(members: seq<Member>, classes: map<string, RecordType>): (r: map<string, RecordType>)
    ensures classes.Keys <= r.Keys
    ensures forall name :: name in r ==>
              (name in classes && r[name] == classes[name]) || Member(name, RecordClass(r[name])) in members
  {
    if members == [] then classes
    else
      var m := members[0];
      CollectMembers(members[1..], if m.cls.RecordClass? then classes[m.name := m.cls.t] else classes)
  }

  /** The outer loop over the directory listing: files that are not class
      files are skipped; importing a module that does not exist raises
      ImportError. */
  function CollectFiles(directory: string, filenames: seq<string>, modules: map<string, seq<Member>>,
                        classes: map<string, RecordType>): (r: Result<map<string, RecordType>, PyError>)
    ensures r.Success? ==> classes.Keys <= r.value.Keys
    ensures r.Failure? ==> r.error.ImportError?
  {
    if filenames == [] then Success(classes)
    else if !IsClassFile(filenames[0]) then CollectFiles(directory, filenames[1..], modules, classes)
    else
      var path := ModulePath(directory, filenames[0]);
      if path !in modules then Failure(ImportError("No module named '" + path + "'"))
      else CollectFiles(directory, filenames[1..], modules, CollectMembers(modules[path], classes))
  }

  /** `load_classes_from_directory(directory)`, with the directory listing
      and the classes each importable module defines given as inputs. */
  method LoadClassesFromDirectory(directory: string, filenames: seq<string>, modules: map<string, seq<Member>>)
    returns (r: Result<map<string, RecordType>, PyError>)
    ensures r == CollectFiles(directory, filenames, modules, map[])
  {
    var classes: map<string, RecordType> := map[];
    var i := 0;
    while i < |filenames|
      invariant 0 <= i <= |filenames|
      invariant CollectFiles(directory, filenames[i..], modules, classes) == CollectFiles(directory, filenames, modules, map[])
    {
      var filename := filenames[i];
      assert filenames[i..][1..] == filenames[i + 1..];
      if IsClassFile(filename) {
        var path := ModulePath(directory, filename);
        if path !in modules {
          return Failure(ImportError("No module named '" + path + "'"));
        }
        var members := modules[path];
        ghost var before := classes;
        var j := 0;
        while j < |members|
          invariant 0 <= j <= |members|
          invariant CollectMembers(members[j..], classes) == CollectMembers(members, before)
        {
          var member := members[j];
          assert members[j..][1..] == members[j + 1..];
          if member.cls.RecordClass? {
            classes := classes[member.name := member.cls.t];
          }
          j := j + 1;
        }
        assert members[j..] == [];
      }
      i := i + 1;
    }
    assert filenames[i..] == [];
    r := Success(classes);
  }

  /** Some member of this module is named `name` and is a record class. */
  predicate DefinesRecordClass(members: seq<Member>, name: string)
  {
    exists j :: 0 <= j < |members| && members[j].name == name && members[j].cls.RecordClass?
  }

  /** The class file `filename` imports to a module that defines a record
      class under `name`. */
  predicate Provides(directory: string, filename: string, modules: map<string, seq<Member>>, name: string)
  {
    && IsClassFile(filename)
    && ModulePath(directory, filename) in modules
    && DefinesRecordClass(modules[ModulePath(directory, filename)], name)
  }

  /** The inner loop enters exactly the names of record-class members. */
  lemma {:induction false} CollectMembersNames(members: seq<Member>, classes: map<string, RecordType>, name: string)
    ensures name in CollectMembers(members, classes) <==> name in classes || DefinesRecordClass(members, name)
  {
    if members != [] {
      var m := members[0];
      var next := if m.cls.RecordClass? then classes[m.name := m.cls.t] else classes;
      CollectMembersNames(members[1..], next, name);
      if DefinesRecordClass(members[1..], name) {
        var j :| 0 <= j < |members[1..]| && members[1..][j].name == name && members[1..][j].cls.RecordClass?;
        assert members[j + 1] == members[1..][j];
      }
      if DefinesRecordClass(members, name) && !(name in classes) && !(m.name == name && m.cls.RecordClass?) {
        var j :| 0 <= j < |members| && members[j].name == name && members[j].cls.RecordClass?;
        assert j > 0 && members[1..][j - 1] == members[j];
      }
    }
  }

  /** Discovery keys the result by member name: a name is in the result
      exactly when some class file's module defines a BaseObject subclass
      (other than BaseObject) under that name, so duplicates collapse. */
  lemma {:induction false} DiscoveredNames(directory: string, filenames: seq<string>,
                                           modules: map<string, seq<Member>>, classes: map<string, RecordType>,
                                           name: string)
    requires CollectFiles(directory, filenames, modules, classes).Success?
    ensures name in CollectFiles(directory, filenames, modules, classes).value <==>
              name in classes || exists i :: 0 <= i < |filenames| && Provides(directory, filenames[i], modules, name)
  {
    if filenames != [] {
      var f := filenames[0];
      var rest := filenames[1..];
      var next := if IsClassFile(f) then CollectMembers(modules[ModulePath(directory, f)], classes) else classes;
      DiscoveredNames(directory, rest, modules, next, name);
      if IsClassFile(f) {
        CollectMembersNames(modules[ModulePath(directory, f)], classes, name);
      }
      assert name in next <==> name in classes || Provides(directory, f, modules, name);
      if exists i :: 0 <= i < |rest| && Provides(directory, rest[i], modules, name) {
        var i :| 0 <= i < |rest| && Provides(directory, rest[i], modules, name);
        assert filenames[i + 1] == rest[i];
      }
      if exists i :: 0 <= i < |filenames| && Provides(directory, filenames[i], modules, name) {
        var i :| 0 <= i < |filenames| && Provides(directory, filenames[i], modules, name);
        if i > 0 {
          assert rest[i - 1] == filenames[i];
        }
      }
    }
  }

  /** Member j of the module is the record class `t` under `name`, and no
      later member of the module is a record class under that name. */
  predicate LastDefinedAt(members: seq<Member>, name: string, t: RecordType, j: int)
  {
    && 0 <= j < |members| && members[j] == Member(name, RecordClass(t))
    && forall k :: j < k < |members| ==> !(members[k].name == name && members[k].cls.RecordClass?)
  }

  /** The inner loop keeps the last record class a module defines under a
      name (`classes[name] = obj` overwrites); a name the module does not
      define keeps the class it had. */
  lemma {:induction false} CollectMembersClass(members: seq<Member>, classes: map<string, RecordType>, name: string)
    requires name in CollectMembers(members, classes)
    ensures !DefinesRecordClass(members, name) ==>
              name in classes && CollectMembers(members, classes)[name] == classes[name]
    ensures DefinesRecordClass(members, name) ==>
              exists j :: 0 <= j < |members| && LastDefinedAt(members, name, CollectMembers(members, classes)[name], j)
  {
    if members != [] {
      var m := members[0];
      var rest := members[1..];
      var next := if m.cls.RecordClass? then classes[m.name := m.cls.t] else classes;
      var t := CollectMembers(members, classes)[name];
      assert CollectMembers(rest, next) == CollectMembers(members, classes);
      CollectMembersClass(rest, next, name);
      if DefinesRecordClass(rest, name) {
        var j :| 0 <= j < |rest| && LastDefinedAt(rest, name, t, j);
        assert members[j + 1] == rest[j];
        forall k | j + 1 < k < |members| ensures !(members[k].name == name && members[k].cls.RecordClass?) {
          assert members[k] == rest[k - 1];
        }
        assert LastDefinedAt(members, name, t, j + 1);
      } else {
        forall k | 0 < k < |members| ensures !(members[k].name == name && members[k].cls.RecordClass?) {
          assert members[k] == rest[k - 1];
        }
        if m.name == name && m.cls.RecordClass? {
          assert LastDefinedAt(members, name, t, 0);
        }
      }
    }
  }

  /** The class file `filename` imports to a module whose last record class
      under `name` is `t`. */
  predicate ProvidesLast(directory: string, filename: string, modules: map<string, seq<Member>>,
                         name: string, t: RecordType)
  {
    && Provides(directory, filename, modules, name)
    && var members := modules[ModulePath(directory, filename)];
       exists j :: 0 <= j < |members| && LastDefinedAt(members, name, t, j)
  }

  /** Which class a discovered name maps to: the last record class defined
      under that name, in the last class file (in listing order) whose
      module defines one; later files and later members overwrite earlier
      ones. A name no class file provides keeps its earlier class. */
  lemma {:induction false} DiscoveredClasses(directory: string, filenames: seq<string>,
                                             modules: map<string, seq<Member>>, classes: map<string, RecordType>,
                                             name: string)
    requires CollectFiles(directory, filenames, modules, classes).Success?
    requires name in CollectFiles(directory, filenames, modules, classes).value
    ensures var t := CollectFiles(directory, filenames, modules, classes).value[name];
            (forall i :: 0 <= i < |filenames| ==> !Provides(directory, filenames[i], modules, name)) ==>
              name in classes && t == classes[name]
    ensures var t := CollectFiles(directory, filenames, modules, classes).value[name];
            (exists i :: 0 <= i < |filenames| && Provides(directory, filenames[i], modules, name)) ==>
              exists i :: && 0 <= i < |filenames| && ProvidesLast(directory, filenames[i], modules, name, t)
                          && forall k :: i < k < |filenames| ==> !Provides(directory, filenames[k], modules, name)
  {
    if filenames != [] {
      var f := filenames[0];
      var rest := filenames[1..];
      var t := CollectFiles(directory, filenames, modules, classes).value[name];
      var next := if IsClassFile(f) then CollectMembers(modules[ModulePath(directory, f)], classes) else classes;
      assert CollectFiles(directory, rest, modules, next) == CollectFiles(directory, filenames, modules, classes);
      DiscoveredClasses(directory, rest, modules, next, name);
      if exists i :: 0 <= i < |rest| && Provides(directory, rest[i], modules, name) {
        var i :| && 0 <= i < |rest| && ProvidesLast(directory, rest[i], modules, name, t)
                 && forall k :: i < k < |rest| ==> !Provides(directory, rest[k], modules, name);
        assert filenames[i + 1] == rest[i];
        forall k | i + 1 < k < |filenames| ensures !Provides(directory, filenames[k], modules, name) {
          assert filenames[k] == rest[k - 1];
        }
      } else {
        forall k | 0 < k < |filenames| ensures !Provides(directory, filenames[k], modules, name) {
          assert filenames[k] == rest[k - 1];
        }
        if IsClassFile(f) {
          CollectMembersClass(modules[ModulePath(directory, f)], classes, name);
        }
        if Provides(directory, f, modules, name) {
          assert ProvidesLast(directory, f, modules, name, t);
        }
      }
    }
  }

  /** Discovery fails (ImportError) exactly when some class file names a
      module that cannot be imported. */
  lemma {:induction false} DiscoveryFails(directory: string, filenames: seq<string>,
                                          modules: map<string, seq<Member>>, classes: map<string, RecordType>)
    ensures CollectFiles(directory, filenames, modules, classes).Failure? <==>
              exists i :: 0 <= i < |filenames| && IsClassFile(filenames[i]) && ModulePath(directory, filenames[i]) !in modules
  {
    if filenames != [] {
      var f := filenames[0];
      var rest := filenames[1..];
      var next := if IsClassFile(f) && ModulePath(directory, f) in modules
                  then CollectMembers(modules[ModulePath(directory, f)], classes) else classes;
      DiscoveryFails(directory, rest, modules, next);
      if exists i :: 0 <= i < |rest| && IsClassFile(rest[i]) && ModulePath(directory, rest[i]) !in modules {
        var i :| 0 <= i < |rest| && IsClassFile(rest[i]) && ModulePath(directory, rest[i]) !in modules;
        assert filenames[i + 1] == rest[i];
      }
      if exists i :: 0 <= i < |filenames| && IsClassFile(filenames[i]) && ModulePath(directory, filenames[i]) !in modules {
        var i :| 0 <= i < |filenames| && IsClassFile(filenames[i]) && ModulePath(directory, filenames[i]) !in modules;
        if i > 0 {
          assert rest[i - 1] == filenames[i];
        }
      }
    }
  }
}

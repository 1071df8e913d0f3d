/** The generic record store of `BaseObject`: each record class owns one
    JSON file holding an ordered list of attribute dictionaries. The file
    system is a value mapping file names to those lists; a name that is not
    in the map is a file that does not exist. */
module Store {
  import opened Wrappers
  import opened Python

  /** The JSON files on disk, by name. */
  type FileSystem = map<string, seq<Record>>

  /** The disk that `save` rewrites. */
  class Disk {
    var files: FileSystem

    constructor (files: FileSystem)
      ensures this.files == files
    {
      this.files := files;
    }
  }

  /** The error raised when a class does not declare `storage_file`. */
  const MissingStorageFile := ValueError("Subclass must define storage_file.")

  /** The list held by file `name`, the empty list when the file does not exist. */
  function Stored(files: FileSystem, name: string): seq<Record>
  {
    if name in files then files[name] else []
  }

  /** `load_all`: fails when no storage file is declared; otherwise the
      whole stored list, and the empty list when the file does not exist. */
  function LoadAll(storageFile: Option<string>, files: FileSystem): (r: Result<seq<Record>, PyError>)
    ensures r.Failure? <==> storageFile.None?
    ensures r.Failure? ==> r.error == MissingStorageFile
    ensures storageFile.Some? && storageFile.value !in files ==> r == Success([])
    ensures storageFile.Some? && storageFile.value in files ==> r == Success(files[storageFile.value])
  {
    match storageFile
    case None => Failure(MissingStorageFile)
    case Some(name) => Success(Stored(files, name))
  }

  /** `obj.get('id')` */
  function IdOf(obj: Record): Json
  {
    Get(obj, "id", Null)
  }

  /** The position of the first record whose id equals `id`: the scan that
      both `find_by_id` and the loop in `save` perform. */
  function FirstWithId(objs: seq<Record>, id: Json): (r: Option<nat>)
    ensures r.Some? ==> r.value < |objs| && IdOf(objs[r.value]) == id
    ensures r.Some? ==> forall j :: 0 <= j < r.value ==> IdOf(objs[j]) != id
    ensures r.None? ==> forall j :: 0 <= j < |objs| ==> IdOf(objs[j]) != id
  {
    if objs == [] then None
    else if IdOf(objs[0]) == id then Some(0)
    else match FirstWithId(objs[1..], id)
      case None => None
      case Some(k) => Some(k + 1)
  }

  /** The lookup of `find_by_id` on a loaded list: the first record whose id
      equals `objId`, where an empty first match counts as not found
      (`if data`). */
  function Find(objs: seq<Record>, objId: Json): (r: Option<Record>)
    ensures r.Some? ==> r.value != map[] && IdOf(r.value) == objId
    ensures r.Some? ==> exists i :: 0 <= i < |objs| && objs[i] == r.value &&
                          forall j :: 0 <= j < i ==> IdOf(objs[j]) != objId
    ensures r.None? && objId != Null ==> forall i :: 0 <= i < |objs| ==> IdOf(objs[i]) != objId
  {
    match FirstWithId(objs, objId)
    case None => None
    case Some(i) => if objs[i] == map[] then None else Some(objs[i])
  }

  /** `find_by_id`: `load_all`, then the first record with that id, or
      None; the record is returned as its attribute dictionary. */
  function FindById(storageFile: Option<string>, files: FileSystem, objId: Json): (r: Result<Option<Record>, PyError>)
    ensures r.Failure? <==> storageFile.None?
    ensures r.Success? ==> r.value == Find(Stored(files, storageFile.value), objId)
  {
    match LoadAll(storageFile, files)
    case Failure(e) => Failure(e)
    case Success(all) => Success(Find(all, objId))
  }

  /** The integer value of `v` when `isinstance(v, int)`; Python's bool is a
      subclass of int, so True is 1 and False is 0. */
  function IntId(v: Json): Option<int>
  {
    match v
    case Int(i) => Some(i)
    case Bool(b) => Some(if b then 1 else 0)
    case _ => None
  }

  /** The largest integer id of the list, None when no record has one. */
  function MaxIntId(objs: seq<Record>): (r: Option<int>)
    ensures r.None? <==> forall k :: 0 <= k < |objs| ==> IntId(IdOf(objs[k])).None?
    ensures r.Some? ==> forall k :: 0 <= k < |objs| && IntId(IdOf(objs[k])).Some? ==>
                          IntId(IdOf(objs[k])).value <= r.value
    ensures r.Some? ==> exists k :: 0 <= k < |objs| && IntId(IdOf(objs[k])) == r
  {
    if objs == [] then None
    else
      var rest := MaxIntId(objs[1..]);
      match IntId(IdOf(objs[0]))
      case None => rest
      case Some(i) =>
        match rest
        case None => Some(i)
        case Some(m) => Some(if i >= m then i else m)
  }

  /** `_next_id`: one more than the largest integer id, 1 when there is none;
      so it exceeds every integer id in the list. */
  function NextId(objs: seq<Record>): (r: int)
    ensures forall k :: 0 <= k < |objs| && IntId(IdOf(objs[k])).Some? ==> IntId(IdOf(objs[k])).value < r
    ensures (forall k :: 0 <= k < |objs| ==> IntId(IdOf(objs[k])).None?) ==> r == 1
    ensures (exists k :: 0 <= k < |objs| && IntId(IdOf(objs[k])).Some?) ==>
              exists k :: 0 <= k < |objs| && IntId(IdOf(objs[k])) == Some(r - 1)
  {
    match MaxIntId(objs)
    case None => 1
    case Some(m) => m + 1
  }

  /** `BaseObject.__init__(id, **kwargs)`: the keyword arguments, plus `id`
      exactly when it is not None. */
  function InitAttributes(id: Json, kwargs: Record): (r: Record)
    requires "id" !in kwargs
    ensures "id" in r <==> id != Null
    ensures "id" in r ==> r["id"] == id
    ensures r.Keys - {"id"} == kwargs.Keys
    ensures forall k :: k in kwargs ==> r[k] == kwargs[k]
  {
    if id != Null then kwargs["id" := id] else kwargs
  }

  /** The attribute dictionary as `save` leaves it: `updated_at` stamped with
      `now` (overwriting any old value), and a fresh id when it has none. An
      id it already has is kept, and a fresh id matches no stored record. */
  function Prepared(attrs: Record, now: string, all: seq<Record>): (r: Record)
    ensures r.Keys == attrs.Keys + {"updated_at", "id"}
    ensures r["updated_at"] == Str(now)
    ensures "id" in attrs ==> r["id"] == attrs["id"]
    ensures "id" !in attrs ==> r["id"] == Int(NextId(all))
    ensures "id" !in attrs ==> forall k :: 0 <= k < |all| ==> IdOf(all[k]) != r["id"]
    ensures forall k :: k in attrs && k != "updated_at" && k != "id" ==> r[k] == attrs[k]
  {
    var stamped := attrs["updated_at" := Str(now)];
    if "id" in stamped then stamped else stamped["id" := Int(NextId(all))]
  }

  /** The list `save` writes back: `rec` replaces the first record with the
      same id, or is appended when no record has it. */
  function Upsert(all: seq<Record>, rec: Record): (r: seq<Record>)
    requires "id" in rec
    ensures rec in r
    ensures |all| <= |r| <= |all| + 1
    ensures forall x :: x in all && IdOf(x) != rec["id"] ==> x in r
  {
    if all == [] then [rec]
    else if IdOf(all[0]) == rec["id"] then [rec] + all[1..]
    else [all[0]] + Upsert(all[1..], rec)
  }

  /** When record `i` is the first with the saved record's id, `save`
      replaces it in place: same length, every other entry unchanged. */
  lemma {:induction false} UpsertReplacesFirstMatch(all: seq<Record>, rec: Record, i: nat)
    requires "id" in rec
    requires i < |all| && IdOf(all[i]) == rec["id"]
    requires forall j :: 0 <= j < i ==> IdOf(all[j]) != rec["id"]
    ensures Upsert(all, rec) == all[i := rec]
  {
    if i > 0 {
      UpsertReplacesFirstMatch(all[1..], rec, i - 1);
      assert all[i := rec] == [all[0]] + all[1..][i - 1 := rec];
    }
  }

  /** When no record has the saved record's id, `save` appends it. */
  lemma {:induction false} UpsertAppendsWhenAbsent(all: seq<Record>, rec: Record)
    requires "id" in rec
    requires forall j :: 0 <= j < |all| ==> IdOf(all[j]) != rec["id"]
    ensures Upsert(all, rec) == all + [rec]
  {
    if all != [] {
      UpsertAppendsWhenAbsent(all[1..], rec);
      assert all + [rec] == [all[0]] + (all[1..] + [rec]);
    }
  }

  /** The upsert in terms of the scan: replace at the first match, or append. */
  lemma UpsertPlacement(all: seq<Record>, rec: Record)
    requires "id" in rec
    ensures FirstWithId(all, rec["id"]).Some? ==> Upsert(all, rec) == all[FirstWithId(all, rec["id"]).value := rec]
    ensures FirstWithId(all, rec["id"]).None? ==> Upsert(all, rec) == all + [rec]
  {
    match FirstWithId(all, rec["id"])
    case Some(i) => UpsertReplacesFirstMatch(all, rec, i);
    case None => UpsertAppendsWhenAbsent(all, rec);
  }

  /** No two records of a store that carry an id share it. */
  predicate UniqueIds(all: seq<Record>)
  {
    forall i, j :: 0 <= i < j < |all| && IdOf(all[i]) != Null ==> IdOf(all[i]) != IdOf(all[j])
  }

  /** Saving keeps the ids of a store unique: the record either takes the
      slot of the only record with its id, or its id is new to the store. */
  lemma UpsertKeepsIdsUnique(all: seq<Record>, rec: Record)
    requires "id" in rec && UniqueIds(all)
    ensures UniqueIds(Upsert(all, rec))
  {
    assert IdOf(rec) == rec["id"];
    match FirstWithId(all, rec["id"])
    case Some(i) =>
      UpsertReplacesFirstMatch(all, rec, i);
    case None =>
      UpsertAppendsWhenAbsent(all, rec);
  }

  /** After a save, looking the record up by its id finds exactly the record
      just written. */
  lemma SavedRecordIsFound(all: seq<Record>, rec: Record)
    requires "id" in rec
    ensures Find(Upsert(all, rec), rec["id"]) == Some(rec)
  {
    var written := Upsert(all, rec);
    match FirstWithId(all, rec["id"])
    case Some(i) =>
      UpsertReplacesFirstMatch(all, rec, i);
      FirstMatchIsFound(written, rec, i);
    case None =>
      UpsertAppendsWhenAbsent(all, rec);
      FirstMatchIsFound(written, rec, |all|);
  }

  /** A non-empty record at i with no earlier record sharing its id is what
      the lookup by that id returns. */
  lemma FirstMatchIsFound(objs: seq<Record>, rec: Record, i: nat)
    requires "id" in rec && i < |objs| && objs[i] == rec
    requires forall j :: 0 <= j < i ==> IdOf(objs[j]) != rec["id"]
    ensures Find(objs, rec["id"]) == Some(rec)
  {
    assert IdOf(rec) == rec["id"];
    FirstWithIdAt(objs, rec["id"], i);
  }

  /** The scan stops at the first record carrying the id. */
  lemma {:induction false} FirstWithIdAt(objs: seq<Record>, id: Json, i: nat)
    requires i < |objs| && IdOf(objs[i]) == id
    requires forall j :: 0 <= j < i ==> IdOf(objs[j]) != id
    ensures FirstWithId(objs, id) == Some(i)
  {
    if i > 0 {
      FirstWithIdAt(objs[1..], id, i - 1);
    }
  }

  /** A record saved without an id gets a fresh one and is appended after
      every stored record. This rests on ids comparing structurally: under
      Python's `==` a fresh int id can equal a stored float id such as 2.0,
      which `_next_id` skips, and `save` would overwrite that record. */
  lemma SaveWithoutIdAppends(attrs: Record, now: string, all: seq<Record>)
    requires "id" !in attrs
    ensures Upsert(all, Prepared(attrs, now, all)) == all + [Prepared(attrs, now, all)]
  {
    UpsertAppendsWhenAbsent(all, Prepared(attrs, now, all));
  }

  /** Saving a record that has an id which some stored record carries keeps
      the list's length and changes only the first such record. */
  lemma SaveWithKnownIdReplaces(attrs: Record, now: string, all: seq<Record>, i: nat)
    requires "id" in attrs
    requires i < |all| && IdOf(all[i]) == attrs["id"]
    requires forall j :: 0 <= j < i ==> IdOf(all[j]) != attrs["id"]
    ensures |Upsert(all, Prepared(attrs, now, all))| == |all|
    ensures Upsert(all, Prepared(attrs, now, all))[i] == Prepared(attrs, now, all)
    ensures forall j :: 0 <= j < |all| && j != i ==> Upsert(all, Prepared(attrs, now, all))[j] == all[j]
  {
    UpsertReplacesFirstMatch(all, Prepared(attrs, now, all), i);
  }

  /** Saving a new record into a store whose file does not exist yet writes
      a one-record list; the record gets id 1, keeps its fields, and is found
      again by that id. */
  lemma SaveIntoEmptyStore(attrs: Record, now: string, files: FileSystem, name: string)
    requires "id" !in attrs && name !in files
    ensures var saved := Prepared(attrs, now, Stored(files, name));
            var written := files[name := Upsert(Stored(files, name), saved)];
            && saved["id"] == Int(1)
            && (forall k :: k in attrs && k != "updated_at" ==> saved[k] == attrs[k])
            && LoadAll(Some(name), written) == Success([saved])
            && FindById(Some(name), written, Int(1)) == Success(Some(saved))
  {
    var saved := Prepared(attrs, now, Stored(files, name));
    SaveWithoutIdAppends(attrs, now, []);
    SavedRecordIsFound([], saved);
  }

  /** An object of a `BaseObject` subclass: its class's name and storage
      file, and its attribute dictionary. */
  class BaseObject {
    const className: string
    const storageFile: Option<string>
    var attributes: Record

    /** An instance holding `attributes`: `BaseObject.__init__` computes them
        with InitAttributes; `from_dict` passes a loaded dictionary as is. */
    constructor (className: string, storageFile: Option<string>, attributes: Record)
      ensures this.className == className && this.storageFile == storageFile
      ensures this.attributes == attributes
    {
      this.className := className;
      this.storageFile := storageFile;
      this.attributes := attributes;
    }

    /** `set_attribute(key, value)`: only `key` changes. */
    method SetAttribute(key: string, value: Json)
      modifies this
      ensures attributes == old(attributes)[key := value]
      ensures GetAttribute(key, Null) == value
      ensures forall k :: k != key ==> GetAttribute(k, Null) == old(GetAttribute(k, Null))
    {
      attributes := attributes[key := value];
    }

    /** `get_attribute(key, default)`: the stored value, or `default` when the
        key is absent. */
    function GetAttribute(key: string, default: Json): (v: Json)
      reads this
      ensures key in attributes ==> v == attributes[key]
      ensures key !in attributes ==> v == default
    {
      Get(attributes, key, default)
    }

    /** `to_dict`: the attribute dictionary. */
    function ToDict(): (d: Record)
      reads this
      ensures d == attributes
    {
      attributes
    }

    /** `save`: without a storage file it raises ValueError and changes
        nothing; otherwise it stamps `updated_at`, gives a fresh id when there
        is none, replaces the first stored record with the same id in place
        or appends, and rewrites the whole file. */
    method Save(disk: Disk, now: string) returns (outcome: Outcome<PyError>)
      modifies this, disk
      ensures storageFile.None? ==>
        outcome == Fail(MissingStorageFile) && attributes == old(attributes) && disk.files == old(disk.files)
      ensures storageFile.Some? ==>
        var all := Stored(old(disk.files), storageFile.value);
        && outcome == Pass
        && attributes == Prepared(old(attributes), now, all)
        && disk.files == old(disk.files)[storageFile.value := Upsert(all, attributes)]
    {
      if storageFile.None? {
        return Fail(MissingStorageFile);
      }
      attributes := attributes["updated_at" := Str(now)];
      var allObjs := LoadAll(storageFile, disk.files).value;
      if "id" !in attributes {
        attributes := attributes["id" := Int(NextId(allObjs))];
      }
      var id := attributes["id"];
      ghost var loaded := allObjs;
      var index := 0;
      var replaced := false;
      while index < |allObjs| && !replaced
        invariant 0 <= index <= |loaded|
        invariant forall j :: 0 <= j < index ==> IdOf(loaded[j]) != id
        invariant !replaced ==> allObjs == loaded
        invariant replaced ==> index < |loaded| && IdOf(loaded[index]) == id && allObjs == loaded[index := attributes]
        decreases |allObjs| - index, !replaced
      {
        if IdOf(allObjs[index]) == id {
          allObjs := allObjs[index := attributes];
          replaced := true;
        } else {
          index := index + 1;
        }
      }
      if replaced {
        UpsertReplacesFirstMatch(loaded, attributes, index);
      } else {
        UpsertAppendsWhenAbsent(loaded, attributes);
        allObjs := allObjs + [attributes];
      }
      disk.files := disk.files[storageFile.value := allObjs];
      outcome := Pass;
    }
  }
}

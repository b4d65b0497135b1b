/**
 * The in-memory storage engine (db.go): named databases (namespaces), each
 * a flat map from key to value. Every operation runs under the engine's
 * lock in the original, so each one is modelled as a single atomic step.
 */
module Store {
  import opened Wrappers
  import opened Responses

  type KeyMap = map<string, string>

  /** The whole collection: database name to its key map. */
  type Maps = map<string, KeyMap>

  /** The new collection and the error an operation returns (`Pass` is Go's nil). */
  datatype Effect = Effect(maps: Maps, result: Outcome<Response>)

  /** No database other than `name` is added, removed or changed. */
  ghost predicate OthersUnchanged(m: Maps, m': Maps, name: string) {
    forall n :: n != name ==> (n in m <==> n in m') && (n in m ==> m'[n] == m[n])
  }

  /** No key other than `key` is added, removed or changed. */
  ghost predicate OtherKeysUnchanged(km: KeyMap, km': KeyMap, key: string) {
    forall k :: k != key ==> (k in km <==> k in km') && (k in km ==> km'[k] == km[k])
  }

  /** `CreateDB`: a new, empty database; an existing name is refused. */
  function CreateDBEffect(m: Maps, name: string): (e: Effect)
    ensures name in m ==> e == Effect(m, Fail(AlreadyExists))
    ensures name !in m ==>
      e.result == Pass && name in e.maps && e.maps[name] == map[] && OthersUnchanged(m, e.maps, name)
  {
    if name in m then Effect(m, Fail(AlreadyExists))
    else Effect(m[name := map[]], Pass)
  }

  /** `DeleteDB`: removes a database with all its keys; an unknown name is refused. */
  function DeleteDBEffect(m: Maps, name: string): (e: Effect)
    ensures name !in m ==> e == Effect(m, Fail(DatabaseNotFound))
    ensures name in m ==> e.result == Pass && name !in e.maps && OthersUnchanged(m, e.maps, name)
  {
    if name !in m then Effect(m, Fail(DatabaseNotFound))
    else Effect(m - {name}, Pass)
  }

  /**
   * `Add`: inserts a new key. The database is checked before the key, and
   * an existing key is never overwritten.
   */
  function AddEffect(m: Maps, db: string, key: string, value: string): (e: Effect)
    ensures db !in m ==> e == Effect(m, Fail(DatabaseNotFound))
    ensures db in m && key in m[db] ==> e == Effect(m, Fail(AlreadyExists))
    ensures db in m && key !in m[db] ==>
      && e.result == Pass && db in e.maps && OthersUnchanged(m, e.maps, db)
      && e.maps[db].Keys == m[db].Keys + {key} && e.maps[db][key] == value
      && OtherKeysUnchanged(m[db], e.maps[db], key)
  {
    if db !in m then Effect(m, Fail(DatabaseNotFound))
    else if key in m[db] then Effect(m, Fail(AlreadyExists))
    else Effect(m[db := m[db][key := value]], Pass)
  }

  /** `Get`: the stored value; a missing database is reported before a missing key. */
  function Lookup(m: Maps, db: string, key: string): (r: Result<string, Response>)
    ensures r.Success? <==> db in m && key in m[db]
    ensures r.Success? ==> r.value == m[db][key]
    ensures r.Failure? ==> r.error == if db !in m then DatabaseNotFound else KeyNotFound
  {
    if db !in m then Failure(DatabaseNotFound)
    else if key !in m[db] then Failure(KeyNotFound)
    else Success(m[db][key])
  }

  /** `Remove`: deletes one key and nothing else. */
  function RemoveEffect(m: Maps, db: string, key: string): (e: Effect)
    ensures db !in m ==> e == Effect(m, Fail(DatabaseNotFound))
    ensures db in m && key !in m[db] ==> e == Effect(m, Fail(KeyNotFound))
    ensures db in m && key in m[db] ==>
      && e.result == Pass && db in e.maps && OthersUnchanged(m, e.maps, db)
      && e.maps[db].Keys == m[db].Keys - {key}
      && OtherKeysUnchanged(m[db], e.maps[db], key)
  {
    if db !in m then Effect(m, Fail(DatabaseNotFound))
    else if key !in m[db] then Effect(m, Fail(KeyNotFound))
    else Effect(m[db := m[db] - {key}], Pass)
  }

  /** `Update`: overwrites the value of an existing key; it never creates a key. */
  function UpdateEffect(m: Maps, db: string, key: string, value: string): (e: Effect)
    ensures db !in m ==> e == Effect(m, Fail(DatabaseNotFound))
    ensures db in m && key !in m[db] ==> e == Effect(m, Fail(KeyNotFound))
    ensures db in m && key in m[db] ==>
      && e.result == Pass && db in e.maps && OthersUnchanged(m, e.maps, db)
      && e.maps[db].Keys == m[db].Keys && e.maps[db][key] == value
      && OtherKeysUnchanged(m[db], e.maps[db], key)
  {
    if db !in m then Effect(m, Fail(DatabaseNotFound))
    else if key !in m[db] then Effect(m, Fail(KeyNotFound))
    else Effect(m[db := m[db][key := value]], Pass)
  }

  /**
   * The deferred `Save`: a successful mutation of a file-backed database
   * hands the collection, as it is after the mutation, to the file writer.
   */
  ghost function SaveLog(path: string, succeeded: bool, after: Maps): (log: seq<Maps>)
    ensures log == [] || log == [after]
    ensures log != [] <==> path != "" && succeeded
  {
    if path != "" && succeeded then [after] else []
  }

  /** The storage engine. `path` is empty for a purely in-memory database. */
  class Database {
    const path: string
    var maps: Maps
    /** Read and cleared by the backup step only; no operation here sets it. */
    var dirty: bool
    /** Every collection a deferred `Save` was asked to write, oldest first. */
    ghost var saves: seq<Maps>
    /** Every collection the backup step handed to the file writer, oldest first. */
    ghost var backups: seq<Maps>

    /** `NewDatabase`. */
    constructor (path: string)
      ensures this.path == path && maps == map[] && !dirty && saves == [] && backups == []
    {
      this.path := path;
      maps := map[];
      dirty := false;
      saves := [];
      backups := [];
    }

    method CreateDB(name: string) returns (err: Outcome<Response>)
      modifies this`maps, this`saves
      ensures var e := CreateDBEffect(old(maps), name); maps == e.maps && err == e.result
      ensures saves == old(saves) + SaveLog(path, err.Pass?, maps)
    {
      if name in maps {
        return Fail(AlreadyExists);
      }
      maps := maps[name := map[]];
      if path != "" {
        saves := saves + [maps];
      }
      return Pass;
    }

    method DeleteDB(name: string) returns (err: Outcome<Response>)
      modifies this`maps, this`saves
      ensures var e := DeleteDBEffect(old(maps), name); maps == e.maps && err == e.result
      ensures saves == old(saves) + SaveLog(path, err.Pass?, maps)
    {
      if name !in maps {
        return Fail(DatabaseNotFound);
      }
      maps := maps - {name};
      if path != "" {
        saves := saves + [maps];
      }
      return Pass;
    }

    method Add(db: string, key: string, value: string) returns (err: Outcome<Response>)
      modifies this`maps, this`saves
      ensures var e := AddEffect(old(maps), db, key, value); maps == e.maps && err == e.result
      ensures saves == old(saves) + SaveLog(path, err.Pass?, maps)
    {
      if db !in maps {
        return Fail(DatabaseNotFound);
      }
      var keys := maps[db];
      if key in keys {
        return Fail(AlreadyExists);
      }
      maps := maps[db := keys[key := value]];
      if path != "" {
        saves := saves + [maps];
      }
      return Pass;
    }

    method Get(db: string, key: string) returns (r: Result<string, Response>)
      ensures r == Lookup(maps, db, key)
    {
      if db !in maps {
        return Failure(DatabaseNotFound);
      }
      var keys := maps[db];
      if key !in keys {
        return Failure(KeyNotFound);
      }
      return Success(keys[key]);
    }

    method Remove(db: string, key: string) returns (err: Outcome<Response>)
      modifies this`maps, this`saves
      ensures var e := RemoveEffect(old(maps), db, key); maps == e.maps && err == e.result
      ensures saves == old(saves) + SaveLog(path, err.Pass?, maps)
    {
      if db !in maps {
        return Fail(DatabaseNotFound);
      }
      var keys := maps[db];
      if key !in keys {
        return Fail(KeyNotFound);
      }
      maps := maps[db := keys - {key}];
      if path != "" {
        saves := saves + [maps];
      }
      return Pass;
    }

    method Update(db: string, key: string, newValue: string) returns (err: Outcome<Response>)
      modifies this`maps, this`saves
      ensures var e := UpdateEffect(old(maps), db, key, newValue); maps == e.maps && err == e.result
      ensures saves == old(saves) + SaveLog(path, err.Pass?, maps)
    {
      if db !in maps {
        return Fail(DatabaseNotFound);
      }
      var keys := maps[db];
      if key !in keys {
        return Fail(KeyNotFound);
      }
      maps := maps[db := keys[key := newValue]];
      if path != "" {
        saves := saves + [maps];
      }
      return Pass;
    }
  }

  // ---------------------------------------------------------------------
  // Properties of the operations, stated on the specification functions.
  // ---------------------------------------------------------------------

  /** A failed operation leaves the whole collection as it was. */
  lemma FailureChangesNothing(m: Maps, name: string, key: string, value: string)
    ensures CreateDBEffect(m, name).result.Fail? ==> CreateDBEffect(m, name).maps == m
    ensures DeleteDBEffect(m, name).result.Fail? ==> DeleteDBEffect(m, name).maps == m
    ensures AddEffect(m, name, key, value).result.Fail? ==> AddEffect(m, name, key, value).maps == m
    ensures RemoveEffect(m, name, key).result.Fail? ==> RemoveEffect(m, name, key).maps == m
    ensures UpdateEffect(m, name, key, value).result.Fail? ==> UpdateEffect(m, name, key, value).maps == m
  {
  }

  /** Creating a database twice: the second call is refused and counts nothing new. */
  lemma CreateDBTwice(m: Maps, name: string)
    ensures var first := CreateDBEffect(m, name);
            var second := CreateDBEffect(first.maps, name);
            second == Effect(first.maps, Fail(AlreadyExists))
  {
  }

  /** Deleting a database just created gives back the collection it was created in. */
  lemma {:induction false} DeleteUndoesCreate(m: Maps, name: string)
    requires name !in m
    ensures DeleteDBEffect(CreateDBEffect(m, name).maps, name) == Effect(m, Pass)
  {
    assert CreateDBEffect(m, name).maps - {name} == m;
  }

  /** A value just added is the value read back. */
  lemma AddThenGet(m: Maps, db: string, key: string, value: string)
    requires AddEffect(m, db, key, value).result == Pass
    ensures Lookup(AddEffect(m, db, key, value).maps, db, key) == Success(value)
  {
  }

  /** Removing a key just added gives back the collection it was added to. */
  lemma {:induction false} RemoveUndoesAdd(m: Maps, db: string, key: string, value: string)
    requires AddEffect(m, db, key, value).result == Pass
    ensures RemoveEffect(AddEffect(m, db, key, value).maps, db, key) == Effect(m, Pass)
  {
    assert m[db][key := value] - {key} == m[db];
    assert m[db := m[db]] == m;
  }

  /** After a successful `Remove`, reading the key reports it missing. */
  lemma RemoveThenGet(m: Maps, db: string, key: string)
    requires RemoveEffect(m, db, key).result == Pass
    ensures Lookup(RemoveEffect(m, db, key).maps, db, key) == Failure(KeyNotFound)
  {
  }

  /** `Update` never adds or drops a database or a key, whatever its outcome. */
  lemma UpdateKeepsKeys(m: Maps, db: string, key: string, value: string)
    ensures var m' := UpdateEffect(m, db, key, value).maps;
            m'.Keys == m.Keys && forall n :: n in m ==> m'[n].Keys == m[n].Keys
  {
  }

  /** A value written by a successful `Update` is the value read back. */
  lemma UpdateThenGet(m: Maps, db: string, key: string, value: string)
    requires UpdateEffect(m, db, key, value).result == Pass
    ensures Lookup(UpdateEffect(m, db, key, value).maps, db, key) == Success(value)
  {
  }

  // ---------------------------------------------------------------------
  // Racing inserts. Under the engine's lock, concurrent `Add` calls on one
  // key take effect one after another, in some order.
  // ---------------------------------------------------------------------

  /** The collection and the outcomes after `Add`s of `values`, in that order, to one key. */
  function AddAll(m: Maps, db: string, key: string, values: seq<string>): (r: (Maps, seq<Outcome<Response>>))
    ensures |r.1| == |values|
    decreases |values|
  {
    if values == [] then (m, [])
    else
      var e := AddEffect(m, db, key, values[0]);
      var rest := AddAll(e.maps, db, key, values[1..]);
      (rest.0, [e.result] + rest.1)
  }

  /** Once the key exists, every further `Add` is refused and changes nothing. */
  lemma {:induction false} AddAllPresent(m: Maps, db: string, key: string, values: seq<string>)
    requires db in m && key in m[db]
    ensures AddAll(m, db, key, values).0 == m
    ensures forall i :: 0 <= i < |values| ==> AddAll(m, db, key, values).1[i] == Fail(AlreadyExists)
    decreases |values|
  {
    if values != [] {
      AddAllPresent(m, db, key, values[1..]);
    }
  }

  /**
   * Of several `Add`s racing on one absent key, exactly the first to take
   * the lock succeeds, the others are told `ALREADY_EXISTS`, and the stored
   * value is the winner's.
   */
  lemma {:induction false} RacingAddsOneWinner(m: Maps, db: string, key: string, values: seq<string>)
    requires db in m && key !in m[db] && values != []
    ensures var (m', outcomes) := AddAll(m, db, key, values);
            && outcomes[0] == Pass
            && (forall i :: 1 <= i < |values| ==> outcomes[i] == Fail(AlreadyExists))
            && db in m' && key in m'[db] && m'[db][key] == values[0]
  {
    var e := AddEffect(m, db, key, values[0]);
    AddAllPresent(e.maps, db, key, values[1..]);
  }
}

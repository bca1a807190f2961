/** The store of the SDK: a content and a profile partition, written by `saveItem`
    (and through it by `set` and `init`), read by `get`, and enumerated by
    `listContent` and `listProfiles`. Each operation is first given as a function
    of the two partitions (`State`); the class `Store` then performs it on its
    fields and is proved to end in the state that function names. */
module Sdk {
  import opened JsValues
  import opened Strings
  import opened DatJson
  import opened Partitions

  datatype State = State(content: Partition, profile: Partition)

  ghost predicate ValidState(s: State) {
    WellFormed(s.content) && WellFormed(s.profile)
  }

  /** A store over a new, empty database. */
  const Fresh: State := State(Empty, Empty)

  function PartitionOf(s: State, db: Db): Partition {
    match db
    case ContentDb => s.content
    case ProfileDb => s.profile
  }

  function WithPartition(s: State, db: Db, p: Partition): (s': State)
    ensures PartitionOf(s', db) == p
    ensures forall other :: other != db ==> PartitionOf(s', other) == PartitionOf(s, other)
  {
    match db
    case ContentDb => s.(content := p)
    case ProfileDb => s.(profile := p)
  }

  function Other(db: Db): Db {
    match db
    case ContentDb => ProfileDb
    case ProfileDb => ContentDb
  }

  /** Where `saveItem(metadata)` writes: the partition `_getDb` picks for its string
      `type`, under the text of its `url`. It fails for a non-string type, for a type
      that ends in neither 'profile' nor 'content', and for a missing url. */
  function Target(metadata: Object): (r: Result<(Db, string)>)
    ensures r.Ok? <==>
      Prop(metadata, Type).Str? && Supported(Prop(metadata, Type).s) && Prop(metadata, Url) != Undefined
    ensures r.Ok? ==> GetDb(Prop(metadata, Type).s) == Ok(r.value.0)
    ensures r.Ok? ==> ToText(Prop(metadata, Url)) == Ok(r.value.1)
    ensures !Prop(metadata, Type).Str? ==> r == Err(TypePropertyRequired)
    ensures Prop(metadata, Type).Str? && !Supported(Prop(metadata, Type).s) ==>
      r == Err(GetDb(Prop(metadata, Type).s).error)
    ensures Prop(metadata, Type).Str? && Supported(Prop(metadata, Type).s) && Prop(metadata, Url) == Undefined ==>
      r == Err(TypeError)
  {
    var t := Prop(metadata, Type);
    if !t.Str? then Err(TypePropertyRequired)
    else match GetDb(t.s)
      case Err(e) => Err(e)
      case Ok(db) =>
        match ToText(Prop(metadata, Url))
        case Err(e) => Err(e)
        case Ok(key) => Ok((db, key))
  }

  /** The two index reducers on the content partition lower-case a record's title
      and description on every put; both must be strings, or the put throws. */
  predicate IndexTexts(metadata: Object) {
    Prop(metadata, Title).Str? && Prop(metadata, Description).Str?
  }

  /** `saveItem(metadata)`: the whole record, tagged by `_getAvroTypeName` of its
      type, overwrites its key; nothing is merged. A content record without string
      title and description fails in the index reducers with a TypeError. */
  function SaveItemSpec(s: State, metadata: Object): (r: Result<State>)
    ensures r.Ok? <==> Target(metadata).Ok? && (Target(metadata).value.0 == ContentDb ==> IndexTexts(metadata))
    ensures Target(metadata).Err? ==> r == Err(Target(metadata).error)
    ensures Target(metadata).Ok? && Target(metadata).value.0 == ContentDb && !IndexTexts(metadata) ==>
      r == Err(TypeError)
  {
    match Target(metadata)
    case Err(e) => Err(e)
    case Ok((db, key)) =>
      if db == ContentDb && !IndexTexts(metadata) then Err(TypeError)
      else
        var entry := Entry(AvroTypeName(Prop(metadata, Type).s), metadata);
        Ok(WithPartition(s, db, Put(PartitionOf(s, db), key, entry)))
  }

  /** saveItem keeps both partitions holding each key once, in order. */
  lemma SaveItemKeepsValid(s: State, metadata: Object)
    requires ValidState(s) && SaveItemSpec(s, metadata).Ok?
    ensures ValidState(SaveItemSpec(s, metadata).value)
  {
    var (db, key) := Target(metadata).value;
    PutWellFormed(PartitionOf(s, db), key, Entry(AvroTypeName(Prop(metadata, Type).s), metadata));
  }

  /** `set(values)`: a url is required and the type must end in 'profile' or
      'content' (a missing or non-string type has no `endsWith`); then `saveItem`. */
  function SetSpec(s: State, values: Object): (r: Result<State>)
    ensures r.Ok? ==> r == SaveItemSpec(s, values) && Prop(values, Type).Str? && Supported(Prop(values, Type).s)
  {
    var t := Prop(values, Type);
    if !Truthy(Prop(values, Url)) then Err(UrlRequired)
    else if !t.Str? then Err(TypeError)
    else if !Supported(t.s) then Err(TypeNotSupported)
    else SaveItemSpec(s, values)
  }

  /** `get(type, hash)`: the record stored under hash in the partition of type. */
  function GetSpec(s: State, moduleType: Value, hash: Value): (r: Result<Object>)
    ensures r.Ok? ==> moduleType.Str? && hash.Str? && Supported(moduleType.s)
  {
    if !moduleType.Str? then Err(TypeRequired)
    else if !hash.Str? then Err(HashRequired)
    else match GetDb(moduleType.s)
      case Err(e) => Err(e)
      case Ok(db) =>
        match Lookup(PartitionOf(s, db), hash.s)
        case None => Err(NotFound(hash.s))
        case Some(e) => Ok(e.value)
  }

  /** `init({type, title, description})` once the new archive exists: key is the
      archive's key, writable whether this peer may write it. The default record is
      saved and returned. */
  function InitSpec(s: State, moduleType: Value, title: Value, description: Value, key: string, writable: bool)
    : (r: Result<(State, Object)>)
    ensures r.Ok? ==> moduleType.Str? && Supported(moduleType.s)
  {
    if !moduleType.Str? then Err(TypeRequired)
    else if !Supported(moduleType.s) then Err(TypeNotSupported)
    else
      var datJSON := CreateDatJSON(moduleType, OrEmpty(title), OrEmpty(description), Str(key), Bool(writable)).value;
      match SaveItemSpec(s, datJSON)
      case Err(e) => Err(e)
      case Ok(s') => Ok((s', datJSON))
  }

  predicate IsWritable(o: Object) {
    Truthy(Prop(o, Writable))
  }

  /** The records whose `writable` is truthy, in the order given. */
  function Writables(vs: seq<Object>): (r: seq<Object>)
    ensures |r| <= |vs|
    ensures forall i :: 0 <= i < |r| ==> IsWritable(r[i])
    decreases |vs|
  {
    if vs == [] then []
    else Writables(vs[..|vs| - 1]) + (if IsWritable(vs[|vs| - 1]) then [vs[|vs| - 1]] else [])
  }

  /** What `listContent` / `listProfiles` return for a partition. */
  function Listed(p: Partition): (r: seq<Object>)
    requires WellFormed(p)
    ensures |r| <= |p.order|
    ensures forall i :: 0 <= i < |r| ==> IsWritable(r[i])
  {
    Writables(Values(p))
  }

  lemma {:induction false} WritablesMembers(vs: seq<Object>)
    ensures forall x :: x in Writables(vs) <==> x in vs && IsWritable(x)
  {
    if vs != [] {
      WritablesMembers(vs[..|vs| - 1]);
      assert vs == vs[..|vs| - 1] + [vs[|vs| - 1]];
    }
  }

  lemma {:induction false} WritablesConcat(a: seq<Object>, b: seq<Object>)
    ensures Writables(a + b) == Writables(a) + Writables(b)
    decreases |b|
  {
    if b != [] {
      var b' := b[..|b| - 1];
      assert (a + b)[..|a + b| - 1] == a + b';
      WritablesConcat(a, b');
    } else {
      assert a + b == a;
    }
  }

  /** A partition lists exactly its writable records. */
  lemma ListedMembers(p: Partition)
    requires WellFormed(p)
    ensures forall x :: x in Listed(p) <==>
      IsWritable(x) && exists k :: k in p.entries && p.entries[k].value == x
  {
    WritablesMembers(Values(p));
    ValuesMembers(p);
  }

  /** The value stream of a partition, keeping the writable records: the loop that
      `listContent` and `listProfiles` run in their stream callbacks. */
  method ListWritable(p: Partition) returns (out: seq<Object>)
    requires WellFormed(p)
    ensures out == Listed(p)
  {
    out := [];
    var i := 0;
    while i < |p.order|
      invariant 0 <= i <= |p.order|
      invariant out == Writables(Values(p)[..i])
    {
      var val := p.entries[p.order[i]].value;
      assert Values(p)[..i + 1][..i] == Values(p)[..i];
      if Truthy(Prop(val, Writable)) {
        out := out + [val];
      }
      i := i + 1;
    }
    assert Values(p)[..i] == Values(p);
  }

  class Store {
    var contentdb: Partition
    var profiledb: Partition

    ghost predicate Valid()
      reads this
    {
      WellFormed(contentdb) && WellFormed(profiledb)
    }

    function Snapshot(): State
      reads this
    {
      State(contentdb, profiledb)
    }

    /** The partitions as `ready()` leaves them: whatever the database on disk already
      holds (`Fresh` for a new one). */
    constructor (stored: State)
      requires ValidState(stored)
      ensures Valid() && Snapshot() == stored
    {
      contentdb := stored.content;
      profiledb := stored.profile;
    }

    method SaveItem(metadata: Object) returns (r: Result<()>)
      requires Valid()
      modifies this
      ensures Valid()
      ensures match SaveItemSpec(old(Snapshot()), metadata)
        case Ok(s') => r == Ok(()) && Snapshot() == s'
        case Err(e) => r == Err(e) && Snapshot() == old(Snapshot())
    {
      var t := Prop(metadata, Type);
      if !t.Str? {
        return Err(TypePropertyRequired);
      }
      var db := GetDb(t.s);
      if db.Err? {
        return Err(db.error);
      }
      var key := ToText(Prop(metadata, Url));
      if key.Err? {
        return Err(key.error);
      }
      if db.value == ContentDb && !IndexTexts(metadata) {
        return Err(TypeError);
      }
      var entry := Entry(AvroTypeName(t.s), metadata);
      SaveItemKeepsValid(old(Snapshot()), metadata);
      if db.value == ContentDb {
        contentdb := Put(contentdb, key.value, entry);
      } else {
        profiledb := Put(profiledb, key.value, entry);
      }
      r := Ok(());
    }

    method Set(values: Object) returns (r: Result<()>)
      requires Valid()
      modifies this
      ensures Valid()
      ensures match SetSpec(old(Snapshot()), values)
        case Ok(s') => r == Ok(()) && Snapshot() == s'
        case Err(e) => r == Err(e) && Snapshot() == old(Snapshot())
    {
      if !Truthy(Prop(values, Url)) {
        return Err(UrlRequired);
      }
      var t := Prop(values, Type);
      if !t.Str? {
        return Err(TypeError);
      }
      if !Supported(t.s) {
        return Err(TypeNotSupported);
      }
      r := SaveItem(values);
    }

    method Get(moduleType: Value, hash: Value) returns (r: Result<Object>)
      requires Valid()
      ensures r == GetSpec(Snapshot(), moduleType, hash)
    {
      if !moduleType.Str? {
        return Err(TypeRequired);
      }
      if !hash.Str? {
        return Err(HashRequired);
      }
      var db := GetDb(moduleType.s);
      if db.Err? {
        return Err(db.error);
      }
      var p := if db.value == ContentDb then contentdb else profiledb;
      if hash.s in p.entries {
        r := Ok(p.entries[hash.s].value);
      } else {
        r := Err(NotFound(hash.s));
      }
    }

    method Init(moduleType: Value, title: Value, description: Value, key: string, writable: bool)
      returns (r: Result<Object>)
      requires Valid()
      modifies this
      ensures Valid()
      ensures match InitSpec(old(Snapshot()), moduleType, title, description, key, writable)
        case Ok((s', datJSON)) => r == Ok(datJSON) && Snapshot() == s'
        case Err(e) => r == Err(e) && Snapshot() == old(Snapshot())
    {
      if !moduleType.Str? {
        return Err(TypeRequired);
      }
      if !Supported(moduleType.s) {
        return Err(TypeNotSupported);
      }
      var datJSON := CreateDatJSON(moduleType, OrEmpty(title), OrEmpty(description), Str(key), Bool(writable));
      var saved := SaveItem(datJSON.value);
      if saved.Err? {
        return Err(saved.error);
      }
      r := Ok(datJSON.value);
    }

    method ListContent() returns (out: seq<Object>)
      requires Valid()
      ensures out == Listed(contentdb)
    {
      out := ListWritable(contentdb);
    }

    method ListProfiles() returns (out: seq<Object>)
      requires Valid()
      ensures out == Listed(profiledb)
    {
      out := ListWritable(profiledb);
    }
  }

  // Properties of the store, stated on the functions above.

  /** After saveItem(m), get(m.type, key) returns m itself. */
  lemma GetAfterSaveItem(s: State, m: Object, key: string)
    requires SaveItemSpec(s, m).Ok? && Target(m).value.1 == key
    ensures GetSpec(SaveItemSpec(s, m).value, Prop(m, Type), Str(key)) == Ok(m)
  {
  }

  /** get answers with a record exactly when both arguments are strings, the type
      has a supported suffix and the partition holds the key; a missing hash (a
      one-argument call `get(key)`) fails with HashRequired whatever is stored. */
  lemma GetGuards(s: State, moduleType: Value, hash: Value)
    ensures GetSpec(s, moduleType, hash).Ok? <==>
      && moduleType.Str? && hash.Str? && Supported(moduleType.s)
      && hash.s in PartitionOf(s, GetDb(moduleType.s).value).entries
    ensures !moduleType.Str? ==> GetSpec(s, moduleType, hash) == Err(TypeRequired)
    ensures moduleType.Str? && !hash.Str? ==> GetSpec(s, moduleType, hash) == Err(HashRequired)
    ensures moduleType.Str? && hash.Str? && !Supported(moduleType.s) ==>
      GetSpec(s, moduleType, hash) == Err(GetDb(moduleType.s).error)
    ensures (moduleType.Str? && hash.Str? && Supported(moduleType.s)
             && hash.s !in PartitionOf(s, GetDb(moduleType.s).value).entries) ==>
      GetSpec(s, moduleType, hash) == Err(NotFound(hash.s))
    ensures GetSpec(s, moduleType, hash).Ok? ==>
      GetSpec(s, moduleType, hash).value == PartitionOf(s, GetDb(moduleType.s).value).entries[hash.s].value
  {
  }

  /** saveItem touches one key of one partition: every other key of both partitions
      reads as before. */
  lemma SaveItemFrame(s: State, m: Object, db: Db, k: string)
    requires SaveItemSpec(s, m).Ok? && (db, k) != Target(m).value
    ensures Lookup(PartitionOf(SaveItemSpec(s, m).value, db), k) == Lookup(PartitionOf(s, db), k)
  {
  }

  /** Saving the same record twice is saving it once. */
  lemma SaveItemIdempotent(s: State, m: Object)
    requires SaveItemSpec(s, m).Ok?
    ensures SaveItemSpec(SaveItemSpec(s, m).value, m) == SaveItemSpec(s, m)
  {
    var (db, key) := Target(m).value;
    var p := PartitionOf(s, db);
    var e := Entry(AvroTypeName(Prop(m, Type).s), m);
    assert Put(Put(p, key, e), key, e) == Put(p, key, e);
  }

  /** set succeeds exactly when its guards pass and, for a content record, the index
      reducers accept it; it is then saveItem. */
  lemma SetGuards(s: State, values: Object)
    ensures SetSpec(s, values).Ok? <==>
      && Truthy(Prop(values, Url)) && Prop(values, Type).Str? && Supported(Prop(values, Type).s)
      && (EndsWith(Prop(values, Type).s, "content") ==> IndexTexts(values))
    ensures !Truthy(Prop(values, Url)) ==> SetSpec(s, values) == Err(UrlRequired)
    ensures Truthy(Prop(values, Url)) && !Prop(values, Type).Str? ==> SetSpec(s, values) == Err(TypeError)
    ensures Truthy(Prop(values, Url)) && Prop(values, Type).Str? && !Supported(Prop(values, Type).s) ==>
      SetSpec(s, values) == Err(TypeNotSupported)
    ensures (Truthy(Prop(values, Url)) && Prop(values, Type).Str? && EndsWith(Prop(values, Type).s, "content")
             && !IndexTexts(values)) ==>
      SetSpec(s, values) == Err(TypeError)
    ensures SetSpec(s, values).Ok? ==> SetSpec(s, values) == SaveItemSpec(s, values)
  {
  }

  /** set replaces the whole record: what get returns afterwards is `values`, with
      none of the properties the old record had and `values` lacks. */
  lemma SetReplacesWholeRecord(s: State, values: Object, key: string)
    requires SetSpec(s, values).Ok? && ToText(Prop(values, Url)) == Ok(key)
    ensures GetSpec(SetSpec(s, values).value, Prop(values, Type), Str(key)) == Ok(values)
  {
    GetAfterSaveItem(s, values, key);
  }

  /** set accepts any type with a supported suffix, but only the exact names have a
      codec tag: such a record is written with no tag. */
  lemma SetSuffixTypeHasNoTag()
    ensures var values := NoProps.(title := Str("A study"), description := Str(""),
                                   kind := Str("article-content"), url := Str("k"));
      && SetSpec(Fresh, values).Ok?
      && Lookup(SetSpec(Fresh, values).value.content, "k") == Some(Entry(None, values))
  {
    var values := NoProps.(title := Str("A study"), description := Str(""),
                           kind := Str("article-content"), url := Str("k"));
    assert EndsWith("article-content", "content");
    assert AvroTypeName("article-content") == None;
  }

  /** A title or description `init` accepts: absent (it defaults to '') or a string. */
  predicate TextOrAbsent(v: Value) {
    v == Undefined || v.Str?
  }

  /** The default record of such an init passes the content index reducers; a profile
      record meets no reducer. */
  predicate InitTexts(moduleType: string, title: Value, description: Value) {
    EndsWith(moduleType, "profile") || (TextOrAbsent(title) && TextOrAbsent(description))
  }

  /** init fails exactly for a non-string type, one that ends in neither suffix, or a
      content module whose title or description is neither absent nor a string (the
      index reducers throw on it). */
  lemma InitRejects(s: State, moduleType: Value, title: Value, description: Value, key: string, writable: bool)
    ensures InitSpec(s, moduleType, title, description, key, writable).Err? <==>
      !moduleType.Str? || !Supported(moduleType.s) || !InitTexts(moduleType.s, title, description)
    ensures !moduleType.Str? ==> InitSpec(s, moduleType, title, description, key, writable) == Err(TypeRequired)
    ensures moduleType.Str? && !Supported(moduleType.s) ==>
      InitSpec(s, moduleType, title, description, key, writable) == Err(TypeNotSupported)
    ensures moduleType.Str? && Supported(moduleType.s) && !InitTexts(moduleType.s, title, description) ==>
      InitSpec(s, moduleType, title, description, key, writable) == Err(TypeError)
  {
    if moduleType.Str? && Supported(moduleType.s) {
      if InitTexts(moduleType.s, title, description) {
        InitIsPutOfDefault(s, moduleType.s, title, description, key, writable);
      } else {
        var datJSON := CreateDatJSON(moduleType, OrEmpty(title), OrEmpty(description), Str(key), Bool(writable)).value;
        DatJSONCommon(moduleType.s, OrEmpty(title), OrEmpty(description), Str(key), Bool(writable));
        DatJSONRoutesLikeItsType(moduleType.s, OrEmpty(title), OrEmpty(description), Str(key), Bool(writable));
        SuffixesExclusive(moduleType.s);
        assert Target(datJSON) == Ok((ContentDb, key));
        assert !IndexTexts(datJSON);
      }
    }
  }

  /** A successful init returns the default record of its arguments and stores it,
      with a codec tag, under the new key in the partition of its type, where get
      finds it by the raw type as well as by the record's own type; the other
      partition is untouched. */
  lemma InitStoresDefaultRecord(s: State, moduleType: string, title: Value, description: Value, key: string, writable: bool)
    requires Supported(moduleType) && InitTexts(moduleType, title, description)
    ensures InitSpec(s, Str(moduleType), title, description, key, writable).Ok?
    ensures var (s', datJSON) := InitSpec(s, Str(moduleType), title, description, key, writable).value;
      var db := GetDb(moduleType).value;
      && datJSON == CreateDatJSON(Str(moduleType), OrEmpty(title), OrEmpty(description), Str(key), Bool(writable)).value
      && GetSpec(s', Str(moduleType), Str(key)) == Ok(datJSON)
      && GetSpec(s', Prop(datJSON, Type), Str(key)) == Ok(datJSON)
      && Lookup(PartitionOf(s', db), key).Some?
      && Lookup(PartitionOf(s', db), key).value.tag.Some?
      && PartitionOf(s', Other(db)) == PartitionOf(s, Other(db))
  {
    var datJSON := CreateDatJSON(Str(moduleType), OrEmpty(title), OrEmpty(description), Str(key), Bool(writable)).value;
    var db := GetDb(moduleType).value;
    var e := Entry(AvroTypeName(VariantName(moduleType)), datJSON);
    InitIsPutOfDefault(s, moduleType, title, description, key, writable);
    ExactNamesRoute();
    DatJSONCommon(moduleType, OrEmpty(title), OrEmpty(description), Str(key), Bool(writable));
    DatJSONRoutesLikeItsType(moduleType, OrEmpty(title), OrEmpty(description), Str(key), Bool(writable));
    var s' := WithPartition(s, db, Put(PartitionOf(s, db), key, e));
    assert Lookup(PartitionOf(s', db), key) == Some(e);
    assert PartitionOf(s', Other(db)) == PartitionOf(s, Other(db)) by { assert Other(db) != db; }
  }

  /** Putting a record under a new key adds it to the listing if and only if it is
      writable. */
  lemma ListedAfterFreshPut(p: Partition, key: string, e: Entry)
    requires WellFormed(p) && key !in p.entries
    ensures WellFormed(Put(p, key, e))
    ensures multiset(Listed(Put(p, key, e)))
      == multiset(Listed(p)) + (if IsWritable(e.value) then multiset{e.value} else multiset{})
  {
    var i := PutFreshValues(p, key, e);
    var vs := Values(p);
    var a, b, x := vs[..i], vs[i..], e.value;
    assert Values(Put(p, key, e)) == (a + [x]) + b;
    assert vs == a + b;
    WritablesConcat(a + [x], b);
    WritablesConcat(a, [x]);
    WritablesConcat(a, b);
    WritablesSingle(x);
  }

  lemma WritablesSingle(x: Object)
    ensures Writables([x]) == if IsWritable(x) then [x] else []
  {
    assert [x][..0] == [];
  }

  /** init is saveItem of the default record; the state it leaves differs from the
      old one in the partition of its type only, by one put. */
  lemma InitIsPutOfDefault(s: State, moduleType: string, title: Value, description: Value, key: string, writable: bool)
    requires Supported(moduleType) && InitTexts(moduleType, title, description)
    ensures var datJSON := CreateDatJSON(Str(moduleType), OrEmpty(title), OrEmpty(description), Str(key), Bool(writable)).value;
      var db := GetDb(moduleType).value;
      var e := Entry(AvroTypeName(VariantName(moduleType)), datJSON);
      && IsWritable(datJSON) == writable
      && InitSpec(s, Str(moduleType), title, description, key, writable)
         == Ok((WithPartition(s, db, Put(PartitionOf(s, db), key, e)), datJSON))
  {
    var datJSON := CreateDatJSON(Str(moduleType), OrEmpty(title), OrEmpty(description), Str(key), Bool(writable)).value;
    var db := GetDb(moduleType).value;
    var e := Entry(AvroTypeName(VariantName(moduleType)), datJSON);
    DatJSONCommon(moduleType, OrEmpty(title), OrEmpty(description), Str(key), Bool(writable));
    DatJSONRoutesLikeItsType(moduleType, OrEmpty(title), OrEmpty(description), Str(key), Bool(writable));
    assert Target(datJSON) == Ok((db, key));
    SuffixesExclusive(moduleType);
    assert db == ContentDb ==> IndexTexts(datJSON);
    assert SaveItemSpec(s, datJSON) == Ok(WithPartition(s, db, Put(PartitionOf(s, db), key, e)));
  }

  /** Putting a record under a key new to its partition: the store stays valid, the
      partition gains that key, its listing gains the record if and only if it is
      writable, and the other partition is left alone. */
  lemma FreshPutState(s: State, db: Db, key: string, e: Entry)
    requires ValidState(s) && key !in PartitionOf(s, db).entries
    ensures var s' := WithPartition(s, db, Put(PartitionOf(s, db), key, e));
      && ValidState(s')
      && PartitionOf(s', db).entries.Keys == PartitionOf(s, db).entries.Keys + {key}
      && multiset(Listed(PartitionOf(s', db)))
         == multiset(Listed(PartitionOf(s, db))) + (if IsWritable(e.value) then multiset{e.value} else multiset{})
      && PartitionOf(s', Other(db)) == PartitionOf(s, Other(db))
  {
    var p := PartitionOf(s, db);
    ListedAfterFreshPut(p, key, e);
    assert Put(p, key, e).entries == p.entries[key := e];
    assert Other(db) != db;
  }

  /** init under a key its partition does not hold yet adds its record to that
      partition's listing if and only if it is writable, and leaves the other
      partition as it was. */
  lemma InitListing(s: State, moduleType: string, title: Value, description: Value, key: string, writable: bool,
                    s': State, datJSON: Object)
    requires ValidState(s) && Supported(moduleType)
    requires key !in PartitionOf(s, GetDb(moduleType).value).entries
    requires InitSpec(s, Str(moduleType), title, description, key, writable) == Ok((s', datJSON))
    ensures ValidState(s')
    ensures PartitionOf(s', GetDb(moduleType).value).entries.Keys
         == PartitionOf(s, GetDb(moduleType).value).entries.Keys + {key}
    ensures multiset(Listed(PartitionOf(s', GetDb(moduleType).value)))
         == multiset(Listed(PartitionOf(s, GetDb(moduleType).value)))
            + (if writable then multiset{datJSON} else multiset{})
    ensures PartitionOf(s', Other(GetDb(moduleType).value)) == PartitionOf(s, Other(GetDb(moduleType).value))
  {
    InitIsPutOfDefault(s, moduleType, title, description, key, writable);
    FreshPutState(s, GetDb(moduleType).value, key, Entry(AvroTypeName(VariantName(moduleType)), datJSON));
  }

  /** A change that adds one key to the partition db, and to its listing one record
      if the flag is set, and leaves the other partition alone, seen from both
      partitions. */
  lemma GrowthByPartition(s: State, s': State, db: Db, key: string, grows: bool, x: Object)
    requires ValidState(s) && ValidState(s')
    requires PartitionOf(s', db).entries.Keys == PartitionOf(s, db).entries.Keys + {key}
    requires multiset(Listed(PartitionOf(s', db)))
          == multiset(Listed(PartitionOf(s, db))) + (if grows then multiset{x} else multiset{})
    requires PartitionOf(s', Other(db)) == PartitionOf(s, Other(db))
    ensures s'.content.entries.Keys + s'.profile.entries.Keys
         == s.content.entries.Keys + s.profile.entries.Keys + {key}
    ensures |Listed(s'.content)| == |Listed(s.content)| + (if grows && db == ContentDb then 1 else 0)
    ensures |Listed(s'.profile)| == |Listed(s.profile)| + (if grows && db == ProfileDb then 1 else 0)
  {
    var n := |multiset(Listed(PartitionOf(s', db)))|;
    assert n == |multiset(Listed(PartitionOf(s, db)))| + (if grows then 1 else 0);
  }

  /** One init under a fresh key, counted per partition. */
  lemma InitCounts(s: State, moduleType: string, title: Value, description: Value, key: string, writable: bool,
                   s': State, datJSON: Object)
    requires ValidState(s) && Supported(moduleType)
    requires key !in s.content.entries && key !in s.profile.entries
    requires InitSpec(s, Str(moduleType), title, description, key, writable) == Ok((s', datJSON))
    ensures ValidState(s')
    ensures s'.content.entries.Keys + s'.profile.entries.Keys
         == s.content.entries.Keys + s.profile.entries.Keys + {key}
    ensures |Listed(s'.content)|
         == |Listed(s.content)| + (if writable && EndsWith(moduleType, "content") then 1 else 0)
    ensures |Listed(s'.profile)|
         == |Listed(s.profile)| + (if writable && EndsWith(moduleType, "profile") then 1 else 0)
  {
    SuffixesExclusive(moduleType);
    InitListing(s, moduleType, title, description, key, writable, s', datJSON);
    GrowthByPartition(s, s', GetDb(moduleType).value, key, writable, datJSON);
  }

  /** One `init` call: type, title, description, the new archive's key and its
      writable flag. */
  datatype Request = Request(moduleType: string, title: Value, description: Value, key: string, writable: bool)

  /** The requests run one after another by `init`, stopping at the first failure. */
  function InitAll(s: State, reqs: seq<Request>): Result<State>
    decreases |reqs|
  {
    if reqs == [] then Ok(s)
    else
      var r := reqs[0];
      match InitSpec(s, Str(r.moduleType), r.title, r.description, r.key, r.writable)
      case Err(e) => Err(e)
      case Ok((s', _)) => InitAll(s', reqs[1..])
  }

  /** How many of the requests create a writable module whose type ends in suffix. */
  function CountWritable(reqs: seq<Request>, suffix: string): nat
    decreases |reqs|
  {
    if reqs == [] then 0
    else (if reqs[0].writable && EndsWith(reqs[0].moduleType, suffix) then 1 else 0)
         + CountWritable(reqs[1..], suffix)
  }

  predicate FreshKeys(s: State, reqs: seq<Request>) {
    && (forall i :: 0 <= i < |reqs| ==> reqs[i].key !in s.content.entries && reqs[i].key !in s.profile.entries)
    && (forall i, j :: 0 <= i < j < |reqs| ==> reqs[i].key != reqs[j].key)
  }

  /** Once the first request has stored its key, the remaining ones are still fresh
      and still of supported types. */
  lemma FreshTail(s: State, s': State, reqs: seq<Request>)
    requires reqs != [] && FreshKeys(s, reqs)
    requires forall i :: 0 <= i < |reqs| ==> Supported(reqs[i].moduleType)
    requires forall i :: 0 <= i < |reqs| ==> InitTexts(reqs[i].moduleType, reqs[i].title, reqs[i].description)
    requires s'.content.entries.Keys + s'.profile.entries.Keys
          == s.content.entries.Keys + s.profile.entries.Keys + {reqs[0].key}
    ensures FreshKeys(s', reqs[1..])
    ensures forall i :: 0 <= i < |reqs[1..]| ==> Supported(reqs[1..][i].moduleType)
    ensures forall i :: 0 <= i < |reqs[1..]| ==>
      InitTexts(reqs[1..][i].moduleType, reqs[1..][i].title, reqs[1..][i].description)
  {
    forall i | 0 <= i < |reqs[1..]|
      ensures reqs[1..][i].key !in s'.content.entries && reqs[1..][i].key !in s'.profile.entries
      ensures Supported(reqs[1..][i].moduleType)
      ensures InitTexts(reqs[1..][i].moduleType, reqs[1..][i].title, reqs[1..][i].description)
    {
      assert reqs[1..][i] == reqs[i + 1];
      assert reqs[i + 1].key !in s'.content.entries.Keys + s'.profile.entries.Keys;
    }
    forall i, j | 0 <= i < j < |reqs[1..]| ensures reqs[1..][i].key != reqs[1..][j].key {
      assert reqs[1..][i] == reqs[i + 1] && reqs[1..][j] == reqs[j + 1];
    }
  }

  /** Any run of inits of supported types, with string or absent titles and
      descriptions for content modules, under distinct new keys succeeds, and each
      listing grows by the number of writable modules created in its partition. */
  lemma {:induction false} InitAllListing(s: State, reqs: seq<Request>)
    requires ValidState(s) && FreshKeys(s, reqs)
    requires forall i :: 0 <= i < |reqs| ==> Supported(reqs[i].moduleType)
    requires forall i :: 0 <= i < |reqs| ==> InitTexts(reqs[i].moduleType, reqs[i].title, reqs[i].description)
    ensures InitAll(s, reqs).Ok?
    ensures ValidState(InitAll(s, reqs).value)
    ensures |Listed(InitAll(s, reqs).value.content)| == |Listed(s.content)| + CountWritable(reqs, "content")
    ensures |Listed(InitAll(s, reqs).value.profile)| == |Listed(s.profile)| + CountWritable(reqs, "profile")
    decreases |reqs|
  {
    if reqs != [] {
      var r := reqs[0];
      InitStoresDefaultRecord(s, r.moduleType, r.title, r.description, r.key, r.writable);
      var (s', o) := InitSpec(s, Str(r.moduleType), r.title, r.description, r.key, r.writable).value;
      InitCounts(s, r.moduleType, r.title, r.description, r.key, r.writable, s', o);
      FreshTail(s, s', reqs);
      InitAllListing(s', reqs[1..]);
    }
  }

  /** Three writable content requests followed by a writable profile request. */
  predicate ScenarioShape(reqs: seq<Request>) {
    && |reqs| == 4
    && (forall i :: 0 <= i < 4 ==> reqs[i].writable)
    && (forall i :: 0 <= i < 3 ==> EndsWith(reqs[i].moduleType, "content"))
    && EndsWith(reqs[3].moduleType, "profile")
  }

  lemma ScenarioCounts(reqs: seq<Request>)
    requires ScenarioShape(reqs)
    ensures forall i :: 0 <= i < |reqs| ==> Supported(reqs[i].moduleType)
    ensures CountWritable(reqs, "content") == 3 && CountWritable(reqs, "profile") == 1
  {
    var c, p := "content", "profile";
    SuffixesExclusive(reqs[0].moduleType);
    SuffixesExclusive(reqs[1].moduleType);
    SuffixesExclusive(reqs[2].moduleType);
    SuffixesExclusive(reqs[3].moduleType);
    assert reqs[3..][0] == reqs[3] && reqs[3..][1..] == [];
    assert CountWritable(reqs[3..][1..], c) == 0 && CountWritable(reqs[3..][1..], p) == 0;
    assert CountWritable(reqs[3..], c) == 0 && CountWritable(reqs[3..], p) == 1;
    assert reqs[2..][0] == reqs[2] && reqs[2..][1..] == reqs[3..];
    assert CountWritable(reqs[2..], c) == 1 && CountWritable(reqs[2..], p) == 1;
    assert reqs[1..][0] == reqs[1] && reqs[1..][1..] == reqs[2..];
    assert CountWritable(reqs[1..], c) == 2 && CountWritable(reqs[1..], p) == 1;
  }

  /** The listing scenario of the SDK's tests over a database that already holds
      records: three writable content modules and one writable profile under four
      new, distinct keys add three content records and one profile to the listings. */
  lemma ListingScenarioOnStored(s: State, reqs: seq<Request>)
    requires ValidState(s) && FreshKeys(s, reqs) && ScenarioShape(reqs)
    requires forall i :: 0 <= i < |reqs| ==> TextOrAbsent(reqs[i].title) && TextOrAbsent(reqs[i].description)
    ensures InitAll(s, reqs).Ok?
    ensures ValidState(InitAll(s, reqs).value)
    ensures |Listed(InitAll(s, reqs).value.content)| == |Listed(s.content)| + 3
    ensures |Listed(InitAll(s, reqs).value.profile)| == |Listed(s.profile)| + 1
  {
    ScenarioCounts(reqs);
    InitAllListing(s, reqs);
  }

  /** The same scenario from a new, empty database: the listings hold three content
      records and one profile. */
  lemma ListingScenario(reqs: seq<Request>)
    requires ScenarioShape(reqs)
    requires forall i :: 0 <= i < |reqs| ==> TextOrAbsent(reqs[i].title) && TextOrAbsent(reqs[i].description)
    requires forall i, j :: 0 <= i < j < |reqs| ==> reqs[i].key != reqs[j].key
    ensures InitAll(Fresh, reqs).Ok?
    ensures ValidState(InitAll(Fresh, reqs).value)
    ensures |Listed(InitAll(Fresh, reqs).value.content)| == 3
    ensures |Listed(InitAll(Fresh, reqs).value.profile)| == 1
  {
    EmptyWellFormed();
    assert |Listed(Empty)| == 0;
    assert FreshKeys(Fresh, reqs);
    ListingScenarioOnStored(Fresh, reqs);
  }

}

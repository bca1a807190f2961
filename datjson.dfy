/** The pure part of the metadata layer: the default record `createDatJSON` builds
    for a new module, and the two type dispatchers `_getDb` (which partition) and
    `_getAvroTypeName` (which codec tag). */
module DatJson {
  import opened JsValues
  import opened Strings

  /** The two sub-partitions of the store. */
  datatype Db = ContentDb | ProfileDb

  /** The two record types of the codec registry (the content and profile schemas). */
  datatype AvroType = ContentType | ProfileType

  /** The partition a codec tag's records belong to. */
  function DbOf(t: AvroType): Db {
    match t
    case ContentType => ContentDb
    case ProfileType => ProfileDb
  }

  /** A type string names a supported module type: it ends in 'profile' or 'content'. */
  predicate Supported(t: string) {
    EndsWith(t, "profile") || EndsWith(t, "content")
  }

  /** No type string has both suffixes, so the order in which `_getDb` tests them
      does not matter. */
  lemma SuffixesExclusive(t: string)
    ensures !(EndsWith(t, "profile") && EndsWith(t, "content"))
  {
    if EndsWith(t, "profile") {
      assert t[|t| - 1] == t[|t| - 7..][6] == 'e';
      assert |t| >= 7 && t[|t| - 7..][6] != "content"[6];
    }
  }

  /** `_getDb(type)`: the partition a type string is stored in, chosen by suffix. */
  function GetDb(t: string): (r: Result<Db>)
    ensures r == Ok(ProfileDb) <==> EndsWith(t, "profile")
    ensures r == Ok(ContentDb) <==> EndsWith(t, "content")
    ensures r.Err? <==> !Supported(t)
    ensures t == "" ==> r == Err(TypeRequired)
    ensures t != "" && !Supported(t) ==> r == Err(UnknownType(t))
  {
    SuffixesExclusive(t);
    if t == "" then Err(TypeRequired)
    else if EndsWith(t, "profile") then Ok(ProfileDb)
    else if EndsWith(t, "content") then Ok(ContentDb)
    else Err(UnknownType(t))
  }

  /** `_getAvroTypeName(appType)`: only the exact names have a codec tag; whenever a
      tag exists, `_getDb` sends the type to that tag's partition. */
  function AvroTypeName(appType: string): (r: Option<AvroType>)
    ensures r.Some? <==> appType == "content" || appType == "profile"
    ensures r.Some? ==> GetDb(appType) == Ok(DbOf(r.value))
  {
    if appType == "content" then Some(ContentType)
    else if appType == "profile" then Some(ProfileType)
    else None
  }

  /** The two names `createDatJSON` stores as `type` route to their own partition
      and have their own codec tag. */
  lemma ExactNamesRoute()
    ensures GetDb("content") == Ok(ContentDb) && AvroTypeName("content") == Some(ContentType)
    ensures GetDb("profile") == Ok(ProfileDb) && AvroTypeName("profile") == Some(ProfileType)
    ensures VariantName("content") == "content" && VariantName("profile") == "profile"
  {
    assert EndsWith("content", "content") && EndsWith("profile", "profile");
  }

  /** A destructuring default: `undefined` becomes the empty string. */
  function OrEmpty(v: Value): Value {
    if v == Undefined then Str("") else v
  }

  /** The variant name `createDatJSON` stores: 'profile' for a type ending in
      'profile' and 'content' for every other type. */
  function VariantName(t: string): string {
    if EndsWith(t, "profile") then "profile" else "content"
  }

  const CommonKeys: set<Key> := {Title, Description, Url, Main, License, ModType, Writable, Type}
  const ProfileKeys: set<Key> := {Follows, Contents}
  const ContentKeys: set<Key> := {Authors, Parents}

  /** `createDatJSON({type, title, description, url, writable})`: the default metadata
      of a new module, or 'type is required' for a non-string type. What the record
      holds is stated by `DatJSONCommon` and `DatJSONVariant`. */
  function CreateDatJSON(moduleType: Value, title: Value, description: Value, url: Value, writable: Value): (r: Result<Object>)
    ensures r.Err? <==> !moduleType.Str?
    ensures r.Err? ==> r.error == TypeRequired
  {
    if !moduleType.Str? then Err(TypeRequired)
    else
      if EndsWith(moduleType.s, "profile") then
        Ok(Object(OrEmpty(title), OrEmpty(description), OrEmpty(url), Str(""), Str(""), moduleType, writable,
                  Str("profile"), Strs([]), Strs([]), Undefined, Undefined, map[]))
      else
        Ok(Object(OrEmpty(title), OrEmpty(description), OrEmpty(url), Str(""), Str(""), moduleType, writable,
                  Str("content"), Undefined, Undefined, Strs([]), Strs([]), map[]))
  }

  /** The default record keeps the raw type as `modType`, stores the variant name as
      `type`, empties `main` and `license`, defaults absent text to '' and copies
      `writable`. */
  lemma DatJSONCommon(moduleType: string, title: Value, description: Value, url: Value, writable: Value)
    ensures var o := CreateDatJSON(Str(moduleType), title, description, url, writable).value;
      && Prop(o, ModType) == Str(moduleType)
      && Prop(o, Type) == Str(VariantName(moduleType))
      && Prop(o, Title) == OrEmpty(title)
      && Prop(o, Description) == OrEmpty(description)
      && Prop(o, Url) == OrEmpty(url)
      && Prop(o, Main) == Str("") && Prop(o, License) == Str("")
      && Prop(o, Writable) == writable
  {
    if EndsWith(moduleType, "profile") {
    } else {
    }
  }

  /** A profile record carries empty `follows` and `contents` and no `authors` or
      `parents`; every other record the reverse. */
  lemma DatJSONVariant(moduleType: string, title: Value, description: Value, url: Value, writable: Value)
    ensures var o := CreateDatJSON(Str(moduleType), title, description, url, writable).value;
      EndsWith(moduleType, "profile") ==>
      && Prop(o, Follows) == Strs([]) && Prop(o, Contents) == Strs([])
      && Prop(o, Authors) == Undefined && Prop(o, Parents) == Undefined
    ensures var o := CreateDatJSON(Str(moduleType), title, description, url, writable).value;
      !EndsWith(moduleType, "profile") ==>
      && Prop(o, Authors) == Strs([]) && Prop(o, Parents) == Strs([])
      && Prop(o, Follows) == Undefined && Prop(o, Contents) == Undefined
  {
    if EndsWith(moduleType, "profile") {
    } else {
    }
  }

  /** The default record has no properties besides the common ones and those of its
      variant. */
  lemma DatJSONKeys(moduleType: string, title: Value, description: Value, url: Value, writable: Value)
    ensures var o := CreateDatJSON(Str(moduleType), title, description, url, writable).value;
      forall k: Key :: k !in CommonKeys + (if EndsWith(moduleType, "profile") then ProfileKeys else ContentKeys)
        ==> Prop(o, k) == Undefined
  {
    if EndsWith(moduleType, "profile") {
    } else {
    }
  }

  /** The record built for a supported type routes to the same partition as the raw
      type, and its own `type` always has a codec tag of that partition. */
  lemma {:induction false} DatJSONRoutesLikeItsType(moduleType: string, title: Value, description: Value, url: Value, writable: Value)
    requires Supported(moduleType)
    ensures var o := CreateDatJSON(Str(moduleType), title, description, url, writable).value;
      && Prop(o, Type).Str?
      && GetDb(Prop(o, Type).s) == GetDb(moduleType)
      && AvroTypeName(Prop(o, Type).s).Some?
      && DbOf(AvroTypeName(Prop(o, Type).s).value) == GetDb(moduleType).value
  {
    ExactNamesRoute();
    var o := CreateDatJSON(Str(moduleType), title, description, url, writable).value;
    var name := VariantName(moduleType);
    assert Prop(o, Type) == Str(name);
    if EndsWith(moduleType, "profile") {
      assert EndsWith(name, "profile");
    } else {
      assert EndsWith(name, "content");
    }
  }
}

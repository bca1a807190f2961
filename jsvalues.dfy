/** The JavaScript values the metadata layer of the SDK handles: property values,
    metadata objects, truthiness, the string a value turns into when it becomes a
    LevelDB key, and the failures the SDK's operations end in. */
module JsValues {

  datatype Option<+T> = None | Some(value: T)

  /** The ways an operation ends in failure: the `assert` calls of index.js (one
      constructor per message), the error `_getDb` throws, the storage layer's
      NotFoundError, and the TypeError JavaScript raises when a method is called on
      `undefined` or on a value that does not have it. */
  datatype Error =
    | TypeRequired               // 'type is required'
    | TypePropertyRequired       // 'type property is required'
    | HashRequired               // 'hash is required'
    | TypeNotSupported           // "type should be 'content' or 'profile'"
    | UnknownType(name: string)  // `Unknown type: ${type}`
    | UrlRequired                // 'Invalid metadata. Missing property: url'
    | FeatureRequired            // 'A valid filter type is required'
    | CriteriaRequired           // 'filter criteria is required'
    | NotFound(key: string)      // no value stored under key
    | TypeError

  datatype Result<+T> = Ok(value: T) | Err(error: Error)

  /** A property value. `Undefined` is also what reading an absent property gives. */
  datatype Value = Undefined | Bool(b: bool) | Str(s: string) | Strs(items: seq<string>)

  /** A property name. Each name the SDK reads or writes has a constructor of its
      own; `Named` holds any other name. */
  datatype Name =
    | Title | Description | Url | Main | License | ModType | Writable | Type
    | Follows | Contents | Authors | Parents
    | Named(text: string)

  /** The property name as JavaScript writes it. */
  function Spelling(n: Name): string {
    match n
    case Title => "title"
    case Description => "description"
    case Url => "url"
    case Main => "main"
    case License => "license"
    case ModType => "modType"
    case Writable => "writable"
    case Type => "type"
    case Follows => "follows"
    case Contents => "contents"
    case Authors => "authors"
    case Parents => "parents"
    case Named(t) => t
  }

  /** The texts that have a constructor of their own. */
  predicate Reserved(t: string) {
    t in {"title", "description", "url", "main", "license", "modType", "writable", "type",
          "follows", "contents", "authors", "parents"}
  }

  /** A name in its one canonical form: `Named` only for a text without a constructor. */
  type Key = n: Name | n.Named? ==> !Reserved(n.text) witness Title

  /** The key a property name text denotes; it is spelled as that text. */
  function NameOf(text: string): (k: Key)
    ensures Spelling(k) == text
  {
    if text == "title" then Title
    else if text == "description" then Description
    else if text == "url" then Url
    else if text == "main" then Main
    else if text == "license" then License
    else if text == "modType" then ModType
    else if text == "writable" then Writable
    else if text == "type" then Type
    else if text == "follows" then Follows
    else if text == "contents" then Contents
    else if text == "authors" then Authors
    else if text == "parents" then Parents
    else Named(text)
  }

  /** Each key is the key of its own spelling: a property has exactly one key. */
  lemma NameOfSpelling(k: Key)
    ensures NameOf(Spelling(k)) == k
  {
  }

  /** A metadata object. Each property the SDK reads or writes has a field of its own
      (`kind` holds the property `type`); `rest` holds every other property by name.
      A property that is `Undefined` is absent. */
  datatype Object = Object(
    title: Value, description: Value, url: Value, main: Value, license: Value,
    modType: Value, writable: Value, kind: Value,
    follows: Value, contents: Value, authors: Value, parents: Value,
    rest: map<string, Value>)

  /** `{}` */
  const NoProps: Object := Object(
    Undefined, Undefined, Undefined, Undefined, Undefined, Undefined, Undefined, Undefined,
    Undefined, Undefined, Undefined, Undefined, map[])

  /** `o[name]` */
  function Prop(o: Object, name: Key): Value {
    match name
    case Title => o.title
    case Description => o.description
    case Url => o.url
    case Main => o.main
    case License => o.license
    case ModType => o.modType
    case Writable => o.writable
    case Type => o.kind
    case Follows => o.follows
    case Contents => o.contents
    case Authors => o.authors
    case Parents => o.parents
    case Named(t) => if t in o.rest then o.rest[t] else Undefined
  }

  /** JavaScript truthiness: the empty string, `false` and `undefined` are falsy,
      every array is truthy. */
  predicate Truthy(v: Value) {
    match v
    case Undefined => false
    case Bool(b) => b
    case Str(s) => s != ""
    case Strs(_) => true
  }

  /** `a.join(',')` */
  function Join(items: seq<string>): string
    decreases |items|
  {
    if |items| == 0 then ""
    else if |items| == 1 then items[0]
    else items[0] + "," + Join(items[1..])
  }

  /** `v.toString(...)`: a string is its own text, a boolean prints as `true` or
      `false`, an array joins its items with commas, and `undefined` has no
      `toString` at all. */
  function ToText(v: Value): (r: Result<string>)
    ensures r.Err? <==> v == Undefined
    ensures r.Err? ==> r.error == TypeError
    ensures v.Str? ==> r == Ok(v.s)
  {
    match v
    case Undefined => Err(TypeError)
    case Bool(b) => Ok(if b then "true" else "false")
    case Str(s) => Ok(s)
    case Strs(items) => Ok(Join(items))
  }
}

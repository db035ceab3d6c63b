/** Vocabulary shared by every module of the model: optional values, results,
    Java's nullable strings and the string-to-string header maps the client
    passes around. */
module Common {

  /** `None` plays the part of Java's `null` wherever a reference may be absent. */
  datatype Option<+T> = None | Some(value: T)

  /** The outcome of an operation that may throw: `Err` carries what was thrown. */
  datatype Result<+T, +E> = Ok(value: T) | Err(error: E)

  /** A Java `String` reference (`None` is `null`). */
  type NullableString = Option<string>

  /** A `Map<String, String>`; a `HashMap` may hold `null` values. */
  type Headers = map<string, NullableString>

  /** An opaque reference to a collaborator object the model never looks
      inside: a load balancer, a tracer, an SSL context, a hostname verifier,
      an object mapper. */
  type Ref = nat

  /** An opaque non-null Java object produced or consumed by the JSON-RPC
      codec (an argument, a decoded response). */
  datatype JavaObject = JavaObject(id: nat)

  /** A Java `Type` (the declared return type of a remote method). */
  datatype JavaType = JavaType(name: string)

  /** Spring's `StringUtils.isEmpty`: true for `null` and for `""`. */
  predicate IsEmpty(s: NullableString) {
    s == None || s == Some("")
  }

  /** `Map.get` on a `HashMap<String, String>`: `null` both for an absent key
      and for a key mapped to `null`. */
  function Get(m: Headers, key: string): NullableString {
    if key in m then m[key] else None
  }

  /** Commons-collections `MapUtils.getString(map, key, default)`: the value
      when the map is non-null and holds a non-null value for the key,
      otherwise the default. */
  function GetStringOr(m: Option<Headers>, key: string, default: NullableString): (r: NullableString)
    ensures r.None? ==> default.None?
  {
    match m
    case None => default
    case Some(mm) => if Get(mm, key).Some? then Get(mm, key) else default
  }

  /** A URL reference resolver `new URL(base, spec)` (relative-reference
      resolution of RFC 2396, section 5.2): the resolved URL's text, or `None`
      when the JDK throws `MalformedURLException`. It is an oracle here. */
  type UrlResolver = (NullableString, string) -> Option<string>

  /** `Util.addPrefixAndDistinct`, which this model does not define: the
      exporter names its beans with it and the client builds its request path
      with it, so both sides take the same function. */
  type PrefixAndDistinct = NullableString -> string
}

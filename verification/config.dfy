/**
 The guard's configuration: the options a host application may pass to
 `uniqueSession(options)` and the values the guard actually uses after the
 JavaScript `||` fallbacks have been applied.
 */
module Config {
  import opened Wrappers

  /** The options object as supplied; `None` is an absent (or `null`) property. */
  datatype Options = Options(
    hashFields: Option<seq<string>>,
    ipField: Option<string>,
    redirectTo: Option<string>)

  /** The effective configuration, fixed once when the guard is created. */
  datatype Config = Config(
    hashFields: seq<string>,   // header names whose values feed the fingerprint, in order
    ipField: string,           // dotted path to the client address, e.g. "headers.x-forwarded-for"
    redirectTo: string)        // where a rejected request is sent

  const DefaultHashFields: seq<string> := ["accept", "accept-language", "user-agent"]
  const DefaultIpField: string := "headers.x-forwarded-for"
  const DefaultRedirectTo: string := "/"

  /** `uniqueSession()` with no argument receives `{}`. */
  const NoOptions: Options := Options(None, None, None)

  /** `value || fallback` for a string property: `undefined`, `null` and `""`
      are falsy, every other string is kept. */
  function OrString(value: Option<string>, fallback: string): (r: string)
    ensures value.Some? && value.value != "" ==> r == value.value
    ensures value.None? || value == Some("") ==> r == fallback
  {
    match value
    case Some(s) => if s != "" then s else fallback
    case None => fallback
  }

  /** `value || fallback` for an array property: every array, even `[]`, is truthy. */
  function OrArray(value: Option<seq<string>>, fallback: seq<string>): (r: seq<string>)
    ensures value.Some? ==> r == value.value
    ensures value.None? ==> r == fallback
  {
    match value
    case Some(a) => a
    case None => fallback
  }

  /** The fallbacks of `uniqueSession`: each supplied value replaces its default,
      except that an empty `ipField` or `redirectTo` falls back; a supplied
      `hashFields` array is always kept. The effective path and target are never empty. */
  function Configure(options: Options): (c: Config)
    ensures options.hashFields.Some? ==> c.hashFields == options.hashFields.value
    ensures options.hashFields.None? ==> c.hashFields == DefaultHashFields
    ensures c.ipField == DefaultIpField <==>
              (options.ipField.None? || options.ipField.value in {"", DefaultIpField})
    ensures c.ipField != DefaultIpField ==> options.ipField == Some(c.ipField)
    ensures c.redirectTo == DefaultRedirectTo <==>
              (options.redirectTo.None? || options.redirectTo.value in {"", DefaultRedirectTo})
    ensures c.redirectTo != DefaultRedirectTo ==> options.redirectTo == Some(c.redirectTo)
    ensures c.ipField != "" && c.redirectTo != ""
  {
    Config(
      OrArray(options.hashFields, DefaultHashFields),
      OrString(options.ipField, DefaultIpField),
      OrString(options.redirectTo, DefaultRedirectTo))
  }

  /** Spells a configuration out as an options object with every property set. */
  function Explicit(c: Config): Options
  {
    Options(Some(c.hashFields), Some(c.ipField), Some(c.redirectTo))
  }

  /** With no options the guard uses the documented defaults. */
  lemma DefaultsWithoutOptions()
    ensures Configure(NoOptions) == Config(DefaultHashFields, DefaultIpField, DefaultRedirectTo)
  {
  }

  /** Every configuration with a non-empty path and target is reachable, and is
      reproduced exactly when passed back in as explicit options. */
  lemma ConfigureExplicit(c: Config)
    requires c.ipField != "" && c.redirectTo != ""
    ensures Configure(Explicit(c)) == c
  {
  }

  /** Applying the fallbacks a second time changes nothing. */
  lemma ConfigureIdempotent(options: Options)
    ensures Configure(Explicit(Configure(options))) == Configure(options)
  {
    ConfigureExplicit(Configure(options));
  }
}

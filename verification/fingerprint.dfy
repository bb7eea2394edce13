/**
 The fingerprint ("cookie sign") of a request: the configured header values in
 order, then the string form of the geo lookup of the client address, joined
 with no separator and digested.

 The MD5 digest, the geo database lookup and the JavaScript string conversion
 of a lookup record are collaborators this model cannot see; they are carried as
 uninterpreted functions in `Collaborators` and nothing is assumed about them.
 */
module Fingerprint {
  import opened Wrappers
  import opened Text
  import opened Config

  /** A geo lookup record; the model never inspects it. */
  datatype GeoRecord = GeoRecord(country: string, region: string, city: string)

  /** The parts of a request the guard reads: the header map, and the other
      top-level objects of the request (`socket`, `connection`, ...) that an
      address path may name. The name "headers" always means the header map,
      so an `objects["headers"]` entry is never read. */
  datatype Request = Request(
    headers: map<string, string>,
    objects: map<string, map<string, string>>)

  /** The exception raised when the first part of the address path names no
      top-level object of the request (`request[first]` is `undefined`). */
  datatype Fault = TypeError

  datatype Collaborators = Collaborators(
    digest: string -> string,                     // hex MD5 of the raw hash string
    lookup: Option<string> -> Option<GeoRecord>,  // country lookup of the client address
    render: GeoRecord -> string)                  // how `join` prints a lookup record

  /** `props[key]`: `None` when the property is absent (`undefined`). */
  function Property(props: map<string, string>, key: string): Option<string>
  {
    if key in props then Some(props[key]) else None
  }

  /** How `join` prints a value that may be `undefined`: as the empty string. */
  function JoinText(value: Option<string>): string
  {
    match value
    case Some(s) => s
    case None => ""
  }

  /** The header segments, one per configured field, in the configured order. */
  function HeaderSegments(fields: seq<string>, headers: map<string, string>): (segs: seq<string>)
    ensures |segs| == |fields|
    ensures forall i :: 0 <= i < |fields| ==> segs[i] == JoinText(Property(headers, fields[i]))
  {
    seq(|fields|, i requires 0 <= i < |fields| => JoinText(Property(headers, fields[i])))
  }

  /** How `join` prints the lookup result: by the same rule as a header value,
      with `null` as the empty string and a record through the (opaque)
      JavaScript string conversion. */
  function GeoSegment(geo: Option<GeoRecord>, render: GeoRecord -> string): (text: string)
    ensures geo.None? ==> text == ""
    ensures geo.Some? ==> text == render(geo.value)
  {
    JoinText(if geo.Some? then Some(render(geo.value)) else None)
  }

  /** `[...headerFields, countryByIP].join('')`. */
  function RawHashString(fields: seq<string>, headers: map<string, string>, geo: string): (raw: string)
    ensures raw == Concat(HeaderSegments(fields, headers)) + geo
    ensures |raw| == TotalLength(HeaderSegments(fields, headers)) + |geo|
  {
    var segs := HeaderSegments(fields, headers);
    ConcatAppend(segs, [geo]);
    assert Concat([geo]) == geo;
    Concat(segs + [geo])
  }

  /** The object name and the key `path.split('.')` destructures into. Parts beyond
      the second are dropped; with no '.', the key is `undefined`, which
      JavaScript turns into the property name "undefined". */
  function AddressPath(path: string): (p: (string, string))
    ensures '.' !in p.0 && '.' !in p.1
    ensures '.' !in path ==> p == (path, "undefined")
    ensures '.' in path ==> p.0 + "." + p.1 <= path
    ensures '.' in path ==> |p.0 + "." + p.1| == |path| || path[|p.0 + "." + p.1|] == '.'
  {
    var parts := Split(path, '.');
    FirstTwoPieces(path, '.');
    (parts[0], if |parts| >= 2 then parts[1] else "undefined")
  }

  /** `request[name]` at the top level. */
  function TopLevel(request: Request, name: string): Option<map<string, string>>
  {
    if name == "headers" then Some(request.headers)
    else if name in request.objects then Some(request.objects[name])
    else None
  }

  /** `getRequestValueFromPathString`: `request[first][second]`, which throws
      when `request[first]` is `undefined`. */
  function ResolveAddress(request: Request, path: string): (r: Result<Option<string>, Fault>)
    ensures r.Failure? <==> TopLevel(request, Split(path, '.')[0]).None?
    ensures r.Failure? ==> Split(path, '.')[0] != "headers" && Split(path, '.')[0] !in request.objects
    ensures r.Success? && r.value.Some? ==> r.value.value in TopLevel(request, Split(path, '.')[0]).value.Values
  {
    var (first, second) := AddressPath(path);
    match TopLevel(request, first)
    case None => Failure(TypeError)
    case Some(props) => Success(Property(props, second))
  }

  /** `generateCookieSign`: the digest of the raw hash string. It fails exactly
      when resolving the address fails; otherwise it is the digest of the header
      values followed by the geo segment of the resolved address. */
  function GenerateCookieSign(config: Config, env: Collaborators, request: Request): (r: Result<string, Fault>)
    ensures r.Failure? <==> ResolveAddress(request, config.ipField).Failure?
    ensures r.Success? ==>
              var geo := GeoSegment(env.lookup(ResolveAddress(request, config.ipField).value), env.render);
              r.value == env.digest(Concat(HeaderSegments(config.hashFields, request.headers)) + geo)
  {
    match ResolveAddress(request, config.ipField)
    case Failure(e) => Failure(e)
    case Success(address) =>
      var geo := GeoSegment(env.lookup(address), env.render);
      Success(env.digest(RawHashString(config.hashFields, request.headers, geo)))
  }

  // ---------------------------------------------------------------------------
  // Layout of the raw hash string
  // ---------------------------------------------------------------------------

  /** The value of the `i`-th configured header sits after exactly the values of
      the headers configured before it and before those configured after it and
      the geo segment: segment order is the configured order. */
  lemma RawHashStringSegment(fields: seq<string>, headers: map<string, string>, geo: string, i: nat)
    requires i < |fields|
    ensures var segs := HeaderSegments(fields, headers);
            RawHashString(fields, headers, geo)
              == Concat(segs[..i]) + JoinText(Property(headers, fields[i])) + Concat(segs[i + 1..]) + geo
  {
    var segs := HeaderSegments(fields, headers);
    ConcatAt(segs, i);
  }

  /** A missing header contributes the same empty segment as a header set to "". */
  lemma MissingHeaderReadsAsEmpty(fields: seq<string>, headers: map<string, string>, name: string, geo: string)
    ensures RawHashString(fields, headers - {name}, geo) == RawHashString(fields, headers[name := ""], geo)
  {
    var a := HeaderSegments(fields, headers - {name});
    var b := HeaderSegments(fields, headers[name := ""]);
    assert a == b by {
      forall i | 0 <= i < |fields|
        ensures a[i] == b[i]
      {
      }
    }
  }

  /** Separator-free concatenation is ambiguous: a value moved across a segment
      boundary gives the same raw string. */
  lemma ConcatenationIsAmbiguous(geo: string)
    ensures RawHashString(["a", "b"], map["a" := "AB", "b" := ""], geo)
         == RawHashString(["a", "b"], map["a" := "A", "b" := "B"], geo)
  {
    var fields := ["a", "b"];
    var h1, h2 := map["a" := "AB", "b" := ""], map["a" := "A", "b" := "B"];
    assert HeaderSegments(fields, h1) == ["AB", ""];
    assert HeaderSegments(fields, h2) == ["A", "B"];
    assert Concat(["AB", ""]) == "AB" == Concat(["A", "B"]);
  }

  /** Order matters: in this constructed case, swapping the two configured
      fields changes the raw hash string. */
  lemma FieldOrderMatters(geo: string)
    ensures RawHashString(["accept", "user-agent"], map["accept" := "x", "user-agent" := "y"], geo)
         != RawHashString(["user-agent", "accept"], map["accept" := "x", "user-agent" := "y"], geo)
  {
    var headers := map["accept" := "x", "user-agent" := "y"];
    assert RawHashString(["accept", "user-agent"], headers, geo)[0] == 'x';
    assert RawHashString(["user-agent", "accept"], headers, geo)[0] == 'y';
  }

  // ---------------------------------------------------------------------------
  // Address path resolution
  // ---------------------------------------------------------------------------

  /** A two-part path indexes the named top-level object by the second part,
      and throws when that object is absent. */
  lemma ResolveTwoParts(request: Request, first: string, second: string)
    requires '.' !in first && '.' !in second
    ensures ResolveAddress(request, first + "." + second)
              == match TopLevel(request, first)
                 case None => Failure(TypeError)
                 case Some(props) => Success(Property(props, second))
  {
    SplitAfterPiece(first, '.', second);
    SplitWithoutSeparator(second, '.');
  }

  /** Depth is capped at two: parts after the second are ignored, so
      "a.b.c" resolves exactly as "a.b". */
  lemma ResolveIgnoresDeeperParts(request: Request, first: string, second: string, rest: string)
    requires '.' !in first && '.' !in second
    ensures ResolveAddress(request, first + "." + second + "." + rest)
         == ResolveAddress(request, first + "." + second)
  {
    var deep := first + "." + second + "." + rest;
    assert deep == first + ['.'] + (second + ['.'] + rest);
    SplitAfterPiece(first, '.', second + ['.'] + rest);
    SplitAfterPiece(second, '.', rest);
    ResolveTwoParts(request, first, second);
  }

  /** A path with no '.' reads the property named "undefined" of the object. */
  lemma ResolveOnePart(request: Request, name: string)
    requires '.' !in name
    ensures ResolveAddress(request, name)
              == match TopLevel(request, name)
                 case None => Failure(TypeError)
                 case Some(props) => Success(Property(props, "undefined"))
  {
    SplitWithoutSeparator(name, '.');
  }

  /** A path into the headers never throws; it reads the header named by the
      part after "headers.". */
  lemma ResolveHeaderPath(request: Request, rest: string)
    ensures ResolveAddress(request, "headers." + rest) == Success(Property(request.headers, Split(rest, '.')[0]))
  {
    assert "headers." + rest == "headers" + ['.'] + rest;
    SplitAfterPiece("headers", '.', rest);
  }

  /** The default path reads the `x-forwarded-for` header and never throws. */
  lemma ResolveDefaultPath(request: Request)
    ensures ResolveAddress(request, DefaultIpField) == Success(Property(request.headers, "x-forwarded-for"))
  {
    var name := "x-forwarded-for";
    assert DefaultIpField == "headers" + ['.'] + name;
    assert '.' !in name;
    ResolveTwoParts(request, "headers", name);
  }

  // ---------------------------------------------------------------------------
  // What the fingerprint depends on
  // ---------------------------------------------------------------------------

  /** The fingerprint is a function of the configured header values and the
      geo lookup result alone: two requests that agree on those (and on whether
      the address path throws) get the same fingerprint, whatever else differs,
      the client addresses included. */
  lemma SignDependsOnlyOnInputs(config: Config, env: Collaborators, r1: Request, r2: Request)
    requires forall i :: 0 <= i < |config.hashFields| ==>
               JoinText(Property(r1.headers, config.hashFields[i])) == JoinText(Property(r2.headers, config.hashFields[i]))
    requires ResolveAddress(r1, config.ipField).Failure? == ResolveAddress(r2, config.ipField).Failure?
    requires ResolveAddress(r1, config.ipField).Success? ==>
               env.lookup(ResolveAddress(r1, config.ipField).value) == env.lookup(ResolveAddress(r2, config.ipField).value)
    ensures GenerateCookieSign(config, env, r1) == GenerateCookieSign(config, env, r2)
  {
    assert HeaderSegments(config.hashFields, r1.headers) == HeaderSegments(config.hashFields, r2.headers);
  }

  /** A request lacking a header gets the same fingerprint as one carrying it
      with an empty value, provided the address path does not read that header. */
  lemma MissingHeaderSameSign(config: Config, env: Collaborators, request: Request, name: string)
    requires AddressPath(config.ipField) != ("headers", name)
    ensures GenerateCookieSign(config, env, request.(headers := request.headers - {name}))
         == GenerateCookieSign(config, env, request.(headers := request.headers[name := ""]))
  {
    var r1 := request.(headers := request.headers - {name});
    var r2 := request.(headers := request.headers[name := ""]);
    forall i | 0 <= i < |config.hashFields|
      ensures JoinText(Property(r1.headers, config.hashFields[i])) == JoinText(Property(r2.headers, config.hashFields[i]))
    {
    }
    var (first, second) := AddressPath(config.ipField);
    assert first == "headers" ==> second != name;
    assert ResolveAddress(r1, config.ipField) == ResolveAddress(r2, config.ipField);
    SignDependsOnlyOnInputs(config, env, r1, r2);
  }

  /** JavaScript's default string form of a plain object is "[object Object]". */
  function PlainObjectText(g: GeoRecord): string
  {
    "[object Object]"
  }

  /** If lookup records print as plain objects, every successful lookup gives
      the same geo segment, so the country cannot tell two requests apart. */
  lemma PlainObjectHidesCountry(fields: seq<string>, headers: map<string, string>, g1: GeoRecord, g2: GeoRecord)
    ensures RawHashString(fields, headers, GeoSegment(Some(g1), PlainObjectText))
         == RawHashString(fields, headers, GeoSegment(Some(g2), PlainObjectText))
    ensures RawHashString(fields, headers, GeoSegment(Some(g1), PlainObjectText))
         != RawHashString(fields, headers, GeoSegment(None, PlainObjectText))
  {
  }
}

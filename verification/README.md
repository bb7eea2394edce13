# unique-session, modelled in Dafny

`unique-session` is an Express middleware that guards against session
hijacking. On every request it computes a fingerprint of the client — the
values of a configured list of headers followed by the geo lookup of the
client address, concatenated and MD5-digested — and binds it to the session
under the key `unique-session`. The first request of a session stores its
fingerprint. A later request with the same fingerprint passes. A later request
with a different fingerprint destroys the session and is redirected.

The model is functional:

- `Config` (config.dfy): the `uniqueSession(options)` fallbacks. An absent or
  empty `ipField`/`redirectTo` falls back to its default. A supplied
  `hashFields` array, even `[]`, is kept.
- `Text` (text.dfy): JavaScript's `split('.')` and `join('')` on strings, with
  the split/join round trip.
- `Fingerprint` (fingerprint.dfy): header segments, the two-level address path
  (`getRequestValueFromPathString`), the geo segment and `generateCookieSign`.
  The MD5 digest, the geo lookup and the JavaScript string form of a lookup
  record are uninterpreted functions, carried in `Collaborators`. Nothing is
  assumed about them.
- `Binder` (binder.dfy): the request handler as a total function from the
  session record and the request to an `Outcome`. An `Outcome` is the session
  afterwards (`Live(store)` or `Destroyed`) plus a `Decision` (`Continue` for
  `next()`, `Redirect(target)` for `response.redirect`).
- `Lifecycle` (lifecycle.dfy): a session over a sequence of requests. After
  `destroy()` the old token starts from a fresh, empty record.

Four behaviours of the code are easy to misread; the model follows the code in each:

- An address path with more than two parts is silently truncated to its first
  two parts. It is not rejected (`ResolveIgnoresDeeperParts`).
- A path with no `.` indexes the object by the property name `"undefined"`.
  This is what JavaScript does with an `undefined` key (`ResolveOnePart`).
- When the first part of the path names no object of the request,
  `request[first][second]` throws a `TypeError`. The handler then fails before
  it reads or writes the session. This is modelled as a `Failure(TypeError)`
  result, not as "never throws". Paths that start with `headers.`, including
  the default, never throw (`ResolveHeaderPath`, `ResolveDefaultPath`).
- The geo segment is what `join('')` makes of the lookup result: `""` for
  `null`, and otherwise the record's JavaScript string form. It is not the
  country code. The model keeps that string form abstract (`render`). If the
  record is a plain object, its string form is `"[object Object]"` whatever
  the country. In that case only the success of the lookup reaches the
  fingerprint, not the country (`PlainObjectHidesCountry`).

## Model

| member | source | states |
|---|---|---|
| Config.OrString | src/index.ts:53-54 | The string `||`: a supplied non-empty string is kept, and an absent value or `""` gives the fallback. |
| Config.OrArray | src/index.ts:52 | The array `||`: any supplied array is kept, even `[]`, and an absent value gives the fallback. |
| Config.Configure | src/index.ts:50-54 | Each supplied option replaces its default. `ipField` and `redirectTo` fall back exactly when absent or `""`. A supplied `hashFields` array is always kept, even when empty. The effective path and redirect target are never empty. |
| Config.DefaultsWithoutOptions | src/index.ts:50-54 | With no options: `hashFields = [accept, accept-language, user-agent]`, `ipField = headers.x-forwarded-for`, `redirectTo = /`. |
| Config.ConfigureExplicit | src/index.ts:52-54 | Every configuration with a non-empty path and target passes through the fallbacks unchanged when given explicitly. |
| Config.ConfigureIdempotent | src/index.ts:52-54 | Applying the fallbacks a second time changes nothing. |
| Text.Split | src/index.ts:66 | `split` yields at least one piece, and no piece contains the separator. |
| Text.JoinSplit | src/index.ts:66 | Joining the pieces of a split with the separator gives back the string. |
| Text.SplitJoin | src/index.ts:66 | Splitting a join of separator-free pieces gives back exactly those pieces. |
| Text.Concat | src/index.ts:76 | `join('')` puts the pieces one after another with no separator, so its length is the sum of the pieces' lengths. `ConcatAt` places each piece between the earlier and the later ones. |
| Text.ConcatAt | src/index.ts:76 | In a `join('')`, every piece sits unchanged after all earlier pieces and before all later ones. |
| Fingerprint.HeaderSegments | src/index.ts:72 | One segment per configured field, in configured order. Each is the header's value, or `""` when the header is missing. |
| Fingerprint.GeoSegment | src/index.ts:74-76 | `join` prints the lookup result by the same rule as a header value: `null` becomes `""`, and a record becomes its JavaScript string form. |
| Fingerprint.RawHashString | src/index.ts:76 | The raw hash string is the header segments followed by the geo segment, with no separator. Its length is the sum of the segment lengths. |
| Fingerprint.AddressPath | src/index.ts:66 | The two names the path destructures into are separator-free. A path with no `.` gives the path itself and the key `"undefined"`. Otherwise the first two pieces, with a `.` between them, start the path and are followed by its end or by another `.`: later pieces are dropped. |
| Fingerprint.ResolveAddress | src/index.ts:65-69 | Throws exactly when the first part of the path names no top-level object, which never happens for `headers`. A value it reads is one of that object's property values. `ResolveTwoParts`, `ResolveOnePart` and `ResolveIgnoresDeeperParts` together pin down its result for every path. |
| Fingerprint.GenerateCookieSign | src/index.ts:71-80 | Fails exactly when resolving the address path throws. Otherwise it is the digest of the header values in configured order followed by the geo segment of the resolved address. |
| Fingerprint.RawHashStringSegment | src/index.ts:72-76 | The value of the i-th configured header sits after the segments of the headers configured before it. It sits before the later segments and the geo segment. |
| Fingerprint.MissingHeaderReadsAsEmpty | src/index.ts:72-76 | A missing header gives the same raw hash string as the header set to `""`. |
| Fingerprint.ConcatenationIsAmbiguous | src/index.ts:76 | Without a separator, `"AB" + ""` and `"A" + "B"` give the same raw string. |
| Fingerprint.FieldOrderMatters | src/index.ts:72-76 | In one constructed case (`accept="x"`, `user-agent="y"`), swapping the two configured fields changes the raw string. This is not true of every pair of values: `"a"` and `"aa"` give `"aaa"` in either order. |
| Fingerprint.ResolveTwoParts | src/index.ts:65-69 | `first.second` reads property `second` of the top-level object `first`. It throws when that object is absent. |
| Fingerprint.ResolveIgnoresDeeperParts | src/index.ts:65-69 | Depth is capped at two: `a.b.rest` resolves exactly as `a.b`. |
| Fingerprint.ResolveOnePart | src/index.ts:65-69 | A path with no `.` reads the property named `"undefined"` of the named object. |
| Fingerprint.ResolveHeaderPath | src/index.ts:65-69 | A `headers.` path never throws. It reads the header named by the next part. |
| Fingerprint.ResolveDefaultPath | src/index.ts:53-69 | The default path reads the `x-forwarded-for` header and never throws. |
| Fingerprint.SignDependsOnlyOnInputs | src/index.ts:61-80 | Two requests that agree on the configured header values, on whether resolving the address throws, and on the geo lookup result get the same fingerprint, even when their client addresses differ. |
| Fingerprint.MissingHeaderSameSign | src/index.ts:71-80 | A request lacking a header gets the same fingerprint as one with that header set to `""`, when the address path does not read that header. |
| Fingerprint.PlainObjectHidesCountry | src/index.ts:74-76 | If lookup records print as plain objects, any two successful lookups give the same raw string. A successful lookup still differs from a failed one. |
| Binder.Bind | src/index.ts:86-99 | The request continues exactly when the session is unbound or bound to this fingerprint; otherwise it is `Destroyed` and redirected to `redirectTo`. A live session afterwards is the old record with `unique-session` set to this fingerprint, so the other keys and values are unchanged. A bound value is never overwritten. |
| Binder.Handle | src/index.ts:82-100 | The handler fails exactly when computing the fingerprint fails, and then it returns no session. Otherwise it continues exactly when the session is unbound or bound to this fingerprint, destroys and redirects to `redirectTo` otherwise. The session stays live exactly when the request continues, and a live session afterwards is the old record with `unique-session` set to this fingerprint. |
| Binder.HandleUnbound | src/index.ts:95-99 | First contact stores the fingerprint under `unique-session`, keeps every other key, and continues. |
| Binder.HandleBoundMatch | src/index.ts:86-88 | A bound session whose fingerprint matches is left exactly as it was, and the request continues. |
| Binder.HandleBoundMismatch | src/index.ts:90-94 | A bound session whose fingerprint differs becomes `Destroyed`, and the request is redirected to `redirectTo`. |
| Lifecycle.Step | src/index.ts:82-100 | A request whose fingerprint computation throws leaves the session as it was. A session that is live afterwards is the record it started from, with `unique-session` set to this request's fingerprint. A destroyed session becomes a fresh, live one once a request's fingerprint is computed. Once the fingerprint is computed, the session is destroyed exactly when the record it started from is bound to a different fingerprint. |
| Lifecycle.BindingIsStable | src/index.ts:86-97 | While a bound session stays live over any sequence of requests, its bound value never changes. Every request that computed a fingerprint had that same fingerprint. |
| Lifecycle.DestroyedStartsAfresh | src/index.ts:92-96 | After destruction, the next request with the old token binds a fresh session to its own fingerprint. |
| Lifecycle.TamperedSessionIsDestroyed | src/index.ts:82-100 | Bind with one fingerprint, then a different one: the session is destroyed and redirected. The same request sent again binds a fresh session. |
| Lifecycle.UserAgentChangeExample | src/index.ts:82-100 | Configuration `[accept, user-agent]`, `/login`: user agent `A` binds, then user agent `B` destroys the session and redirects to `/login`. |

## Left out

- MD5 (`calculateHash`, src/index.ts:3, 61-63): an uninterpreted `digest` function. No collision or length property is assumed.
- The geo lookup (src/index.ts:2, 74): an uninterpreted `lookup` from the resolved address (or `undefined`) to an optional record. The JavaScript string form of a record is the uninterpreted `render`.
- Debug logging (src/index.ts:1, 6-9, 56-59, 77, 84, 91): it has no behavioural effect.
- Express plumbing (`next()`, `response.redirect`, the type declarations, src/index.ts:4, 11-16, 48): these are represented by the `Decision` value.
- The module export lines (src/index.ts:103-105).
- Concurrent requests on the same session: serialising them is the session store's job.
- Top-level request properties that are primitives rather than objects (indexing a string), properties inherited through the prototype chain, and the session record seen as `request.session`: the request is a header map plus a map of top-level objects with string properties, kept independent of the session store. So an `ipField` such as `session.x`, which in the code reads the record the handler binds, is not modelled as reading it.
- Node's lower-casing of incoming header names: header names are matched exactly as configured.
- A failing `session.destroy()` or a request without a session: the session store and the session middleware are not part of this model.
- Lifecycle.Revive: after `destroy()`, the old token is assumed to reach the handler as an empty record. That is the session middleware's behaviour, not this code's.
- Lifecycle.UserAgentChangeExample: it assumes the digest tells the two raw strings apart, because no collision property of MD5 is modelled.
- Lifecycle.TamperedSessionIsDestroyed: it assumes the two fingerprints differ, for the same reason.

/**
 A session over a sequence of requests. After `destroy()` the session store
 no longer knows the session, so the next request carrying the old token
 starts from a fresh, empty session record.
 */
module Lifecycle {
  import opened Wrappers
  import opened Config
  import opened Fingerprint
  import opened Binder
  import opened Text

  /** The record the session middleware hands the next request. */
  function Revive(s: Session): map<string, string>
  {
    match s
    case Live(store) => store
    case Destroyed => map[]
  }

  /** The session after one request: a request whose handler throws leaves it
      as it was; otherwise the session is destroyed exactly when it is bound to
      a different fingerprint, and a live result is bound to this one. */
  function Step(config: Config, env: Collaborators, request: Request, s: Session): (t: Session)
    ensures GenerateCookieSign(config, env, request).Failure? ==> t == s
    ensures GenerateCookieSign(config, env, request).Success? && t.Live? ==>
              var sign := GenerateCookieSign(config, env, request).value;
              t.store == Revive(s)[SessionKey := sign]
    ensures GenerateCookieSign(config, env, request).Success? && s.Destroyed? ==> t.Live?
    ensures GenerateCookieSign(config, env, request).Success? ==>
              (t.Destroyed? <==> SessionKey in Revive(s) && Revive(s)[SessionKey] != GenerateCookieSign(config, env, request).value)
  {
    match Handle(config, env, request, Revive(s))
    case Failure(_) => s
    case Success(o) => o.session
  }

  /** The session before each request and after the last one. */
  function Trace(config: Config, env: Collaborators, requests: seq<Request>, s: Session): (t: seq<Session>)
    ensures |t| == |requests| + 1
    ensures t[0] == s
    decreases |requests|
  {
    if |requests| == 0 then [s]
    else [s] + Trace(config, env, requests[1..], Step(config, env, requests[0], s))
  }

  /** The session invariant: while a bound session stays live, its bound value
      never changes, and every request that got through carried that same
      fingerprint. */
  lemma {:induction false} BindingIsStable(config: Config, env: Collaborators, requests: seq<Request>, store: map<string, string>)
    requires SessionKey in store
    requires forall i :: 0 <= i < |requests| + 1 ==> Trace(config, env, requests, Live(store))[i].Live?
    ensures forall i :: 0 <= i < |requests| + 1 ==>
              var s := Trace(config, env, requests, Live(store))[i];
              SessionKey in s.store && s.store[SessionKey] == store[SessionKey]
    ensures forall j :: 0 <= j < |requests| && GenerateCookieSign(config, env, requests[j]).Success? ==>
              GenerateCookieSign(config, env, requests[j]).value == store[SessionKey]
    decreases |requests|
  {
    var t := Trace(config, env, requests, Live(store));
    if |requests| > 0 {
      var next := Step(config, env, requests[0], Live(store));
      var rest := Trace(config, env, requests[1..], next);
      assert t == [Live(store)] + rest;
      assert t[1] == next;
      assert next.Live?;
      var r := GenerateCookieSign(config, env, requests[0]);
      if r.Success? {
        assert r.value == store[SessionKey];
      }
      assert next == Live(store);
      forall i | 0 <= i < |requests[1..]| + 1
        ensures rest[i].Live?
      {
        assert rest[i] == t[i + 1];
      }
      BindingIsStable(config, env, requests[1..], store);
      forall i | 0 <= i < |requests| + 1
        ensures SessionKey in t[i].store && t[i].store[SessionKey] == store[SessionKey]
      {
        if i > 0 {
          assert t[i] == rest[i - 1];
        }
      }
      forall j | 0 <= j < |requests| && GenerateCookieSign(config, env, requests[j]).Success?
        ensures GenerateCookieSign(config, env, requests[j]).value == store[SessionKey]
      {
        if j > 0 {
          assert requests[j] == requests[1..][j - 1];
        }
      }
    }
  }

  /** After destruction the old token behaves as a fresh, unbound session: the
      next request that computes a fingerprint binds it anew. */
  lemma DestroyedStartsAfresh(config: Config, env: Collaborators, request: Request)
    requires GenerateCookieSign(config, env, request).Success?
    ensures Step(config, env, request, Destroyed)
         == Live(map[SessionKey := GenerateCookieSign(config, env, request).value])
  {
  }

  /** The configuration of the user-agent example: two headers, the default
      address path, and "/login" as the redirect target. */
  const ExampleConfig: Config := Config(["accept", "user-agent"], DefaultIpField, "/login")

  /** The example configuration is what the options of the example produce. */
  lemma ExampleConfigFromOptions()
    ensures Configure(Options(Some(["accept", "user-agent"]), None, Some("/login"))) == ExampleConfig
  {
  }

  /** A request of the user-agent example, differing only in its user agent. */
  function ExampleRequest(agent: string): Request
  {
    Request(map["accept" := "text/html", "user-agent" := agent, "x-forwarded-for" := "1.2.3.4"], map[])
  }

  /** The geo segment of the user-agent example's client address. */
  function ExampleGeo(env: Collaborators): string
  {
    GeoSegment(env.lookup(Some("1.2.3.4")), env.render)
  }

  /** An example request's address resolves, through the default path, to its
      `x-forwarded-for` header. */
  lemma ExampleAddress(agent: string)
    ensures ResolveAddress(ExampleRequest(agent), ExampleConfig.ipField) == Success(Some("1.2.3.4"))
  {
    ResolveDefaultPath(ExampleRequest(agent));
  }

  /** An example request's header segments are its accept value, then its user agent. */
  lemma ExampleHeaders(agent: string)
    ensures Concat(HeaderSegments(ExampleConfig.hashFields, ExampleRequest(agent).headers))
         == "text/html" + agent
  {
    var segs := HeaderSegments(ExampleConfig.hashFields, ExampleRequest(agent).headers);
    assert segs[0] == "text/html";
    assert segs[1..] == [agent];
    assert Concat(segs[1..]) == agent by {
      assert segs[1..][1..] == [];
    }
  }

  /** The fingerprint of an example request digests the accept value, the user
      agent and the geo segment, in that order. */
  lemma ExampleSign(env: Collaborators, agent: string)
    ensures GenerateCookieSign(ExampleConfig, env, ExampleRequest(agent))
         == Success(env.digest("text/html" + agent + ExampleGeo(env)))
  {
    ExampleAddress(agent);
    ExampleHeaders(agent);
  }

  /** A session bound by one request is destroyed, with a redirect, by a
      request with a different fingerprint; that request, sent again with the
      old token, binds a fresh session to its own fingerprint. */
  lemma {:induction false} TamperedSessionIsDestroyed(config: Config, env: Collaborators, first: Request, second: Request)
    requires GenerateCookieSign(config, env, first).Success?
    requires GenerateCookieSign(config, env, second).Success?
    requires GenerateCookieSign(config, env, first).value != GenerateCookieSign(config, env, second).value
    ensures var sign1, sign2 := GenerateCookieSign(config, env, first).value, GenerateCookieSign(config, env, second).value;
            && Handle(config, env, first, map[]) == Success(Outcome(Live(map[SessionKey := sign1]), Continue))
            && Handle(config, env, second, map[SessionKey := sign1]) == Success(Outcome(Destroyed, Redirect(config.redirectTo)))
            && Trace(config, env, [first, second, second], Live(map[]))
               == [Live(map[]), Live(map[SessionKey := sign1]), Destroyed, Live(map[SessionKey := sign2])]
  {
    var sign1, sign2 := GenerateCookieSign(config, env, first).value, GenerateCookieSign(config, env, second).value;
    var s1 := Step(config, env, first, Live(map[]));
    assert s1 == Live(map[SessionKey := sign1]);
    var s2 := Step(config, env, second, s1);
    assert s2 == Destroyed;
    var s3 := Step(config, env, second, s2);
    assert s3 == Live(map[SessionKey := sign2]);
    var requests := [first, second, second];
    assert requests[1..] == [second, second];
    assert [second, second][1..] == [second];
    assert Trace(config, env, [second], s2) == [s2, s3];
    assert Trace(config, env, [second, second], s1) == [s1, s2, s3];
  }

  /** Example: configured with the accept and user-agent headers and "/login",
      a session bound by a request from user agent "A" is destroyed, with a
      redirect to "/login", by a request from user agent "B", provided the
      digest tells the two raw strings apart. */
  lemma UserAgentChangeExample(env: Collaborators)
    requires env.digest("text/html" + "A" + ExampleGeo(env)) != env.digest("text/html" + "B" + ExampleGeo(env))
    ensures var sign1 := env.digest("text/html" + "A" + ExampleGeo(env));
            && Handle(ExampleConfig, env, ExampleRequest("A"), map[])
               == Success(Outcome(Live(map[SessionKey := sign1]), Continue))
            && Handle(ExampleConfig, env, ExampleRequest("B"), map[SessionKey := sign1])
               == Success(Outcome(Destroyed, Redirect("/login")))
  {
    ExampleSign(env, "A");
    ExampleSign(env, "B");
    var sign1 := env.digest("text/html" + "A" + ExampleGeo(env));
    HandleUnbound(ExampleConfig, env, ExampleRequest("A"), map[]);
    HandleBoundMismatch(ExampleConfig, env, ExampleRequest("B"), map[SessionKey := sign1]);
  }
}

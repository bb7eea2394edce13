/**
 The request handler returned by `uniqueSession`: it computes the request's
 fingerprint and binds it to the session on first contact, lets matching
 requests through, and destroys the session and redirects on a mismatch.

 The session is the key-value record of the session middleware. Calling
 `next()` and `response.redirect(...)` are represented by the `Decision`.
 */
module Binder {
  import opened Wrappers
  import opened Config
  import opened Fingerprint

  /** The session key holding the bound fingerprint. */
  const SessionKey: string := "unique-session"

  /** A session record, or the state after `request.session.destroy()`. */
  datatype Session = Live(store: map<string, string>) | Destroyed

  /** `next()` or `response.redirect(target)`. */
  datatype Decision = Continue | Redirect(target: string)

  /** The session after the request and what the handler did with the request. */
  datatype Outcome = Outcome(session: Session, decision: Decision)

  /** The binding policy, given the request's fingerprint `sign`:
      a store without the key is bound to `sign` and the request continues;
      a store bound to `sign` is left as it is and the request continues;
      a store bound to anything else is destroyed and the request redirected.
      A bound value is never overwritten: a session that stays live after a
      request is bound to that request's fingerprint. */
  function Bind(store: map<string, string>, sign: string, redirectTo: string): (o: Outcome)
    ensures o.decision == Continue <==> SessionKey !in store || store[SessionKey] == sign
    ensures o.decision != Continue ==> o == Outcome(Destroyed, Redirect(redirectTo))
    ensures o.session.Live? <==> o.decision == Continue
    ensures o.session.Live? ==> SessionKey in o.session.store && o.session.store[SessionKey] == sign
    ensures o.session.Live? ==> o.session.store.Keys == store.Keys + {SessionKey}
    ensures o.session.Live? ==> forall k :: k in store && k != SessionKey ==> o.session.store[k] == store[k]
    ensures o.session.Live? && SessionKey in store ==> o.session.store == store
    ensures o.session.Live? ==> o.session.store == store[SessionKey := sign]
  {
    if SessionKey in store then
      if sign == store[SessionKey] then Outcome(Live(store), Continue)
      else Outcome(Destroyed, Redirect(redirectTo))
    else
      Outcome(Live(store[SessionKey := sign]), Continue)
  }

  /** The handler. When computing the fingerprint throws, the exception leaves
      the handler before the session is read or written. */
  function Handle(config: Config, env: Collaborators, request: Request, store: map<string, string>)
    : (r: Result<Outcome, Fault>)
    ensures r.Failure? <==> GenerateCookieSign(config, env, request).Failure?
    ensures r.Success? ==>
              var sign := GenerateCookieSign(config, env, request).value;
              && (r.value.decision == Continue <==> SessionKey !in store || store[SessionKey] == sign)
              && (r.value.decision != Continue ==> r.value == Outcome(Destroyed, Redirect(config.redirectTo)))
              && (r.value.session.Live? <==> r.value.decision == Continue)
              && (r.value.session.Live? ==> r.value.session.store == store[SessionKey := sign])
  {
    match GenerateCookieSign(config, env, request)
    case Failure(e) => Failure(e)
    case Success(sign) => Success(Bind(store, sign, config.redirectTo))
  }

  /** First contact: an unbound session is bound to the request's fingerprint,
      every other key is kept, and the request continues. */
  lemma HandleUnbound(config: Config, env: Collaborators, request: Request, store: map<string, string>)
    requires SessionKey !in store
    requires GenerateCookieSign(config, env, request).Success?
    ensures var sign := GenerateCookieSign(config, env, request).value;
            Handle(config, env, request, store) == Success(Outcome(Live(store[SessionKey := sign]), Continue))
  {
  }

  /** A bound session whose fingerprint matches is left exactly as it was and
      the request continues. */
  lemma HandleBoundMatch(config: Config, env: Collaborators, request: Request, store: map<string, string>)
    requires SessionKey in store
    requires GenerateCookieSign(config, env, request) == Success(store[SessionKey])
    ensures Handle(config, env, request, store) == Success(Outcome(Live(store), Continue))
  {
  }

  /** A bound session whose fingerprint differs is destroyed and the request is
      redirected to the configured target instead of continuing. */
  lemma HandleBoundMismatch(config: Config, env: Collaborators, request: Request, store: map<string, string>)
    requires SessionKey in store
    requires GenerateCookieSign(config, env, request).Success?
    requires GenerateCookieSign(config, env, request).value != store[SessionKey]
    ensures Handle(config, env, request, store) == Success(Outcome(Destroyed, Redirect(config.redirectTo)))
  {
  }
}

/** private_key_jwt client authentication and its replay guard (section 3 of
    RFC 7523). The signature, the client's keys and the JSON parsing are inputs. */
module ClientAuth {
  import opened Base
  import opened ReplayStore
  import Base64Url
  import Text

  /** A form field: absent, sent without a value, repeated, or one value. */
  datatype Field<+T> = Absent | Empty | Repeated | One(value: T) {
    predicate Present() { Repeated? || One? }
  }

  datatype Time = NoTime | NotANumber | At(sec: real)

  datatype Claims = Claims(
    sub: Option<string>, iss: Option<string>, aud: Option<string>,
    exp: Option<real>, iat: Time, nbf: Time, jti: Option<string>)

  datatype Signature = Verified(claims: Claims) | Unverified | KeysUnavailable

  /** `compact`: three dot-separated parts, no white space or comma.
      `subjectHint`: the unverified subject, used to find the client. */
  datatype Assertion = Assertion(compact: bool, subjectHint: Option<string>, signature: Signature)

  datatype Form = Form(
    assertion: Field<Assertion>, assertionType: Field<string>, clientId: Field<string>,
    clientSecret: Field<string>, authorization: Field<string>)

  datatype Config = Config(issuer: string, skewSec: nat, maxLifetimeSec: nat)

  datatype Error = InvalidRequest | InvalidClient | ServerError

  const JWT_BEARER := "urn:ietf:params:oauth:client-assertion-type:jwt-bearer"
  const CONTEXT := "client-assertion"

  function ReplayId(clientId: string, jti: string): string {
    Base64Url.EncodeText(clientId) + "." + Base64Url.EncodeText(jti)
  }

  /** Whatever the client id and the jti contain, the id keeps them apart, and
      the joined memory key keeps apart what the two-column key keeps apart. */
  lemma ReplayKeyInjective(clientId: string, jti: string, clientId': string, jti': string, context: string,
                           context': string)
    requires JoinKey(context, ReplayId(clientId, jti)) == JoinKey(context', ReplayId(clientId', jti'))
    ensures context == context' && clientId == clientId' && jti == jti'
  {
    var c, j := Base64Url.EncodeText(clientId), Base64Url.EncodeText(jti);
    var c', j' := Base64Url.EncodeText(clientId'), Base64Url.EncodeText(jti');
    assert NUL !in c + "." + j && NUL !in c' + "." + j';
    JoinKeyInjective(context, c + "." + j, context', c' + "." + j');
    Text.JoinInjective(c, j, c', j', '.');
    Base64Url.EncodeTextInjective(clientId, clientId');
    Base64Url.EncodeTextInjective(jti, jti');
  }

  /** One store serves both guards: no assertion's row is that of a DPoP proof, whose
      contexts begin with dpop. */
  lemma ApartFromProofs(clientId: string, jti: string, context: string, id: string)
    requires "dpop" <= context && NUL !in id
    ensures JoinKey(CONTEXT, ReplayId(clientId, jti)) != JoinKey(context, id)
  {
    var own := ReplayId(clientId, jti);
    assert NUL !in own && context[0] == 'd';
    if JoinKey(CONTEXT, own) == JoinKey(context, id) {
      JoinKeyInjective(CONTEXT, own, context, id);
    }
  }

  /** The assertion may be used at `now`. */
  predicate InLifetime(exp: real, cfg: Config, now: Ms) {
    exp > FloorSec(now) as real && exp - FloorSec(now) as real <= cfg.maxLifetimeSec as real
  }

  predicate NotInFuture(t: Time, cfg: Config, now: Ms) {
    t.NoTime? || (t.At? && t.sec <= (FloorSec(now) + cfg.skewSec) as real)
  }

  /** One mechanism, private_key_jwt, each parameter once. */
  predicate WellFormed(f: Form) {
    && f.assertion.One? && f.assertionType == One(JWT_BEARER) && f.assertion.value.compact
    && !f.clientId.Repeated? && !f.clientSecret.Present() && !f.authorization.Present()
  }

  /** The verified claims authenticate this registered client to this issuer. */
  predicate Authentic(f: Form, clientId: string, clients: set<string>, cfg: Config, now: Ms)
    requires WellFormed(f)
  {
    var a := f.assertion.value;
    && a.subjectHint == Some(clientId) && clientId in clients
    && a.signature.Verified?
    && var c := a.signature.claims;
    && c.sub == Some(clientId) && c.iss == Some(clientId) && c.aud == Some(cfg.issuer)
    && (f.clientId.One? ==> f.clientId.value == clientId)
    && c.exp.Some? && InLifetime(c.exp.value, cfg, now)
    && NotInFuture(c.iat, cfg, now) && NotInFuture(c.nbf, cfg, now)
    && c.jti.Some? && c.jti.value != ""
  }

  /** An assertion made as section 3 of RFC 7523 says, and sent with nothing beside it but
      perhaps the client's id, is one that authenticates. */
  lemma ProperAssertionAuthentic(id: string, exp: real, jti: string, iat: Time, nbf: Time, sent: Field<string>,
                                 clients: set<string>, cfg: Config, now: Ms)
    requires id in clients && jti != "" && (sent.Absent? || sent.Empty? || sent == One(id))
    requires (now / 1000) as real < exp <= (now / 1000 + cfg.maxLifetimeSec) as real
    requires forall t | t in {iat, nbf} :: t.NoTime? || (t.At? && t.sec <= (now / 1000 + cfg.skewSec) as real)
    ensures var claims := Claims(Some(id), Some(id), Some(cfg.issuer), Some(exp), iat, nbf, Some(jti));
            var form := Form(One(Assertion(true, Some(id), Verified(claims))),
                             One("urn:ietf:params:oauth:client-assertion-type:jwt-bearer"), sent, Absent, Absent);
            WellFormed(form) && Authentic(form, id, clients, cfg, now)
  {
  }

  function AssertionKey(f: Form, clientId: string): string
    requires WellFormed(f) && f.assertion.value.signature.Verified? && f.assertion.value.signature.claims.jti.Some?
  {
    JoinKey(CONTEXT, ReplayId(clientId, f.assertion.value.signature.claims.jti.value))
  }

  ghost predicate UsedBefore(log: seq<Event<string>>, key: string, expiresAt: int) {
    exists i | 0 <= i < |log| :: log[i].Accepts(key) && log[i].expiresAt == expiresAt
  }

  /** `clients` holds the ids whose registration row is present and well formed. */
  method AuthenticateClient(f: Form, clients: set<string>, cfg: Config, store: MemoryJtiReplay, now: Ms)
    returns (r: Result<string, Error>)
    requires store.Valid()
    modifies store
    ensures store.Valid()
    ensures r.Ok? ==> WellFormed(f) && Authentic(f, r.value, clients, cfg, now)
    // That is: by a verified assertion alone, made by and about this registered client,
    // for this issuer, with an identifier, and neither expired, too long-lived, nor
    // from the future.
    ensures r.Ok? ==>
              && f.assertionType == One("urn:ietf:params:oauth:client-assertion-type:jwt-bearer")
              && !f.clientSecret.Repeated? && !f.clientSecret.One?
              && !f.authorization.Repeated? && !f.authorization.One?
              && !f.clientId.Repeated? && (f.clientId.One? ==> f.clientId.value == r.value) && r.value in clients
              && f.assertion.One? && f.assertion.value.compact && f.assertion.value.signature.Verified?
              && f.assertion.value.subjectHint == Some(r.value)
              && var c := f.assertion.value.signature.claims;
              && c.sub == Some(r.value) && c.iss == Some(r.value) && c.aud == Some(cfg.issuer)
              && c.jti.Some? && c.jti.value != "" && c.exp.Some?
              && (now / 1000) as real < c.exp.value <= (now / 1000 + cfg.maxLifetimeSec) as real
              && !c.iat.NotANumber? && (c.iat.At? ==> c.iat.sec <= (now / 1000 + cfg.skewSec) as real)
              && !c.nbf.NotANumber? && (c.nbf.At? ==> c.nbf.sec <= (now / 1000 + cfg.skewSec) as real)
    // Nothing is registered before every check has passed.
    ensures store.log != old(store.log) ==>
              exists id :: WellFormed(f) && Authentic(f, id, clients, cfg, now)
    // Once they have, the store decides and the claim is written down.
    ensures forall id | WellFormed(f) && Authentic(f, id, clients, cfg, now) ::
              var c := f.assertion.value.signature.claims;
              && store.log == old(store.log) + [Event.Register(AssertionKey(f, id), DateMs(c.exp.value), now, r.Ok?)]
              && (r.Ok? <==> |old(store.AfterSweep(now))| < CAP && !Live(old(store.rows), AssertionKey(f, id), now))
              && (r == Ok(id) || r == Err(InvalidClient))
    // Mixed mechanisms and repeated parameters are the caller's malformed
    // request, unreachable keys are the server's trouble, the rest is one answer.
    ensures r == Err(InvalidRequest) <==>
              || (if f.assertion.Present() || f.assertionType.Present() then 1 else 0)
                 + (if f.clientSecret.Present() then 1 else 0) + (if f.authorization.Present() then 1 else 0) > 1
              || (!f.clientSecret.Present() && !f.authorization.Present()
                  && (f.assertion.Repeated? || f.assertionType.Repeated? || f.clientId.Repeated?))
    ensures r == Err(ServerError) ==> WellFormed(f) && f.assertion.value.signature.KeysUnavailable?
    // Single use, at whichever endpoint, over the whole history of the store.
    ensures r.Ok? && ClockBy(old(store.log), now) && Whole(f.assertion.value.signature.claims.exp.value) ==>
              !UsedBefore(old(store.log), AssertionKey(f, r.value),
                          DateMs(f.assertion.value.signature.claims.exp.value))
  {
    var assertionPresent := f.assertion.Present() || f.assertionType.Present();
    var mechanisms := (if assertionPresent then 1 else 0)
      + (if f.clientSecret.Present() then 1 else 0) + (if f.authorization.Present() then 1 else 0);
    if mechanisms > 1 {
      return Err(InvalidRequest);
    }
    if f.clientSecret.Present() || f.authorization.Present() {
      return Err(InvalidClient);
    }
    if f.assertion.Repeated? || f.assertionType.Repeated? || f.clientId.Repeated? {
      return Err(InvalidRequest);
    }
    if !f.assertion.One? || !f.assertionType.One? {
      return Err(InvalidClient);
    }
    if f.assertionType.value != JWT_BEARER {
      return Err(InvalidClient);
    }
    var a := f.assertion.value;
    if !a.compact {
      return Err(InvalidClient);
    }
    if a.subjectHint.None? || a.subjectHint.value !in clients {
      return Err(InvalidClient);
    }
    var clientId := a.subjectHint.value;
    if a.signature.KeysUnavailable? {
      return Err(ServerError);
    }
    if a.signature.Unverified? {
      return Err(InvalidClient);
    }
    var claims := a.signature.claims;
    if claims.sub != Some(clientId) || claims.iss != Some(clientId) {
      return Err(InvalidClient);
    }
    if f.clientId.One? && f.clientId.value != clientId {
      return Err(InvalidClient);
    }
    if claims.aud != Some(cfg.issuer) {
      return Err(InvalidClient);
    }
    var nowSec := FloorSec(now);
    if claims.exp.None? {
      return Err(InvalidClient);
    }
    var exp := claims.exp.value;
    if exp <= nowSec as real {
      return Err(InvalidClient);
    }
    if exp - nowSec as real > cfg.maxLifetimeSec as real {
      return Err(InvalidClient);
    }
    var times := [claims.iat, claims.nbf];
    for i := 0 to |times|
      invariant forall k | 0 <= k < i :: NotInFuture(times[k], cfg, now)
      invariant store.Valid() && store.log == old(store.log) && unchanged(store)
    {
      var v := times[i];
      if !v.NoTime? {
        if v.NotANumber? {
          assert times[i] == claims.iat || times[i] == claims.nbf;
          return Err(InvalidClient);
        }
        if v.sec > (nowSec + cfg.skewSec) as real {
          assert times[i] == claims.iat || times[i] == claims.nbf;
          return Err(InvalidClient);
        }
      }
    }
    assert NotInFuture(times[0], cfg, now) && NotInFuture(times[1], cfg, now);
    if claims.jti.None? || claims.jti.value == "" {
      return Err(InvalidClient);
    }
    assert Authentic(f, clientId, clients, cfg, now);
    var key := JoinKey(CONTEXT, ReplayId(clientId, claims.jti.value));
    if ClockBy(store.log, now) && Whole(exp) && UsedBefore(store.log, key, DateMs(exp)) {
      ReuseRefused(store.past, store.log, |store.log|, key, exp, now);
      assert store.log[..|store.log|] == store.log;
    }
    var unused := store.Register(CONTEXT, ReplayId(clientId, claims.jti.value), DateMs(exp), now);
    if !unused {
      return Err(InvalidClient);
    }
    return Ok(clientId);
  }

  /** With an expiry on a whole second, passing `exp > nowSec` means the row is live. */
  lemma ReuseRefused<K(!new)>(states: seq<Rows<K>>, log: seq<Event<K>>, n: nat, key: K, exp: real, now: Ms)
    requires Run(states, log) && n <= |log| && ClockBy(log[..n], now)
    requires Whole(exp) && exp > FloorSec(now) as real
    requires exists i | 0 <= i < n :: log[i].Accepts(key) && log[i].expiresAt == DateMs(exp)
    ensures Live(states[n], key, now)
  {
    WholeExpiry(exp, now);
    var i :| 0 <= i < n && log[i].Accepts(key) && log[i].expiresAt == DateMs(exp);
    assert log[..n][i].Accepts(key);
    ForgettingRefinesRemembering(states, log, n, key, now);
  }

  lemma WholeExpiry(exp: real, now: Ms)
    requires Whole(exp) && exp > FloorSec(now) as real
    ensures DateMs(exp) > now
  {
    var e, n := exp.Floor, FloorSec(now);
    assert e as real > n as real;
    assert e >= n + 1 && now < (n + 1) * 1000 <= e * 1000;
    assert exp * 1000.0 == (e * 1000) as real;
  }

  // ------------------------------------------------- single use, both ways

  ghost predicate AcceptsAssertion(e: Event<Key>, key: Key, exp: real, cfg: Config) {
    e.Accepts(key) && e.expiresAt == DateMs(exp) && InLifetime(exp, cfg, e.now)
  }

  /** Assertions with this `exp` are accepted at most once in every run. The
      replay context is one for PAR, token, revocation and introspection; the clock is
      read before the client's keys are fetched, so readings may be out of order. */
  ghost predicate SingleUse(exp: real, cfg: Config, disorder: nat) {
    forall states, events, key, i, j ::
      PgRun(states, events) && OrderedWithin(events, disorder) && 0 <= i < j < |events|
      && AcceptsAssertion(events[i], key, exp, cfg) ==>
      !AcceptsAssertion(events[j], key, exp, cfg)
  }

  lemma SingleUseHolds(exp: real, cfg: Config, states: seq<Rows<Key>>, events: seq<Event<Key>>, key: Key, i: nat,
                       j: nat)
    requires Whole(exp) && PgRun(states, events) && OrderedWithin(events, 0) && i < j < |events|
    requires AcceptsAssertion(events[i], key, exp, cfg)
    ensures !AcceptsAssertion(events[j], key, exp, cfg)
  {
    PgRunIsRun(states, events);
    assert PgNext(states[j], events[j], states[j + 1]);
    if AcceptsAssertion(events[j], key, exp, cfg) {
      ReuseRefused(states, events, j, key, exp, events[j].now);
    }
  }

  /** In the last whole second before a fractional `exp` the row has expired
      while the claim check still passes. */
  lemma SingleUseFails(exp: real, cfg: Config) returns (states: seq<Rows<Key>>, events: seq<Event<Key>>, key: Key)
    requires exp > 0.0 && !Whole(exp) && cfg.maxLifetimeSec >= 1
    ensures PgRun(states, events) && OrderedWithin(events, 0) && |events| == 2
    ensures AcceptsAssertion(events[0], key, exp, cfg) && AcceptsAssertion(events[1], key, exp, cfg)
  {
    key := Key(CONTEXT, "c.j");
    var last := exp.Floor * 1000 + 999;
    var e := Register(key, DateMs(exp), last, true);
    assert FloorSec(last) == exp.Floor;
    assert DateMs(exp) <= last by {
      assert exp * 1000.0 < (exp.Floor * 1000 + 1000) as real;
    }
    events := [e, e];
    var row := map[key := DateMs(exp)];
    states := [map[], row, row];
    assert map[][key := DateMs(exp)] == row && row[key := DateMs(exp)] == row;
    assert PgNext(states[0], events[0], states[1]);
    assert PgNext(states[1], events[1], states[2]);
  }

  /** A whole second leaves no slack: with readings a millisecond out of order the
      row is reaped at the expiry and the assertion accepted again just before it. */
  lemma SingleUseFailsOutOfOrder(exp: real, cfg: Config)
    returns (states: seq<Rows<Key>>, events: seq<Event<Key>>, key: Key)
    requires exp > 0.0 && Whole(exp) && cfg.maxLifetimeSec >= 1
    ensures PgRun(states, events) && OrderedWithin(events, 1) && |events| == 3
    ensures AcceptsAssertion(events[0], key, exp, cfg) && AcceptsAssertion(events[2], key, exp, cfg)
  {
    key := Key(CONTEXT, "c.j");
    var e := exp.Floor;
    assert exp * 1000.0 == (e * 1000) as real && DateMs(exp) == e * 1000;
    var late := e * 1000 - 1;
    assert FloorSec(late) == e - 1;
    var use := Register(key, e * 1000, late, true);
    events := [use, Reap(e * 1000), use];
    var row := map[key := e * 1000];
    states := [map[], row, map[], row];
    assert map[][key := e * 1000] == row;
    assert PgNext(states[0], events[0], states[1]);
    assert PgNext(states[1], events[1], states[2]);
    assert PgNext(states[2], events[2], states[3]);
  }

  /** Section 3 item 7 of RFC 7523 is met exactly for assertions whose `exp` is a
      whole number of seconds, under a clock that is never out of order; or for an
      `exp` so far back that the assertion is never accepted. */
  lemma SingleUseExactly(exp: real, cfg: Config, disorder: nat)
    requires cfg.maxLifetimeSec >= 1
    ensures SingleUse(exp, cfg, disorder) <==> (Whole(exp) && disorder == 0) || exp <= 0.0
  {
    if (Whole(exp) && disorder == 0) || exp <= 0.0 {
      forall states, events, key, i, j |
        PgRun(states, events) && OrderedWithin(events, disorder) && 0 <= i < j < |events|
        && AcceptsAssertion(events[i], key, exp, cfg)
        ensures !AcceptsAssertion(events[j], key, exp, cfg)
      {
        if exp > 0.0 {
          SingleUseHolds(exp, cfg, states, events, key, i, j);
        }
      }
    } else if Whole(exp) {
      var states, events, key := SingleUseFailsOutOfOrder(exp, cfg);
      assert AcceptsAssertion(events[0], key, exp, cfg) && AcceptsAssertion(events[2], key, exp, cfg);
    } else {
      var states, events, key := SingleUseFails(exp, cfg);
      assert AcceptsAssertion(events[0], key, exp, cfg) && AcceptsAssertion(events[1], key, exp, cfg);
    }
  }
}

/** DPoP proofs: the checklist of section 4.3 of RFC 9449, the replay guard of its
    section 11.1 and the stateless nonce of its section 8. */
module Dpop {
  import opened Base
  import opened Mac
  import opened ReplayStore
  import Base64Url
  import Text

  /** A parsed proof. Members of the wrong JSON type count as absent, as every
      check treats them alike; `htu` is the normalised URL; `signed` is None when
      the signature does not verify with the embedded key. */
  datatype Jwk = Jwk(thumbprint: string, hasPrivate: bool)
  datatype Claims = Claims(
    jti: Option<string>, htm: Option<string>, htu: Option<string>, iat: Option<real>,
    nonce: Option<string>, ath: Option<string>)
  datatype Proof = Malformed | Jws(typ: Option<string>, alg: Option<string>, jwk: Option<Jwk>, signed: Option<Claims>)
  datatype Header = Missing | Repeated | Single(proof: Proof)

  datatype Config = Config(skewSec: nat, maxAgeSec: nat, algs: set<string>, nonceRequired: bool, secret: string)

  /** `replayContext` already holds the default `dpop:<htu>` where the caller gives none. */
  datatype Context = Context(htm: string, htu: string, ath: Option<string>, replayContext: string)

  datatype Error = InvalidDpopProof | UseDpopNonce(nonce: string)

  const NONCE_WINDOW_SEC := 60

  function NonceMessage(jkt: string, htu: string, window: nat): string {
    jkt + ":" + htu + ":" + Text.Decimal(window)
  }

  function NonceFor(jkt: string, htu: string, window: nat, secret: string, hmac: Hmac): string {
    Base64Url.Encode(hmac(secret, NonceMessage(jkt, htu, window)))
  }

  function Window(now: Ms): nat { now / 1000 / NONCE_WINDOW_SEC }

  function IssueNonce(jkt: string, htu: string, cfg: Config, hmac: Hmac, now: Ms): string {
    NonceFor(jkt, htu, Window(now), cfg.secret, hmac)
  }

  /** The previous window is -1 only in the first minute of 1970; the model's
      clock starts there and skips that window. */
  predicate ValidNonce(nonce: string, jkt: string, htu: string, cfg: Config, hmac: Hmac, now: Ms) {
    var w := Window(now);
    nonce == NonceFor(jkt, htu, w, cfg.secret, hmac) ||
    (w > 0 && nonce == NonceFor(jkt, htu, w - 1, cfg.secret, hmac))
  }

  lemma NonceForInjective(jkt: string, htu: string, w: nat, jkt': string, htu': string, w': nat, secret: string,
                          hmac: Hmac)
    requires Injective(hmac, secret) && ':' !in jkt && ':' !in jkt'
    requires NonceFor(jkt, htu, w, secret, hmac) == NonceFor(jkt', htu', w', secret, hmac)
    ensures jkt == jkt' && htu == htu' && w == w'
  {
    var d, d' := Text.Decimal(w), Text.Decimal(w');
    Base64Url.EncodeInjective(hmac(secret, NonceMessage(jkt, htu, w)), hmac(secret, NonceMessage(jkt', htu', w')));
    assert NonceMessage(jkt, htu, w) == jkt + [':'] + (htu + ":" + d);
    assert NonceMessage(jkt', htu', w') == jkt' + [':'] + (htu' + ":" + d');
    Text.JoinInjective(jkt, htu + ":" + d, jkt', htu' + ":" + d', ':');
    assert ':' !in d && ':' !in d';
    Text.JoinInjectiveRight(htu, d, htu', d', ':');
    Text.DecimalInjective(w, w');
  }

  /** A nonce issued at `t` is honoured at a later `t'` exactly for the key and
      endpoint it was issued for, in the window of issue and the next one. */
  lemma NonceWindow(jkt: string, htu: string, t: Ms, jkt': string, htu': string, t': Ms, cfg: Config, hmac: Hmac)
    requires Injective(hmac, cfg.secret) && ':' !in jkt && ':' !in jkt' && t <= t'
    ensures ValidNonce(IssueNonce(jkt, htu, cfg, hmac, t), jkt', htu', cfg, hmac, t')
            <==> jkt == jkt' && htu == htu' && t' / 60_000 - t / 60_000 <= 1
  {
    var n, w, w' := IssueNonce(jkt, htu, cfg, hmac, t), Window(t), Window(t');
    assert w == t / 60_000 && w' == t' / 60_000;
    if n == NonceFor(jkt', htu', w', cfg.secret, hmac) {
      NonceForInjective(jkt, htu, w, jkt', htu', w', cfg.secret, hmac);
    }
    if w' > 0 && n == NonceFor(jkt', htu', w' - 1, cfg.secret, hmac) {
      NonceForInjective(jkt, htu, w, jkt', htu', w' - 1, cfg.secret, hmac);
    }
  }

  /** So a fresh nonce is good for a minute at least and less than two. */
  lemma NonceLifetime(jkt: string, htu: string, t: Ms, t': Ms, cfg: Config, hmac: Hmac)
    requires Injective(hmac, cfg.secret) && ':' !in jkt && t <= t'
    ensures t' - t <= 60_000 ==> ValidNonce(IssueNonce(jkt, htu, cfg, hmac, t), jkt, htu, cfg, hmac, t')
    ensures t' - t >= 120_000 ==> !ValidNonce(IssueNonce(jkt, htu, cfg, hmac, t), jkt, htu, cfg, hmac, t')
  {
    NonceWindow(jkt, htu, t, jkt, htu, t', cfg, hmac);
  }

  // ------------------------------------------------------ proof acceptance

  /** Both bounds of the acceptance window compare with whole seconds. */
  predicate InWindow(iat: real, cfg: Config, now: Ms) {
    && iat <= (FloorSec(now) + cfg.skewSec) as real
    && FloorSec(now) as real - iat <= cfg.maxAgeSec as real
  }

  /** When the replay row of a proof expires. */
  function Expiry(iat: real, cfg: Config): int {
    DateMs(iat + cfg.maxAgeSec as real + cfg.skewSec as real)
  }

  function ReplayId(jkt: string, jti: string): string { jkt + "." + Base64Url.EncodeText(jti) }

  /** Everything about a proof that does not depend on the store or the nonce. */
  predicate Admissible(proof: Proof, ctx: Context, cfg: Config, now: Ms) {
    && proof.Jws?
    && proof.typ == Some("dpop+jwt")
    && proof.alg.Some? && proof.alg.value in cfg.algs
    && proof.jwk.Some? && !proof.jwk.value.hasPrivate
    && proof.signed.Some?
    && var c := proof.signed.value;
    && c.jti.Some? && c.jti.value != ""
    && c.htm == Some(ctx.htm) && c.htu == Some(ctx.htu)
    && c.iat.Some? && InWindow(c.iat.value, cfg, now)
    && (ctx.ath.Some? ==> c.ath == ctx.ath)
  }

  predicate NonceAccepted(proof: Proof, ctx: Context, cfg: Config, hmac: Hmac, now: Ms)
    requires Admissible(proof, ctx, cfg, now)
  {
    cfg.nonceRequired ==>
      && proof.signed.value.nonce.Some?
      && ValidNonce(proof.signed.value.nonce.value, proof.jwk.value.thumbprint, ctx.htu, cfg, hmac, now)
  }

  /** The replay row that accepting this proof writes. */
  function ProofKey(proof: Proof, ctx: Context): string
    requires proof.Jws? && proof.jwk.Some? && proof.signed.Some? && proof.signed.value.jti.Some?
  {
    JoinKey(ctx.replayContext, ReplayId(proof.jwk.value.thumbprint, proof.signed.value.jti.value))
  }

  function Registration(proof: Proof, ctx: Context, cfg: Config, now: Ms, accepted: bool): Event<string>
    requires Admissible(proof, ctx, cfg, now)
  {
    Event.Register(ProofKey(proof, ctx), Expiry(proof.signed.value.iat.value, cfg), now, accepted)
  }

  /** Characters of base64url, as thumbprints are made of. */
  ghost predicate IsThumbprint(s: string) {
    forall c | c in s :: 'A' <= c <= 'Z' || 'a' <= c <= 'z' || '0' <= c <= '9' || c == '-' || c == '_'
  }

  /** The replay row keeps apart what the guard is to keep apart: two proofs share it
      exactly if they are for one context, of one key, and with one jti. */
  lemma ProofKeyExactly(p: Proof, c: Context, p': Proof, c': Context)
    requires p.Jws? && p.jwk.Some? && p.signed.Some? && p.signed.value.jti.Some?
    requires p'.Jws? && p'.jwk.Some? && p'.signed.Some? && p'.signed.value.jti.Some?
    requires IsThumbprint(p.jwk.value.thumbprint) && IsThumbprint(p'.jwk.value.thumbprint)
    ensures ProofKey(p, c) == ProofKey(p', c') <==>
              && c.replayContext == c'.replayContext && p.jwk.value.thumbprint == p'.jwk.value.thumbprint
              && p.signed.value.jti == p'.signed.value.jti
  {
    var t, j := p.jwk.value.thumbprint, Base64Url.EncodeText(p.signed.value.jti.value);
    var t', j' := p'.jwk.value.thumbprint, Base64Url.EncodeText(p'.signed.value.jti.value);
    assert NUL !in t + "." + j && NUL !in t' + "." + j';
    if ProofKey(p, c) == ProofKey(p', c') {
      JoinKeyInjective(c.replayContext, t + "." + j, c'.replayContext, t' + "." + j');
      Text.JoinInjective(t, j, t', j', '.');
      Base64Url.EncodeTextInjective(p.signed.value.jti.value, p'.signed.value.jti.value);
    }
  }

  /** A proof made as section 4.2 of RFC 9449 says, for this request and not too long ago,
      is admissible, whatever nonce it holds. */
  lemma ProperProofAdmissible(key: Jwk, alg: string, jti: string, iat: real, nonce: Option<string>, ctx: Context,
                              cfg: Config, now: Ms)
    requires !key.hasPrivate && alg in cfg.algs && jti != ""
    requires (now / 1000 - cfg.maxAgeSec) as real <= iat <= (now / 1000 + cfg.skewSec) as real
    ensures var claims := Claims(Some(jti), Some(ctx.htm), Some(ctx.htu), Some(iat), nonce, ctx.ath);
            Admissible(Jws(Some("dpop+jwt"), Some(alg), Some(key), Some(claims)), ctx, cfg, now)
  {
  }

  /** The proof was accepted in an earlier call of the same context. */
  ghost predicate AcceptedBefore(log: seq<Event<string>>, proof: Proof, ctx: Context, cfg: Config, now: Ms)
    requires Admissible(proof, ctx, cfg, now)
  {
    exists i | 0 <= i < |log| ::
      log[i].Accepts(ProofKey(proof, ctx)) && log[i].expiresAt == Expiry(proof.signed.value.iat.value, cfg)
  }

  /** No reading so far is ahead of `now` by more than the slack that a skew
      allowance of `skewSec` leaves. */
  ghost predicate ClockSlack<K(!new)>(log: seq<Event<K>>, cfg: Config, now: int) {
    forall k | 0 <= k < |log| :: log[k].now <= now + (cfg.skewSec - 1) * 1000
  }

  method VerifyDpopProof(header: Header, ctx: Context, cfg: Config, hmac: Hmac, store: MemoryJtiReplay, now: Ms)
    returns (r: Result<string, Error>)
    requires store.Valid()
    modifies store
    ensures store.Valid()
    // Success hands back the key of an admissible proof, written down in the store.
    ensures r.Ok? ==> header.Single? && Admissible(header.proof, ctx, cfg, now)
                      && NonceAccepted(header.proof, ctx, cfg, hmac, now)
                      && r.value == header.proof.jwk.value.thumbprint
    // That is: signed with the public key it shows, for this method, address and token,
    // by an algorithm in use, with an identifier, and not too old or too new.
    ensures r.Ok? ==>
              && var proof := header.proof;
              && proof.typ == Some("dpop+jwt") && proof.alg.Some? && proof.alg.value in cfg.algs
              && proof.jwk.Some? && !proof.jwk.value.hasPrivate && proof.signed.Some?
              && var claims := proof.signed.value;
              && claims.jti.Some? && claims.jti.value != ""
              && claims.htm == Some(ctx.htm) && claims.htu == Some(ctx.htu)
              && (ctx.ath.Some? ==> claims.ath == ctx.ath)
              && claims.iat.Some?
              && (now / 1000 - cfg.maxAgeSec) as real <= claims.iat.value <= (now / 1000 + cfg.skewSec) as real
              && (cfg.nonceRequired ==> claims.nonce.Some?)
    // A proof with any defect is refused and leaves no trace; a missing or stale
    // nonce is answered with one that is good for this key and endpoint now.
    ensures !(header.Single? && Admissible(header.proof, ctx, cfg, now)) ==>
              r == Err(InvalidDpopProof) && store.rows == old(store.rows) && store.log == old(store.log)
    ensures header.Single? && Admissible(header.proof, ctx, cfg, now)
            && !NonceAccepted(header.proof, ctx, cfg, hmac, now) ==>
              && r.Err? && r.error.UseDpopNonce? && store.rows == old(store.rows) && store.log == old(store.log)
              && ValidNonce(r.error.nonce, header.proof.jwk.value.thumbprint, ctx.htu, cfg, hmac, now)
    // Otherwise the store decides, and its answer is recorded.
    ensures header.Single? && Admissible(header.proof, ctx, cfg, now)
            && NonceAccepted(header.proof, ctx, cfg, hmac, now) ==>
              && (r.Err? ==> r.error.InvalidDpopProof?)
              && store.log == old(store.log) + [Registration(header.proof, ctx, cfg, now, r.Ok?)]
              && (r.Ok? <==> |old(store.AfterSweep(now))| < CAP
                             && !Live(old(store.rows), ProofKey(header.proof, ctx), now))
    // With room in the store it is refused only if one of the same context, key and
    // identifier was accepted before, and that one's row has not expired.
    ensures header.Single? && Admissible(header.proof, ctx, cfg, now)
            && NonceAccepted(header.proof, ctx, cfg, hmac, now)
            && ClockBy(old(store.log), now) && |old(store.AfterSweep(now))| < CAP ==>
              (r.Err? <==> Remembered(old(store.log), ProofKey(header.proof, ctx), now))
    // Single use, over the whole history of the store.
    ensures r.Ok? && cfg.skewSec >= 1 && ClockSlack(old(store.log), cfg, now) ==>
              !AcceptedBefore(old(store.log), header.proof, ctx, cfg, now)
  {
    if header.Repeated? || header.Missing? {
      return Err(InvalidDpopProof);
    }
    var proof := header.proof;
    if proof.Malformed? {
      return Err(InvalidDpopProof);
    }
    if proof.typ != Some("dpop+jwt") {
      return Err(InvalidDpopProof);
    }
    if proof.alg.None? || proof.alg.value !in cfg.algs {
      return Err(InvalidDpopProof);
    }
    if proof.jwk.None? {
      return Err(InvalidDpopProof);
    }
    if proof.jwk.value.hasPrivate {
      return Err(InvalidDpopProof);
    }
    if proof.signed.None? {
      return Err(InvalidDpopProof);
    }
    var claims := proof.signed.value;
    if claims.jti.None? || claims.jti.value == "" {
      return Err(InvalidDpopProof);
    }
    if claims.htm != Some(ctx.htm) {
      return Err(InvalidDpopProof);
    }
    if claims.htu != Some(ctx.htu) {
      return Err(InvalidDpopProof);
    }
    if claims.iat.None? {
      return Err(InvalidDpopProof);
    }
    var iat := claims.iat.value;
    var nowSec := FloorSec(now);
    if iat > (nowSec + cfg.skewSec) as real {
      return Err(InvalidDpopProof);
    }
    if nowSec as real - iat > cfg.maxAgeSec as real {
      return Err(InvalidDpopProof);
    }
    if ctx.ath.Some? && claims.ath != ctx.ath {
      return Err(InvalidDpopProof);
    }
    var jkt := proof.jwk.value.thumbprint;
    if cfg.nonceRequired {
      if claims.nonce.None? || !ValidNonce(claims.nonce.value, jkt, ctx.htu, cfg, hmac, now) {
        return Err(UseDpopNonce(IssueNonce(jkt, ctx.htu, cfg, hmac, now)));
      }
    }
    if cfg.skewSec >= 1 && ClockSlack(store.log, cfg, now) && AcceptedBefore(store.log, proof, ctx, cfg, now) {
      ReplayRefused(store.past, store.log, |store.log|, ProofKey(proof, ctx), iat, cfg, now);
      assert store.log[..|store.log|] == store.log;
    }
    var expiresAt := DateMs(iat + cfg.maxAgeSec as real + cfg.skewSec as real);
    var unused := store.Register(ctx.replayContext, ReplayId(jkt, claims.jti.value), expiresAt, now);
    if !unused {
      return Err(InvalidDpopProof);
    }
    return Ok(jkt);
  }

  /** A proof inside its window at `now` has a row that outlives every reading
      up to `now` plus the slack. */
  lemma ExpiryOutlastsWindow(iat: real, cfg: Config, now: Ms)
    requires InWindow(iat, cfg, now)
    ensures Expiry(iat, cfg) > now + (cfg.skewSec - 1) * 1000
  {
    var nowSec := FloorSec(now);
    assert (iat + cfg.maxAgeSec as real + cfg.skewSec as real) * 1000.0 >= ((nowSec + cfg.skewSec) * 1000) as real;
  }

  /** Whatever a store has swept, reaped or had reclaimed in between, the row of
      an accepted proof is live whenever the proof would pass the window again. */
  lemma ReplayRefused<K(!new)>(states: seq<Rows<K>>, log: seq<Event<K>>, n: nat, key: K, iat: real,
                               cfg: Config, now: Ms)
    requires Run(states, log) && n <= |log|
    requires cfg.skewSec >= 1 && InWindow(iat, cfg, now) && ClockSlack(log[..n], cfg, now)
    requires exists i | 0 <= i < n :: log[i].Accepts(key) && log[i].expiresAt == Expiry(iat, cfg)
    ensures Live(states[n], key, now)
  {
    var i :| 0 <= i < n && log[i].Accepts(key) && log[i].expiresAt == Expiry(iat, cfg);
    ExpiryOutlastsWindow(iat, cfg, now);
    assert forall k | 0 <= k < n :: log[k] == log[..n][k];
    RowStays(states, log, i, n);
  }

  // ------------------------------------------------- single use, both ways

  /** Event `i` of a PostgreSQL run accepts the proof with this key and iat. */
  ghost predicate AcceptsProof(e: Event<Key>, key: Key, iat: real, cfg: Config) {
    e.Accepts(key) && e.expiresAt == Expiry(iat, cfg) && InWindow(iat, cfg, e.now)
  }

  /** No run whatsoever accepts one proof twice. */
  ghost predicate SingleUse(cfg: Config, disorder: nat) {
    forall states, events, key, iat, i, j ::
      PgRun(states, events) && OrderedWithin(events, disorder) && 0 <= i < j < |events|
      && AcceptsProof(events[i], key, iat, cfg) ==>
      !AcceptsProof(events[j], key, iat, cfg)
  }

  lemma SingleUseHolds(cfg: Config, disorder: nat, states: seq<Rows<Key>>, events: seq<Event<Key>>, key: Key,
                       iat: real, i: nat, j: nat)
    requires disorder <= (cfg.skewSec - 1) * 1000
    requires PgRun(states, events) && OrderedWithin(events, disorder) && i < j < |events|
    requires AcceptsProof(events[i], key, iat, cfg)
    ensures !AcceptsProof(events[j], key, iat, cfg)
  {
    PgRunIsRun(states, events);
    assert PgNext(states[j], events[j], states[j + 1]);
    if AcceptsProof(events[j], key, iat, cfg) {
      ReplayRefused(states, events, j, key, iat, cfg, events[j].now);
    }
  }

  /** Too little skew for the clock's disorder: the proof is accepted, its row
      is reaped as soon as it expires, and a late reading still inside the window
      accepts it again. */
  lemma SingleUseFails(cfg: Config, disorder: nat)
    returns (states: seq<Rows<Key>>, events: seq<Event<Key>>, key: Key, iat: real)
    requires disorder > (cfg.skewSec - 1) * 1000
    ensures PgRun(states, events) && OrderedWithin(events, disorder) && |events| == 3
    ensures AcceptsProof(events[0], key, iat, cfg) && AcceptsProof(events[2], key, iat, cfg)
  {
    key, iat := Key("dpop-par", "k.j"), 0.0;
    var expiry := (cfg.maxAgeSec + cfg.skewSec) * 1000;
    assert (0.0 + cfg.maxAgeSec as real + cfg.skewSec as real) * 1000.0 == expiry as real;
    assert Expiry(iat, cfg) == expiry;
    var late := cfg.maxAgeSec * 1000 + 999;
    var reap := if late > expiry then late else expiry;
    events := [Register(key, expiry, 0, true), Reap(reap), Register(key, expiry, late, true)];
    states := [map[], map[key := expiry], map[], map[key := expiry]];
    assert FloorSec(late) == cfg.maxAgeSec;
    assert PgNext(states[0], events[0], states[1]);
    assert PgNext(states[1], events[1], states[2]);
    assert PgNext(states[2], events[2], states[3]);
  }

  /** "Never accept the same proof twice, ever" is met exactly when the skew
      allowance covers one second more than the disorder of the clock; in
      particular a skew of 0, which the configuration permits, never meets it. */
  lemma SingleUseExactly(cfg: Config, disorder: nat)
    ensures SingleUse(cfg, disorder) <==> disorder <= (cfg.skewSec - 1) * 1000
  {
    if disorder <= (cfg.skewSec - 1) * 1000 {
      forall states, events, key, iat, i, j |
        PgRun(states, events) && OrderedWithin(events, disorder) && 0 <= i < j < |events|
        && AcceptsProof(events[i], key, iat, cfg)
        ensures !AcceptsProof(events[j], key, iat, cfg)
      {
        SingleUseHolds(cfg, disorder, states, events, key, iat, i, j);
      }
    } else {
      var states, events, key, iat := SingleUseFails(cfg, disorder);
      assert AcceptsProof(events[0], key, iat, cfg) && AcceptsProof(events[2], key, iat, cfg);
    }
  }
}

/** The stateless login session: sealed into a cookie value, found again among the
    other cookies of a request, and opened. */
module Sessions {
  import opened Base
  import opened Mac
  import Base64Url
  import Text

  datatype LoginSession = LoginSession(
    sid: string, sub: string, authTime: int, exp: int, acr: Option<string>, amr: Option<seq<string>>)

  /** JSON.stringify / JSON.parse on sessions, the latter with the member type checks. */
  datatype Codec = Codec(
    stringify: LoginSession -> seq<Base64Url.Byte>, parse: seq<Base64Url.Byte> -> Option<LoginSession>)
  {
    ghost predicate Faithful() {
      forall s :: stringify(s) != [] && parse(stringify(s)) == Some(s)
    }
  }

  const SESSION_COOKIE := "__Host-as_session"

  function Signature(payload: string, secret: string, hmac: Hmac): string { Base64Url.Encode(hmac(secret, payload)) }

  function SealSession(s: LoginSession, secret: string, codec: Codec, hmac: Hmac): string {
    var payload := Base64Url.Encode(codec.stringify(s));
    payload + "." + Signature(payload, secret, hmac)
  }

  function OpenSession(value: Option<string>, secret: string, codec: Codec, hmac: Hmac,
                       nowSec: int): Option<LoginSession> {
    if value.None? || value.value == "" then None
    else
      var v := value.value;
      var dot := Text.Find(v, '.');
      if dot == |v| || dot == 0 then None
      else
        var payload, sig := v[..dot], v[dot + 1..];
        if sig != Signature(payload, secret, hmac) then None
        else match Base64Url.Decode(payload)
          case None => None
          case Some(bytes) =>
            match codec.parse(bytes)
            case None => None
            case Some(s) => if s.exp <= nowSec then None else Some(s)
  }

  /** Serialised Set-Cookie header. */
  function SessionCookie(value: string, maxAgeSec: int): string {
    var pair := SESSION_COOKIE + "=" + (if maxAgeSec <= 0 then "" else value);
    pair + ";" + (PATH + ";" + (HTTP_ONLY + ";" + (SECURE + ";" + (SAME_SITE + ";" + MaxAge(maxAgeSec)))))
  }

  const PATH := " Path=/"
  const HTTP_ONLY := " HttpOnly"
  const SECURE := " Secure"
  const SAME_SITE := " SameSite=Lax"

  function MaxAge(sec: int): string { " Max-Age=" + Text.Decimal(if sec <= 0 then 0 else sec) }

  /** The `name=value` pair a browser keeps of a Set-Cookie header. */
  function CookiePair(setCookie: string): string { setCookie[..Text.Find(setCookie, ';')] }

  /** Pairs joined the way a browser sends them. */
  function CookieHeader(pairs: seq<string>): string
    requires pairs != []
  {
    if |pairs| == 1 then pairs[0] else pairs[0] + "; " + CookieHeader(pairs[1..])
  }

  function FirstNamed(parts: seq<string>, name: string): Option<string> {
    if parts == [] then None
    else
      var part := parts[0];
      var eq := Text.Find(part, '=');
      if eq < |part| && Text.Trim(part[..eq]) == name then Some(Text.Trim(part[eq + 1..]))
      else FirstNamed(parts[1..], name)
  }

  function ReadCookie(header: Option<string>, name: string): Option<string> {
    if header.None? || header.value == "" then None else FirstNamed(Text.Split(header.value, ';'), name)
  }

  /** A pair that `readCookie` passes over when it looks for `name`. */
  predicate OtherPair(pair: string, name: string) {
    ';' !in pair && Text.Trim(pair[..Text.Find(pair, '=')]) != name
  }

  // ---------------------------------------------------------- seal and open

  lemma OpenSealed(s: LoginSession, secret: string, codec: Codec, hmac: Hmac, nowSec: int)
    requires codec.Faithful()
    ensures OpenSession(Some(SealSession(s, secret, codec, hmac)), secret, codec, hmac, nowSec)
            == if s.exp > nowSec then Some(s) else None
  {
    var bytes := codec.stringify(s);
    var payload := Base64Url.Encode(bytes);
    var sig := Signature(payload, secret, hmac);
    assert codec.stringify(s) != [] && codec.parse(codec.stringify(s)) == Some(s);
    Base64Url.DecodeEncode(bytes);
    assert payload != "" by {
      assert Base64Url.Decode("") == Some([]);
    }
    Text.FindAt(payload, '.', sig);
    var v := payload + ['.'] + sig;
    assert v[..|payload|] == payload && v[|payload| + 1..] == sig;
  }

  /** Tamper evidence: a value opens exactly when it is a payload with that
      payload's own signature and the payload is an unexpired session. */
  lemma OpensOnlySigned(v: string, secret: string, codec: Codec, hmac: Hmac, nowSec: int, s: LoginSession)
    ensures OpenSession(Some(v), secret, codec, hmac, nowSec) == Some(s) <==>
              exists payload ::
                && payload != "" && '.' !in payload && v == payload + "." + Signature(payload, secret, hmac)
                && Base64Url.Decode(payload).Some? && codec.parse(Base64Url.Decode(payload).value) == Some(s)
                && s.exp > nowSec
  {
    if OpenSession(Some(v), secret, codec, hmac, nowSec) == Some(s) {
      var payload := v[..Text.Find(v, '.')];
      assert v == payload + "." + v[|payload| + 1..];
    }
    if payload :| payload != "" && '.' !in payload && v == payload + "." + Signature(payload, secret, hmac) {
      Text.FindAt(payload, '.', Signature(payload, secret, hmac));
      assert v[..|payload|] == payload && v[|payload| + 1..] == Signature(payload, secret, hmac);
      forall p | p != "" && '.' !in p && v == p + "." + Signature(p, secret, hmac) ensures p == payload {
        Text.JoinInjective(p, Signature(p, secret, hmac), payload, Signature(payload, secret, hmac), '.');
      }
    }
  }

  // ------------------------------------------------------- through a browser

  lemma SplitHeader(pairs: seq<string>, lead: string)
    requires pairs != [] && ';' !in lead && ';' !in pairs[0]
    ensures Text.Split(lead + CookieHeader(pairs), ';') ==
              [lead + pairs[0]] + if |pairs| == 1 then [] else Text.Split(" " + CookieHeader(pairs[1..]), ';')
  {
    var head := lead + pairs[0];
    if |pairs| == 1 {
      Text.SplitPlain(head, ';');
    } else {
      var rest := CookieHeader(pairs[1..]);
      assert lead + CookieHeader(pairs) == head + [';'] + (" " + rest);
      Text.SplitJoin(head, ';', " " + rest);
    }
  }

  lemma PairRead(name: string, value: string, lead: string)
    requires lead == "" || lead == " "
    requires '=' !in name && (forall c | c in name :: !Text.IsSpace(c)) && (forall c | c in value :: !Text.IsSpace(c))
    ensures var part := lead + (name + "=" + value);
            var eq := Text.Find(part, '=');
            eq < |part| && Text.Trim(part[..eq]) == name && Text.Trim(part[eq + 1..]) == value
  {
    var part := (lead + name) + ['='] + value;
    assert part == lead + (name + "=" + value);
    Text.FindAt(lead + name, '=', value);
    assert part[..|lead + name|] == lead + name && part[|lead + name| + 1..] == value;
    Text.TrimClean(name);
    Text.TrimClean(value);
    assert "" + name == name;
  }

  lemma PassedOver(pair: string, name: string, lead: string)
    requires OtherPair(pair, name) && (lead == "" || lead == " ")
    ensures var part := lead + pair;
            var eq := Text.Find(part, '=');
            eq == |part| || Text.Trim(part[..eq]) != name
  {
    var part := lead + pair;
    var eq := Text.Find(pair, '=');
    if lead == " " {
      assert part[1..] == pair;
      assert Text.Find(part, '=') == 1 + eq;
      assert part[..1 + eq] == " " + pair[..eq];
      assert (" " + pair[..eq])[1..] == pair[..eq];
    } else {
      assert part == pair;
    }
  }

  lemma FoundFirst(value: string, after: seq<string>, name: string, lead: string)
    requires lead == "" || lead == " "
    requires '=' !in name && ';' !in name && ';' !in value
    requires (forall c | c in name :: !Text.IsSpace(c)) && (forall c | c in value :: !Text.IsSpace(c))
    ensures FirstNamed(Text.Split(lead + CookieHeader([name + "=" + value] + after), ';'), name) == Some(value)
  {
    var pair := name + "=" + value;
    SplitHeader([pair] + after, lead);
    PairRead(name, value, lead);
    hide Text.Split, CookieHeader, Text.IsSpace, Text.Trim, Text.Find;
    assert Text.Split(lead + CookieHeader([pair] + after), ';')[0] == lead + pair;
  }

  lemma FoundLater(other: string, rest: seq<string>, name: string, lead: string)
    requires OtherPair(other, name) && rest != [] && (lead == "" || lead == " ")
    ensures FirstNamed(Text.Split(lead + CookieHeader([other] + rest), ';'), name)
            == FirstNamed(Text.Split(" " + CookieHeader(rest), ';'), name)
  {
    var pairs := [other] + rest;
    SplitHeader(pairs, lead);
    PassedOver(other, name, lead);
    assert pairs[1..] == rest;
    hide Text.Split, CookieHeader, OtherPair;
    var parts := Text.Split(lead + CookieHeader(pairs), ';');
    assert parts[1..] == Text.Split(" " + CookieHeader(rest), ';');
  }

  lemma {:induction false} FoundAmongOthers(before: seq<string>, value: string, after: seq<string>, name: string,
                                            lead: string)
    requires forall p | p in before :: OtherPair(p, name)
    requires lead == "" || lead == " "
    requires '=' !in name && ';' !in name && ';' !in value
    requires (forall c | c in name :: !Text.IsSpace(c)) && (forall c | c in value :: !Text.IsSpace(c))
    ensures FirstNamed(Text.Split(lead + CookieHeader(before + [name + "=" + value] + after), ';'), name) == Some(value)
  {
    hide Text.Split, CookieHeader, OtherPair, FirstNamed, Text.IsSpace;
    var pair := name + "=" + value;
    if before == [] {
      assert before + [pair] + after == [pair] + after;
      FoundFirst(value, after, name, lead);
    } else {
      var rest := before[1..] + [pair] + after;
      assert before + [pair] + after == [before[0]] + rest;
      FoundLater(before[0], rest, name, lead);
      FoundAmongOthers(before[1..], value, after, name, " ");
    }
  }

  lemma SealedIsClean(s: LoginSession, secret: string, codec: Codec, hmac: Hmac)
    ensures forall c | c in SealSession(s, secret, codec, hmac) :: c != ';' && c != '=' && !Text.IsSpace(c)
  {
    var payload := Base64Url.Encode(codec.stringify(s));
    var sig := Signature(payload, secret, hmac);
    forall c | c in payload + "." + sig ensures c != ';' && c != '=' && !Text.IsSpace(c) {
      assert c in payload || c == '.' || c in sig;
    }
  }

  /** Sealed, set, kept by the browser, sent back among any other cookies and
      read again, a session is what it was, until it expires. Pairs in front
      must not carry its name; what follows does not matter. */
  lemma CookieRoundTrip(s: LoginSession, secret: string, codec: Codec, hmac: Hmac, maxAgeSec: int, nowSec: int,
                        before: seq<string>, after: seq<string>)
    requires codec.Faithful() && maxAgeSec > 0
    requires forall p | p in before :: OtherPair(p, SESSION_COOKIE)
    ensures var pair := CookiePair(SessionCookie(SealSession(s, secret, codec, hmac), maxAgeSec));
            var header := Some(CookieHeader(before + [pair] + after));
            OpenSession(ReadCookie(header, SESSION_COOKIE), secret, codec, hmac, nowSec)
            == if s.exp > nowSec then Some(s) else None
  {
    var value := SealSession(s, secret, codec, hmac);
    SealedIsClean(s, secret, codec, hmac);
    var pair := SESSION_COOKIE + "=" + value;
    PairKept(value, maxAgeSec);
    FoundAmongOthers(before, value, after, SESSION_COOKIE, "");
    var header := CookieHeader(before + [pair] + after);
    assert "" + header == header;
    Text.SplitPlain("", ';');
    OpenSealed(s, secret, codec, hmac, nowSec);
  }

  lemma PairKept(value: string, maxAgeSec: int)
    requires maxAgeSec > 0 && ';' !in value
    ensures CookiePair(SessionCookie(value, maxAgeSec)) == SESSION_COOKIE + "=" + value
  {
    var attributes := PATH + ";" + (HTTP_ONLY + ";" + (SECURE + ";" + (SAME_SITE + ";" + MaxAge(maxAgeSec))));
    var pair := SESSION_COOKIE + "=" + value;
    assert SessionCookie(value, maxAgeSec) == pair + [';'] + attributes;
    Text.FindAt(pair, ';', attributes);
    assert (pair + [';'] + attributes)[..|pair|] == pair;
  }

  // ------------------------------------------------------------------- CSRF

  function IssueCsrfToken(sid: string, secret: string, hmac: Hmac): string {
    Base64Url.Encode(hmac(secret, "csrf:" + sid))
  }

  predicate VerifyCsrfToken(token: Option<string>, sid: string, secret: string, hmac: Hmac) {
    token.Some? && token.value != "" && token.value == IssueCsrfToken(sid, secret, hmac)
  }

  /** A token verifies for exactly the session that it was minted for. */
  lemma CsrfBoundToSession(sid: string, sid': string, secret: string, hmac: Hmac)
    requires Injective(hmac, secret) && hmac(secret, "csrf:" + sid) != []
    ensures VerifyCsrfToken(Some(IssueCsrfToken(sid, secret, hmac)), sid', secret, hmac) <==> sid == sid'
  {
    Base64Url.DecodeEncode(hmac(secret, "csrf:" + sid));
    Base64Url.DecodeEncode([]);
    if IssueCsrfToken(sid, secret, hmac) == IssueCsrfToken(sid', secret, hmac) {
      Base64Url.EncodeInjective(hmac(secret, "csrf:" + sid), hmac(secret, "csrf:" + sid'));
      assert ("csrf:" + sid)[5..] == sid && ("csrf:" + sid')[5..] == sid';
    }
  }

  /** Nothing else verifies: no token, an empty one, or any text that is not the encoding
      of this session's own tag. */
  lemma CsrfVerifiesExactly(token: Option<string>, sid: string, secret: string, hmac: Hmac)
    requires hmac(secret, "csrf:" + sid) != []
    ensures VerifyCsrfToken(token, sid, secret, hmac) <==>
              token.Some? && token.value == Base64Url.Encode(hmac(secret, "csrf:" + sid))
    ensures VerifyCsrfToken(token, sid, secret, hmac) ==>
              token.value != "" && Base64Url.Decode(token.value) == Some(hmac(secret, "csrf:" + sid))
  {
    Base64Url.DecodeEncode(hmac(secret, "csrf:" + sid));
    Base64Url.DecodeEncode([]);
  }

  lemma SplitOnce(a: string, b: string)
    requires ';' !in a
    ensures Text.Split(a + ";" + b, ';') == [a] + Text.Split(b, ';')
  {
    assert a + [';'] + b == a + ";" + b;
    Text.SplitJoin(a, ';', b);
  }

  lemma Five(a: string, b: string, c: string, d: string, e: string, rest: seq<string>)
    ensures [a] + ([b] + ([c] + ([d] + ([e] + rest)))) == [a, b, c, d, e] + rest
  {
  }

  lemma SplitFive(a: string, b: string, c: string, d: string, e: string, rest: string)
    requires ';' !in a && ';' !in b && ';' !in c && ';' !in d && ';' !in e
    ensures Text.Split(a + ";" + (b + ";" + (c + ";" + (d + ";" + (e + ";" + rest)))), ';')
            == [a, b, c, d, e] + Text.Split(rest, ';')
  {
    hide Text.Split;
    var e' := e + ";" + rest;
    var d' := d + ";" + e';
    var c' := c + ";" + d';
    var b' := b + ";" + c';
    SplitOnce(e, rest);
    SplitOnce(d, e');
    SplitOnce(c, d');
    SplitOnce(b, c');
    SplitOnce(a, b');
    Five(a, b, c, d, e, Text.Split(rest, ';'));
  }

  lemma NotEmpty(s: string)
    ensures |Text.Split(s, ';')| > 0
  {
  }

  /** What a browser is told with the cookie: to keep it from scripts and from plain HTTP,
      on all paths, as the `__Host-` in its name demands. */
  lemma CookieIsGuarded(value: string, maxAgeSec: int)
    requires ';' !in value
    ensures "__Host-" <= SESSION_COOKIE
    ensures var parts := Text.Split(SessionCookie(value, maxAgeSec), ';');
            && |parts| > 5
            && parts[1] == " Path=/" && parts[2] == " HttpOnly" && parts[3] == " Secure" && parts[4] == " SameSite=Lax"
  {
    hide Text.Split, MaxAge;
    var pair := SESSION_COOKIE + "=" + (if maxAgeSec <= 0 then "" else value);
    SplitFive(pair, PATH, HTTP_ONLY, SECURE, SAME_SITE, MaxAge(maxAgeSec));
    NotEmpty(MaxAge(maxAgeSec));
  }
}

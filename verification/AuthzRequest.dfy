/** Validation of an authorization request, and the stored form that PAR keeps and
    that the later endpoints validate again (sections 2.1 and 4 of RFC 9126). */
module AuthzRequest {
  import opened Base
  import Text
  import Base64Url

  datatype Client = Client(clientId: string, redirectUris: seq<string>, scope: string, grantTypes: seq<string>)

  /** A form value as the body parser leaves it. */
  datatype Field = Single(text: string) | Repeated | Other

  /** The request parameters the server reads, by their wire names in snake case. */
  datatype Name =
    | Request | RequestUri | ClientId | ResponseType | RedirectUri | Scope | CodeChallenge | CodeChallengeMethod
    | State | Nonce | DpopJkt | Prompt
    | AcrValues | MaxAge | LoginHint | IdTokenHint | UiLocales | Claims | ClaimsLocales | Display

  /** Unknown parameters are ignored and left out. */
  type Body = map<Name, Field>

  type Params = map<Name, string>

  datatype Error = InvalidRequest | UnsupportedResponseType | InvalidScope

  /** `response_type` and `code_challenge_method` are constants of the type. */
  datatype Validated = Validated(
    clientId: string, redirectUri: string, scope: string, codeChallenge: string,
    state: Option<string>, nonce: Option<string>, dpopJkt: Option<string>, prompt: Option<string>,
    maxAge: Option<nat>, passthrough: Params)

  const PASSTHROUGH := [AcrValues, MaxAge, LoginHint, IdTokenHint, UiLocales, Claims, ClaimsLocales, Display]

  /** PASSTHROUGH as a set. */
  predicate Recognised(n: Name) {
    match n
    case AcrValues | MaxAge | LoginHint | IdTokenHint | UiLocales | Claims | ClaimsLocales | Display => true
    case _ => false
  }

  predicate Vschar(s: string) { forall c | c in s :: ' ' <= c <= '~' }

  predicate WellFormedChallenge(s: string) {
    43 <= |s| <= 128 && forall c | c in s :: Base64Url.InAlphabet(c) || c == '.' || c == '~'
  }

  predicate WellFormedJkt(s: string) { |s| == 43 && forall c | c in s :: Base64Url.InAlphabet(c) }

  predicate ScopeAllowed(client: Client, scope: string) { Text.Words(scope) <= Text.Words(client.scope) }

  predicate RedirectUriRegistered(client: Client, uri: string) { uri in client.redirectUris }

  /** Absent and empty count as omitted, a repeated parameter is an error. */
  function Param(body: Body, name: Name): Result<Option<string>, Error> {
    if name !in body then Ok(None)
    else match body[name]
      case Single(s) => Ok(if s == "" then None else Some(s))
      case Repeated => Err(InvalidRequest)
      case Other => Ok(None)
  }

  function Check(ok: bool, e: Error): Result<(), Error> { if ok then Ok(()) else Err(e) }

  /** The scope asked for, or the client's registered one. */
  function EffectiveScope(raw: Option<string>, client: Client): string {
    if raw.Some? && !Text.Blank(raw.value) then raw.value else client.scope
  }

  predicate BadOptional(v: Option<string>) { v.Some? && (!Vschar(v.value) || |v.value| > 512) }

  predicate BadPrompt(v: Option<string>) {
    v.Some? && "none" in Text.WordList(v.value) && |Text.WordList(v.value)| > 1
  }

  predicate PassthroughOk(body: Body, name: Name) {
    var p := Param(body, name);
    p.Ok? && (p.value.Some? ==> Vschar(p.value.value) && |p.value.value| <= 2048)
  }

  predicate PassthroughAllOk(body: Body) { forall n: Name | Recognised(n) :: PassthroughOk(body, n) }

  function PassthroughValues(body: Body): Params
    requires PassthroughAllOk(body)
  {
    map n: Name | Recognised(n) && Param(body, n).value.Some? :: Param(body, n).value.value
  }

  function Passthrough(body: Body): Result<Params, Error> {
    if PassthroughAllOk(body) then Ok(PassthroughValues(body)) else Err(InvalidRequest)
  }

  /** Whom the request is for and what it asks: redirect URI and scope. */
  function ValidateTarget(body: Body, client: Client): Result<(string, string), Error> {
    var request :- Param(body, Name.Request);
    var _ :- Check(request.None?, InvalidRequest);
    var clientId :- Param(body, ClientId);
    var _ :- Check(clientId.None? || clientId.value == client.clientId, InvalidRequest);
    var responseType :- Param(body, ResponseType);
    var _ :- Check(responseType.Some?, InvalidRequest);
    var _ :- Check(responseType.value == "code", UnsupportedResponseType);
    var redirectUri :- Param(body, RedirectUri);
    var _ :- Check(redirectUri.Some? && RedirectUriRegistered(client, redirectUri.value), InvalidRequest);
    var rawScope :- Param(body, Scope);
    var scope := EffectiveScope(rawScope, client);
    var _ :- Check(Vschar(scope) && |scope| <= 512, InvalidRequest);
    var _ :- Check(ScopeAllowed(client, scope), InvalidScope);
    Ok((redirectUri.value, scope))
  }

  datatype Bindings = Bindings(codeChallenge: string, state: Option<string>, nonce: Option<string>,
                               dpopJkt: Option<string>)

  /** What binds the response: PKCE challenge, state, nonce and DPoP key. */
  function ValidateBindings(body: Body): Result<Bindings, Error> {
    var challenge :- Param(body, CodeChallenge);
    var _ :- Check(challenge.Some?, InvalidRequest);
    var transform :- Param(body, CodeChallengeMethod);
    var _ :- Check(transform == Some("S256") && WellFormedChallenge(challenge.value), InvalidRequest);
    var state :- Param(body, State);
    var _ :- Check(!BadOptional(state), InvalidRequest);
    var nonce :- Param(body, Nonce);
    var _ :- Check(!BadOptional(nonce), InvalidRequest);
    var dpopJkt :- Param(body, DpopJkt);
    var _ :- Check(dpopJkt.Some? ==> WellFormedJkt(dpopJkt.value), InvalidRequest);
    Ok(Bindings(challenge.value, state, nonce, dpopJkt))
  }

  datatype Dialogue = Dialogue(prompt: Option<string>, passthrough: Params, maxAge: Option<nat>)

  /** How the user is to be asked. */
  function ValidateDialogue(body: Body): Result<Dialogue, Error> {
    var prompt :- Param(body, Prompt);
    var _ :- Check(!BadPrompt(prompt), InvalidRequest);
    var passthrough :- Passthrough(body);
    var maxAge :- Param(body, MaxAge);
    var _ :- Check(maxAge.Some? ==> Text.AllDigits(maxAge.value), InvalidRequest);
    Ok(Dialogue(prompt, passthrough, if maxAge.Some? then Some(Text.ParseNat(maxAge.value)) else None))
  }

  /** The checks stop at the first that fails, in the source's order. */
  function Validate(body: Body, client: Client): Result<Validated, Error> {
    var target :- ValidateTarget(body, client);
    var b :- ValidateBindings(body);
    var d :- ValidateDialogue(body);
    Ok(Validated(client.clientId, target.0, target.1, b.codeChallenge, b.state, b.nonce, b.dpopJkt,
                 d.prompt, d.maxAge, d.passthrough))
  }

  // ---------------------------------------------------- what is accepted, outright

  ghost predicate SentTwice(body: Body, n: Name) { n in body && body[n].Repeated? }

  /** The text sent for the parameter, if there is any. */
  ghost function Sent(body: Body, n: Name): Option<string> {
    if n in body && body[n].Single? && body[n].text != "" then Some(body[n].text) else None
  }

  ghost predicate Visible(s: string, most: nat) { |s| <= most && forall c | c in s :: 0x20 <= c as int <= 0x7e }

  ghost predicate Unreserved(s: string) {
    forall c | c in s ::
      'A' <= c <= 'Z' || 'a' <= c <= 'z' || '0' <= c <= '9' || c == '-' || c == '_' || c == '.' || c == '~'
  }

  ghost predicate Thumbprint(s: string) {
    |s| == 43 && forall c | c in s :: 'A' <= c <= 'Z' || 'a' <= c <= 'z' || '0' <= c <= '9' || c == '-' || c == '_'
  }

  /** The parameters that are kept as they are. */
  ghost const HINTS := {AcrValues, MaxAge, LoginHint, IdTokenHint, UiLocales, Claims, ClaimsLocales, Display}

  ghost predicate Collected(params: Params, body: Body) {
    && (forall n :: n in params <==> n in HINTS && Sent(body, n).Some?)
    && (forall n | n in params :: Sent(body, n) == Some(params[n]))
  }

  /** The scope asked for, or the registered one where none was. */
  ghost function AskedScope(body: Body, client: Client): string {
    var scope := Sent(body, Scope);
    if scope.Some? && exists c :: c in scope.value && !Text.IsSpace(c) then scope.value else client.scope
  }

  /** The request is for this client, as a code, to a redirect URI that it registered. */
  ghost predicate RightType(body: Body, client: Client) {
    && !SentTwice(body, Name.Request) && !SentTwice(body, ClientId) && !SentTwice(body, ResponseType)
    && Sent(body, Name.Request).None? && Sent(body, ClientId) in {None, Some(client.clientId)}
    && Sent(body, ResponseType).Some?
  }

  ghost predicate RightTarget(body: Body, client: Client) {
    && RightType(body, client) && Sent(body, ResponseType) == Some("code")
    && !SentTwice(body, RedirectUri) && !SentTwice(body, Scope)
    && Sent(body, RedirectUri).Some? && Sent(body, RedirectUri).value in client.redirectUris
    && Visible(AskedScope(body, client), 512)
  }

  ghost predicate RightBindings(body: Body) {
    && !SentTwice(body, CodeChallenge) && !SentTwice(body, CodeChallengeMethod)
    && !SentTwice(body, State) && !SentTwice(body, Nonce) && !SentTwice(body, DpopJkt)
    && Sent(body, CodeChallenge).Some? && Sent(body, CodeChallengeMethod) == Some("S256")
    && 43 <= |Sent(body, CodeChallenge).value| <= 128 && Unreserved(Sent(body, CodeChallenge).value)
    && (Sent(body, State).Some? ==> Visible(Sent(body, State).value, 512))
    && (Sent(body, Nonce).Some? ==> Visible(Sent(body, Nonce).value, 512))
    && (Sent(body, DpopJkt).Some? ==> Thumbprint(Sent(body, DpopJkt).value))
  }

  ghost predicate RightDialogue(body: Body) {
    && !SentTwice(body, Prompt)
    && (Sent(body, Prompt).Some? && Text.IsWord(Sent(body, Prompt).value, "none") ==>
          !Text.TwoWords(Sent(body, Prompt).value))
    && (forall n | n in HINTS ::
          !SentTwice(body, n) && (Sent(body, n).Some? ==> Visible(Sent(body, n).value, 2048)))
    && (Sent(body, MaxAge).Some? ==> forall c | c in Sent(body, MaxAge).value :: '0' <= c <= '9')
  }

  lemma ParamExactly(body: Body, n: Name)
    ensures Param(body, n) == if SentTwice(body, n) then Err(InvalidRequest) else Ok(Sent(body, n))
  {
  }

  lemma ScopeExactly(body: Body, client: Client)
    ensures EffectiveScope(Sent(body, Scope), client) == AskedScope(body, client)
    ensures ScopeAllowed(client, AskedScope(body, client)) <==> Text.WordsWithin(AskedScope(body, client), client.scope)
  {
    hide Text.Words, Text.WordsWithin;
    Text.WithinExactly(AskedScope(body, client), client.scope);
  }

  lemma VisibleExactly(s: string)
    ensures Vschar(s) <==> forall c | c in s :: 0x20 <= c as int <= 0x7e
  {
  }

  lemma TargetExactly(body: Body, client: Client)
    ensures var r, scope := ValidateTarget(body, client), AskedScope(body, client);
            && (r.Ok? <==> RightTarget(body, client) && Text.WordsWithin(scope, client.scope))
            && (r.Ok? ==> r.value == (Sent(body, RedirectUri).value, scope))
            && (r == Err(InvalidScope) <==> RightTarget(body, client) && !Text.WordsWithin(scope, client.scope))
            && (r == Err(UnsupportedResponseType) <==>
                  RightType(body, client) && Sent(body, ResponseType) != Some("code"))
  {
    forall n ensures Param(body, n) == if SentTwice(body, n) then Err(InvalidRequest) else Ok(Sent(body, n)) {
      ParamExactly(body, n);
    }
    ScopeExactly(body, client);
    VisibleExactly(AskedScope(body, client));
    hide Param, Sent, SentTwice, EffectiveScope, AskedScope, ScopeAllowed, Text.WordsWithin, Vschar;
  }

  lemma BindingsExactly(body: Body)
    ensures var r := ValidateBindings(body);
            && (r.Ok? <==> RightBindings(body)) && (r.Err? ==> r.error == InvalidRequest)
            && (r.Ok? ==> r.value == Bindings(Sent(body, CodeChallenge).value, Sent(body, State), Sent(body, Nonce),
                                              Sent(body, DpopJkt)))
  {
    forall n ensures Param(body, n) == if SentTwice(body, n) then Err(InvalidRequest) else Ok(Sent(body, n)) {
      ParamExactly(body, n);
    }
    hide Param, Sent, SentTwice;
  }

  lemma HintsExactly(n: Name)
    ensures Recognised(n) <==> n in HINTS
  {
  }

  lemma HintExactly(body: Body, n: Name)
    ensures PassthroughOk(body, n) <==>
              !SentTwice(body, n) && (Sent(body, n).Some? ==> Visible(Sent(body, n).value, 2048))
  {
    ParamExactly(body, n);
    if Sent(body, n).Some? {
      VisibleExactly(Sent(body, n).value);
    }
    hide Param, Sent, SentTwice, Vschar;
  }

  lemma PassthroughExactly(body: Body)
    ensures PassthroughAllOk(body) <==>
              (forall n | n in HINTS ::
                 !SentTwice(body, n) && (Sent(body, n).Some? ==> Visible(Sent(body, n).value, 2048)))
    ensures PassthroughAllOk(body) ==> Collected(PassthroughValues(body), body)
  {
    hide Param, Sent, SentTwice, PassthroughOk, Visible, Recognised;
    forall n: Name
      ensures Recognised(n) <==> n in HINTS
      ensures PassthroughOk(body, n) <==>
                !SentTwice(body, n) && (Sent(body, n).Some? ==> Visible(Sent(body, n).value, 2048))
    {
      HintsExactly(n);
      HintExactly(body, n);
    }
    if PassthroughAllOk(body) {
      KeptExactly(body);
    }
  }

  lemma KeptExactly(body: Body)
    requires PassthroughAllOk(body)
    ensures Collected(PassthroughValues(body), body)
  {
    forall n: Name
      ensures Recognised(n) <==> n in HINTS
      ensures Param(body, n) == if SentTwice(body, n) then Err(InvalidRequest) else Ok(Sent(body, n))
    {
      HintsExactly(n);
      ParamExactly(body, n);
    }
    hide Param, Sent, SentTwice, Recognised;
    var params := PassthroughValues(body);
    forall n: Name
      ensures n in params <==> n in HINTS && Sent(body, n).Some?
      ensures n in params ==> Sent(body, n) == Some(params[n])
    {
      assert Recognised(n) ==> PassthroughOk(body, n);
    }
  }

  lemma DialogueExactly(body: Body)
    ensures var r := ValidateDialogue(body);
            && (r.Ok? <==> RightDialogue(body)) && (r.Err? ==> r.error == InvalidRequest)
            && (r.Ok? ==>
                  && r.value.prompt == Sent(body, Prompt)
                  && (r.value.maxAge.Some? <==> Sent(body, MaxAge).Some?)
                  && (r.value.maxAge.Some? ==> r.value.maxAge.value == Text.ParseNat(Sent(body, MaxAge).value))
                  && Collected(r.value.passthrough, body))
  {
    forall n ensures Param(body, n) == if SentTwice(body, n) then Err(InvalidRequest) else Ok(Sent(body, n)) {
      ParamExactly(body, n);
    }
    PassthroughExactly(body);
    PromptExactly(Sent(body, Prompt));
    hide Param, SentTwice, PassthroughAllOk, PassthroughValues, Collected, BadPrompt, Visible, Text.IsWord,
         Text.TwoWords;
  }

  lemma PromptExactly(prompt: Option<string>)
    ensures BadPrompt(prompt) <==>
              prompt.Some? && Text.IsWord(prompt.value, "none") && Text.TwoWords(prompt.value)
  {
    if prompt.Some? {
      hide Text.IsWord, Text.WordList, Text.TwoWords;
      Text.WordListExactly(prompt.value, "none");
      Text.WordCount(prompt.value);
    }
  }

  ghost predicate Acceptable(body: Body, client: Client) {
    && RightTarget(body, client) && Text.WordsWithin(AskedScope(body, client), client.scope)
    && RightBindings(body) && RightDialogue(body)
  }

  /** The request is what was sent. */
  ghost predicate AsSent(v: Validated, body: Body, client: Client) {
    && v.clientId == client.clientId && v.scope == AskedScope(body, client)
    && Sent(body, RedirectUri) == Some(v.redirectUri) && Sent(body, CodeChallenge) == Some(v.codeChallenge)
    && v.state == Sent(body, State) && v.nonce == Sent(body, Nonce)
    && v.dpopJkt == Sent(body, DpopJkt) && v.prompt == Sent(body, Prompt)
    && (v.maxAge.Some? <==> Sent(body, MaxAge).Some?)
    && (v.maxAge.Some? && Text.AllDigits(Sent(body, MaxAge).value) ==>
          v.maxAge.value == Text.ParseNat(Sent(body, MaxAge).value))
    && Collected(v.passthrough, body)
  }

  /** The error names what is wrong: the scope asks for a word that is not registered, or
      the response type is another one. */
  ghost predicate ErrorFits(r: Result<Validated, Error>, body: Body, client: Client) {
    && (r == Err(InvalidScope) <==>
          && RightTarget(body, client)
          && exists w :: Text.IsWord(AskedScope(body, client), w) && !Text.IsWord(client.scope, w))
    && (r == Err(UnsupportedResponseType) <==>
          RightType(body, client) && Sent(body, ResponseType) != Some("code"))
  }

  lemma NotWithin(s: string, t: string)
    ensures !Text.WordsWithin(s, t) <==> exists w :: Text.IsWord(s, w) && !Text.IsWord(t, w)
  {
    hide Text.IsWord;
  }

  /** A request is accepted exactly if it is sent so, and is then what was sent. */
  lemma ValidExactly(body: Body, client: Client)
    ensures var r := Validate(body, client);
            && (r.Ok? <==> Acceptable(body, client)) && (r.Ok? ==> AsSent(r.value, body, client))
            && ErrorFits(r, body, client)
  {
    TargetExactly(body, client);
    BindingsExactly(body);
    DialogueExactly(body);
    NotWithin(AskedScope(body, client), client.scope);
    hide ValidateTarget, ValidateBindings, ValidateDialogue, RightType, RightDialogue, Unreserved, Thumbprint,
         AskedScope, Collected, Text.WordsWithin, Text.IsWord, Visible;
  }

  lemma AllRecognised()
    ensures forall n: Name :: Recognised(n) <==> n in PASSTHROUGH
  {
    assert PASSTHROUGH[0] == AcrValues && PASSTHROUGH[1] == MaxAge && PASSTHROUGH[2] == LoginHint
           && PASSTHROUGH[3] == IdTokenHint && PASSTHROUGH[4] == UiLocales && PASSTHROUGH[5] == Claims
           && PASSTHROUGH[6] == ClaimsLocales && PASSTHROUGH[7] == Display;
  }

  method CollectPassthrough(body: Body) returns (r: Result<Params, Error>)
    ensures r == Passthrough(body)
  {
    var out: Params := map[];
    for i := 0 to |PASSTHROUGH|
      invariant forall n | n in PASSTHROUGH[..i] :: PassthroughOk(body, n)
      invariant forall n :: n in out <==> n in PASSTHROUGH[..i] && Param(body, n).value.Some?
      invariant forall n | n in out :: out[n] == Param(body, n).value.value
    {
      var name := PASSTHROUGH[i];
      assert PASSTHROUGH[..i + 1] == PASSTHROUGH[..i] + [name];
      assert Recognised(name);
      var value :- Param(body, name);
      if value.Some? {
        if !Vschar(value.value) || |value.value| > 2048 {
          return Err(InvalidRequest);
        }
        out := out[name := value.value];
      }
    }
    AllRecognised();
    assert PASSTHROUGH[..|PASSTHROUGH|] == PASSTHROUGH;
    assert out == PassthroughValues(body);
    return Ok(out);
  }

  method ValidateAuthorizationRequest(body: Body, client: Client) returns (r: Result<Validated, Error>)
    ensures r == Validate(body, client)
    ensures r.Ok? <==> Acceptable(body, client)
    ensures r.Ok? ==> AsSent(r.value, body, client)
    ensures ErrorFits(r, body, client)
  {
    hide Acceptable, AsSent, ErrorFits;
    ValidExactly(body, client);
    r := CheckInOrder(body, client);
  }

  /** The checks, in their order. */
  method CheckInOrder(body: Body, client: Client) returns (r: Result<Validated, Error>)
    ensures r == Validate(body, client)
  {
    var request :- Param(body, Name.Request);
    if request.Some? { return Err(InvalidRequest); }
    var clientId :- Param(body, Name.ClientId);
    if clientId.Some? && clientId.value != client.clientId { return Err(InvalidRequest); }
    var responseType :- Param(body, Name.ResponseType);
    if responseType.None? { return Err(InvalidRequest); }
    if responseType.value != "code" { return Err(UnsupportedResponseType); }
    var redirectUri :- Param(body, Name.RedirectUri);
    if redirectUri.None? { return Err(InvalidRequest); }
    if !RedirectUriRegistered(client, redirectUri.value) { return Err(InvalidRequest); }
    var rawScope :- Param(body, Name.Scope);
    var scope := EffectiveScope(rawScope, client);
    if !Vschar(scope) || |scope| > 512 { return Err(InvalidRequest); }
    if !ScopeAllowed(client, scope) { return Err(InvalidScope); }
    var challenge :- Param(body, Name.CodeChallenge);
    if challenge.None? { return Err(InvalidRequest); }
    var transform :- Param(body, Name.CodeChallengeMethod);
    if transform != Some("S256") { return Err(InvalidRequest); }
    if !WellFormedChallenge(challenge.value) { return Err(InvalidRequest); }
    var state :- Param(body, Name.State);
    if BadOptional(state) { return Err(InvalidRequest); }
    var nonce :- Param(body, Name.Nonce);
    if BadOptional(nonce) { return Err(InvalidRequest); }
    var dpopJkt :- Param(body, Name.DpopJkt);
    if dpopJkt.Some? && !WellFormedJkt(dpopJkt.value) { return Err(InvalidRequest); }
    var prompt :- Param(body, Name.Prompt);
    if BadPrompt(prompt) { return Err(InvalidRequest); }
    var passthrough :- CollectPassthrough(body);
    var maxAge: Option<nat> := None;
    var maxAgeRaw :- Param(body, Name.MaxAge);
    if maxAgeRaw.Some? {
      if !Text.AllDigits(maxAgeRaw.value) { return Err(InvalidRequest); }
      maxAge := Some(Text.ParseNat(maxAgeRaw.value));
    }
    return Ok(Validated(client.clientId, redirectUri.value, scope, challenge.value, state, nonce, dpopJkt, prompt,
                        maxAge, passthrough));
  }

  // ------------------------------------------------------------ stored form

  /** The stored value of each parameter. */
  function StoredValue(v: Validated, name: Name): Option<string> {
    if name in v.passthrough then Some(v.passthrough[name])
    else match name
      case ClientId => Some(v.clientId)
      case ResponseType => Some("code")
      case RedirectUri => Some(v.redirectUri)
      case Scope => Some(v.scope)
      case CodeChallenge => Some(v.codeChallenge)
      case CodeChallengeMethod => Some("S256")
      case State => v.state
      case Nonce => v.nonce
      case DpopJkt => v.dpopJkt
      case Prompt => v.prompt
      case _ => None
  }

  /** The string map kept in the PAR record. */
  function StoredParams(v: Validated): Params {
    map n: Name | StoredValue(v, n).Some? :: StoredValue(v, n).value
  }

  function Get(m: Params, n: Name): Option<string> { if n in m then Some(m[n]) else None }

  /** Set the parameter if there is a value. */
  function With(m: Params, name: Name, value: Option<string>): (r: Params)
    ensures forall n: Name :: Get(r, n) == if n == name && value.Some? then value else Get(m, n)
  {
    if value.Some? then m[name := value.value] else m
  }

  /** What the last assignment to each parameter leaves. */
  function AssignedValue(v: Validated, n: Name): Option<string> {
    if n == Prompt && v.prompt.Some? then v.prompt
    else if n == DpopJkt && v.dpopJkt.Some? then v.dpopJkt
    else if n == Nonce && v.nonce.Some? then v.nonce
    else if n == State && v.state.Some? then v.state
    else RequiredValue(v, n)
  }

  function RequiredValue(v: Validated, n: Name): Option<string> {
    if n == CodeChallengeMethod then Some("S256")
    else if n == CodeChallenge then Some(v.codeChallenge)
    else if n == Scope then Some(v.scope)
    else if n == RedirectUri then Some(v.redirectUri)
    else if n == ResponseType then Some("code")
    else if n == ClientId then Some(v.clientId)
    else None
  }

  lemma AssignedIsStored(v: Validated, n: Name)
    ensures (if n in v.passthrough then Some(v.passthrough[n]) else AssignedValue(v, n)) == StoredValue(v, n)
  {
  }

  method StoreRequired(v: Validated) returns (out: Params)
    ensures forall n: Name :: Get(out, n) == RequiredValue(v, n)
  {
    forall n: Name ensures Get(map[], n) == None {
      NothingYet(n);
    }
    hide With, Get;
    out := With(map[], ClientId, Some(v.clientId));
    out := With(out, ResponseType, Some("code"));
    out := With(out, RedirectUri, Some(v.redirectUri));
    out := With(out, Scope, Some(v.scope));
    out := With(out, CodeChallenge, Some(v.codeChallenge));
    out := With(out, CodeChallengeMethod, Some("S256"));
  }

  method ToStoredParams(v: Validated) returns (out: Params)
    ensures out == StoredParams(v)
  {
    hide With, Get, RequiredValue, StoredValue;
    out := StoreRequired(v);
    out := With(out, State, v.state);
    out := With(out, Nonce, v.nonce);
    out := With(out, DpopJkt, v.dpopJkt);
    out := With(out, Prompt, v.prompt);
    forall n: Name ensures Get(out + v.passthrough, n) == StoredValue(v, n) {
      Merged(out, v.passthrough, n);
      AssignedIsStored(v, n);
    }
    out := out + v.passthrough;
    SameParams(out, v);
  }

  lemma Merged(m: Params, p: Params, n: Name)
    ensures Get(m + p, n) == if n in p then Some(p[n]) else Get(m, n)
  {
  }

  lemma NothingYet(n: Name)
    ensures Get(map[], n) == None
  {
  }

  lemma SameParams(m: Params, v: Validated)
    requires forall n: Name :: Get(m, n) == StoredValue(v, n)
    ensures m == StoredParams(v)
  {
    hide StoredValue;
    assert forall n: Name :: Get(m, n).Some? <==> n in m;
  }

  /** Stored parameters come back as single-valued fields. */
  function Lift(params: Params): Body {
    map n | n in params :: Single(params[n])
  }

  /** What PAR stores: the key of a DPoP header overrides or adds `dpop_jkt`. */
  function PushedParams(v: Validated, jkt: Option<string>): Params {
    if jkt.Some? then StoredParams(v)[DpopJkt := jkt.value] else StoredParams(v)
  }

  /** What every validated request satisfies, whichever client and body it came from. */
  predicate Sound(v: Validated, client: Client) {
    && v.clientId == client.clientId
    && v.redirectUri != "" && RedirectUriRegistered(client, v.redirectUri)
    && Vschar(v.scope) && |v.scope| <= 512 && ScopeAllowed(client, v.scope)
    && (Text.Blank(v.scope) ==> v.scope == client.scope)
    && WellFormedChallenge(v.codeChallenge)
    && Kept(v)
  }

  /** The part of that which does not mention the client's registration. */
  predicate Kept(v: Validated) {
    && (v.state.Some? ==> v.state.value != "") && !BadOptional(v.state)
    && (v.nonce.Some? ==> v.nonce.value != "") && !BadOptional(v.nonce)
    && (v.dpopJkt.Some? ==> WellFormedJkt(v.dpopJkt.value))
    && KeptDialogue(v.prompt, v.passthrough, v.maxAge)
  }

  predicate KeptDialogue(prompt: Option<string>, passthrough: Params, maxAge: Option<nat>) {
    && (prompt.Some? ==> prompt.value != "") && !BadPrompt(prompt)
    && (forall n | n in passthrough ::
          Recognised(n) && passthrough[n] != "" && Vschar(passthrough[n]) && |passthrough[n]| <= 2048)
    && (MaxAge in passthrough ==> Text.AllDigits(passthrough[MaxAge]))
    && maxAge == (if MaxAge in passthrough then Some(Text.ParseNat(passthrough[MaxAge])) else None)
  }

  lemma ValidatedIsSound(body: Body, client: Client)
    requires Validate(body, client).Ok?
    ensures var v := Validate(body, client).value;
            Sound(v, client) && Text.WordsWithin(v.scope, client.scope) && AsSent(v, body, client)
  {
    SoundParts(body, client);
    hide Sound, Text.WordsWithin, Validate, Collected, RightTarget, RightBindings, RightDialogue, AskedScope;
    ValidExactly(body, client);
  }

  lemma SoundParts(body: Body, client: Client)
    requires Validate(body, client).Ok?
    ensures Sound(Validate(body, client).value, client)
  {
    assert ValidateTarget(body, client).Ok? && ValidateBindings(body).Ok?;
    DialogueKept(body);
  }

  lemma ValidatedKey(body: Body, client: Client)
    requires Validate(body, client).Ok?
    ensures var jkt := Validate(body, client).value.dpopJkt; jkt.Some? ==> WellFormedJkt(jkt.value)
  {
    SoundParts(body, client);
  }

  lemma DialogueKept(body: Body)
    requires ValidateDialogue(body).Ok?
    ensures var d := ValidateDialogue(body).value; KeptDialogue(d.prompt, d.passthrough, d.maxAge)
  {
  }

  /** A parameter of the stored form reads back as the value stored, an empty
      one as omitted. */
  lemma ReadsBack(v: Validated, jkt: Option<string>, name: Name)
    ensures Param(Lift(PushedParams(v, jkt)), name) ==
              var stored := if name == DpopJkt && jkt.Some? then jkt else StoredValue(v, name);
              Ok(if stored == Some("") then None else stored)
  {
  }

  lemma FieldReadsBack(v: Validated, jkt: Option<string>, name: Name)
    requires (forall n | n in v.passthrough :: Recognised(n)) && !Recognised(name)
    ensures Param(Lift(PushedParams(v, jkt)), name) ==
              var stored := match name
                case ClientId => Some(v.clientId)
                case ResponseType => Some("code")
                case RedirectUri => Some(v.redirectUri)
                case Scope => Some(v.scope)
                case CodeChallenge => Some(v.codeChallenge)
                case CodeChallengeMethod => Some("S256")
                case State => v.state
                case Nonce => v.nonce
                case DpopJkt => if jkt.Some? then jkt else v.dpopJkt
                case Prompt => v.prompt
                case _ => None;
              Ok(if stored == Some("") then None else stored)
  {
    ReadsBack(v, jkt, name);
  }

  lemma PassthroughReadsBack(v: Validated, jkt: Option<string>)
    requires Kept(v)
    ensures Passthrough(Lift(PushedParams(v, jkt))) == Ok(v.passthrough)
  {
    var b := Lift(PushedParams(v, jkt));
    forall n: Name | Recognised(n)
      ensures Param(b, n) == Ok(if n in v.passthrough then Some(v.passthrough[n]) else None)
    {
      ReadsBack(v, jkt, n);
    }
    assert PassthroughValues(b) == v.passthrough;
  }

  /** The scope that a later endpoint reads from the stored form. */
  function RereadScope(v: Validated, client: Client): string {
    if Text.Blank(v.scope) then client.scope else v.scope
  }

  lemma TargetReadsBack(v: Validated, original: Client, client: Client, jkt: Option<string>)
    requires Sound(v, original) && client.clientId == original.clientId
    ensures var r := ValidateTarget(Lift(PushedParams(v, jkt)), client);
            var scope := RereadScope(v, client);
            && (r.Ok? <==> RedirectUriRegistered(client, v.redirectUri)
                           && Vschar(scope) && |scope| <= 512 && ScopeAllowed(client, scope))
            && (r.Ok? ==> r.value == (v.redirectUri, scope))
  {
    FieldReadsBack(v, jkt, Name.Request);
    FieldReadsBack(v, jkt, ClientId);
    FieldReadsBack(v, jkt, ResponseType);
    FieldReadsBack(v, jkt, RedirectUri);
    FieldReadsBack(v, jkt, Scope);
    TargetOf(Lift(PushedParams(v, jkt)), v.clientId, v.redirectUri, v.scope, client);
  }

  lemma TargetOf(b: Body, clientId: string, uri: string, raw: string, client: Client)
    requires Param(b, Name.Request) == Ok(None) && Param(b, ResponseType) == Ok(Some("code"))
    requires Param(b, ClientId) == Ok(if clientId == "" then None else Some(clientId)) && clientId == client.clientId
    requires Param(b, RedirectUri) == Ok(Some(uri))
    requires Param(b, Scope) == Ok(if raw == "" then None else Some(raw))
    ensures var r := ValidateTarget(b, client);
            var scope := if Text.Blank(raw) then client.scope else raw;
            && (r.Ok? <==> RedirectUriRegistered(client, uri) && Vschar(scope) && |scope| <= 512
                           && ScopeAllowed(client, scope))
            && (r.Ok? ==> r.value == (uri, scope))
  {
    assert EffectiveScope(Param(b, Scope).value, client) == if Text.Blank(raw) then client.scope else raw;
  }

  lemma BindingsReadBack(v: Validated, original: Client, jkt: Option<string>)
    requires Sound(v, original) && (jkt.Some? ==> WellFormedJkt(jkt.value))
    ensures ValidateBindings(Lift(PushedParams(v, jkt))) ==
              Ok(Bindings(v.codeChallenge, v.state, v.nonce, if jkt.Some? then jkt else v.dpopJkt))
  {
    FieldReadsBack(v, jkt, CodeChallenge);
    FieldReadsBack(v, jkt, CodeChallengeMethod);
    FieldReadsBack(v, jkt, State);
    FieldReadsBack(v, jkt, Nonce);
    FieldReadsBack(v, jkt, DpopJkt);
    BindingsOf(Lift(PushedParams(v, jkt)), v.codeChallenge, v.state, v.nonce, if jkt.Some? then jkt else v.dpopJkt);
  }

  lemma BindingsOf(b: Body, challenge: string, state: Option<string>, nonce: Option<string>, jkt: Option<string>)
    requires Param(b, CodeChallenge) == Ok(Some(challenge)) && Param(b, CodeChallengeMethod) == Ok(Some("S256"))
    requires Param(b, State) == Ok(state) && Param(b, Nonce) == Ok(nonce) && Param(b, DpopJkt) == Ok(jkt)
    requires WellFormedChallenge(challenge) && !BadOptional(state) && !BadOptional(nonce)
    requires jkt.Some? ==> WellFormedJkt(jkt.value)
    ensures ValidateBindings(b) == Ok(Bindings(challenge, state, nonce, jkt))
  {
  }

  lemma DialogueReadsBack(v: Validated, original: Client, jkt: Option<string>)
    requires Sound(v, original)
    ensures ValidateDialogue(Lift(PushedParams(v, jkt))) == Ok(Dialogue(v.prompt, v.passthrough, v.maxAge))
  {
    ReadsBack(v, jkt, Prompt);
    ReadsBack(v, jkt, MaxAge);
    PassthroughReadsBack(v, jkt);
  }

  /** Validating the stored form again, under whatever the same client's
      registration has become: it succeeds exactly when the redirect URI is still
      registered and the scope still allowed, and then gives back the request,
      with the key that PAR bound and, only if the stored scope is blank, the
      new registered scope. */
  lemma StoredFormRoundTrip(v: Validated, original: Client, client: Client, jkt: Option<string>)
    requires Sound(v, original) && client.clientId == original.clientId
    requires jkt.Some? ==> WellFormedJkt(jkt.value)
    ensures var r := Validate(Lift(PushedParams(v, jkt)), client);
            var scope := RereadScope(v, client);
            && (r.Ok? <==> RedirectUriRegistered(client, v.redirectUri)
                           && Vschar(scope) && |scope| <= 512 && ScopeAllowed(client, scope))
            && (r.Ok? ==> r.value == v.(scope := scope, dpopJkt := if jkt.Some? then jkt else v.dpopJkt))
  {
    TargetReadsBack(v, original, client, jkt);
    BindingsReadBack(v, original, jkt);
    DialogueReadsBack(v, original, jkt);
  }

  /** With an unchanged registration the round trip always succeeds. */
  lemma SameClientRoundTrip(body: Body, client: Client, jkt: Option<string>)
    requires Validate(body, client).Ok?
    requires jkt.Some? ==> WellFormedJkt(jkt.value)
    ensures var v := Validate(body, client).value;
            Validate(Lift(PushedParams(v, jkt)), client) == Ok(v.(dpopJkt := if jkt.Some? then jkt else v.dpopJkt))
  {
    SoundParts(body, client);
    StoredFormRoundTrip(Validate(body, client).value, client, client, jkt);
  }
}

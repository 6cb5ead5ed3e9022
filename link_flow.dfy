/** The account-linking flow of app.js: the `/`, `/login` and `/callback`
    handlers over the per-browser session store. Network answers, the
    clock, the cipher and the database outcome are inputs; what the
    handlers do with them is recorded, in order, as a log of effects. */
module LinkFlow {
  import opened Base64
  import opened Pkce

  /** A value that JavaScript may leave `undefined` (`None`). */
  datatype Option<+T> = None | Some(value: T)

  /** JavaScript truthiness of a possibly absent string: `undefined` and `''` are falsy. */
  predicate Truthy(s: Option<string>) {
    s.Some? && s.value != ""
  }

  // ---------------------------------------------------------------------
  // Configuration constants of app.js
  // ---------------------------------------------------------------------

  const ClientId: string := "ChessCord"
  const RedirectUri: string := "https://auth.chesscord.com/callback"
  const Scope: string := "challenge:read challenge:write bot:play board:play"
  const AuthorizeEndpoint: string := "https://lichess.org/oauth"

  // ---------------------------------------------------------------------
  // Sessions
  // ---------------------------------------------------------------------

  /** The session cookie's identifier. */
  type SessionId = string

  /** What app.js keeps in `req.session`. */
  datatype Session = Session(discordID: Option<string>, codeVerifier: Option<string>)

  /** The session a request sees: express-session hands a request whose
      cookie names no stored session a fresh, empty one. */
  function Lookup(store: map<SessionId, Session>, sid: SessionId): (s: Session)
    ensures sid !in store ==> s.discordID.None? && s.codeVerifier.None?
    ensures sid in store ==> s == store[sid]
  {
    if sid in store then store[sid] else Session(None, None)
  }

  // ---------------------------------------------------------------------
  // Messages exchanged with the provider
  // ---------------------------------------------------------------------

  /** The query of the redirect that `/login` sends the browser to. */
  datatype AuthorizationRedirect = AuthorizationRedirect(
    endpoint: string,
    responseType: string,
    clientId: string,
    redirectUri: string,
    scope: string,
    codeChallengeMethod: string,
    codeChallenge: string)

  /** The JSON body `getLichessToken` posts to the token endpoint; an
      `undefined` code or verifier is left out of the body. */
  datatype TokenRequest = TokenRequest(
    grantType: string,
    redirectUri: string,
    clientId: string,
    code: Option<string>,
    codeVerifier: Option<string>)

  /** The fields app.js reads from the token endpoint's JSON answer. */
  datatype TokenResponse = TokenResponse(accessToken: Option<string>, expiresIn: Option<int>)

  /** The field app.js reads from the account endpoint's JSON answer. */
  datatype Profile = Profile(username: Option<string>)

  // ---------------------------------------------------------------------
  // The token cipher
  // ---------------------------------------------------------------------

  predicate IsLowerHex(c: char) {
    ('0' <= c <= '9') || ('a' <= c <= 'f')
  }

  /** Hex output of AES-256-CBC with padding: one or more 16-octet blocks,
      so a positive multiple of 32 lower-case hex digits. */
  type HexCiphertext = s: string | |s| > 0 && |s| % 32 == 0 && forall i :: 0 <= i < |s| ==> IsLowerHex(s[i])
    witness "00000000000000000000000000000000"

  /** `cipher.update(token, 'utf8', 'hex') + cipher.final('hex')` under the
      key and IV from the environment. The cipher itself is not modelled. */
  type Cipher = string -> HexCiphertext

  // ---------------------------------------------------------------------
  // The `expires_at` column
  // ---------------------------------------------------------------------

  /** Decimal digits of a natural number, as JavaScript prints it. */
  function Digits(n: nat): (r: string)
    ensures |r| > 0 && forall i :: 0 <= i < |r| ==> '0' <= r[i] <= '9'
    decreases n
  {
    (if n < 10 then "" else Digits(n / 10)) + [('0' as int + n % 10) as char]
  }

  /** `String(x)` for an integer below 10^21 in magnitude (larger ones
      JavaScript writes in exponent form), or `undefined`. */
  function JsString(x: Option<int>): string {
    match x
    case None => "undefined"
    case Some(n) => if n < 0 then "-" + Digits(-n) else Digits(n)
  }

  /** `new Date() + lichessToken.expires_in`, given the clock's `Date` as
      the string it converts to: `+` on a `Date` concatenates strings, so
      the column receives the current date followed by the digits of
      `expires_in`, not a time `expires_in` seconds from now. */
  function ExpiresAt(now: string, expiresIn: Option<int>): (r: string)
    ensures |r| > |now| && r[..|now|] == now
  {
    now + JsString(expiresIn)
  }

  /** What the column receives for a token valid for 3600 seconds, as in
      `LinkOneAccount`: the date text with "3600" glued on. */
  lemma ExpiresAtGluesDigits(now: string)
    ensures ExpiresAt(now, Some(3600)) == now + "3600"
    ensures ExpiresAt(now, None) == now + "undefined"
  {
    assert Digits(3) == "3";
    assert Digits(36) == "36";
    assert Digits(360) == "360";
    assert Digits(3600) == "3600";
  }

  // ---------------------------------------------------------------------
  // Effects and replies
  // ---------------------------------------------------------------------

  /** The tuple bound to the `INSERT INTO linked_users` query. */
  datatype LinkRow = LinkRow(
    id: Option<string>,
    lichessUsername: Option<string>,
    lichessToken: HexCiphertext,
    expiresAt: string)

  /** What `/callback` does, in the order it does it. */
  datatype Effect =
    | RequestToken(request: TokenRequest)  // POST to the token endpoint
    | Encrypt(plaintext: string)           // cipher.update / cipher.final
    | FetchProfile(bearer: string)         // GET the account endpoint
    | Acquire                              // pool.getConnection() returned a connection
    | Insert(row: LinkRow)                 // connection.query(INSERT ...) was issued
    | Release                              // connection.release()

  /** How the database calls end. */
  datatype DbOutcome = DbOk | GetConnectionThrows | QueryThrows

  /** What the outside world answers during one `/callback`. */
  datatype Answers = Answers(token: TokenResponse, profile: Profile, now: string, db: DbOutcome)

  /** The page a handler sends back. */
  datatype Reply =
    | LandingPage  // static/index.html
    | MissingId    // "Failed getting your Discord ID."
    | TokenFailed  // "Failed getting access token."
    | Linked       // "Successfully linked your account!"
    | LinkFailed   // "Failed linking your account."

  /** The effects and the reply of one `/callback`. */
  datatype Handled = Handled(effects: seq<Effect>, reply: Reply)

  // ---------------------------------------------------------------------
  // The three handlers as functions of the session they see
  // ---------------------------------------------------------------------

  /** The redirect `/login` sends for a given challenge. */
  function AuthorizationFor(challenge: string): (r: AuthorizationRedirect)
    ensures r.codeChallengeMethod == "S256" && r.codeChallenge == challenge
    ensures r.responseType == "code" && r.redirectUri == RedirectUri && r.clientId == ClientId
    ensures r.endpoint == AuthorizeEndpoint && r.scope == Scope
  {
    AuthorizationRedirect(AuthorizeEndpoint, "code", ClientId, RedirectUri, Scope, "S256", challenge)
  }

  /** The token request `/callback` sends for a code and the session's verifier. */
  function TokenRequestFor(code: Option<string>, verifier: Option<string>): (r: TokenRequest)
    ensures r.grantType == "authorization_code" && r.redirectUri == RedirectUri && r.clientId == ClientId
    ensures r.code == code && r.codeVerifier == verifier
  {
    TokenRequest("authorization_code", RedirectUri, ClientId, code, verifier)
  }

  /** `/callback` as written: exchange the code, stop unless an access
      token came back, encrypt it, fetch the profile, then get a
      connection, insert and release inside a `try` whose `catch` only
      sends the failure page. */
  function HandleCallback(s: Session, code: Option<string>, w: Answers, encrypt: Cipher): (h: Handled)
    ensures h.effects != [] && h.effects[0] == RequestToken(TokenRequestFor(code, s.codeVerifier))
  {
    var exchange := [RequestToken(TokenRequestFor(code, s.codeVerifier))];
    if !Truthy(w.token.accessToken) then Handled(exchange, TokenFailed)
    else
      var t := w.token.accessToken.value;
      var row := LinkRow(s.discordID, w.profile.username, encrypt(t), ExpiresAt(w.now, w.token.expiresIn));
      var prepared := exchange + [Encrypt(t), FetchProfile(t)];
      match w.db
      case GetConnectionThrows => Handled(prepared, LinkFailed)
      case QueryThrows => Handled(prepared + [Acquire, Insert(row)], LinkFailed)
      case DbOk => Handled(prepared + [Acquire, Insert(row), Release], Linked)
  }

  // ---------------------------------------------------------------------
  // What /callback guarantees
  // ---------------------------------------------------------------------

  /** The place of each effect in the pipeline exchange, encrypt, profile,
      connect, insert, release. */
  function Stage(e: Effect): nat {
    match e
    case RequestToken(_) => 0
    case Encrypt(_) => 1
    case FetchProfile(_) => 2
    case Acquire => 3
    case Insert(_) => 4
    case Release => 5
  }

  /** Every run of `/callback` is a prefix of the pipeline: each effect
      happens at most once, and never before the ones it depends on. */
  lemma CallbackFollowsPipeline(s: Session, code: Option<string>, w: Answers, encrypt: Cipher)
    ensures var h := HandleCallback(s, code, w, encrypt);
      |h.effects| <= 6 && forall i :: 0 <= i < |h.effects| ==> Stage(h.effects[i]) == i
  {
    var h := HandleCallback(s, code, w, encrypt);
    var e0 := RequestToken(TokenRequestFor(code, s.codeVerifier));
    if Truthy(w.token.accessToken) {
      var t := w.token.accessToken.value;
      var row := LinkRow(s.discordID, w.profile.username, encrypt(t), ExpiresAt(w.now, w.token.expiresIn));
      var pipeline := [e0, Encrypt(t), FetchProfile(t), Acquire, Insert(row), Release];
      assert forall i :: 0 <= i < 6 ==> Stage(pipeline[i]) == i;
      assert h.effects == pipeline[..|h.effects|];
    } else {
      assert h.effects == [e0];
    }
  }

  /** Without an access token, the failure page is sent and nothing but the
      token exchange happens: no encryption, no profile fetch, no
      connection, no insert. The token page is sent in no other case. */
  lemma NoAccessTokenNoEffects(s: Session, code: Option<string>, w: Answers, encrypt: Cipher)
    ensures var h := HandleCallback(s, code, w, encrypt);
      (h.reply == TokenFailed <==> !Truthy(w.token.accessToken))
      && (!Truthy(w.token.accessToken) ==> h.effects == [RequestToken(TokenRequestFor(code, s.codeVerifier))])
  {
  }

  /** Nothing reaches the database unless an access token came back, and
      what is inserted is the session's Discord id, the profile's username,
      the ciphertext of that token and the `expires_at` value. */
  lemma InsertComesFromSessionAndProfile(s: Session, code: Option<string>, w: Answers, encrypt: Cipher, i: int)
    requires var h := HandleCallback(s, code, w, encrypt); 0 <= i < |h.effects| && h.effects[i].Insert?
    ensures Truthy(w.token.accessToken)
    ensures HandleCallback(s, code, w, encrypt).effects[i].row
         == LinkRow(s.discordID, w.profile.username, encrypt(w.token.accessToken.value),
                    ExpiresAt(w.now, w.token.expiresIn))
  {
  }

  /** The success page is sent exactly when the token came back and both
      database calls succeeded; then there is exactly one insert, followed by
      the release. */
  lemma LinkedExactlyOnSuccess(s: Session, code: Option<string>, w: Answers, encrypt: Cipher)
    ensures var h := HandleCallback(s, code, w, encrypt);
      (h.reply == Linked <==> Truthy(w.token.accessToken) && w.db == DbOk)
      && (h.reply == Linked ==>
            var t := w.token.accessToken.value;
            h.effects == [RequestToken(TokenRequestFor(code, s.codeVerifier)), Encrypt(t), FetchProfile(t),
                          Acquire, Insert(LinkRow(s.discordID, w.profile.username, encrypt(t),
                                                       ExpiresAt(w.now, w.token.expiresIn))), Release])
  {
  }

  /** The two database failures as written: either sends the failure page;
      a failing `getConnection` stops before the insert, and a failing query
      leaves `release` unreached. */
  lemma DatabaseFailures(s: Session, code: Option<string>, w: Answers, encrypt: Cipher)
    requires Truthy(w.token.accessToken) && w.db != DbOk
    ensures var h := HandleCallback(s, code, w, encrypt);
      h.reply == LinkFailed && Release !in h.effects
      && (w.db == GetConnectionThrows ==> Acquire !in h.effects && forall e :: e in h.effects ==> !e.Insert?)
      && (w.db == QueryThrows ==> Acquire in h.effects && h.effects[|h.effects| - 1].Insert?)
  {
  }

  // ---------------------------------------------------------------------
  // The connection leak, and the `finally` that closes it
  // ---------------------------------------------------------------------

  /** Connections still held after a run: acquisitions minus releases. */
  function Held(es: seq<Effect>): int {
    multiset(es)[Acquire] as int - multiset(es)[Release] as int
  }

  /** As written, a query that throws leaves its connection held. */
  lemma QueryFailureLeaksConnection(s: Session, code: Option<string>, w: Answers, encrypt: Cipher)
    requires Truthy(w.token.accessToken) && w.db == QueryThrows
    ensures Held(HandleCallback(s, code, w, encrypt).effects) == 1
  {
    var h := HandleCallback(s, code, w, encrypt);
    var t := w.token.accessToken.value;
    var row := LinkRow(s.discordID, w.profile.username, encrypt(t), ExpiresAt(w.now, w.token.expiresIn));
    var e0 := RequestToken(TokenRequestFor(code, s.codeVerifier));
    var prepared := [e0, Encrypt(t), FetchProfile(t)];
    assert h.effects == prepared + [Acquire, Insert(row)];
    PreparedHoldsNothing(e0, t);
    HeldAppend(prepared, [Acquire, Insert(row)]);
    assert multiset([Acquire, Insert(row)]) == multiset{Acquire, Insert(row)};
  }

  /** `/callback` with the release moved into a `finally`: the connection is
      given back whenever one was obtained, whatever the query did. */
  function HandleCallbackReleasing(s: Session, code: Option<string>, w: Answers, encrypt: Cipher): (h: Handled)
    ensures h.reply == HandleCallback(s, code, w, encrypt).reply
    ensures var a := HandleCallback(s, code, w, encrypt).effects;
      a <= h.effects && forall i :: |a| <= i < |h.effects| ==> h.effects[i] == Release
    ensures |h.effects| <= |HandleCallback(s, code, w, encrypt).effects| + 1
  {
    var h := HandleCallback(s, code, w, encrypt);
    if Truthy(w.token.accessToken) && w.db == QueryThrows then h.(effects := h.effects + [Release]) else h
  }

  lemma HeldAppend(a: seq<Effect>, b: seq<Effect>)
    ensures Held(a + b) == Held(a) + Held(b)
  {
    assert multiset(a + b) == multiset(a) + multiset(b);
  }

  /** The exchange, the encryption and the profile fetch hold no connection. */
  lemma PreparedHoldsNothing(e0: Effect, t: string)
    requires e0.RequestToken?
    ensures Held([e0, Encrypt(t), FetchProfile(t)]) == 0
  {
    assert multiset([e0, Encrypt(t), FetchProfile(t)]) == multiset{e0, Encrypt(t), FetchProfile(t)};
  }

  /** Acquire, insert, release: one taken, one given back. */
  lemma RoundTripHoldsNothing(row: LinkRow)
    ensures Held([Acquire, Insert(row), Release]) == 0
  {
    assert multiset([Acquire, Insert(row), Release]) == multiset{Acquire, Insert(row), Release};
  }

  /** The `finally` once a token came back: held connections cancel out. */
  lemma ReleasingAfterToken(s: Session, code: Option<string>, w: Answers, encrypt: Cipher)
    requires Truthy(w.token.accessToken)
    ensures Held(HandleCallbackReleasing(s, code, w, encrypt).effects) == 0
  {
    var t := w.token.accessToken.value;
    var e0 := RequestToken(TokenRequestFor(code, s.codeVerifier));
    var prepared := [e0, Encrypt(t), FetchProfile(t)];
    PreparedHoldsNothing(e0, t);
    if w.db != GetConnectionThrows {
      var row := LinkRow(s.discordID, w.profile.username, encrypt(t), ExpiresAt(w.now, w.token.expiresIn));
      assert HandleCallbackReleasing(s, code, w, encrypt).effects == prepared + [Acquire, Insert(row), Release];
      RoundTripHoldsNothing(row);
      HeldAppend(prepared, [Acquire, Insert(row), Release]);
    }
  }

  /** With the `finally`, no run of `/callback` leaves a connection held. */
  lemma ReleasingNeverLeaks(s: Session, code: Option<string>, w: Answers, encrypt: Cipher)
    ensures Held(HandleCallbackReleasing(s, code, w, encrypt).effects) == 0
  {
    if Truthy(w.token.accessToken) {
      ReleasingAfterToken(s, code, w, encrypt);
    } else {
      var e0 := RequestToken(TokenRequestFor(code, s.codeVerifier));
      assert HandleCallbackReleasing(s, code, w, encrypt).effects == [e0];
      assert multiset([e0]) == multiset{e0};
    }
  }

  // ---------------------------------------------------------------------
  // The server: the session store and the handlers
  // ---------------------------------------------------------------------

  class App {
    /** express-session's store: one entry per session cookie. */
    var sessions: map<SessionId, Session>
    /** Everything `/callback` has done so far, oldest first. */
    var effects: seq<Effect>
    /** `crypto.createHash('sha256')`. */
    const sha256: Sha256
    /** AES-256-CBC under `ENCRYPTION_KEY` and `ENCRYPTION_IV`. */
    const encrypt: Cipher

    constructor (sha256: Sha256, encrypt: Cipher)
      ensures this.sha256 == sha256 && this.encrypt == encrypt
      ensures sessions == map[] && effects == []
    {
      this.sha256 := sha256;
      this.encrypt := encrypt;
      sessions := map[];
      effects := [];
    }

    /** `GET /?id=...`: record the id in the session, even when it is absent,
        then send the landing page, or the failure script if the id is falsy.
        No other session changes. */
    method Index(sid: SessionId, id: Option<string>) returns (reply: Reply)
      modifies this`sessions
      ensures sessions == old(sessions)[sid := Lookup(old(sessions), sid).(discordID := id)]
      ensures reply == (if Truthy(id) then LandingPage else MissingId)
    {
      var session := Lookup(sessions, sid);
      sessions := sessions[sid := session.(discordID := id)];
      if !Truthy(id) {
        reply := MissingId;
        return;
      }
      reply := LandingPage;
    }

    /** `GET /login`: make a verifier from 32 random octets, store it in the
        session (replacing any earlier one) and redirect with its `S256`
        challenge. No other session changes. */
    method Login(sid: SessionId, random: seq<byte>) returns (redirect: AuthorizationRedirect)
      requires |random| == 32
      modifies this`sessions
      ensures var v := CreateVerifier(random);
        sessions == old(sessions)[sid := Lookup(old(sessions), sid).(codeVerifier := Some(v))]
        && redirect == AuthorizationFor(CreateChallenge(sha256, v))
      ensures Lookup(sessions, sid).codeVerifier.Some?
      ensures IsCodeVerifier(Lookup(sessions, sid).codeVerifier.value)
      ensures redirect.codeChallengeMethod == "S256"
      ensures redirect.codeChallenge == CreateChallenge(sha256, Lookup(sessions, sid).codeVerifier.value)
    {
      var verifier := CreateVerifier(random);
      var challenge := CreateChallenge(sha256, verifier);
      var session := Lookup(sessions, sid);
      sessions := sessions[sid := session.(codeVerifier := Some(verifier))];
      redirect := AuthorizationFor(challenge);
    }

    /** `GET /callback?code=...`, step by step; the session is read, not
        changed. */
    method Callback(sid: SessionId, code: Option<string>, w: Answers) returns (reply: Reply)
      modifies this`effects
      ensures var h := HandleCallback(Lookup(sessions, sid), code, w, encrypt);
        effects == old(effects) + h.effects && reply == h.reply
    {
      var session := Lookup(sessions, sid);
      var verifier := session.codeVerifier;
      effects := effects + [RequestToken(TokenRequestFor(code, verifier))];
      var token := w.token;
      var discordID := session.discordID;
      if !Truthy(token.accessToken) {
        reply := TokenFailed;
        return;
      }
      var accessToken := token.accessToken.value;
      effects := effects + [Encrypt(accessToken)];
      var encrypted := encrypt(accessToken);
      effects := effects + [FetchProfile(accessToken)];
      var user := w.profile;
      var expiresAt := ExpiresAt(w.now, token.expiresIn);
      if w.db == GetConnectionThrows {
        reply := LinkFailed;
        return;
      }
      effects := effects + [Acquire];
      effects := effects + [Insert(LinkRow(discordID, user.username, encrypted, expiresAt))];
      if w.db == QueryThrows {
        reply := LinkFailed;
        return;
      }
      effects := effects + [Release];
      reply := Linked;
    }
  }

  // ---------------------------------------------------------------------
  // Whole flows
  // ---------------------------------------------------------------------

  /** A visit to `/?id=12345`, then `/login`, then `/callback?code=abc`
      where the provider returns the token "tok1" valid for 3600 seconds and
      the username "alice": one insert of ("12345", "alice", ciphertext of
      "tok1", expires_at), after the code was exchanged with the very
      verifier whose challenge went to the provider. */
  method LinkOneAccount(sha256: Sha256, encrypt: Cipher, sid: SessionId, random: seq<byte>, now: string)
    returns (landing: Reply, redirect: AuthorizationRedirect, reply: Reply, log: seq<Effect>)
    requires |random| == 32
    ensures landing == LandingPage && reply == Linked
    ensures var v := CreateVerifier(random);
      redirect.codeChallenge == CreateChallenge(sha256, v)
      && log == [RequestToken(TokenRequestFor(Some("abc"), Some(v))), Encrypt("tok1"), FetchProfile("tok1"),
                 Acquire, Insert(LinkRow(Some("12345"), Some("alice"), encrypt("tok1"),
                                              ExpiresAt(now, Some(3600)))), Release]
  {
    var app := new App(sha256, encrypt);
    landing := app.Index(sid, Some("12345"));
    redirect := app.Login(sid, random);
    var session := Session(Some("12345"), Some(CreateVerifier(random)));
    assert Lookup(app.sessions, sid) == session;
    var w := Answers(TokenResponse(Some("tok1"), Some(3600)), Profile(Some("alice")), now, DbOk);
    reply := app.Callback(sid, Some("abc"), w);
    log := app.effects;
    assert log == HandleCallback(session, Some("abc"), w, encrypt).effects;
    LinkedExactlyOnSuccess(session, Some("abc"), w, encrypt);
  }

  /** A browser opens `/?id=...` and then `/login`: its session ends up
      holding that id and the fresh verifier, and no other session changes. */
  method Visit(app: App, sid: SessionId, id: string, random: seq<byte>)
    requires |random| == 32
    modifies app`sessions
    ensures Lookup(app.sessions, sid) == Session(Some(id), Some(CreateVerifier(random)))
    ensures forall other :: other != sid ==> Lookup(app.sessions, other) == Lookup(old(app.sessions), other)
  {
    var _ := app.Index(sid, Some(id));
    var _ := app.Login(sid, random);
  }

  /** Two browsers overlap: the second links its session between the first
      one's `/login` and `/callback`. Each callback runs exactly as it would
      with its own session alone, so it exchanges its own verifier and
      inserts its own Discord id. */
  method TwoSessionsStayApart(sha256: Sha256, encrypt: Cipher, s1: SessionId, s2: SessionId,
                              r1: seq<byte>, r2: seq<byte>, w1: Answers, w2: Answers)
    returns (log1: seq<Effect>, log2: seq<Effect>)
    requires s1 != s2 && |r1| == 32 && |r2| == 32
    ensures log1 == HandleCallback(Session(Some("id1"), Some(CreateVerifier(r1))), Some("c1"), w1, encrypt).effects
    ensures log2 == HandleCallback(Session(Some("id2"), Some(CreateVerifier(r2))), Some("c2"), w2, encrypt).effects
  {
    var app := new App(sha256, encrypt);
    Visit(app, s1, "id1", r1);
    Visit(app, s2, "id2", r2);
    var _ := app.Callback(s1, Some("c1"), w1);
    log1 := app.effects;
    var _ := app.Callback(s2, Some("c2"), w2);
    log2 := app.effects[|log1|..];
  }
}

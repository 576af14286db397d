/**
 * The PKCE login of src/utils/auth.ts (RFC 7636 over the authorization code
 * grant of RFC 6749): the code verifier, the S256 code challenge, the
 * authorization request, and the token request with its guards. SHA-256 and
 * `Math.random` are inputs; `localStorage` is a key/value map.
 */
module Auth {
  import opened Wrappers
  import opened Strings
  import opened Http
  import opened UrlParams
  import Base64

  // ---------------------------------------------------------------------------
  // localStorage
  // ---------------------------------------------------------------------------

  /** The browser's `localStorage`: string keys to string values. */
  class LocalStorage {
    var items: map<string, string>

    constructor (items: map<string, string>)
      ensures this.items == items
    {
      this.items := items;
    }

    /** `localStorage.setItem(key, value)`. */
    method SetItem(key: string, value: string)
      modifies this
      ensures items == old(items)[key := value]
    {
      items := items[key := value];
    }

    /** `localStorage.getItem(key)`: `null` for a key never set. */
    method GetItem(key: string) returns (value: Option<string>)
      ensures value.Some? <==> key in items
      ensures value.Some? ==> value.value == items[key]
    {
      value := if key in items then Some(items[key]) else None;
    }
  }

  // ---------------------------------------------------------------------------
  // generateCodeVerifier
  // ---------------------------------------------------------------------------

  /** The `possible` alphabet: the upper-case letters, the lower-case letters, the digits. */
  const Possible: string := UpperLetters + LowerLetters + Digits
  const UpperLetters: string := "ABCDEFGHIJKLMNOPQRSTUVWXYZ"
  const LowerLetters: string := "abcdefghijklmnopqrstuvwxyz"
  const Digits: string := "0123456789"

  /** The verifier length the login flow asks for. */
  const LoginVerifierLength: nat := 128

  predicate IsAlphanumeric(c: char) {
    'A' <= c <= 'Z' || 'a' <= c <= 'z' || '0' <= c <= '9'
  }

  lemma UpperLettersAreLetters()
    ensures forall k :: 0 <= k < |UpperLetters| ==> 'A' <= UpperLetters[k] <= 'Z'
  {
  }

  lemma LowerLettersAreLetters()
    ensures forall k :: 0 <= k < |LowerLetters| ==> 'a' <= LowerLetters[k] <= 'z'
  {
  }

  lemma DigitsAreDigits()
    ensures forall k :: 0 <= k < |Digits| ==> '0' <= Digits[k] <= '9'
  {
  }

  /** The alphabet has 62 characters, each an ASCII letter or digit. */
  lemma PossibleIsAlphanumeric()
    ensures |Possible| == 62
    ensures forall k :: 0 <= k < |Possible| ==> IsAlphanumeric(Possible[k])
  {
    UpperLettersAreLetters();
    LowerLettersAreLetters();
    DigitsAreDigits();
  }

  /** Values `Math.random()` can return. */
  predicate AreDraws(draws: seq<real>) {
    forall i :: 0 <= i < |draws| ==> 0.0 <= draws[i] < 1.0
  }

  /** `Math.floor(r * possible.length)`: always an index into the alphabet. */
  function DrawIndex(r: real): (k: nat)
    requires 0.0 <= r < 1.0
    ensures k < |Possible|
  {
    PossibleIsAlphanumeric();
    (r * 62.0).Floor
  }

  /** The verifier a sequence of draws produces: one alphabet character per draw. */
  function VerifierOf(draws: seq<real>): (verifier: string)
    requires AreDraws(draws)
    ensures |verifier| == |draws|
    ensures forall i :: 0 <= i < |verifier| ==> IsAlphanumeric(verifier[i])
  {
    PossibleIsAlphanumeric();
    seq(|draws|, i requires 0 <= i < |draws| => Possible[DrawIndex(draws[i])])
  }

  /**
   * `generateCodeVerifier(length)`, with `draws` the values its `length` calls
   * of `Math.random()` return, in order.
   */
  method GenerateCodeVerifier(length: nat, draws: seq<real>) returns (text: string)
    requires |draws| >= length && AreDraws(draws)
    ensures text == VerifierOf(draws[..length])
  {
    text := "";
    var i := 0;
    while i < length
      invariant 0 <= i <= length
      invariant text == VerifierOf(draws[..i])
    {
      text := text + [Possible[DrawIndex(draws[i])]];
      i := i + 1;
      assert draws[..i] == draws[..i - 1] + [draws[i - 1]];
    }
  }

  /** The characters section 4.1 of RFC 7636 allows in a code verifier (its "unreserved"). */
  predicate IsUnreserved(c: char) {
    IsAlphanumeric(c) || c == '-' || c == '.' || c == '_' || c == '~'
  }

  /** A code verifier as section 4.1 of RFC 7636 defines it: 43 to 128 unreserved characters. */
  predicate IsRfcVerifier(v: string) {
    43 <= |v| <= 128 && forall i :: 0 <= i < |v| ==> IsUnreserved(v[i])
  }

  /** The verifier of the login flow is a valid RFC 7636 verifier, whatever the draws. */
  lemma LoginVerifierConforms(draws: seq<real>)
    requires |draws| == LoginVerifierLength && AreDraws(draws)
    ensures IsRfcVerifier(VerifierOf(draws))
  {
  }

  // ---------------------------------------------------------------------------
  // generateCodeChallenge
  // ---------------------------------------------------------------------------

  /** `new TextEncoder().encode(s)`: UTF-8 (section 3 of RFC 3629), one to four bytes a character. */
  function Utf8Char(c: char): (bytes: seq<Base64.byte>)
    ensures 1 <= |bytes| <= 4
  {
    var v := c as int;
    if v < 0x80 then [v]
    else if v < 0x800 then [0xC0 + v / 0x40, 0x80 + v % 0x40]
    else if v < 0x10000 then [0xE0 + v / 0x1000, 0x80 + (v / 0x40) % 0x40, 0x80 + v % 0x40]
    else [0xF0 + v / 0x40000, 0x80 + (v / 0x1000) % 0x40, 0x80 + (v / 0x40) % 0x40, 0x80 + v % 0x40]
  }

  function Utf8(s: string): (bytes: seq<Base64.byte>)
    ensures |s| <= |bytes| <= 4 * |s|
    decreases |s|
  {
    if |s| == 0 then [] else Utf8Char(s[0]) + Utf8(s[1..])
  }

  /** On ASCII text (every verifier) the encoding is one byte per character, its code. */
  lemma {:induction false} Utf8OfAscii(s: string)
    requires forall i :: 0 <= i < |s| ==> s[i] as int < 0x80
    ensures |Utf8(s)| == |s|
    ensures forall i :: 0 <= i < |s| ==> Utf8(s)[i] == s[i] as int
    decreases |s|
  {
    if |s| > 0 {
      Utf8OfAscii(s[1..]);
    }
  }

  /** The `+` to `-`, `/` to `_` substitution of one character. */
  function UrlSafe(c: char): char {
    if c == '+' then '-' else if c == '/' then '_' else c
  }

  /**
   * The chained `replace` calls on the standard encoding: the result is the
   * encoding with its trailing `=` run dropped and, character for character,
   * `+` turned into `-` and `/` into `_`.
   */
  function Base64UrlStep(encoded: string): (challenge: string)
    ensures |challenge| <= |encoded|
    ensures forall i :: 0 <= i < |challenge| ==> challenge[i] == UrlSafe(encoded[i])
    ensures forall i :: |challenge| <= i < |encoded| ==> encoded[i] == '='
    ensures challenge == [] || encoded[|challenge| - 1] != '='
    ensures forall i :: 0 <= i < |challenge| ==> challenge[i] != '+' && challenge[i] != '/'
  {
    StripTrailing(ReplaceAll(ReplaceAll(encoded, '+', '-'), '/', '_'), '=')
  }

  /** `generateCodeChallenge(verifier)`, with `sha256` standing for `crypto.subtle.digest('SHA-256', ...)`. */
  function CodeChallenge(verifier: string, sha256: seq<Base64.byte> -> seq<Base64.byte>): string {
    Base64UrlStep(Base64.Encode(sha256(Utf8(verifier))))
  }

  /** The substitution and stripping turn the standard encoding into exactly the unpadded URL-safe one. */
  lemma ChallengeIsBase64Url(digest: seq<Base64.byte>)
    ensures Base64UrlStep(Base64.Encode(digest)) == Base64.EncodeUrl(digest)
  {
    var s := Base64.Sextets(digest);
    var std := seq(|s|, i requires 0 <= i < |s| => Base64.StdChar(s[i]));
    var url := Base64.EncodeUrl(digest);
    var pad := Base64.Padding(|digest|);
    var replaced := ReplaceAll(ReplaceAll(std + pad, '+', '-'), '/', '_');
    assert replaced == url + pad;
    StripTrailingOf(url, pad, '=');
  }

  /**
   * For a SHA-256 digest (32 bytes) the challenge is 43 characters of the
   * base64url alphabet, as section 4.2 of RFC 7636 requires, and decodes back
   * to the digest.
   */
  lemma ChallengeOfDigest(digest: seq<Base64.byte>)
    requires |digest| == 32
    ensures var challenge := Base64UrlStep(Base64.Encode(digest));
      |challenge| == 43
      && (forall i :: 0 <= i < |challenge| ==> Base64.IsUrlSafeChar(challenge[i]))
      && Base64.DecodeUrl(challenge) == Some(digest)
  {
    ChallengeIsBase64Url(digest);
    Base64.EncodeLength(digest);
    Base64.DecodeEncodeUrl(digest);
  }

  // ---------------------------------------------------------------------------
  // redirectToAuthCodeFlow
  // ---------------------------------------------------------------------------

  const RedirectUri: string := "http://127.0.0.1:5173/"
  const Scope: string := "user-read-private user-read-email playlist-read-private playlist-modify-public playlist-modify-private user-top-read"
  const VerifierKey: string := "verifier"

  /** The query of the authorization request (section 4.3 of RFC 7636), pair by pair. */
  function AuthorizeQuery(clientId: string, challenge: string): seq<(string, string)> {
    [("client_id", clientId), ("response_type", "code"), ("redirect_uri", RedirectUri),
     ("scope", Scope), ("code_challenge_method", "S256"), ("code_challenge", challenge)]
  }

  /** The form of the token request (section 4.5 of RFC 7636, section 4.1.3 of RFC 6749). */
  function TokenQuery(clientId: string, code: string, verifier: string): seq<(string, string)> {
    [("client_id", clientId), ("grant_type", "authorization_code"), ("code", code),
     ("redirect_uri", RedirectUri), ("code_verifier", verifier)]
  }

  /**
   * The authorization request asks for a code under the S256 method with the
   * given challenge, for the given client.
   */
  lemma AuthorizeQueryFields(clientId: string, challenge: string)
    ensures var q := AuthorizeQuery(clientId, challenge);
      Get(q, "client_id") == Some(clientId)
      && Get(q, "response_type") == Some("code")
      && Get(q, "code_challenge_method") == Some("S256")
      && Get(q, "code_challenge") == Some(challenge)
  {
    var q := AuthorizeQuery(clientId, challenge);
    GetFirst(q, 0, "client_id");
    GetFirst(q, 1, "response_type");
    GetFirst(q, 4, "code_challenge_method");
    GetFirst(q, 5, "code_challenge");
  }

  /** Both requests carry the same redirect URI, as section 4.1.3 of RFC 6749 requires. */
  lemma SameRedirectUri(clientId: string, challenge: string, code: string, verifier: string)
    ensures Get(AuthorizeQuery(clientId, challenge), "redirect_uri") == Some("http://127.0.0.1:5173/")
    ensures Get(TokenQuery(clientId, code, verifier), "redirect_uri") == Some("http://127.0.0.1:5173/")
  {
    GetFirst(AuthorizeQuery(clientId, challenge), 2, "redirect_uri");
    GetFirst(TokenQuery(clientId, code, verifier), 3, "redirect_uri");
  }

  /** The token request exchanges this code under the authorization code grant, proving with this verifier. */
  lemma TokenQueryFields(clientId: string, code: string, verifier: string)
    ensures var q := TokenQuery(clientId, code, verifier);
      Get(q, "client_id") == Some(clientId)
      && Get(q, "grant_type") == Some("authorization_code")
      && Get(q, "code") == Some(code)
      && Get(q, "code_verifier") == Some(verifier)
  {
    var q := TokenQuery(clientId, code, verifier);
    GetFirst(q, 0, "client_id");
    GetFirst(q, 1, "grant_type");
    GetFirst(q, 2, "code");
    GetFirst(q, 4, "code_verifier");
  }

  /**
   * `redirectToAuthCodeFlow(clientId)`: draws a 128-character verifier, stores
   * it under "verifier" (and changes no other key), and returns the query of
   * the authorization URL the browser is then sent to.
   */
  method RedirectToAuthCodeFlow(clientId: string, storage: LocalStorage, draws: seq<real>,
                                sha256: seq<Base64.byte> -> seq<Base64.byte>)
    returns (authorize: seq<(string, string)>)
    requires |draws| >= LoginVerifierLength && AreDraws(draws)
    modifies storage
    ensures storage.items == old(storage.items)["verifier" := VerifierOf(draws[..128])]
    ensures authorize == AuthorizeQuery(clientId, CodeChallenge(VerifierOf(draws[..128]), sha256))
  {
    var verifier := GenerateCodeVerifier(LoginVerifierLength, draws);
    var challenge := CodeChallenge(verifier, sha256);

    storage.SetItem(VerifierKey, verifier);

    var params := new SearchParams<string>();
    params.Append("client_id", clientId);
    params.Append("response_type", "code");
    params.Append("redirect_uri", RedirectUri);
    params.Append("scope", Scope);
    params.Append("code_challenge_method", "S256");
    params.Append("code_challenge", challenge);

    authorize := params.entries;
  }

  // ---------------------------------------------------------------------------
  // getAccessToken
  // ---------------------------------------------------------------------------

  const MissingVerifierMessage: string := "No verifier found in localStorage"

  /** The message of the error a refused token request throws. */
  function TokenErrorMessage(status: nat, errorBody: string): string {
    "Token exchange failed: " + NatToDecimal(status) + " " + errorBody
  }

  /** The message names the status and quotes the response body. */
  lemma TokenErrorMentionsStatus(status: nat, errorBody: string)
    ensures Includes(TokenErrorMessage(status, errorBody), NatToDecimal(status))
    ensures Includes(TokenErrorMessage(status, errorBody), errorBody)
  {
    IncludesBoth("Token exchange failed: ", NatToDecimal(status), " ", errorBody);
  }

  /** The second and the fourth of four concatenated pieces occur in the whole. */
  lemma IncludesBoth(a: string, b: string, c: string, d: string)
    ensures Includes(a + b + c + d, b) && Includes(a + b + c + d, d)
  {
    IncludesMiddle(a, b, c + d);
    IncludesMiddle(a + b + c, d, "");
    assert a + b + c + d + "" == a + b + c + d;
    assert a + b + (c + d) == a + b + c + d;
  }

  /**
   * How the token response settles the call: the `access_token` field of the
   * body (`None` when the body has none), or the rejection.
   */
  function TokenResult(response: Outcome<Option<string>>): (r: Result<Option<string>, Failure>)
    ensures response.Success? <==> r.Ok?
    ensures response.Success? ==> r == Ok(response.data)
    ensures response.NotOk? ==> r == Err(Thrown(TokenErrorMessage(response.status, response.errorBody)))
    ensures response.BadJson? ==> r == Err(JsonFailure)
    ensures response.NetworkError? ==> r == Err(NetworkFailure)
  {
    match response
    case Success(accessToken) => Ok(accessToken)
    case NotOk(status, errorBody) => Err(Thrown(TokenErrorMessage(status, errorBody)))
    case BadJson => Err(JsonFailure)
    case NetworkError => Err(NetworkFailure)
  }

  /**
   * `getAccessToken(clientId, code)`, with `tokenEndpoint` standing for the
   * POST to the token endpoint. `sent` is the form that was posted, if any.
   * A missing or empty stored verifier fails before any request; otherwise
   * exactly the token request is sent and its response decides the result.
   */
  method GetAccessToken(clientId: string, code: string, storage: LocalStorage,
                        tokenEndpoint: seq<(string, string)> -> Outcome<Option<string>>)
    returns (result: Result<Option<string>, Failure>, sent: Option<seq<(string, string)>>)
    ensures VerifierKey !in storage.items || storage.items[VerifierKey] == "" ==>
      sent == None && result == Err(Thrown("No verifier found in localStorage"))
    ensures VerifierKey in storage.items && storage.items[VerifierKey] != "" ==>
      var query := TokenQuery(clientId, code, storage.items[VerifierKey]);
      sent == Some(query) && result == TokenResult(tokenEndpoint(query))
  {
    var verifier := storage.GetItem(VerifierKey);

    if verifier.None? || verifier.value == "" {
      return Err(Thrown(MissingVerifierMessage)), None;
    }

    var params := new SearchParams<string>();
    params.Append("client_id", clientId);
    params.Append("grant_type", "authorization_code");
    params.Append("code", code);
    params.Append("redirect_uri", RedirectUri);
    params.Append("code_verifier", verifier.value);

    assert params.entries == TokenQuery(clientId, code, verifier.value);
    sent := Some(params.entries);
    var response := tokenEndpoint(params.entries);
    result := TokenResult(response);
  }
}

/** The session held by the authentication provider: the token kept in the
    browser's storage, the signed-in user decoded from it, and the `loading`
    flag that holds the rest of the application back until the stored token
    has been looked at (src/context/AuthContext.jsx). */
module Session {
  import opened Base

  /** The claims carried in a token's payload. `id` is the `_id` claim. */
  datatype Claims = Claims(
    userId: Option<string>,
    id: Option<string>,
    name: Option<string>,
    email: Option<string>,
    role: Role)

  /** `{ ...decoded, token }`: the claims plus the raw token. */
  datatype SessionUser = SessionUser(claims: Claims, token: string)

  /** The library part of the decode, after the character translation:
      `atob`, `decodeURIComponent`, `JSON.parse` and the caller's truthiness
      test. None when any of them throws or the parsed value is falsy. */
  type PayloadDecoder = string -> Option<Claims>

  /** `s.split('.')`: the maximal dot-free pieces of `s`, in order. */
  function Split(s: string): (parts: seq<string>)
    ensures |parts| >= 1
    ensures forall i :: 0 <= i < |parts| ==> '.' !in parts[i]
    ensures |parts| == 1 <==> '.' !in s
  {
    if s == [] then [""]
    else
      var rest := Split(s[1..]);
      assert '.' in s <==> s[0] == '.' || '.' in s[1..] by {
        assert s == [s[0]] + s[1..];
      }
      if s[0] == '.' then [""] + rest
      else [[s[0]] + rest[0]] + rest[1..]
  }

  /** `parts.join('.')`, the inverse of Split. */
  function Join(parts: seq<string>): string
    requires |parts| >= 1
  {
    if |parts| == 1 then parts[0] else parts[0] + "." + Join(parts[1..])
  }

  /** Splitting loses nothing: joining the pieces gives the string back. */
  lemma {:induction false} JoinSplit(s: string)
    ensures Join(Split(s)) == s
  {
    if s != [] {
      var rest := Split(s[1..]);
      JoinSplit(s[1..]);
      if s[0] == '.' {
        assert Split(s) == [""] + rest;
        assert ([""] + rest)[1..] == rest;
        assert s == "." + s[1..];
      } else {
        var parts := [[s[0]] + rest[0]] + rest[1..];
        assert Split(s) == parts;
        if |rest| == 1 {
          assert s == [s[0]] + rest[0];
        } else {
          assert parts[1..] == rest[1..];
          assert Join(rest) == rest[0] + "." + Join(rest[1..]);
          assert s == [s[0]] + s[1..];
        }
      }
    }
  }

  /** A dot-free piece followed by a dot starts a new piece. */
  lemma {:induction false} SplitAfterPiece(x: string, y: string)
    requires '.' !in x
    ensures Split(x + "." + y) == [x] + Split(y)
    ensures Split(x) == [x]
  {
    if x == [] {
      assert x + "." + y == "." + y;
      assert ("." + y)[1..] == y;
    } else {
      assert (x + "." + y)[1..] == x[1..] + "." + y;
      assert '.' !in x[1..];
      SplitAfterPiece(x[1..], y);
      assert [x[0]] + x[1..] == x;
    }
  }

  /** And conversely: splitting a join of dot-free pieces gives the pieces. */
  lemma {:induction false} SplitJoin(parts: seq<string>)
    requires |parts| >= 1
    requires forall i :: 0 <= i < |parts| ==> '.' !in parts[i]
    ensures Split(Join(parts)) == parts
  {
    if |parts| == 1 {
      SplitAfterPiece(parts[0], "");
    } else {
      SplitJoin(parts[1..]);
      SplitAfterPiece(parts[0], Join(parts[1..]));
      assert [parts[0]] + parts[1..] == parts;
    }
  }

  /** `token.split('.')[1]`; None where the source reads `undefined`. */
  function PayloadSegment(token: string): (seg: Option<string>)
    ensures seg.None? <==> '.' !in token
    ensures seg.Some? ==> '.' !in seg.value
  {
    var parts := Split(token);
    if |parts| >= 2 then Some(parts[1]) else None
  }

  /** The payload segment is exactly the text between the first dot of the
      token and the next dot (or the end of the token). */
  lemma PayloadSegmentLocation(token: string)
    requires '.' in token
    ensures var first, seg := Split(token)[0], PayloadSegment(token).value;
            var k := |first| + 1 + |seg|;
            && k <= |token|
            && '.' !in first && token[..|first|] == first && token[|first|] == '.'
            && token[|first| + 1..k] == seg
            && (k == |token| || token[k] == '.')
  {
    var parts := Split(token);
    JoinSplit(token);
    var first, seg := parts[0], parts[1];
    var tail := if |parts| == 2 then "" else "." + Join(parts[2..]);
    assert Join(parts[1..]) == seg + tail by {
      assert parts[1..][0] == seg;
      if |parts| > 2 {
        assert parts[1..][1..] == parts[2..];
      }
    }
    assert token == first + "." + (seg + tail);
    ConcatSlices(first, seg, tail);
  }

  /** Where the parts of `a + "." + (b + c)` sit. */
  lemma ConcatSlices(a: string, b: string, c: string)
    ensures var t := a + "." + (b + c);
            var k := |a| + 1 + |b|;
            && k <= |t| && t[..|a|] == a && t[|a|] == '.' && t[|a| + 1..k] == b
            && (k < |t| ==> t[k] == c[0])
  {
    var t := a + "." + (b + c);
    assert t[..|a|] == a;
    assert t[|a| + 1..] == b + c;
    assert (b + c)[..|b|] == b;
  }

  /** `s.replace(/from/g, to)` for a single character. */
  function ReplaceAll(s: string, from: char, to: char): (r: string)
    ensures |r| == |s|
    ensures forall i :: 0 <= i < |s| ==> r[i] == if s[i] == from then to else s[i]
  {
    if s == [] then [] else [if s[0] == from then to else s[0]] + ReplaceAll(s[1..], from, to)
  }

  /** The base64url-to-base64 translation applied to the payload segment:
      `-` becomes `+`, `_` becomes `/`, every other character is kept. */
  function UrlToStandard(seg: string): (b: string)
    ensures |b| == |seg|
    ensures forall i :: 0 <= i < |seg| ==>
              b[i] == if seg[i] == '-' then '+' else if seg[i] == '_' then '/' else seg[i]
    ensures '-' !in b && '_' !in b
  {
    ReplaceAll(ReplaceAll(seg, '-', '+'), '_', '/')
  }

  /** `decodeToken`: never fails; any failure yields None. */
  function DecodeToken(token: string, decode: PayloadDecoder): (r: Option<Claims>)
    ensures '.' !in token ==> r.None?
    ensures '.' in token ==> r == decode(UrlToStandard(PayloadSegment(token).value))
  {
    match PayloadSegment(token)
    case None => None
    case Some(seg) => decode(UrlToStandard(seg))
  }

  /** A token of the form header.payload.signature decodes to the decoder's
      verdict on its translated payload. */
  lemma DecodeThreeSegmentToken(header: string, payload: string, signature: string, decode: PayloadDecoder)
    requires '.' !in header && '.' !in payload
    ensures DecodeToken(header + "." + payload + "." + signature, decode) == decode(UrlToStandard(payload))
  {
    var rest := payload + "." + signature;
    var token := header + "." + payload + "." + signature;
    assert token == header + "." + rest;
    SplitAfterPiece(header, rest);
    SplitAfterPiece(payload, signature);
    var parts := Split(token);
    assert parts == [header] + ([payload] + Split(signature));
    assert parts[1] == payload;
    assert PayloadSegment(token) == Some(payload);
  }

  /** Only the payload segment matters: the header and the signature are not
      looked at, so two tokens with the same payload decode alike. */
  lemma DecodeIgnoresHeaderAndSignature(t1: string, t2: string, decode: PayloadDecoder)
    requires PayloadSegment(t1) == PayloadSegment(t2)
    ensures DecodeToken(t1, decode) == DecodeToken(t2, decode)
  {
  }

  /** The provider's state: `user`, `loading`, and the `token` entry of
      local storage. */
  datatype AuthState = AuthState(user: Option<SessionUser>, loading: bool, stored: Option<string>)

  /** The state before the restore effect has run. */
  function Initial(stored: Option<string>): (s: AuthState)
    ensures s.user.None? && s.loading && s.stored == stored
  {
    AuthState(None, true, stored)
  }

  /** Children are rendered only once `loading` is false. */
  predicate ChildrenRendered(s: AuthState)
  {
    !s.loading
  }

  /** The restore effect run on mount. */
  function RestoreStep(s: AuthState, decode: PayloadDecoder): (r: AuthState)
    ensures !r.loading
    ensures !Truthy(s.stored) ==> r.user == s.user && r.stored == s.stored
    ensures Truthy(s.stored) ==>
              match DecodeToken(s.stored.value, decode)
              case Some(c) => r.user == Some(SessionUser(c, s.stored.value)) && r.stored == s.stored
              case None => r.user == s.user && r.stored.None?
  {
    if Truthy(s.stored) then
      match DecodeToken(s.stored.value, decode)
      case Some(c) => AuthState(Some(SessionUser(c, s.stored.value)), false, s.stored)
      case None => AuthState(s.user, false, None)
    else AuthState(s.user, false, s.stored)
  }

  /** The data of a successful login response; `token` may be missing. */
  datatype LoginData = LoginData(token: Option<string>)

  /** What `login` does for its caller: it throws (the request failed), or it
      returns the decoded claims, or returns nothing (`undefined`). */
  datatype LoginReturn = Threw | Returned(claims: Option<Claims>)

  datatype LoginOutcome = LoginOutcome(state: AuthState, returned: LoginReturn)

  /** `localStorage.setItem('token', v)` stores the string form of `v`. */
  function StoredForm(token: Option<string>): string
  {
    match token
    case Some(t) => t
    case None => "undefined"
  }

  /** `decodeToken(data.token)`: a missing token makes `split` throw inside
      the decoder, which yields None. */
  function DecodeResponseToken(token: Option<string>, decode: PayloadDecoder): (r: Option<Claims>)
    ensures token.None? ==> r.None?
    ensures r.Some? ==> token.Some? && '.' in token.value
  {
    match token
    case Some(t) => DecodeToken(t, decode)
    case None => None
  }

  /** What `login` stores decodes, on a reload, to what `login` decoded:
      a missing token is stored as "undefined", which has no payload. */
  lemma StoredFormDecodesAlike(token: Option<string>, decode: PayloadDecoder)
    ensures DecodeToken(StoredForm(token), decode) == DecodeResponseToken(token, decode)
    ensures token.None? ==> DecodeToken(StoredForm(token), decode).None?
  {
    if token.None? {
      assert '.' !in "undefined";
    }
  }

  /** `login`: store the token first, then decode it; the user is replaced
      only when decoding succeeds. */
  function LoginStep(s: AuthState, res: Http<LoginData>, decode: PayloadDecoder): (r: LoginOutcome)
    ensures r.state.loading == s.loading
    ensures res.Failed? ==> r == LoginOutcome(s, Threw)
    ensures res.Ok? ==> r.state.stored == Some(StoredForm(res.data.token))
    ensures res.Ok? ==>
              match DecodeResponseToken(res.data.token, decode)
              case Some(c) => r.returned == Returned(Some(c))
                              && r.state.user == Some(SessionUser(c, res.data.token.value))
              case None => r.returned == Returned(None) && r.state.user == s.user
  {
    match res
    case Failed(_) => LoginOutcome(s, Threw)
    case Ok(data) =>
      var stored := Some(StoredForm(data.token));
      match DecodeResponseToken(data.token, decode)
      case Some(c) => LoginOutcome(AuthState(Some(SessionUser(c, data.token.value)), s.loading, stored), Returned(Some(c)))
      case None => LoginOutcome(AuthState(s.user, s.loading, stored), Returned(None))
  }

  /** `logout`: the stored token is removed and nobody is signed in. */
  function LogoutStep(s: AuthState): (r: AuthState)
    ensures r.user.None? && r.stored.None? && r.loading == s.loading
  {
    AuthState(None, s.loading, None)
  }

  /** The signed-in user, if any, is the decoding of the stored token. */
  ghost predicate Consistent(s: AuthState, decode: PayloadDecoder)
  {
    s.user.Some? ==>
      s.stored == Some(s.user.value.token)
      && DecodeToken(s.user.value.token, decode) == Some(s.user.value.claims)
  }

  lemma InitialIsConsistent(stored: Option<string>, decode: PayloadDecoder)
    ensures Consistent(Initial(stored), decode)
  {
  }

  lemma RestorePreservesConsistent(s: AuthState, decode: PayloadDecoder)
    requires Consistent(s, decode)
    ensures Consistent(RestoreStep(s, decode), decode)
  {
  }

  lemma LogoutPreservesConsistent(s: AuthState, decode: PayloadDecoder)
    ensures Consistent(LogoutStep(s), decode)
  {
  }

  /** `login` keeps the session consistent unless it is called while someone
      is signed in and the new token does not decode. */
  lemma LoginPreservesConsistent(s: AuthState, res: Http<LoginData>, decode: PayloadDecoder)
    requires Consistent(s, decode)
    requires res.Ok? && DecodeResponseToken(res.data.token, decode).None? ==> s.user.None?
    ensures Consistent(LoginStep(s, res, decode).state, decode)
  {
  }

  /** That exception is real: a signed-in user who logs in again and
      receives an undecodable token stays signed in as before, while the
      storage holds the new token. */
  lemma LoginWithUndecodableTokenKeepsStaleUser()
    ensures var c := Claims(None, None, None, None, USER);
            var decode: PayloadDecoder := p => Some(c);
            var s := AuthState(Some(SessionUser(c, "h.p.s")), false, Some("h.p.s"));
            var r := LoginStep(s, Ok(LoginData(Some("bad"))), decode).state;
            Consistent(s, decode) && !Consistent(r, decode) && r.user == s.user && r.stored == Some("bad")
  {
    assert "h.p.s"[1] == '.';
    assert '.' !in "bad" by {
      assert forall i :: 0 <= i < 3 ==> "bad"[i] != '.';
    }
  }

  /** A token that `login` accepted is restored after a reload: a fresh
      provider over the stored token signs in the same user. */
  lemma ReloadAfterLoginRestoresUser(s: AuthState, res: Http<LoginData>, decode: PayloadDecoder)
    requires LoginStep(s, res, decode).returned.Returned?
    requires LoginStep(s, res, decode).returned.claims.Some?
    ensures var after := LoginStep(s, res, decode).state;
            RestoreStep(Initial(after.stored), decode).user == after.user
  {
  }

  /** After a logout, a reload signs nobody in. */
  lemma ReloadAfterLogoutSignsNobodyIn(s: AuthState, decode: PayloadDecoder)
    ensures RestoreStep(Initial(LogoutStep(s).stored), decode).user.None?
  {
  }

  /** After the restore effect the children are rendered, whatever was stored. */
  lemma RestoreRendersChildren(stored: Option<string>, decode: PayloadDecoder)
    ensures ChildrenRendered(RestoreStep(Initial(stored), decode))
    ensures !ChildrenRendered(Initial(stored))
  {
  }

  /** The authentication provider as a stateful object. */
  class AuthProvider {
    var user: Option<SessionUser>
    var loading: bool
    var storedToken: Option<string>

    function State(): AuthState
      reads this
    {
      AuthState(user, loading, storedToken)
    }

    /** Mounting over whatever local storage holds. */
    constructor (stored: Option<string>)
      ensures State() == Initial(stored)
    {
      user, loading, storedToken := None, true, stored;
    }

    /** The mount effect: restore the user from the stored token. */
    method RestoreSession(decode: PayloadDecoder)
      modifies this
      ensures State() == RestoreStep(old(State()), decode)
    {
      var token := storedToken;
      if Truthy(token) {
        var decoded := DecodeToken(token.value, decode);
        if decoded.Some? {
          user := Some(SessionUser(decoded.value, token.value));
        } else {
          storedToken := None;
        }
      }
      loading := false;
    }

    /** `login(email, password)` given the outcome of the login request. */
    method Login(res: Http<LoginData>, decode: PayloadDecoder) returns (ret: LoginReturn)
      modifies this
      ensures LoginOutcome(State(), ret) == LoginStep(old(State()), res, decode)
    {
      if res.Failed? {
        return Threw;
      }
      var token := res.data.token;
      storedToken := Some(StoredForm(token));
      var decoded := DecodeResponseToken(token, decode);
      if decoded.Some? {
        user := Some(SessionUser(decoded.value, token.value));
        ret := Returned(decoded);
      } else {
        ret := Returned(None);
      }
    }

    /** `logout()` */
    method Logout()
      modifies this
      ensures State() == LogoutStep(old(State()))
    {
      storedToken := None;
      user := None;
    }
  }
}

/** The request hook of the server (src/utils/server.ts): take the token out
    of the Authorization header, verify it, and set the request's user only
    when verification succeeds. */
module Server {
  import opened Wrappers
  import opened Jwt

  /** The characters ECMAScript's String.prototype.trim removes: WhiteSpace
      (tab, vertical tab, form feed, space, no-break space, byte order mark
      and the space separators) and LineTerminator. */
  predicate IsJsWhiteSpace(c: char) {
    var n := c as int;
    n == 0x09 || n == 0x0A || n == 0x0B || n == 0x0C || n == 0x0D || n == 0x20
    || n == 0xA0 || n == 0x1680 || (0x2000 <= n <= 0x200A) || n == 0x2028 || n == 0x2029
    || n == 0x202F || n == 0x205F || n == 0x3000 || n == 0xFEFF
  }

  function TrimStart(s: string): (r: string)
    ensures |r| <= |s| && r == s[|s| - |r|..]
    ensures forall i :: 0 <= i < |s| - |r| ==> IsJsWhiteSpace(s[i])
    ensures r == [] || !IsJsWhiteSpace(r[0])
  {
    if s != [] && IsJsWhiteSpace(s[0]) then TrimStart(s[1..]) else s
  }

  function TrimEnd(s: string): (r: string)
    ensures |r| <= |s| && r == s[..|r|]
    ensures forall i :: |r| <= i < |s| ==> IsJsWhiteSpace(s[i])
    ensures r == [] || !IsJsWhiteSpace(r[|r| - 1])
  {
    if s != [] && IsJsWhiteSpace(s[|s| - 1]) then TrimEnd(s[..|s| - 1]) else s
  }

  /** String.prototype.trim: no whitespace is left at either end. */
  function Trim(s: string): (r: string)
    ensures |r| <= |s|
    ensures r == [] || (!IsJsWhiteSpace(r[0]) && !IsJsWhiteSpace(r[|r| - 1]))
  {
    var t := TrimStart(s);
    var r := TrimEnd(t);
    assert r != [] ==> r[0] == t[0];
    r
  }

  /** `pat` occurs in `s` at position `j`. */
  predicate MatchAt(s: string, pat: string, j: nat) {
    j + |pat| <= |s| && s[j..j + |pat|] == pat
  }

  /** The first position at or after `from` where `pat` occurs. */
  function IndexOf(s: string, pat: string, from: nat): (r: Option<nat>)
    requires from <= |s|
    decreases |s| - from
    ensures r.Some? ==> from <= r.value && MatchAt(s, pat, r.value)
    ensures r.Some? ==> forall j :: from <= j < r.value ==> !MatchAt(s, pat, j)
    ensures r.None? ==> forall j :: from <= j ==> !MatchAt(s, pat, j)
  {
    if from + |pat| > |s| then None
    else if s[from..from + |pat|] == pat then Some(from)
    else IndexOf(s, pat, from + 1)
  }

  /** String.prototype.replace with a string pattern: only the first
      occurrence is replaced, wherever it stands. */
  function Replace(s: string, pat: string, rep: string): (r: string)
    ensures (forall j :: !MatchAt(s, pat, j)) ==> r == s
    ensures forall i: nat :: MatchAt(s, pat, i) && (forall j: nat :: j < i ==> !MatchAt(s, pat, j)) ==>
      r == s[..i] + rep + s[i + |pat|..]
  {
    match IndexOf(s, pat, 0)
    case None => s
    case Some(i) => s[..i] + rep + s[i + |pat|..]
  }

  /** `authHeader.replace('Bearer ', '').trim()`: a header without "Bearer "
      is only trimmed, and the token never has whitespace at its ends. */
  function ExtractToken(header: string): (token: string)
    ensures |token| <= |header|
    ensures token == [] || (!IsJsWhiteSpace(token[0]) && !IsJsWhiteSpace(token[|token| - 1]))
    ensures (forall j :: !MatchAt(header, "Bearer ", j)) ==> token == Trim(header)
  {
    Trim(Replace(header, "Bearer ", ""))
  }

  /** What trim keeps: a contiguous piece of the input, from the end of the
      leading whitespace on, with nothing but whitespace after it. */
  lemma TrimKeepsInterior(s: string)
    ensures |s| - |TrimStart(s)| + |Trim(s)| <= |s|
    ensures Trim(s) == s[|s| - |TrimStart(s)|..|s| - |TrimStart(s)| + |Trim(s)|]
    ensures forall i :: |s| - |TrimStart(s)| + |Trim(s)| <= i < |s| ==> IsJsWhiteSpace(s[i])
  {
    var t := TrimStart(s);
    var k := |s| - |t|;
    var r := TrimEnd(t);
    assert r == s[k..k + |r|] by {
      assert t == s[k..];
      assert r == t[..|r|];
    }
    forall i | k + |r| <= i < |s|
      ensures IsJsWhiteSpace(s[i])
    {
      assert s[i] == t[i - k] by {
        assert t == s[k..];
      }
    }
  }

  /** A header "Bearer <token>" gives back the token, when the token has no
      whitespace at its ends. */
  lemma BearerRoundTrip(token: string)
    requires token == [] || (!IsJsWhiteSpace(token[0]) && !IsJsWhiteSpace(token[|token| - 1]))
    ensures ExtractToken("Bearer " + token) == token
  {
    var h := "Bearer " + token;
    assert MatchAt(h, "Bearer ", 0);
    assert h[7..] == token;
  }

  /** Replacing the first "Bearer " of `a + "Bearer " + b`, when `a` holds
      none, leaves `a + b`. */
  lemma ReplaceFirstBearer(a: string, b: string)
    requires forall j: nat :: j < |a| ==> !MatchAt(a + "Bearer " + b, "Bearer ", j)
    ensures Replace(a + "Bearer " + b, "Bearer ", "") == a + b
  {
    var h, pat := a + "Bearer " + b, "Bearer ";
    assert MatchAt(h, pat, |a|) by {
      assert h[|a|..|a| + |pat|] == pat;
    }
    assert h[..|a|] == a && h[|a| + |pat|..] == b;
  }

  /** "Bearer " is removed where it first occurs, even after other text:
      the token is the trimmed text around it. */
  lemma BearerRemovedAnywhere(a: string, b: string)
    requires forall j: nat :: j < |a| ==> !MatchAt(a + "Bearer " + b, "Bearer ", j)
    ensures ExtractToken(a + "Bearer " + b) == Trim(a + b)
  {
    ReplaceFirstBearer(a, b);
  }

  /** Only the first "Bearer " is removed: after a leading one, any further
      "Bearer " stays in the token. */
  lemma OnlyFirstBearerRemoved(b: string)
    ensures ExtractToken("Bearer " + b) == Trim(b)
  {
    BearerRemovedAnywhere("", b);
    assert "" + "Bearer " + b == "Bearer " + b && "" + b == b;
  }

  /** The request with the one field the hook writes. */
  class Request {
    const authorization: Option<string>
    var user: Option<TokenPayload>

    constructor (authorization: Option<string>, user: Option<TokenPayload>)
      ensures this.authorization == authorization && this.user == user
    {
      this.authorization := authorization;
      this.user := user;
    }

    /** The onRequest hook. An absent or empty header returns at once; a
        token that fails verification is ignored; only a verified payload
        becomes the request's user. */
    method OnRequest(verify: Verifier)
      modifies this
      ensures authorization.None? || authorization == Some("") ==> user == old(user)
      ensures authorization.Some? && authorization.value != "" ==>
        user == (match verify(ExtractToken(authorization.value))
                 case Some(payload) => Some(payload)
                 case None => old(user))
    {
      if authorization.None? || authorization.value == "" {
        return;
      }
      var token := ExtractToken(authorization.value);
      var decoded := verify(token);
      if decoded.Some? {
        user := Some(decoded.value);
      }
    }
  }

  /** The guard's error handler: one reply whatever the failure. */
  function GuardErrorReply<R>(result: R): (reply: string)
    ensures reply == "Unauthorized"
  {
    "Unauthorized"
  }
}

/** The authentication middleware: the bearer token is the Authorization
    header with the first occurrence of "Bearer " removed, wherever it
    stands; the token's signature check is given as a function from the
    token to the user id it was signed for. */
module AuthMiddleware {
  import opened Wrappers
  import opened Models
  import opened Http

  const BearerPrefix := "Bearer "
  const UnauthorizedMessage := "Unauthorized"

  predicate OccursAt(s: string, pat: string, i: nat) {
    i + |pat| <= |s| && s[i..i + |pat|] == pat
  }

  /** The first position at or after `k` where `pat` occurs in `s`. */
  function IndexFrom(s: string, pat: string, k: nat): (r: Option<nat>)
    decreases |s| - k
    ensures r.Some? ==> k <= r.value && OccursAt(s, pat, r.value)
    ensures r.Some? ==> forall j :: k <= j < r.value ==> !OccursAt(s, pat, j)
    ensures r.None? ==> forall j :: k <= j ==> !OccursAt(s, pat, j)
  {
    if k + |pat| > |s| then None
    else if OccursAt(s, pat, k) then Some(k)
    else IndexFrom(s, pat, k + 1)
  }

  /** `s.indexOf(pat)`, as an option. */
  function IndexOf(s: string, pat: string): (r: Option<nat>)
    ensures r.Some? ==> OccursAt(s, pat, r.value) && forall j: nat :: j < r.value ==> !OccursAt(s, pat, j)
    ensures r.None? <==> forall j: nat :: !OccursAt(s, pat, j)
  {
    IndexFrom(s, pat, 0)
  }

  /** `s.replace(pat, rep)` with a string pattern: only the first
      occurrence is replaced. */
  function ReplaceFirst(s: string, pat: string, rep: string): (r: string)
    ensures IndexOf(s, pat).None? ==> r == s
    ensures IndexOf(s, pat).Some? ==>
      var i := IndexOf(s, pat).value;
      && |r| == |s| - |pat| + |rep|
      && r[..i] == s[..i] && r[i..i + |rep|] == rep
      && r[..i] + pat + r[i + |rep|..] == s
  {
    match IndexOf(s, pat)
    case None => s
    case Some(i) => s[..i] + rep + s[i + |pat|..]
  }

  /** When `pat` does not occur before the `pat` that follows `p`, it is
      that occurrence which is replaced. */
  lemma ReplaceFirstSplit(p: string, pat: string, q: string, rep: string)
    requires forall j: nat :: j < |p| ==> !OccursAt(p + pat + q, pat, j)
    ensures ReplaceFirst(p + pat + q, pat, rep) == p + rep + q
  {
    var s := p + pat + q;
    assert s[|p|..|p| + |pat|] == pat;
    assert OccursAt(s, pat, |p|);
    assert IndexOf(s, pat) == Some(|p|);
    assert s[..|p|] == p && s[|p| + |pat|..] == q;
  }

  /** The token read from a present header: the header itself when it holds
      no `Bearer `, and otherwise seven characters shorter. */
  function StripBearer(header: string): (r: string)
    ensures r == header <==> forall j: nat :: !OccursAt(header, BearerPrefix, j)
    ensures r != header ==> |r| == |header| - |BearerPrefix|
  {
    ReplaceFirst(header, BearerPrefix, "")
  }

  /** The first `Bearer ` is removed wherever it stands. */
  lemma StripBearerFirst(p: string, q: string)
    requires forall j: nat :: j < |p| ==> !OccursAt(p + BearerPrefix + q, BearerPrefix, j)
    ensures StripBearer(p + BearerPrefix + q) == p + q
  {
    ReplaceFirstSplit(p, BearerPrefix, q, "");
    assert p + "" + q == p + q;
  }

  /** A header that starts with the prefix yields the rest of it. */
  lemma StripBearerPrefix(rest: string)
    ensures StripBearer(BearerPrefix + rest) == rest
  {
    var h := BearerPrefix + rest;
    assert h[0..|BearerPrefix|] == BearerPrefix;
    assert OccursAt(h, BearerPrefix, 0);
  }

  /** A header without the prefix anywhere is the token itself. */
  lemma StripBearerAbsent(h: string)
    requires forall j: nat :: !OccursAt(h, BearerPrefix, j)
    ensures StripBearer(h) == h
  {
  }

  /** The prefix is removed where it first occurs, not only at the start. */
  lemma StripBearerInside()
    ensures StripBearer("Token Bearer abc") == "Token abc"
  {
    var h := "Token Bearer abc";
    assert h[6..13] == BearerPrefix;
    assert OccursAt(h, BearerPrefix, 6);
    forall j: nat | j < 6 ensures !OccursAt(h, BearerPrefix, j) {
      assert h[j..j + 7][0] == h[j];
      assert h[j] in {'T', 'o', 'k', 'e', 'n', ' '} by {
        if j == 0 {} else if j == 1 {} else if j == 2 {} else if j == 3 {} else if j == 4 {} else {}
      }
    }
    assert IndexOf(h, BearerPrefix) == Some(6);
    assert h[..6] + "" + h[13..] == "Token abc";
  }

  /** A token is empty exactly when the header is empty or is the bare
      prefix. */
  lemma StripBearerEmpty(h: string)
    ensures StripBearer(h) == "" <==> h == "" || h == BearerPrefix
  {
    if h == BearerPrefix {
      StripBearerPrefix("");
      assert BearerPrefix + "" == h;
    }
    match IndexOf(h, BearerPrefix)
    case None =>
    case Some(i) =>
      var t := h[..i] + "" + h[i + |BearerPrefix|..];
      if t == "" {
        assert |t| == i + (|h| - i - |BearerPrefix|);
        assert h == h[0..|BearerPrefix|];
      }
  }

  /** What the middleware does with a request: answer it, or pass it on
      with `req.user` set to the lookup result (which may be null). */
  datatype AuthOutcome = Halt(response: Response) | Next(user: Option<Principal>)

  /** The token the middleware reads: `header?.replace('Bearer ', '')`. */
  function Token(header: Option<string>): (r: Option<string>)
    ensures r.None? <==> header.None?
    ensures !Truthy(r) <==> header.None? || header.value == "" || header.value == BearerPrefix
  {
    if header.Some? then StripBearerEmpty(header.value); Some(StripBearer(header.value)) else None
  }

  function Auth(header: Option<string>, verify: string -> Option<UserId>, users: map<UserId, User>)
    : (r: AuthOutcome)
    ensures r == Halt(Response(401, MessageJson("Unauthorized")))
            <==> header.None? || header.value == "" || header.value == "Bearer "
    ensures r == Halt(Response(500, MessageJson("Unauthorized")))
            <==> Truthy(Token(header)) && verify(Token(header).value).None?
    ensures r.Next? <==> Truthy(Token(header)) && verify(Token(header).value).Some?
    ensures r.Next? ==> r.user == FindById(users, verify(Token(header).value).value)
  {
    var token := Token(header);
    if !Truthy(token) then
      Halt(Response(401, MessageJson(UnauthorizedMessage)))
    else
      match verify(token.value)
      case None => Halt(Response(500, MessageJson(UnauthorizedMessage)))
      case Some(id) => Next(FindById(users, id))
  }
}

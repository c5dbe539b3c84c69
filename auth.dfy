/**
 * The token gate every cart and order handler applies first:
 * `request.headers.get("Authorization")?.replace("Bearer ", "")` followed by
 * `if (!token) return 401`. Only the presence of a token is checked; nothing
 * binds it to a user.
 */
module Auth {
  import opened Wrappers
  import Js

  const Bearer: string := "Bearer "

  /** `pat` occurs in `s` starting at position `i`. */
  predicate OccursAt(s: string, pat: string, i: int) {
    0 <= i && i + |pat| <= |s| && s[i..i + |pat|] == pat
  }

  lemma ShiftOccurrences(s: string, pat: string)
    requires s != []
    ensures forall j :: 1 <= j ==> (OccursAt(s, pat, j) <==> OccursAt(s[1..], pat, j - 1))
  {
    forall j | 1 <= j
      ensures OccursAt(s, pat, j) <==> OccursAt(s[1..], pat, j - 1)
    {
      if j + |pat| <= |s| {
        forall m | j <= m < j + |pat|
          ensures s[m] == s[1..][m - 1]
        {
        }
        assert s[j..j + |pat|] == s[1..][j - 1..j - 1 + |pat|];
      }
    }
  }

  /** `s.indexOf(pat)`: the first position at which `pat` occurs, if it occurs at all. */
  function IndexOf(s: string, pat: string): (r: Option<nat>)
    ensures r.Some? ==> OccursAt(s, pat, r.value)
    ensures r.Some? ==> forall j :: 0 <= j < r.value ==> !OccursAt(s, pat, j)
    ensures r.None? ==> forall j :: 0 <= j ==> !OccursAt(s, pat, j)
    decreases |s|
  {
    if |s| < |pat| then None
    else if s[..|pat|] == pat then Some(0)
    else
      ShiftOccurrences(s, pat);
      match IndexOf(s[1..], pat)
      case None => None
      case Some(i) => Some(i + 1)
  }

  /**
   * `s.replace(pat, "")` with a string pattern: the first occurrence of `pat`,
   * wherever it is, is removed, and only that one.
   */
  function RemoveFirst(s: string, pat: string): (r: string)
    ensures (forall j :: 0 <= j ==> !OccursAt(s, pat, j)) ==> r == s
    ensures (exists j :: OccursAt(s, pat, j)) ==> |r| == |s| - |pat|
    ensures forall i :: OccursAt(s, pat, i) && (forall j :: 0 <= j < i ==> !OccursAt(s, pat, j)) ==>
              r == s[..i] + s[i + |pat|..]
  {
    match IndexOf(s, pat)
    case None => s
    case Some(i) => s[..i] + s[i + |pat|..]
  }

  /** `header?.replace("Bearer ", "")`: undefined when the header is absent. */
  function Token(header: Option<string>): (token: Option<string>)
    ensures token.Some? <==> header.Some?
    ensures header.Some? && Bearer <= header.value ==> token.value == header.value[|Bearer|..]
    ensures header.Some? && (forall j :: 0 <= j ==> !OccursAt(header.value, Bearer, j)) ==> token == header
  {
    match header
    case None => None
    case Some(h) => Some(RemoveFirst(h, Bearer))
  }

  /** The gate passes when the extracted token is truthy. */
  predicate Authorized(header: Option<string>) {
    Js.IsPresentString(Token(header))
  }

  /**
   * The gate rejects exactly three headers: an absent one, an empty one and one
   * that is exactly "Bearer ". Any other header passes, whether or not it starts
   * with "Bearer ".
   */
  lemma {:induction false} AuthorizedIff(header: Option<string>)
    ensures Authorized(header) <==> header.Some? && header.value != "" && header.value != Bearer
  {
    if header.Some? {
      var h := header.value;
      match IndexOf(h, Bearer)
      case None =>
        assert !OccursAt(h, Bearer, 0);
      case Some(i) =>
        if |h| == |Bearer| {
          assert i == 0;
          assert h == h[0..|Bearer|];
        }
    }
  }

  /** The header a client builds as `Bearer ${token}` yields that token back. */
  lemma BearerToken(token: string)
    ensures Token(Some(Bearer + token)) == Some(token)
    ensures Authorized(Some(Bearer + token)) <==> token != ""
  {
    var h := Bearer + token;
    assert h[..|Bearer|] == Bearer;
    assert IndexOf(h, Bearer) == Some(0);
    assert h[..0] + h[|Bearer|..] == token;
  }
}

/** API-key authentication of the HTTP API: the Authorization header must
    carry a bearer token (section 2.1 of RFC 6750), with the scheme name
    compared without regard to case, and the token must be a configured
    key. With no keys configured every request is let through. */
module ApiAuth {
  import opened Wrappers
  import opened Strs

  /** The length of the word that starts `s`: up to the first white
      space. */
  function WordLength(s: string): (n: nat)
    ensures n <= |s|
    ensures forall k :: 0 <= k < n ==> !IsSpace(s[k])
    ensures n < |s| ==> IsSpace(s[n])
  {
    if s == [] || IsSpace(s[0]) then 0 else 1 + WordLength(s[1..])
  }

  /** A non-empty run of characters without white space. */
  predicate IsWord(w: string) {
    w != [] && forall k :: 0 <= k < |w| ==> !IsSpace(w[k])
  }

  /** Python's `s.split()`: the maximal runs of non-space characters. */
  function Words(s: string): (r: seq<string>)
    ensures forall k :: 0 <= k < |r| ==> IsWord(r[k])
    decreases |s|
  {
    if s == [] then []
    else if IsSpace(s[0]) then Words(s[1..])
    else
      var n := WordLength(s);
      [s[..n]] + Words(s[n..])
  }

  /** Words separated by white space are found again. */
  lemma {:induction false} WordsOfSpaced(w: string, gap: string, rest: string)
    requires IsWord(w) && gap != [] && forall k :: 0 <= k < |gap| ==> IsSpace(gap[k])
    ensures Words(w + gap + rest) == [w] + Words(rest)
  {
    var s := w + gap + rest;
    assert WordLength(s) == |w| by {
      WordLengthOfWord(w, gap + rest);
      assert s == w + (gap + rest);
    }
    assert s[..|w|] == w;
    assert s[|w|..] == gap + rest;
    LeadingSpaceSkipped(gap, rest);
  }

  lemma {:induction false} WordLengthOfWord(w: string, rest: string)
    requires IsWord(w) && rest != [] && IsSpace(rest[0])
    ensures WordLength(w + rest) == |w|
    decreases |w|
  {
    if |w| > 1 {
      assert (w + rest)[1..] == w[1..] + rest;
      WordLengthOfWord(w[1..], rest);
    } else {
      assert (w + rest)[1..] == rest;
    }
  }

  lemma {:induction false} LeadingSpaceSkipped(gap: string, rest: string)
    requires forall k :: 0 <= k < |gap| ==> IsSpace(gap[k])
    ensures Words(gap + rest) == Words(rest)
    decreases |gap|
  {
    if gap != [] {
      assert (gap + rest)[1..] == gap[1..] + rest;
      LeadingSpaceSkipped(gap[1..], rest);
    } else {
      assert gap + rest == rest;
    }
  }

  /** A single word splits into itself. */
  lemma WordsOfWord(w: string)
    requires IsWord(w)
    ensures Words(w) == [w]
  {
    assert WordLength(w) == |w|;
    assert w[..|w|] == w;
    assert w[|w|..] == [];
    assert Words(w) == [w[..|w|]] + Words(w[|w|..]);
  }

  const MissingHeader := "Missing Authorization header"
  const BadFormat := "Invalid Authorization header format. Use 'Bearer <api_key>'"
  const UnknownKey := "Invalid API key"

  /** `get_api_key`: `validKeys` are the configured keys; the failure text
      is the AuthenticationError's message. */
  function GetApiKey(authorization: Option<string>, validKeys: seq<string>): (r: Result<string>)
    ensures validKeys == [] ==> r == Success("dev-key")
    ensures validKeys != [] && (authorization.None? || authorization.value == "") ==> r == Failure(MissingHeader)
    ensures r.Success? && validKeys != [] ==> r.value in validKeys
    ensures validKeys != [] && authorization.Some? && authorization.value != "" ==>
      var parts := Words(authorization.value);
      && (|parts| != 2 || Lower(parts[0]) != "bearer" <==> r == Failure(BadFormat))
      && (|parts| == 2 && Lower(parts[0]) == "bearer" ==>
            if parts[1] in validKeys then r == Success(parts[1]) else r == Failure(UnknownKey))
  {
    if validKeys == [] then Success("dev-key")
    else if authorization.None? || authorization.value == "" then Failure(MissingHeader)
    else
      var parts := Words(authorization.value);
      if |parts| != 2 || Lower(parts[0]) != "bearer" then Failure(BadFormat)
      else if parts[1] !in validKeys then Failure(UnknownKey)
      else Success(parts[1])
  }

  /** The scheme is compared without regard to case. */
  lemma LowerBearer(scheme: string)
    requires |scheme| == 6
    requires forall k :: 0 <= k < 6 ==> scheme[k] == "bearer"[k] || scheme[k] == "BEARER"[k]
    ensures Lower(scheme) == "bearer"
  {
  }

  /** A well-formed bearer header with a configured key yields that key,
      whatever the case of the scheme and however much white space
      surrounds the parts; with an unknown key it is refused. */
  lemma BearerHeaderAccepted(scheme: string, lead: string, gap: string, token: string, trail: string, validKeys: seq<string>)
    requires validKeys != []
    requires IsWord(scheme) && Lower(scheme) == "bearer" && IsWord(token)
    requires gap != [] && forall k :: 0 <= k < |gap| ==> IsSpace(gap[k])
    requires forall k :: 0 <= k < |lead| ==> IsSpace(lead[k])
    requires forall k :: 0 <= k < |trail| ==> IsSpace(trail[k])
    ensures GetApiKey(Some(lead + scheme + gap + token + trail), validKeys)
      == if token in validKeys then Success(token) else Failure(UnknownKey)
  {
    var header := lead + scheme + gap + token + trail;
    assert header == lead + (scheme + gap + (token + trail));
    LeadingSpaceSkipped(lead, scheme + gap + (token + trail));
    WordsOfSpaced(scheme, gap, token + trail);
    if trail == [] {
      assert token + trail == token;
      WordsOfWord(token);
    } else {
      assert token + trail == token + trail + [];
      WordsOfSpaced(token, trail, []);
    }
    assert Words(header) == [scheme, token];
  }

  /** A header that is only a token, without a scheme, is refused as
      malformed. */
  lemma BareTokenRefused(token: string, validKeys: seq<string>)
    requires validKeys != [] && IsWord(token)
    ensures GetApiKey(Some(token), validKeys) == Failure(BadFormat)
  {
    WordsOfWord(token);
  }
}

/**
 * The session marker scan of lib/proxy.js: the first match of the pattern
 * "sid":"([\w-]+)" in a response body, and its captured token. \w is the
 * ASCII word class [A-Za-z0-9_].
 *
 * At a fixed start, the token class does not contain '"', so the greedy run
 * followed by '"' can only match the whole run: backtracking never yields a
 * shorter token. The scan below takes that maximal run; PatternIsUnique shows
 * that it is the only way the pattern matches there.
 */
module SidMarker {
  import opened Wrappers

  /** The literal text that opens the marker: "sid":" */
  const Opening: string := "\"sid\":\""

  /** A character of [\w-]. */
  predicate IsTokenChar(c: char) {
    || 'a' <= c <= 'z'
    || 'A' <= c <= 'Z'
    || '0' <= c <= '9'
    || c == '_'
    || c == '-'
  }

  /** A non-empty run of [\w-]. */
  predicate IsToken(t: string) {
    |t| > 0 && forall k :: 0 <= k < |t| ==> IsTokenChar(t[k])
  }

  /**
   * The pattern matches the body at position i with a token of n characters,
   * stated as the regular expression says it: the opening text, n token
   * characters, n > 0, then a double quote.
   */
  ghost predicate PatternAt(s: string, i: nat, n: nat) {
    var j := i + |Opening|;
    && j + n < |s|
    && s[i..j] == Opening
    && IsToken(s[j..j + n])
    && s[j + n] == '"'
  }

  /** The length of the run of token characters starting at i. */
  function RunLength(s: string, i: nat): (n: nat)
    requires i <= |s|
    ensures i + n <= |s|
    ensures forall k :: i <= k < i + n ==> IsTokenChar(s[k])
    ensures i + n < |s| ==> !IsTokenChar(s[i + n])
    decreases |s| - i
  {
    if i < |s| && IsTokenChar(s[i]) then 1 + RunLength(s, i + 1) else 0
  }

  /** The token the pattern captures when matched at position i, if it matches there. */
  function MatchAt(s: string, i: nat): Option<string>
    requires i <= |s|
  {
    var j := i + |Opening|;
    if j <= |s| && s[i..j] == Opening then
      var n := RunLength(s, j);
      if n > 0 && j + n < |s| && s[j + n] == '"' then Some(s[j..j + n]) else None
    else
      None
  }

  /**
   * At a given position, the pattern matches with exactly one token length,
   * and the scan captures exactly that token.
   */
  lemma PatternIsUnique(s: string, i: nat, n: nat)
    requires i <= |s|
    ensures PatternAt(s, i, n) <==> MatchAt(s, i).Some? && |MatchAt(s, i).value| == n
    ensures PatternAt(s, i, n) ==> MatchAt(s, i) == Some(s[i + |Opening|..i + |Opening| + n])
  {
    var j := i + |Opening|;
    if PatternAt(s, i, n) {
      var m := RunLength(s, j);
      var tok := s[j..j + n];
      assert forall k :: j <= k < j + n ==> IsTokenChar(s[k]) by {
        forall k | j <= k < j + n ensures IsTokenChar(s[k]) {
          assert tok[k - j] == s[k];
        }
      }
    }
    if MatchAt(s, i).Some? && |MatchAt(s, i).value| == n {
      CaptureIsToken(s, i);
    }
  }

  /** A captured token is always a non-empty run of [\w-]. */
  lemma CaptureIsToken(s: string, i: nat)
    requires i <= |s| && MatchAt(s, i).Some?
    ensures IsToken(MatchAt(s, i).value)
  {
    var j := i + |Opening|;
    var n := RunLength(s, j);
    var tok := s[j..j + n];
    forall k | 0 <= k < n ensures IsTokenChar(tok[k]) {
      assert tok[k] == s[j + k];
    }
  }

  /** The leftmost position at or after i where the pattern matches, if any. */
  function FirstMatch(s: string, i: nat): (r: Option<nat>)
    requires i <= |s|
    ensures r.None? <==> forall p :: i <= p <= |s| ==> MatchAt(s, p).None?
    ensures r.Some? ==> i <= r.value <= |s| && MatchAt(s, r.value).Some?
    ensures r.Some? ==> forall p :: i <= p < r.value ==> MatchAt(s, p).None?
    decreases |s| - i
  {
    if MatchAt(s, i).Some? then Some(i)
    else if i == |s| then None
    else FirstMatch(s, i + 1)
  }

  /** SID_REGEX.exec(body)[1]: the token of the leftmost match, or None when the body holds none. */
  function ExtractSid(body: string): (r: Option<string>)
    ensures r.None? <==> forall p :: 0 <= p <= |body| ==> MatchAt(body, p).None?
    ensures r.Some? ==> IsToken(r.value)
  {
    match FirstMatch(body, 0)
    case None => None
    case Some(p) =>
      CaptureIsToken(body, p);
      MatchAt(body, p)
  }

  /** The body text a backend emits to announce session id t, between any text before and after. */
  function Embed(pre: string, t: string, post: string): string {
    pre + Opening + t + "\"" + post
  }

  /**
   * Round trip: a marker for a valid token t is read back as t, provided no
   * match starts earlier in the body.
   */
  lemma {:induction false} ExtractEmbedded(pre: string, t: string, post: string)
    requires IsToken(t)
    requires forall p :: 0 <= p < |pre| ==> MatchAt(Embed(pre, t, post), p).None?
    ensures ExtractSid(Embed(pre, t, post)) == Some(t)
  {
    var s := Embed(pre, t, post);
    var i := |pre|;
    var j := i + |Opening|;
    assert s[i..j] == Opening;
    assert s[j..j + |t|] == t;
    assert s[j + |t|] == '"';
    PatternIsUnique(s, i, |t|);
    assert MatchAt(s, i) == Some(t);
  }

  /** A body that opens with the marker yields its token. */
  lemma MarkerAtStart(t: string, post: string)
    requires IsToken(t)
    ensures ExtractSid(Opening + t + "\"" + post) == Some(t)
  {
    var s := Opening + t + "\"" + post;
    assert Embed("", t, post) == s by {
      assert "" + Opening == Opening;
    }
    ExtractEmbedded("", t, post);
  }

  /** A body without the opening text yields no token. */
  lemma NoOpeningNoToken(body: string)
    requires forall p :: 0 <= p <= |body| ==> !(Opening <= body[p..])
    ensures ExtractSid(body) == None
  {
    forall p | 0 <= p <= |body| ensures MatchAt(body, p).None? {
      if p + |Opening| <= |body| {
        assert body[p..][..|Opening|] == body[p..p + |Opening|];
      }
    }
  }
}

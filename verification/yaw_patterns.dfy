/**
 The four gimbal-yaw regular expressions of `extract_img_direction`. Each has
 the shape `OPEN([^S]+)CLOSE`, where OPEN and CLOSE are literals and CLOSE
 begins with the excluded character S. For that shape `re.search` needs no
 regex engine: a match at position p is OPEN at p, then the maximal run of
 non-S characters, which must be non-empty and followed by CLOSE; the group is
 that run, and the search reports the leftmost position that matches.
 */
module YawPatterns {
  import opened Options
  import opened ByteScan

  datatype Pattern = Pattern(open: string, stop: char, close: string)

  /** The closing literal begins with the excluded character, so a greedy run
      can only end where the closing literal may start. */
  predicate WellFormed(pat: Pattern)
  {
    |pat.close| > 0 && pat.close[0] == pat.stop
  }

  /** `drone-dji:GimbalYawDegree="([^"]+)"` */
  const DjiAttribute := Pattern("drone-dji:GimbalYawDegree=\"", '"', "\"")
  /** `GimbalYawDegree="([^"]+)"` */
  const PlainAttribute := Pattern("GimbalYawDegree=\"", '"', "\"")
  /** `<drone-dji:GimbalYawDegree>([^<]+)</drone-dji:GimbalYawDegree>` */
  const DjiElement := Pattern("<drone-dji:GimbalYawDegree>", '<', "</drone-dji:GimbalYawDegree>")
  /** `<GimbalYawDegree>([^<]+)</GimbalYawDegree>` */
  const PlainElement := Pattern("<GimbalYawDegree>", '<', "</GimbalYawDegree>")

  /** The patterns in the order the source tries them. */
  const GimbalYawPatterns := [DjiAttribute, PlainAttribute, DjiElement, PlainElement]

  /** All four patterns have the shape the regex reading needs, so
      `MatchAtIff` applies to each of them. */
  lemma PatternsWellFormed()
    ensures forall k :: 0 <= k < |GimbalYawPatterns| ==> WellFormed(GimbalYawPatterns[k])
  {
  }

  /** The end of the maximal run of characters other than `stop` starting at `q`. */
  function RunEnd(s: string, q: nat, stop: char): (j: nat)
    requires q <= |s|
    decreases |s| - q
    ensures q <= j <= |s|
    ensures forall k :: q <= k < j ==> s[k] != stop
    ensures j < |s| ==> s[j] == stop
  {
    if q == |s| || s[q] == stop then q else RunEnd(s, q + 1, stop)
  }

  /** The group the pattern captures when it matches at position `p`, if it does. */
  function MatchAt(s: string, p: nat, pat: Pattern): (r: Option<string>)
    ensures r.Some? ==> |r.value| > 0
    ensures r.Some? ==> forall k :: 0 <= k < |r.value| ==> r.value[k] != pat.stop
    ensures r.Some? ==> OccursAt(s, pat.open + r.value + pat.close, p)
  {
    if !OccursAt(s, pat.open, p) then None
    else
      var q := p + |pat.open|;
      var j := RunEnd(s, q, pat.stop);
      if q < j && OccursAt(s, pat.close, j) then Some(s[q..j]) else None
  }

  /** The regex reading of a match, in both directions: the pattern matches at
      `p` with group `g` exactly when the text at `p` spells OPEN, then a
      non-empty `g` free of the excluded character, then CLOSE. */
  lemma MatchAtIff(s: string, p: nat, pat: Pattern, g: string)
    requires WellFormed(pat)
    ensures MatchAt(s, p, pat) == Some(g) <==>
      && |g| > 0
      && (forall k :: 0 <= k < |g| ==> g[k] != pat.stop)
      && OccursAt(s, pat.open + g + pat.close, p)
  {
    if |g| > 0 && (forall k :: 0 <= k < |g| ==> g[k] != pat.stop) && OccursAt(s, pat.open + g + pat.close, p) {
      var q := p + |pat.open|;
      var e := q + |g|;
      OccursAtConcat(s, pat.open + g, pat.close, p);
      OccursAtConcat(s, pat.open, g, p);
      assert s[e] == pat.stop by {
        assert s[e] == s[e..e + |pat.close|][0];
      }
      forall k | q <= k < e
        ensures s[k] != pat.stop
      {
        assert s[k] == s[q..e][k - q];
      }
      RunEndAt(s, q, e, pat.stop);
    }
  }

  /** A concatenation occurs at `p` exactly when its two parts occur back to back. */
  lemma OccursAtConcat<T>(s: seq<T>, a: seq<T>, b: seq<T>, p: nat)
    ensures OccursAt(s, a + b, p) <==> OccursAt(s, a, p) && OccursAt(s, b, p + |a|)
  {
    if OccursAt(s, a + b, p) {
      assert s[p..p + |a|] == s[p..p + |a + b|][..|a|];
      assert s[p + |a|..p + |a| + |b|] == s[p..p + |a + b|][|a|..];
    }
    if OccursAt(s, a, p) && OccursAt(s, b, p + |a|) {
      assert s[p..p + |a + b|] == s[p..p + |a|] + s[p + |a|..p + |a| + |b|];
    }
  }

  /** A run free of `stop` and ended by `stop` is where `RunEnd` stops. */
  lemma RunEndAt(s: string, q: nat, e: nat, stop: char)
    requires q <= e < |s|
    requires forall k :: q <= k < e ==> s[k] != stop
    requires s[e] == stop
    ensures RunEnd(s, q, stop) == e
  {
  }

  datatype Hit = Hit(pos: nat, group: string)

  function SearchFrom(s: string, pat: Pattern, from: nat): (r: Option<Hit>)
    decreases |s| + 1 - from
    ensures r.Some? ==> from <= r.value.pos && MatchAt(s, r.value.pos, pat) == Some(r.value.group)
    ensures forall p: nat :: from <= p && (r.None? || p < r.value.pos) ==> MatchAt(s, p, pat).None?
  {
    if from > |s| then None
    else
      match MatchAt(s, from, pat)
      case Some(g) => Some(Hit(from, g))
      case None => SearchFrom(s, pat, from + 1)
  }

  /** `re.search(pattern, s)`: the leftmost position at which the pattern
      matches, with its group. */
  function Search(s: string, pat: Pattern): (r: Option<Hit>)
    ensures r.Some? ==> MatchAt(s, r.value.pos, pat) == Some(r.value.group)
    ensures forall p: nat :: (r.None? || p < r.value.pos) ==> MatchAt(s, p, pat).None?
  {
    SearchFrom(s, pat, 0)
  }

  datatype PatternHit = PatternHit(index: nat, group: string)

  function FirstHitFrom(s: string, pats: seq<Pattern>, k: nat): (r: Option<PatternHit>)
    decreases |pats| - k
    ensures r.Some? ==> k <= r.value.index < |pats|
    ensures r.Some? ==> Search(s, pats[r.value.index]).Some?
    ensures r.Some? ==> Search(s, pats[r.value.index]).value.group == r.value.group
    ensures forall j :: k <= j < |pats| && (r.None? || j < r.value.index) ==> Search(s, pats[j]).None?
  {
    if k >= |pats| then None
    else
      match Search(s, pats[k])
      case Some(hit) => Some(PatternHit(k, hit.group))
      case None => FirstHitFrom(s, pats, k + 1)
  }

  /** The `for pattern in patterns` loop: the first pattern, in list order,
      that matches anywhere, with the group of its leftmost match. */
  function FirstHit(s: string, pats: seq<Pattern>): (r: Option<PatternHit>)
    ensures r.Some? ==> r.value.index < |pats|
    ensures r.Some? ==> Search(s, pats[r.value.index]).Some?
    ensures r.Some? ==> Search(s, pats[r.value.index]).value.group == r.value.group
    ensures forall j :: 0 <= j < |pats| && (r.None? || j < r.value.index) ==> Search(s, pats[j]).None?
  {
    FirstHitFrom(s, pats, 0)
  }

  /** Every match of the prefixed attribute spelling is also a match of the
      bare attribute spelling ten characters later, with the same group; so
      the first pattern only decides the outcome when both spellings occur. */
  lemma DjiAttributeImpliesPlainAttribute(s: string, p: nat)
    requires MatchAt(s, p, DjiAttribute).Some?
    ensures MatchAt(s, p + 10, PlainAttribute) == MatchAt(s, p, DjiAttribute)
  {
  }

  /** No pattern matches a text shorter than 19 characters, the shortest match
      being `GimbalYawDegree="x"`. */
  lemma ShortTextHasNoYaw(s: string)
    requires |s| < 19
    ensures FirstHit(s, GimbalYawPatterns).None?
  {
  }
}

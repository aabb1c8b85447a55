/**
 * The string operations the services rely on (Python's `str.strip`, `lower`,
 * `upper`, `split`, `join`, `replace`, `in`, `str(int)`, `int(str)` and the
 * `:,` format spec), over ASCII, and the half-to-even rounding of `round` and
 * `:.0f`. Characters outside ASCII are never treated as whitespace, digits or
 * letters.
 */
module Strings {
  import opened Wrappers

  // ---------------------------------------------------------------- whitespace

  /** The ASCII characters Python's `str.isspace` accepts: space, \t \n \v \f \r, and \x1c-\x1f. */
  predicate IsSpace(c: char) {
    c == ' ' || (9 <= c as int <= 13) || (28 <= c as int <= 31)
  }

  predicate NoSpace(s: string) {
    forall k | 0 <= k < |s| :: !IsSpace(s[k])
  }

  predicate AllSpace(s: string) {
    forall k | 0 <= k < |s| :: IsSpace(s[k])
  }

  /** Number of leading whitespace characters. */
  function LeadingSpaces(s: string): (n: nat)
    ensures n <= |s|
    ensures AllSpace(s[..n])
    ensures n < |s| ==> !IsSpace(s[n])
  {
    if s == [] || !IsSpace(s[0]) then 0
    else
      var n := 1 + LeadingSpaces(s[1..]);
      assert s[..n] == [s[0]] + s[1..][..n - 1];
      n
  }

  /** Length of `s` once trailing whitespace is removed. */
  function TrailingEnd(s: string): (j: nat)
    ensures j <= |s|
    ensures AllSpace(s[j..])
    ensures j > 0 ==> !IsSpace(s[j - 1])
  {
    if s == [] || !IsSpace(s[|s| - 1]) then |s|
    else
      var j := TrailingEnd(s[..|s| - 1]);
      assert s[j..] == s[..|s| - 1][j..] + [s[|s| - 1]];
      j
  }

  /** Python `s.strip()` on ASCII whitespace. */
  function Strip(s: string): (r: string)
    ensures |r| <= |s|
    ensures r == [] || (!IsSpace(r[0]) && !IsSpace(r[|r| - 1]))
  {
    var i := LeadingSpaces(s);
    var t := s[i..];
    t[..TrailingEnd(t)]
  }

  /** Only blank text strips to the empty string. */
  lemma StripEmpty(s: string)
    ensures Strip(s) == [] <==> AllSpace(s)
  {
    var i := LeadingSpaces(s);
    assert i == |s| ==> s[..i] == s;
  }

  /** Stripping twice is stripping once. */
  lemma StripIdempotent(s: string)
    ensures Strip(Strip(s)) == Strip(s)
  {
    var t := Strip(s);
    assert LeadingSpaces(t) == 0;
    assert t[0..] == t;
    assert TrailingEnd(t) == |t|;
  }

  /** A string with no surrounding whitespace is its own strip. */
  lemma StripOfTrimmed(s: string)
    requires s == [] || (!IsSpace(s[0]) && !IsSpace(s[|s| - 1]))
    ensures Strip(s) == s
  {
    assert LeadingSpaces(s) == 0;
    assert s[0..] == s;
  }

  /** Surrounding whitespace does not change the strip. */
  lemma StripPadded(s: string, pre: string, post: string)
    requires AllSpace(pre) && AllSpace(post)
    ensures Strip(pre + s + post) == Strip(s)
  {
    if LeadingSpaces(s) < |s| {
      StripPaddedText(s, pre, post);
    } else {
      StripPaddedBlank(s, pre, post);
    }
  }

  lemma StripPaddedText(s: string, pre: string, post: string)
    requires AllSpace(pre) && AllSpace(post) && LeadingSpaces(s) < |s|
    ensures Strip(pre + s + post) == Strip(s)
  {
    var n := LeadingSpaces(s);
    var u := pre + s + post;
    LeadingOfPadded(s, pre, post);
    assert LeadingSpaces(u) == |pre| + n;
    assert |pre| + n <= |u|;
    assert u[|pre| + n..] == s[n..] + post;
    StripAt(u, |pre| + n, s[n..] + post);
    StripAt(s, n, s[n..]);
    TrailingOfPadded(s[n..], post);
  }

  lemma StripAt(u: string, n: nat, t: string)
    requires LeadingSpaces(u) == n && n <= |u| && u[n..] == t
    ensures Strip(u) == t[..TrailingEnd(t)]
  {
  }

  lemma StripPaddedBlank(s: string, pre: string, post: string)
    requires AllSpace(pre) && AllSpace(post) && LeadingSpaces(s) == |s|
    ensures Strip(pre + s + post) == [] && Strip(s) == []
  {
    assert s[..|s|] == s;
    AllSpaceConcat(pre, s, post);
    StripEmpty(pre + s + post);
    StripEmpty(s);
  }

  lemma AllSpaceConcat(a: string, b: string, c: string)
    requires AllSpace(a) && AllSpace(b) && AllSpace(c)
    ensures AllSpace(a + b + c)
  {
  }

  lemma LeadingOfPadded(s: string, pre: string, post: string)
    requires AllSpace(pre) && LeadingSpaces(s) < |s|
    ensures LeadingSpaces(pre + s + post) == |pre| + LeadingSpaces(s)
    ensures (pre + s + post)[|pre| + LeadingSpaces(s)..] == s[LeadingSpaces(s)..] + post
  {
    Assoc(pre, s, post);
    LeadingSpacesOfPrefix(pre, s + post);
    LeadingSpacesOfSuffixed(s, post);
    DropConcat(pre, s, post, LeadingSpaces(s));
  }

  lemma Assoc(a: string, b: string, c: string)
    ensures a + b + c == a + (b + c)
  {
  }

  lemma DropConcat(pre: string, s: string, post: string, n: nat)
    requires n <= |s|
    ensures (pre + s + post)[|pre| + n..] == s[n..] + post
  {
  }

  lemma {:induction false} LeadingSpacesOfPrefix(pre: string, x: string)
    requires AllSpace(pre)
    ensures LeadingSpaces(pre + x) == |pre| + LeadingSpaces(x)
    decreases |pre|
  {
    if pre == [] {
      assert pre + x == x;
    } else {
      var u := pre + x;
      assert u[0] == pre[0];
      assert u[1..] == pre[1..] + x;
      LeadingSpacesOfPrefix(pre[1..], x);
    }
  }

  lemma {:induction false} LeadingSpacesOfSuffixed(s: string, post: string)
    requires LeadingSpaces(s) < |s|
    ensures LeadingSpaces(s + post) == LeadingSpaces(s)
    decreases |s|
  {
    var u := s + post;
    assert u[0] == s[0];
    if IsSpace(s[0]) {
      assert u[1..] == s[1..] + post;
      LeadingSpacesOfSuffixed(s[1..], post);
    }
  }

  lemma {:induction false} AllSpaceLeading(s: string)
    requires AllSpace(s)
    ensures LeadingSpaces(s) == |s|
    decreases |s|
  {
    if s != [] {
      AllSpaceLeading(s[1..]);
    }
  }

  lemma {:induction false} TrailingOfPadded(t: string, post: string)
    requires AllSpace(post)
    requires t == [] || !IsSpace(t[0])
    ensures (t + post)[..TrailingEnd(t + post)] == t[..TrailingEnd(t)]
    decreases |post|
  {
    if post == [] {
      assert t + post == t;
    } else {
      var u := t + post;
      assert IsSpace(u[|u| - 1]);
      assert u[..|u| - 1] == t + post[..|post| - 1];
      TrailingOfPadded(t, post[..|post| - 1]);
    }
  }

  // ---------------------------------------------------------------- case

  function LowerChar(c: char): char {
    if 'A' <= c <= 'Z' then (c as int + 32) as char else c
  }

  function UpperChar(c: char): char {
    if 'a' <= c <= 'z' then (c as int - 32) as char else c
  }

  /** Python `s.lower()` on ASCII letters. */
  function Lower(s: string): (r: string)
    ensures |r| == |s|
    ensures forall k | 0 <= k < |s| :: r[k] == LowerChar(s[k])
  {
    seq(|s|, k requires 0 <= k < |s| => LowerChar(s[k]))
  }

  /** Python `s.upper()` on ASCII letters. */
  function Upper(s: string): (r: string)
    ensures |r| == |s|
    ensures forall k | 0 <= k < |s| :: r[k] == UpperChar(s[k])
  {
    seq(|s|, k requires 0 <= k < |s| => UpperChar(s[k]))
  }

  predicate NoLowerLetter(s: string) {
    forall k | 0 <= k < |s| :: !('a' <= s[k] <= 'z')
  }

  lemma LowerIdempotent(s: string)
    ensures Lower(Lower(s)) == Lower(s)
  {
  }

  /** Lower-casing stripped text leaves nothing to strip. */
  lemma StripLowerStripped(s: string)
    ensures Strip(Lower(Strip(s))) == Lower(Strip(s))
  {
    var t := Lower(Strip(s));
    StripOfTrimmed(t);
  }

  /** Two strings that agree on where their whitespace is. */
  predicate SameSpaces(a: string, b: string) {
    |a| == |b| && forall k | 0 <= k < |a| :: IsSpace(a[k]) == IsSpace(b[k])
  }

  lemma {:induction false} SameSpacesBounds(a: string, b: string)
    requires SameSpaces(a, b)
    ensures LeadingSpaces(a) == LeadingSpaces(b)
    ensures TrailingEnd(a) == TrailingEnd(b)
    decreases |a|
  {
    if a != [] {
      assert SameSpaces(a[1..], b[1..]);
      assert SameSpaces(a[..|a| - 1], b[..|b| - 1]);
      SameSpacesBounds(a[1..], b[1..]);
      SameSpacesBounds(a[..|a| - 1], b[..|b| - 1]);
    }
  }

  /** Strings equal up to ASCII case strip to strings equal up to case. */
  lemma CaseInsensitiveStrip(a: string, b: string)
    requires Lower(a) == Lower(b)
    ensures Lower(Strip(a)) == Lower(Strip(b))
  {
    SameCaseSpaces(a, b);
    SameSpacesBounds(a, b);
    var i := LeadingSpaces(a);
    SameCaseDrop(a, b, i);
    SameCaseSpaces(a[i..], b[i..]);
    SameSpacesBounds(a[i..], b[i..]);
    SameCaseTake(a[i..], b[i..], TrailingEnd(a[i..]));
    StripAt(a, i, a[i..]);
    StripAt(b, i, b[i..]);
  }

  lemma SameCaseSpaces(a: string, b: string)
    requires Lower(a) == Lower(b)
    ensures SameSpaces(a, b)
  {
    forall k | 0 <= k < |a| ensures IsSpace(a[k]) == IsSpace(b[k]) {
      assert Lower(a)[k] == Lower(b)[k];
    }
  }

  lemma SameCaseDrop(a: string, b: string, i: nat)
    requires Lower(a) == Lower(b) && i <= |a|
    ensures Lower(a[i..]) == Lower(b[i..])
  {
    forall k | 0 <= k < |a| - i ensures Lower(a[i..])[k] == Lower(b[i..])[k] {
      assert Lower(a)[i + k] == Lower(b)[i + k];
    }
  }

  lemma SameCaseTake(a: string, b: string, n: nat)
    requires Lower(a) == Lower(b) && n <= |a|
    ensures Lower(a[..n]) == Lower(b[..n])
  {
    forall k | 0 <= k < n ensures Lower(a[..n])[k] == Lower(b[..n])[k] {
      assert Lower(a)[k] == Lower(b)[k];
    }
  }

  // ---------------------------------------------------------------- split / join

  /** Length of the run of non-whitespace characters at the start of `s`. */
  function WordLength(s: string): (n: nat)
    ensures n <= |s|
    ensures NoSpace(s[..n])
    ensures n < |s| ==> IsSpace(s[n])
  {
    if s == [] || IsSpace(s[0]) then 0
    else
      var n := 1 + WordLength(s[1..]);
      assert s[..n] == [s[0]] + s[1..][..n - 1];
      n
  }

  /** Python `s.split()` with no separator: the maximal runs of non-whitespace. */
  function Words(s: string): (ws: seq<string>)
    ensures forall k | 0 <= k < |ws| :: ws[k] != [] && NoSpace(ws[k])
    decreases |s|
  {
    var t := s[LeadingSpaces(s)..];
    if t == [] then []
    else
      var n := WordLength(t);
      [t[..n]] + Words(t[n..])
  }

  /** Python `sep.join(xs)`. */
  function Join(sep: string, xs: seq<string>): string {
    if xs == [] then ""
    else if |xs| == 1 then xs[0]
    else xs[0] + sep + Join(sep, xs[1..])
  }

  /** No whitespace at either end, and every whitespace character is a single space between two non-spaces. */
  predicate SingleSpaced(s: string) {
    && (s == [] || (!IsSpace(s[0]) && !IsSpace(s[|s| - 1])))
    && forall k | 0 <= k < |s| && IsSpace(s[k]) :: s[k] == ' ' && 0 < k < |s| - 1 && !IsSpace(s[k - 1]) && !IsSpace(s[k + 1])
  }

  /** Joining non-empty space-free words with one space gives a single-spaced string. */
  lemma {:induction false} JoinWordsSingleSpaced(ws: seq<string>)
    requires forall k | 0 <= k < |ws| :: ws[k] != [] && NoSpace(ws[k])
    ensures SingleSpaced(Join(" ", ws))
    ensures Join(" ", ws) == [] <==> ws == []
  {
    if |ws| > 1 {
      JoinWordsSingleSpaced(ws[1..]);
      var rest := Join(" ", ws[1..]);
      var r := ws[0] + " " + rest;
      assert r == Join(" ", ws);
      forall k | 0 <= k < |r| && IsSpace(r[k])
        ensures r[k] == ' ' && 0 < k < |r| - 1 && !IsSpace(r[k - 1]) && !IsSpace(r[k + 1])
      {
        if k > |ws[0]| {
          assert r[k] == rest[k - |ws[0]| - 1];
          if k - 1 > |ws[0]| {
            assert r[k - 1] == rest[k - 1 - |ws[0]| - 1];
          }
        }
      }
    }
  }

  /** Python `' '.join(s.split())`. */
  function CollapseSpaces(s: string): (r: string)
    ensures SingleSpaced(r)
    ensures r == [] <==> Words(s) == []
  {
    JoinWordsSingleSpaced(Words(s));
    Join(" ", Words(s))
  }

  // ---------------------------------------------------------------- substrings

  /** Python `s.endswith(suffix)`; `s.startswith(prefix)` is `prefix <= s`. */
  predicate EndsWith(s: string, suffix: string) {
    |suffix| <= |s| && s[|s| - |suffix|..] == suffix
  }

  /** Python `sub in s`. */
  predicate Contains(s: string, sub: string)
    decreases |s|
  {
    sub <= s || (s != [] && Contains(s[1..], sub))
  }

  /** `Contains` means `sub` occurs at some position. */
  lemma {:induction false} ContainsAt(s: string, sub: string, i: nat)
    requires i + |sub| <= |s| && s[i..i + |sub|] == sub
    ensures Contains(s, sub)
    decreases i
  {
    if i > 0 {
      assert s[1..][i - 1..i - 1 + |sub|] == sub;
      ContainsAt(s[1..], sub, i - 1);
    } else {
      assert s[..|sub|] == sub;
    }
  }

  /** The middle of a concatenation occurs in it. */
  lemma ContainsMiddle(a: string, b: string, c: string)
    ensures Contains(a + b + c, b)
  {
    var s := a + b + c;
    assert s[|a|..|a| + |b|] == b;
    ContainsAt(s, b, |a|);
  }

  /** An occurrence stays an occurrence when text is appended. */
  lemma {:induction false} ContainsExtend(s: string, t: string, sub: string)
    requires Contains(s, sub)
    ensures Contains(s + t, sub)
    decreases |s|
  {
    if !(sub <= s) {
      assert (s + t)[1..] == s[1..] + t;
      ContainsExtend(s[1..], t, sub);
    }
  }

  lemma {:induction false} ContainsChar(s: string, c: char)
    ensures Contains(s, [c]) <==> c in s
    decreases |s|
  {
    if s != [] {
      ContainsChar(s[1..], c);
      assert c in s <==> s[0] == c || c in s[1..];
    }
  }

  /** Python `s.replace(pat, rep)`: every non-overlapping occurrence of `pat`, scanning left to right. */
  function Replace(s: string, pat: string, rep: string): string
    decreases |s|
  {
    if pat == [] then
      (if s == [] then rep else rep + [s[0]] + Replace(s[1..], pat, rep))
    else if |s| < |pat| then s
    else if s[..|pat|] == pat then rep + Replace(s[|pat|..], pat, rep)
    else [s[0]] + Replace(s[1..], pat, rep)
  }

  /** Replacing with upper-case text never introduces a lower-case letter. */
  lemma {:induction false} ReplaceKeepsNoLower(s: string, pat: string, rep: string)
    requires NoLowerLetter(s) && NoLowerLetter(rep)
    ensures NoLowerLetter(Replace(s, pat, rep))
    decreases |s|
  {
    if pat == [] {
      if s != [] { ReplaceKeepsNoLower(s[1..], pat, rep); }
    } else if |s| >= |pat| {
      if s[..|pat|] == pat {
        ReplaceKeepsNoLower(s[|pat|..], pat, rep);
      } else {
        ReplaceKeepsNoLower(s[1..], pat, rep);
      }
    }
  }

  /** Text with no occurrence of `pat` is left alone. */
  lemma {:induction false} ReplaceAbsent(s: string, pat: string, rep: string)
    requires pat != [] && !Contains(s, pat)
    ensures Replace(s, pat, rep) == s
    decreases |s|
  {
    if |s| >= |pat| {
      ReplaceAbsent(s[1..], pat, rep);
    }
  }

  /** Every whitespace character is a plain space with no whitespace on either side. */
  predicate SpacesIsolated(s: string) {
    forall k | 0 <= k < |s| && IsSpace(s[k]) ::
      s[k] == ' ' && (0 < k ==> !IsSpace(s[k - 1])) && (k < |s| - 1 ==> !IsSpace(s[k + 1]))
  }

  /** A space followed by a non-empty word, such as " STREET". */
  predicate SpaceWord(p: string) {
    |p| >= 2 && p[0] == ' ' && NoSpace(p[1..])
  }

  lemma SpaceWordOf(w: string)
    requires w != [] && NoSpace(w)
    ensures SpaceWord(" " + w)
  {
    assert (" " + w)[1..] == w;
  }

  lemma NoLowerAfterSpace(w: string)
    requires NoLowerLetter(w)
    ensures NoLowerLetter(" " + w)
  {
    assert forall k | 1 <= k < |w| + 1 :: (" " + w)[k] == w[k - 1];
  }

  lemma IsolatedSuffix(s: string, i: nat)
    requires SpacesIsolated(s) && i <= |s|
    ensures SpacesIsolated(s[i..])
  {
    var t := s[i..];
    forall k | 0 <= k < |t| && IsSpace(t[k])
      ensures t[k] == ' ' && (0 < k ==> !IsSpace(t[k - 1])) && (k < |t| - 1 ==> !IsSpace(t[k + 1]))
    {
      assert t[k] == s[i + k];
      if 0 < k { assert t[k - 1] == s[i + k - 1]; }
      if k < |t| - 1 { assert t[k + 1] == s[i + k + 1]; }
    }
  }

  /** Two such strings may be concatenated unless the seam has whitespace on both sides. */
  lemma IsolatedConcat(a: string, b: string)
    requires SpacesIsolated(a) && SpacesIsolated(b)
    requires a != [] && b != [] ==> !(IsSpace(a[|a| - 1]) && IsSpace(b[0]))
    ensures SpacesIsolated(a + b)
  {
    var r := a + b;
    forall k | 0 <= k < |r| && IsSpace(r[k])
      ensures r[k] == ' ' && (0 < k ==> !IsSpace(r[k - 1])) && (k < |r| - 1 ==> !IsSpace(r[k + 1]))
    {
      if k < |a| {
        assert r[k] == a[k];
        if 0 < k { assert r[k - 1] == a[k - 1]; }
        if k < |a| - 1 { assert r[k + 1] == a[k + 1]; }
        else if k < |r| - 1 { assert r[k + 1] == b[0]; }
      } else {
        assert r[k] == b[k - |a|];
        if k > |a| { assert r[k - 1] == b[k - |a| - 1]; }
        else if 0 < k { assert r[k - 1] == a[|a| - 1]; }
        if k < |r| - 1 { assert r[k + 1] == b[k - |a| + 1]; }
      }
    }
  }

  lemma SpaceWordIsolated(p: string)
    requires SpaceWord(p)
    ensures SpacesIsolated(p) && !IsSpace(p[|p| - 1])
  {
    forall k | 0 < k < |p| ensures !IsSpace(p[k]) {
      assert p[k] == p[1..][k - 1];
    }
  }

  /** `r` has only isolated spaces, is empty exactly when `s` is, and has whitespace at its ends exactly where `s` has. */
  predicate SpacesLike(s: string, r: string) {
    && SpacesIsolated(r)
    && (r == [] <==> s == [])
    && (s != [] && r != [] ==> (IsSpace(r[0]) <==> IsSpace(s[0])) && (IsSpace(r[|r| - 1]) <==> IsSpace(s[|s| - 1])))
  }

  /** Replacing one space-led word by another keeps every space isolated and the two ends as they were. */
  lemma {:induction false} ReplaceSpaceWord(s: string, pat: string, rep: string)
    requires SpaceWord(pat) && SpaceWord(rep) && SpacesIsolated(s)
    ensures SpacesLike(s, Replace(s, pat, rep))
    decreases |s|
  {
    if |s| >= |pat| {
      if s[..|pat|] == pat {
        var s' := s[|pat|..];
        IsolatedSuffix(s, |pat|);
        ReplaceSpaceWord(s', pat, rep);
        assert s == pat + s';
        MatchStep(pat, rep, s', Replace(s', pat, rep));
      } else {
        var s' := s[1..];
        IsolatedSuffix(s, 1);
        ReplaceSpaceWord(s', pat, rep);
        assert s == [s[0]] + s';
        KeepStep(s[0], s', Replace(s', pat, rep));
      }
    }
  }

  /** The step of `ReplaceSpaceWord` where an occurrence of `pat` is replaced. */
  lemma MatchStep(pat: string, rep: string, s: string, t: string)
    requires SpaceWord(pat) && SpaceWord(rep) && SpacesLike(s, t)
    ensures SpacesLike(pat + s, rep + t)
  {
    SpaceWordIsolated(rep);
    IsolatedConcat(rep, t);
    LastOfConcat(pat, s);
    LastOfConcat(rep, t);
    SpaceWordIsolated(pat);
  }

  /** The step of `ReplaceSpaceWord` where the first character is kept. */
  lemma KeepStep(c: char, s: string, t: string)
    requires SpacesIsolated([c] + s) && SpacesLike(s, t)
    ensures SpacesLike([c] + s, [c] + t)
  {
    assert ([c] + s)[0] == c;
    if s != [] {
      assert ([c] + s)[1] == s[0];
    }
    assert SpacesIsolated([c]);
    IsolatedConcat([c], t);
    LastOfConcat([c], s);
    LastOfConcat([c], t);
  }

  lemma LastOfConcat(a: string, b: string)
    requires a != []
    ensures (a + b)[0] == a[0]
    ensures (a + b)[|a + b| - 1] == if b == [] then a[|a| - 1] else b[|b| - 1]
  {
  }

  /** Single-spaced text stays single-spaced under such a replacement, and stays non-empty. */
  lemma ReplaceSingleSpaced(s: string, pat: string, rep: string)
    requires SpaceWord(pat) && SpaceWord(rep) && SingleSpaced(s)
    ensures SingleSpaced(Replace(s, pat, rep))
    ensures Replace(s, pat, rep) == [] <==> s == []
  {
    ReplaceSpaceWord(s, pat, rep);
  }

  predicate EachNoLower(ws: seq<string>) {
    forall k | 0 <= k < |ws| :: NoLowerLetter(ws[k])
  }

  lemma NoLowerDrop(s: string, i: nat)
    requires NoLowerLetter(s) && i <= |s|
    ensures NoLowerLetter(s[i..])
  {
    forall k | 0 <= k < |s| - i ensures !('a' <= s[i..][k] <= 'z') {
      assert s[i..][k] == s[i + k];
    }
  }

  lemma NoLowerTake(s: string, n: nat)
    requires NoLowerLetter(s) && n <= |s|
    ensures NoLowerLetter(s[..n])
  {
    forall k | 0 <= k < n ensures !('a' <= s[..n][k] <= 'z') {
      assert s[..n][k] == s[k];
    }
  }

  lemma EachNoLowerCons(w: string, ws: seq<string>)
    requires NoLowerLetter(w) && EachNoLower(ws)
    ensures EachNoLower([w] + ws)
  {
    forall k | 0 <= k < |ws| + 1 ensures NoLowerLetter(([w] + ws)[k]) {
      if k > 0 { assert ([w] + ws)[k] == ws[k - 1]; }
    }
  }

  /** Splitting text with no lower-case letter gives words with none. */
  lemma {:induction false} WordsNoLower(s: string)
    requires NoLowerLetter(s)
    ensures EachNoLower(Words(s))
    decreases |s|
  {
    var t := s[LeadingSpaces(s)..];
    if t != [] {
      var n := WordLength(t);
      assert NoLowerLetter(t[..n]) && NoLowerLetter(t[n..]) by {
        NoLowerDrop(s, LeadingSpaces(s));
        NoLowerDrop(t, n);
        NoLowerTake(t, n);
      }
      WordsNoLower(t[n..]);
      EachNoLowerCons(t[..n], Words(t[n..]));
    }
  }

  /** Joining words with no lower-case letter by a space gives text with none. */
  lemma {:induction false} JoinNoLower(ws: seq<string>)
    requires EachNoLower(ws)
    ensures NoLowerLetter(Join(" ", ws))
  {
    if |ws| > 1 {
      JoinNoLower(ws[1..]);
      var r := ws[0] + " " + Join(" ", ws[1..]);
      forall k | 0 <= k < |r| ensures !('a' <= r[k] <= 'z') {
        if k > |ws[0]| {
          assert r[k] == Join(" ", ws[1..])[k - |ws[0]| - 1];
        }
      }
    }
  }

  /** Python `' '.join(s.upper().split())` has no lower-case letter. */
  lemma CollapseUpperNoLower(s: string)
    ensures NoLowerLetter(CollapseSpaces(Upper(s)))
  {
    WordsNoLower(Upper(s));
    JoinNoLower(Words(Upper(s)));
  }

  /** Python `s.split(c)[-1]`: the text after the last `c` (all of `s` if there is none). */
  function AfterLast(s: string, c: char): (r: string)
    ensures c !in r
    ensures |r| <= |s| && r == s[|s| - |r|..]
    ensures |r| < |s| ==> s[|s| - |r| - 1] == c
    ensures c !in s ==> r == s
  {
    if s == [] then []
    else if s[|s| - 1] == c then []
    else
      var r := AfterLast(s[..|s| - 1], c);
      assert s[..|s| - 1] + [s[|s| - 1]] == s;
      r + [s[|s| - 1]]
  }

  /** `s.replace(c, d)` for single characters. */
  function ReplaceChar(s: string, c: char, d: char): (r: string)
    ensures |r| == |s|
    ensures forall k | 0 <= k < |s| :: r[k] == (if s[k] == c then d else s[k])
  {
    seq(|s|, k requires 0 <= k < |s| => if s[k] == c then d else s[k])
  }

  // ---------------------------------------------------------------- numbers

  /**
   * `n / d` rounded to the nearest integer, a half going to the even neighbour:
   * Python's `round` and the `:.0f` format spec on an exact ratio.
   */
  function RoundHalfEven(n: nat, d: nat): (q: nat)
    requires d > 0
    ensures 2 * Dist(n, d, q) <= d
    ensures 2 * Dist(n, d, q) == d ==> q % 2 == 0
  {
    var q, r := n / d, n % d;
    DistNeighbours(n, d);
    if 2 * r > d then q + 1
    else if 2 * r < d then q
    else if q % 2 == 0 then q else q + 1
  }

  /** `|d * q - n|`, how far `q` is from `n / d`, in units of `1 / d`. */
  function Dist(n: nat, d: nat, q: nat): nat {
    if d * q >= n then d * q - n else n - d * q
  }

  /** The quotient of `n / d` is `n % d` below it, the next integer `d - n % d` above. */
  lemma DistNeighbours(n: nat, d: nat)
    requires d > 0
    ensures Dist(n, d, n / d) == n % d && Dist(n, d, n / d + 1) == d - n % d
  {
    DivModParts(n, d);
  }

  lemma DivModParts(n: nat, d: nat)
    requires d > 0
    ensures n == d * (n / d) + n % d && 0 <= n % d < d
    ensures d * (n / d + 1) == d * (n / d) + d
  {
  }

  predicate IsDigit(c: char) {
    '0' <= c <= '9'
  }

  /** Python `s.isdigit()` on ASCII: non-empty and all digits. */
  predicate IsDigits(s: string) {
    |s| > 0 && forall k | 0 <= k < |s| :: IsDigit(s[k])
  }

  predicate AllDigits(s: string) {
    forall k | 0 <= k < |s| :: IsDigit(s[k])
  }

  function DigitChar(d: nat): (c: char)
    requires d < 10
    ensures IsDigit(c)
  {
    ('0' as int + d) as char
  }

  /** The value of a string of decimal digits. */
  function DigitsValue(s: string): nat
    requires AllDigits(s)
  {
    if s == [] then 0
    else DigitsValue(s[..|s| - 1]) * 10 + (s[|s| - 1] as int - '0' as int)
  }

  /** Python `str(n)` for a natural number: decimal without leading zeros. */
  function NatToString(n: nat): (r: string)
    ensures IsDigits(r)
    ensures r[0] == '0' ==> n == 0
  {
    if n < 10 then [DigitChar(n)]
    else NatToString(n / 10) + [DigitChar(n % 10)]
  }

  /** Python `str(i)` for an integer. */
  function IntToString(i: int): string {
    if i < 0 then "-" + NatToString(-i) else NatToString(i)
  }

  /** `DigitsValue` reads back what `NatToString` writes. */
  lemma {:induction false} NatToStringRoundTrip(n: nat)
    ensures DigitsValue(NatToString(n)) == n
    decreases n
  {
    if n >= 10 {
      NatToStringRoundTrip(n / 10);
      var s := NatToString(n);
      assert s[..|s| - 1] == NatToString(n / 10);
    }
  }

  /** Python `int(s)` restricted to an optional sign followed by ASCII digits; anything else raises. */
  function ParseInt(s: string): Option<int> {
    if |s| > 1 && (s[0] == '-' || s[0] == '+') && AllDigits(s[1..]) then
      Some(if s[0] == '-' then -(DigitsValue(s[1..]) as int) else DigitsValue(s[1..]))
    else if IsDigits(s) then Some(DigitsValue(s))
    else None
  }

  /** `int(str(i)) == i`. */
  lemma IntToStringRoundTrip(i: int)
    ensures ParseInt(IntToString(i)) == Some(i)
  {
    if i < 0 {
      NatToStringRoundTrip(-i);
      assert IntToString(i)[1..] == NatToString(-i);
    } else {
      NatToStringRoundTrip(i);
    }
  }

  /** The three digits of `r`, with leading zeros. */
  function Pad3(r: nat): (s: string)
    requires r < 1000
    ensures |s| == 3 && AllDigits(s)
  {
    [DigitChar(r / 100), DigitChar((r / 10) % 10), DigitChar(r % 10)]
  }

  /** Python `f"{n:,}"` for a natural number: digits grouped by three with commas. */
  function GroupThousands(n: nat): string
    decreases n
  {
    if n < 1000 then NatToString(n)
    else GroupThousands(n / 1000) + "," + Pad3(n % 1000)
  }

  /** Python `f"{i:,}"` for an integer. */
  function WithCommas(i: int): string {
    if i < 0 then "-" + GroupThousands(-i) else GroupThousands(i)
  }

  function RemoveCommas(s: string): (r: string)
    ensures ',' !in r
  {
    if s == [] then []
    else (if s[0] == ',' then [] else [s[0]]) + RemoveCommas(s[1..])
  }

  lemma {:induction false} RemoveCommasAppend(a: string, b: string)
    ensures RemoveCommas(a + b) == RemoveCommas(a) + RemoveCommas(b)
    decreases |a|
  {
    if a != [] {
      assert (a + b)[1..] == a[1..] + b;
      RemoveCommasAppend(a[1..], b);
    } else {
      assert a + b == b;
    }
  }

  lemma {:induction false} RemoveCommasNone(s: string)
    requires AllDigits(s)
    ensures RemoveCommas(s) == s
    decreases |s|
  {
    if s != [] { RemoveCommasNone(s[1..]); }
  }

  /** Appending three digits `r` to the decimal form of `q` is the decimal form of `1000 q + r`. */
  lemma NatToStringThousands(q: nat, r: nat)
    requires q >= 1 && r < 1000
    ensures NatToString(1000 * q + r) == NatToString(q) + Pad3(r)
  {
    var n := 1000 * q + r;
    assert n / 10 == 100 * q + r / 10 && n % 10 == r % 10;
    var n1 := 100 * q + r / 10;
    assert n1 / 10 == 10 * q + r / 100 && n1 % 10 == (r / 10) % 10;
    var n2 := 10 * q + r / 100;
    assert n2 / 10 == q && n2 % 10 == r / 100;
    assert NatToString(n2) == NatToString(q) + [DigitChar(r / 100)];
    assert NatToString(n1) == NatToString(n2) + [DigitChar((r / 10) % 10)];
    assert NatToString(n) == NatToString(n1) + [DigitChar(r % 10)];
  }

  /** Deleting the commas of `f"{n:,}"` leaves `str(n)`: grouping changes the layout, not the digits. */
  lemma {:induction false} GroupThousandsDigits(n: nat)
    ensures RemoveCommas(GroupThousands(n)) == NatToString(n)
    decreases n
  {
    if n < 1000 {
      RemoveCommasNone(NatToString(n));
    } else {
      GroupThousandsDigits(n / 1000);
      GroupThousandsDigitsStep(n);
    }
  }

  lemma GroupThousandsDigitsStep(n: nat)
    requires n >= 1000 && RemoveCommas(GroupThousands(n / 1000)) == NatToString(n / 1000)
    ensures RemoveCommas(GroupThousands(n)) == NatToString(n)
  {
    var q, r := n / 1000, n % 1000;
    assert n == 1000 * q + r;
    RemoveCommasGroup(GroupThousands(q), Pad3(r));
    NatToStringThousands(q, r);
  }

  lemma RemoveCommasGroup(g: string, p: string)
    requires AllDigits(p)
    ensures RemoveCommas(g + "," + p) == RemoveCommas(g) + p
  {
    Assoc(g, ",", p);
    RemoveCommasAppend(g, "," + p);
    RemoveCommasComma(p);
  }

  lemma RemoveCommasComma(p: string)
    requires AllDigits(p)
    ensures RemoveCommas("," + p) == p
  {
    var u := "," + p;
    assert u[0] == ',' && u[1..] == p;
    RemoveCommasNone(p);
  }

  /** Reading the digits of `f"{n:,}"` back gives `n`. */
  lemma GroupThousandsRoundTrip(n: nat)
    ensures AllDigits(RemoveCommas(GroupThousands(n)))
    ensures DigitsValue(RemoveCommas(GroupThousands(n))) == n
  {
    GroupThousandsDigits(n);
    NatToStringRoundTrip(n);
  }

  /** `f"{n:,}"` ends in a digit. */
  lemma {:induction false} GroupThousandsLastDigit(n: nat)
    ensures GroupThousands(n) != [] && IsDigit(GroupThousands(n)[|GroupThousands(n)| - 1])
    decreases n
  {
    if n >= 1000 {
      var g := GroupThousands(n);
      var p := Pad3(n % 1000);
      assert g == GroupThousands(n / 1000) + "," + p;
      assert g[|g| - 1] == p[2];
    }
  }

  /** Deleting the commas of `f"{i:,}"` leaves `str(i)`, which `int()` reads back as `i`. */
  lemma WithCommasRoundTrip(i: int)
    ensures RemoveCommas(WithCommas(i)) == IntToString(i)
    ensures ParseInt(RemoveCommas(WithCommas(i))) == Some(i)
    ensures WithCommas(i) != [] && IsDigit(WithCommas(i)[|WithCommas(i)| - 1])
  {
    var m: nat := if i < 0 then -i else i;
    GroupThousandsDigits(m);
    GroupThousandsLastDigit(m);
    if i < 0 {
      RemoveCommasAppend("-", GroupThousands(m));
      assert RemoveCommas("-") == "-";
    }
    IntToStringRoundTrip(i);
  }
}

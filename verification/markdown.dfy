/**
 * `sanitizeString` (util.go): the text handed to speech synthesis is
 * stripped of markdown by five replacements applied one after another.
 * Each regular-expression replacement is modelled as Go's ReplaceAllString
 * does it: a left-to-right scan that, at each position, either takes the
 * match the expression prefers there (and resumes after it) or copies one
 * character and moves on.
 */
module Markdown {
  import opened Wrappers

  /** Length of the longest run of characters other than '*' starting at `i`. */
  function NonStarRun(t: string, i: nat): (n: nat)
    requires i <= |t|
    ensures i + n <= |t|
    ensures forall k :: i <= k < i + n ==> t[k] != '*'
    ensures i + n == |t| || t[i + n] == '*'
    decreases |t| - i
  {
    if i == |t| || t[i] == '*' then 0 else 1 + NonStarRun(t, i + 1)
  }

  /** Every character of `s` is a star. */
  predicate AllStars(s: string)
  {
    forall k :: 0 <= k < |s| ==> s[k] == '*'
  }

  /** `t` starts with `d` stars, then `n >= 1` non-star characters, then `d` stars. */
  ghost predicate EmphasisMatch(t: string, d: nat, n: nat)
  {
    && 1 <= n
    && 2 * d + n <= |t|
    && AllStars(t[..d])
    && (forall k :: d <= k < d + n ==> t[k] != '*')
    && AllStars(t[d + n..2 * d + n])
  }

  /**
   * Whether `\*{d}([^*]+)\*{d}` matches at the start of `t`, and if so the
   * length of the captured group. The class `[^*]` admits newlines.
   */
  function EmphasisAt(t: string, d: nat): (r: Option<nat>)
    requires 1 <= d
    ensures r.Some? ==> EmphasisMatch(t, d, r.value)
    ensures r.None? ==> forall n: nat :: !EmphasisMatch(t, d, n)
  {
    if d <= |t| && AllStars(t[..d]) then
      var n := NonStarRun(t, d);
      if 1 <= n && 2 * d + n <= |t| && AllStars(t[d + n..2 * d + n]) then Some(n)
      else
        assert forall m: nat :: EmphasisMatch(t, d, m) ==> m == n by {
          forall m: nat | EmphasisMatch(t, d, m) ensures m == n {
            EmphasisLengthUnique(t, d, m);
          }
        }
        None
    else
      None
  }

  /** The group of an emphasis match is the whole non-star run after the opening stars. */
  lemma EmphasisLengthUnique(t: string, d: nat, n: nat)
    requires 1 <= d && EmphasisMatch(t, d, n)
    ensures n == NonStarRun(t, d)
  {
    assert t[d + n] == t[d + n..2 * d + n][0];
  }

  /** ReplaceAllString(t, "$1") for `\*{d}([^*]+)\*{d}`. */
  function ReplaceEmphasis(t: string, d: nat): (r: string)
    requires 1 <= d
    ensures |r| <= |t|
    decreases |t|
  {
    if t == [] then []
    else if t[0] != '*' then [t[0]] + ReplaceEmphasis(t[1..], d)
    else match EmphasisAt(t, d)
      case Some(n) => t[d..d + n] + ReplaceEmphasis(t[2 * d + n..], d)
      case None => [t[0]] + ReplaceEmphasis(t[1..], d)
  }

  /** Pass 1 (util.go:15-16): `**x**` becomes `x`. */
  function StripStrong(t: string): (r: string)
    ensures |r| <= |t|
  {
    ReplaceEmphasis(t, 2)
  }

  /** Pass 2 (util.go:18-19): `*x*` becomes `x`. */
  function StripItalic(t: string): (r: string)
    ensures |r| <= |t|
  {
    ReplaceEmphasis(t, 1)
  }

  /**
   * `t` holds `[text](url)` at its start with the `]` at `j` and the `)` at
   * `k`, and no newline in between: `.` does not match a newline.
   */
  ghost predicate LinkMatch(t: string, j: nat, k: nat)
  {
    && 0 < j && j + 2 <= k < |t|
    && t[0] == '[' && t[j] == ']' && t[j + 1] == '(' && t[k] == ')'
    && forall m :: 0 <= m < k ==> t[m] != '\n'
  }

  /** The first `)` at or after `from` that no newline precedes. */
  function CloseParen(t: string, from: nat): (r: Option<nat>)
    ensures r.Some? ==> from <= r.value < |t| && t[r.value] == ')'
    ensures r.Some? ==> forall m :: from <= m < r.value ==> t[m] != '\n' && t[m] != ')'
    ensures r.None? ==> forall k :: from <= k < |t| && t[k] == ')' ==> exists m :: from <= m < k && t[m] == '\n'
    decreases |t| - from
  {
    if from >= |t| || t[from] == '\n' then None
    else if t[from] == ')' then Some(from)
    else CloseParen(t, from + 1)
  }

  /**
   * The lazy search for the first group: the first `](` at or after `from`,
   * with no newline before it, after which the second lazy group can reach a `)`.
   */
  function LinkFrom(t: string, from: nat): (r: Option<(nat, nat)>)
    requires 0 < from
    requires 0 < |t| && t[0] == '['
    requires forall m :: 0 <= m < from && m < |t| ==> t[m] != '\n'
    ensures r.Some? ==> from <= r.value.0 && LinkMatch(t, r.value.0, r.value.1)
    ensures r.Some? ==> forall j: nat, k: nat :: LinkMatch(t, j, k) && from <= j ==>
      r.value.0 < j || (r.value.0 == j && r.value.1 <= k)
    ensures r.None? ==> forall j: nat, k: nat :: LinkMatch(t, j, k) ==> j < from
    decreases |t| - from
  {
    if from >= |t| || t[from] == '\n' then None
    else if t[from] == ']' && from + 1 < |t| && t[from + 1] == '(' && CloseParen(t, from + 2).Some? then
      Some((from, CloseParen(t, from + 2).value))
    else LinkFrom(t, from + 1)
  }

  /**
   * Whether `\[(.*?)\]\(.*?\)` matches at the start of `t`: the match the
   * lazy quantifiers prefer has the earliest `]`, then the earliest `)`.
   */
  function LinkAt(t: string): (r: Option<(nat, nat)>)
    ensures r.Some? ==> LinkMatch(t, r.value.0, r.value.1)
    ensures r.Some? ==> forall j: nat, k: nat :: LinkMatch(t, j, k) ==>
      r.value.0 < j || (r.value.0 == j && r.value.1 <= k)
    ensures r.None? ==> forall j: nat, k: nat :: !LinkMatch(t, j, k)
  {
    if 0 < |t| && t[0] == '[' then LinkFrom(t, 1) else None
  }

  /** Pass 3 (util.go:21-22): `[text](url)` becomes `text`. */
  function StripLinks(t: string): (r: string)
    ensures |r| <= |t|
    decreases |t|
  {
    if t == [] then []
    else if t[0] != '[' then [t[0]] + StripLinks(t[1..])
    else match LinkAt(t)
      case Some((j, k)) => t[1..j] + StripLinks(t[k + 1..])
      case None => [t[0]] + StripLinks(t[1..])
  }

  const Bullet: string := "\n- "

  /** Pass 4 (util.go:24-25): every `"\n- "` becomes `", "`. */
  function JoinBullets(t: string): (r: string)
    ensures |r| <= |t|
    decreases |t|
  {
    if t == [] then []
    else if |t| >= 3 && t[0] == '\n' && t[1] == '-' && t[2] == ' ' then ", " + JoinBullets(t[3..])
    else [t[0]] + JoinBullets(t[1..])
  }

  /** Pass 5 (util.go:27): every remaining newline becomes a space. */
  function NewlinesToSpaces(t: string): (r: string)
    ensures |r| == |t|
    ensures forall k :: 0 <= k < |t| ==> r[k] == if t[k] == '\n' then ' ' else t[k]
    decreases |t|
  {
    if t == [] then []
    else [if t[0] == '\n' then ' ' else t[0]] + NewlinesToSpaces(t[1..])
  }

  /** `sanitizeString`: the five passes in their order. */
  function Sanitize(text: string): (r: string)
    ensures forall k :: 0 <= k < |r| ==> r[k] != '\n'
    ensures |r| <= |text|
  {
    NewlinesToSpaces(JoinBullets(StripLinks(StripItalic(StripStrong(text)))))
  }

  /** No '*', '[' or newline: text that every pass leaves alone. */
  ghost predicate Plain(x: string)
  {
    forall k :: 0 <= k < |x| ==> x[k] != '*' && x[k] != '[' && x[k] != '\n'
  }

  /** Copying the head and then the rest of a prefix is copying the prefix. */
  lemma ConsStep(x: string, whole: string, tail: string, after: string)
    requires x != []
    requires whole == [x[0]] + tail && tail == x[1..] + after
    ensures whole == x + after
  {
    assert x == [x[0]] + x[1..];
  }

  /** A scan copies a star-free prefix unchanged and resumes after it. */
  lemma {:induction false} EmphasisSkipsStarFree(x: string, rest: string, d: nat)
    requires 1 <= d
    requires forall k :: 0 <= k < |x| ==> x[k] != '*'
    ensures ReplaceEmphasis(x + rest, d) == x + ReplaceEmphasis(rest, d)
    decreases |x|
  {
    if x != [] {
      var t := x + rest;
      assert t[0] == x[0] && t[1..] == x[1..] + rest;
      EmphasisSkipsStarFree(x[1..], rest, d);
      ConsStep(x, ReplaceEmphasis(t, d), ReplaceEmphasis(t[1..], d), ReplaceEmphasis(rest, d));
    } else {
      assert x + rest == rest;
    }
  }

  /** `**x**` with a non-empty, star-free x is replaced by x (util.go:15-16). */
  lemma StrongReplaced(x: string, rest: string)
    requires x != [] && forall k :: 0 <= k < |x| ==> x[k] != '*'
    ensures StripStrong("**" + x + "**" + rest) == x + StripStrong(rest)
  {
    var t := "**" + x + "**" + rest;
    assert NonStarRun(t, 2) == |x| by {
      assert t[2 + |x|] == '*';
      assert forall k :: 2 <= k < 2 + |x| ==> t[k] == x[k - 2];
    }
    assert EmphasisAt(t, 2) == Some(|x|);
    assert t[2..2 + |x|] == x;
    assert t[4 + |x|..] == rest;
  }

  /** `*x*` with a non-empty, star-free x is replaced by x (util.go:18-19). */
  lemma ItalicReplaced(x: string, rest: string)
    requires x != [] && forall k :: 0 <= k < |x| ==> x[k] != '*'
    ensures StripItalic("*" + x + "*" + rest) == x + StripItalic(rest)
  {
    var t := "*" + x + "*" + rest;
    assert NonStarRun(t, 1) == |x| by {
      assert t[1 + |x|] == '*';
      assert forall k :: 1 <= k < 1 + |x| ==> t[k] == x[k - 1];
    }
    assert EmphasisAt(t, 1) == Some(|x|);
    assert t[1..1 + |x|] == x;
    assert t[2 + |x|..] == rest;
  }

  /** The strong pass leaves a single-star `*x*` for the italic pass. */
  lemma StrongKeepsItalic(x: string)
    requires forall k :: 0 <= k < |x| ==> x[k] != '*'
    ensures StripStrong("*" + x + "*") == "*" + x + "*"
  {
    var t := "*" + x + "*";
    assert ReplaceEmphasis("*", 2) == "*" by {
      assert EmphasisAt("*", 2).None?;
      assert "*"[1..] == [];
    }
    if x == [] {
      assert t == "**";
      assert NonStarRun(t, 2) == 0;
      assert EmphasisAt(t, 2).None?;
      assert t[1..] == "*";
      assert ReplaceEmphasis(t, 2) == [t[0]] + ReplaceEmphasis(t[1..], 2);
    } else {
      assert t[..2][1] == x[0];
      assert EmphasisAt(t, 2).None?;
      assert ReplaceEmphasis(t, 2) == [t[0]] + ReplaceEmphasis(t[1..], 2);
      assert t[1..] == x + "*";
      EmphasisSkipsStarFree(x, "*", 2);
    }
  }

  /** A link scan copies a prefix without '[' unchanged. */
  lemma {:induction false} LinksSkipPlain(x: string, rest: string)
    requires forall k :: 0 <= k < |x| ==> x[k] != '['
    ensures StripLinks(x + rest) == x + StripLinks(rest)
    decreases |x|
  {
    if x != [] {
      var t := x + rest;
      assert t[0] == x[0] && t[1..] == x[1..] + rest;
      LinksSkipPlain(x[1..], rest);
      ConsStep(x, StripLinks(t), StripLinks(t[1..]), StripLinks(rest));
    } else {
      assert x + rest == rest;
    }
  }

  /**
   * `[text](url)` becomes `text` (util.go:21-22) when text has no `]` and
   * url no `)`, and neither holds a newline.
   */
  lemma LinkReplaced(text: string, url: string, rest: string)
    requires forall k :: 0 <= k < |text| ==> text[k] != ']' && text[k] != '\n'
    requires forall k :: 0 <= k < |url| ==> url[k] != ')' && url[k] != '\n'
    ensures StripLinks("[" + text + "](" + url + ")" + rest) == text + StripLinks(rest)
  {
    var t := "[" + text + "](" + url + ")" + rest;
    var j, k := |text| + 1, |text| + |url| + 3;
    assert t[j] == ']' && t[j + 1] == '(' && t[k] == ')';
    assert forall m :: 1 <= m < j ==> t[m] == text[m - 1];
    assert forall m :: j + 2 <= m < k ==> t[m] == url[m - j - 2];
    assert forall m :: 0 <= m < k ==> t[m] != '\n';
    assert LinkMatch(t, j, k);
    assert LinkAt(t) == Some((j, k));
    assert t[1..j] == text;
    assert t[k + 1..] == rest;
  }

  /** A link never spans a newline: with a newline before any `](`, `[` is copied. */
  lemma LinkStopsAtNewline(t: string, nl: nat)
    requires 0 < |t| && t[0] == '['
    requires nl < |t| && t[nl] == '\n'
    requires forall m :: 0 <= m < nl ==> t[m] != ']'
    ensures LinkAt(t).None?
  {
    forall j: nat, k: nat | LinkMatch(t, j, k) ensures false {
      assert j < nl || nl < k;
    }
  }

  /** The bullet scan copies a newline-free prefix unchanged. */
  lemma {:induction false} BulletsSkipPlain(x: string, rest: string)
    requires forall k :: 0 <= k < |x| ==> x[k] != '\n'
    ensures JoinBullets(x + rest) == x + JoinBullets(rest)
    decreases |x|
  {
    if x != [] {
      var t := x + rest;
      assert t[0] == x[0] && t[1..] == x[1..] + rest;
      BulletsSkipPlain(x[1..], rest);
      ConsStep(x, JoinBullets(t), JoinBullets(t[1..]), JoinBullets(rest));
    } else {
      assert x + rest == rest;
    }
  }

  /** Text without '*' passes an emphasis pass unchanged. */
  lemma StarFreeUnchanged(t: string, d: nat)
    requires 1 <= d && forall k :: 0 <= k < |t| ==> t[k] != '*'
    ensures ReplaceEmphasis(t, d) == t
  {
    EmphasisSkipsStarFree(t, [], d);
    assert t + [] == t;
  }

  /** Text without '[' passes the link pass unchanged. */
  lemma LinkFreeUnchanged(t: string)
    requires forall k :: 0 <= k < |t| ==> t[k] != '['
    ensures StripLinks(t) == t
  {
    LinksSkipPlain(t, []);
    assert t + [] == t;
  }

  /** Text without a newline passes the bullet and newline passes unchanged. */
  lemma NewlineFreeUnchanged(t: string)
    requires forall k :: 0 <= k < |t| ==> t[k] != '\n'
    ensures JoinBullets(t) == t
    ensures NewlinesToSpaces(t) == t
  {
    BulletsSkipPlain(t, []);
    assert t + [] == t;
  }

  /** Plain text is spoken as it is written. */
  lemma SanitizePlain(text: string)
    requires Plain(text)
    ensures Sanitize(text) == text
  {
    StarFreeUnchanged(text, 2);
    StarFreeUnchanged(text, 1);
    LinkFreeUnchanged(text);
    NewlineFreeUnchanged(text);
  }

  /**
   * A bullet between two plain pieces becomes ", " before newlines turn into
   * spaces (util.go:24-27): the newline of a bullet never becomes a space.
   */
  lemma BulletJoined(x: string, y: string)
    requires Plain(x) && Plain(y)
    ensures Sanitize(x + Bullet + y) == x + ", " + y
  {
    var b := Bullet + y;
    var t := x + b;
    assert t == x + Bullet + y;
    MarkupFree(x, b);
    StarFreeUnchanged(t, 2);
    StarFreeUnchanged(t, 1);
    LinkFreeUnchanged(t);
    assert JoinBullets(b) == ", " + y by {
      assert b[0] == '\n' && b[1] == '-' && b[2] == ' ' && b[3..] == y;
      NewlineFreeUnchanged(y);
    }
    BulletsSkipPlain(x, b);
    var u := x + (", " + y);
    assert u == x + ", " + y;
    NewlineFree(x, ", " + y);
    NewlineFreeUnchanged(u);
  }

  /** Joining plain text and a bullet line leaves no '*' and no '['. */
  lemma MarkupFree(x: string, b: string)
    requires Plain(x) && forall k :: 0 <= k < |b| ==> b[k] != '*' && b[k] != '['
    ensures forall k :: 0 <= k < |x + b| ==> (x + b)[k] != '*' && (x + b)[k] != '['
  {
  }

  /** Joining two newline-free texts leaves no newline. */
  lemma NewlineFree(x: string, y: string)
    requires Plain(x) && forall k :: 0 <= k < |y| ==> y[k] != '\n'
    ensures forall k :: 0 <= k < |x + y| ==> (x + y)[k] != '\n'
  {
  }

  /** `**x**` on its own comes out as x after all five passes. */
  lemma SanitizeStrong(x: string)
    requires x != [] && Plain(x)
    ensures Sanitize("**" + x + "**") == x
  {
    StrongReplaced(x, []);
    assert "**" + x + "**" + [] == "**" + x + "**";
    assert StripStrong([]) == [];
    assert x + [] == x;
    StarFreeUnchanged(x, 1);
    LinkFreeUnchanged(x);
    NewlineFreeUnchanged(x);
  }

  /** `*x*` on its own comes out as x after all five passes. */
  lemma SanitizeItalic(x: string)
    requires x != [] && Plain(x)
    ensures Sanitize("*" + x + "*") == x
  {
    StrongKeepsItalic(x);
    ItalicReplaced(x, []);
    assert "*" + x + "*" + [] == "*" + x + "*";
    assert StripItalic([]) == [];
    assert x + [] == x;
    LinkFreeUnchanged(x);
    NewlineFreeUnchanged(x);
  }

  /** A lone link `[text](url)` comes out as its text after all five passes. */
  lemma SanitizeLink(text: string, url: string)
    requires Plain(text) && forall k :: 0 <= k < |text| ==> text[k] != ']'
    requires forall k :: 0 <= k < |url| ==> url[k] != ')' && url[k] != '\n' && url[k] != '*'
    ensures Sanitize("[" + text + "](" + url + ")") == text
  {
    var t := "[" + text + "](" + url + ")";
    assert forall k :: 0 <= k < |t| ==> t[k] != '*';
    StarFreeUnchanged(t, 2);
    StarFreeUnchanged(t, 1);
    LinkReplaced(text, url, []);
    assert t + [] == t;
    assert StripLinks([]) == [];
    assert text + [] == text;
    NewlineFreeUnchanged(text);
  }
}

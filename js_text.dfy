/**
 * The few ECMAScript string operations the portfolio script relies on:
 * `trim`, `split` with a string separator, `Array.prototype.join`,
 * `startsWith`, `endsWith`, and the truthiness of an optional string.
 * Strings are sequences of Unicode scalar values.
 */
module JsText {
  import opened Wrappers

  /** A JavaScript string that may be `null`/`undefined` is truthy when present and not empty. */
  predicate Truthy(o: Option<string>) {
    o.Some? && o.value != ""
  }

  /** `a || b` on two optional strings. */
  function Or(a: Option<string>, b: Option<string>): (r: Option<string>)
    ensures Truthy(a) ==> r == a
    ensures !Truthy(a) ==> r == b
  {
    if Truthy(a) then a else b
  }

  // ---------------------------------------------------------------- trim

  /**
   * The code points `String.prototype.trim` strips: WhiteSpace (TAB, VT, FF,
   * ZWNBSP and every space separator of category Zs) and LineTerminator (LF,
   * CR, LS, PS), per section 12.2 and 12.3 of ECMA-262.
   */
  predicate IsWhitespace(c: char) {
    || c == '\t' || c == '\n' || c == '\U{B}' || c == '\U{C}' || c == '\r'
    || c == ' ' || c == '\U{A0}' || c == '\U{1680}' || ('\U{2000}' <= c <= '\U{200A}')
    || c == '\U{2028}' || c == '\U{2029}' || c == '\U{202F}' || c == '\U{205F}'
    || c == '\U{3000}' || c == '\U{FEFF}'
  }

  predicate AllWhitespace(s: string) {
    forall i | 0 <= i < |s| :: IsWhitespace(s[i])
  }

  /** Neither end of `s` is whitespace. */
  predicate IsTrimmed(s: string) {
    s == [] || (!IsWhitespace(s[0]) && !IsWhitespace(s[|s| - 1]))
  }

  /** The index of the first non-whitespace character of `s` at or after `i`, or `|s|`. */
  function SkipWhitespace(s: string, i: nat): (k: nat)
    requires i <= |s|
    ensures i <= k <= |s|
    ensures forall j | i <= j < k :: IsWhitespace(s[j])
    ensures k < |s| ==> !IsWhitespace(s[k])
    decreases |s| - i
  {
    if i < |s| && IsWhitespace(s[i]) then SkipWhitespace(s, i + 1) else i
  }

  /** The end of `s[lo..e]` once its trailing whitespace is cut off. */
  function SkipWhitespaceBack(s: string, lo: nat, e: nat): (k: nat)
    requires lo <= e <= |s|
    ensures lo <= k <= e
    ensures forall j | k <= j < e :: IsWhitespace(s[j])
    ensures k > lo ==> !IsWhitespace(s[k - 1])
    decreases e
  {
    if e > lo && IsWhitespace(s[e - 1]) then SkipWhitespaceBack(s, lo, e - 1) else e
  }

  /**
   * `String.prototype.trim`: the slice of `s` that remains once the
   * whitespace at both ends is cut off. Only whitespace is cut, the result
   * has none at either end, and it is empty exactly when `s` is all
   * whitespace.
   */
  function Trim(s: string): (r: string)
    ensures IsTrimmed(r)
    ensures var i := SkipWhitespace(s, 0);
      && i + |r| <= |s| && r == s[i..i + |r|]
      && (forall j | 0 <= j < i :: IsWhitespace(s[j]))
      && (forall j | i + |r| <= j < |s| :: IsWhitespace(s[j]))
    ensures r == [] <==> AllWhitespace(s)
  {
    var i := SkipWhitespace(s, 0);
    var e := SkipWhitespaceBack(s, i, |s|);
    assert i < |s| ==> e > i;
    s[i..e]
  }

  /** Trimming text that has no whitespace at its ends changes nothing. */
  lemma {:induction false} TrimTrimmed(s: string)
    requires IsTrimmed(s)
    ensures Trim(s) == s
  {
    assert SkipWhitespace(s, 0) == 0;
    assert s != [] ==> SkipWhitespaceBack(s, 0, |s|) == |s|;
  }

  /** `trim` is idempotent. */
  lemma {:induction false} TrimIdempotent(s: string)
    ensures Trim(Trim(s)) == Trim(s)
  {
    TrimTrimmed(Trim(s));
  }

  // ---------------------------------------------------------------- prefixes and suffixes

  /** `s.startsWith(prefix)`. */
  predicate StartsWith(s: string, prefix: string) {
    |prefix| <= |s| && s[..|prefix|] == prefix
  }

  /** `s.endsWith(suffix)`. */
  predicate EndsWith(s: string, suffix: string) {
    |suffix| <= |s| && s[|s| - |suffix|..] == suffix
  }

  // ---------------------------------------------------------------- search

  /** `sep` occurs in `s` starting at index `i`. */
  predicate OccursAt(s: string, sep: string, i: nat) {
    i + |sep| <= |s| && s[i..i + |sep|] == sep
  }

  predicate Contains(s: string, sep: string) {
    exists i: nat | i <= |s| :: OccursAt(s, sep, i)
  }

  /** The first occurrence of `sep` in `s` at or after index `k`. */
  function IndexFrom(s: string, sep: string, k: nat): (r: Option<nat>)
    requires sep != []
    ensures r.Some? ==> k <= r.value && OccursAt(s, sep, r.value)
    ensures forall j: nat | k <= j && (r.None? || j < r.value) :: !OccursAt(s, sep, j)
    decreases |s| - k
  {
    if k + |sep| > |s| then None
    else if s[k..k + |sep|] == sep then Some(k)
    else IndexFrom(s, sep, k + 1)
  }

  /** `s.indexOf(sep)`, with `None` for -1. */
  function IndexOf(s: string, sep: string): (r: Option<nat>)
    requires sep != []
    ensures r.None? <==> !Contains(s, sep)
    ensures r.Some? ==> OccursAt(s, sep, r.value) && forall j: nat | j < r.value :: !OccursAt(s, sep, j)
  {
    IndexFrom(s, sep, 0)
  }

  // ---------------------------------------------------------------- split and join

  /** `parts.join(sep)`; an empty array joins to the empty string. */
  function Join(parts: seq<string>, sep: string): string {
    if |parts| == 0 then ""
    else if |parts| == 1 then parts[0]
    else parts[0] + sep + Join(parts[1..], sep)
  }

  /**
   * `s.split(sep)` for a non-empty separator: cut at every occurrence of `sep`,
   * found left to right without overlap. The pieces never contain `sep`, and
   * joining them with `sep` gives `s` back.
   */
  function Split(s: string, sep: string): (parts: seq<string>)
    requires sep != []
    ensures |parts| >= 1
    ensures forall p | p in parts :: !Contains(p, sep)
    ensures Join(parts, sep) == s
    decreases |s|
  {
    match IndexOf(s, sep)
    case None => [s]
    case Some(i) =>
      var head := s[..i];
      assert !Contains(head, sep) by {
        forall j: nat | j <= |head| ensures !OccursAt(head, sep, j) {
          if j + |sep| <= |head| {
            assert head[j..j + |sep|] == s[j..j + |sep|];
            assert !OccursAt(s, sep, j);
          }
        }
      }
      var rest := Split(s[i + |sep|..], sep);
      assert s == head + sep + s[i + |sep|..];
      [head] + rest
  }

  /** No proper prefix of `sep` is also a suffix of it, so two occurrences can never overlap. */
  predicate BorderFree(sep: string) {
    forall k | 0 < k < |sep| :: sep[..k] != sep[|sep| - k..]
  }

  /** In `p + sep + rest` the first occurrence of a border-free `sep` is the one after `p`, when `p` lacks `sep`. */
  lemma {:induction false} FirstOccurrenceAfter(p: string, sep: string, rest: string)
    requires sep != [] && BorderFree(sep) && !Contains(p, sep)
    ensures IndexOf(p + sep + rest, sep) == Some(|p|)
  {
    var s := p + sep + rest;
    assert OccursAt(s, sep, |p|) by { assert s[|p|..|p| + |sep|] == sep; }
    forall j: nat | j < |p| ensures !OccursAt(s, sep, j) {
      if j + |sep| <= |p| {
        assert p[j..j + |sep|] == s[j..j + |sep|];
        assert !OccursAt(p, sep, j);
      } else {
        var k := |p| - j;
        var b := |sep| - k;
        assert s[|p|..|p| + b] == sep[..b];
        assert sep[..b] != sep[k..];
        assert s[j..j + |sep|][k..] == s[|p|..|p| + b];
        assert s[j..j + |sep|] != sep;
      }
    }
  }

  /**
   * Splitting undoes joining: for a border-free separator that none of the
   * pieces contains, `parts.join(sep).split(sep)` is `parts` again.
   */
  lemma {:induction false} SplitJoin(parts: seq<string>, sep: string)
    requires sep != [] && BorderFree(sep) && |parts| >= 1
    requires forall p | p in parts :: !Contains(p, sep)
    ensures Split(Join(parts, sep), sep) == parts
    decreases |parts|
  {
    if |parts| == 1 {
      assert Join(parts, sep) == parts[0];
    } else {
      var p := parts[0];
      var rest := Join(parts[1..], sep);
      assert p in parts;
      FirstOccurrenceAfter(p, sep, rest);
      var s := p + sep + rest;
      assert s[..|p|] == p;
      assert s[|p| + |sep|..] == rest;
      forall q | q in parts[1..] ensures !Contains(q, sep) { assert q in parts; }
      SplitJoin(parts[1..], sep);
      assert parts == [p] + parts[1..];
    }
  }

  /** The first piece of `s.split(sep)` is the text before the first occurrence of `sep`, or all of `s`. */
  lemma SplitFirst(s: string, sep: string)
    requires sep != []
    ensures Split(s, sep)[0] == if IndexOf(s, sep).Some? then s[..IndexOf(s, sep).value] else s
  {
  }

  /** For a one-character separator, occurring and being an element are the same thing. */
  lemma ContainsChar(s: string, c: char)
    ensures Contains(s, [c]) <==> c in s
  {
    if c in s {
      var i :| 0 <= i < |s| && s[i] == c;
      assert OccursAt(s, [c], i);
    }
    if Contains(s, [c]) {
      var i: nat :| i <= |s| && OccursAt(s, [c], i);
      assert s[i..i + 1][0] == s[i];
    }
  }

  /** Before the first occurrence of a one-character separator, that character does not appear. */
  lemma BeforeFirstChar(s: string, c: char)
    ensures var i := IndexOf(s, [c]);
      forall j | 0 <= j < (if i.Some? then i.value else |s|) :: s[j] != c
  {
    var i := IndexOf(s, [c]);
    forall j | 0 <= j < (if i.Some? then i.value else |s|) ensures s[j] != c {
      assert !OccursAt(s, [c], j);
      assert s[j..j + 1] == [s[j]];
    }
  }

  /** Unfolds `Split` at a known first occurrence. */
  lemma SplitAt(s: string, sep: string, i: nat)
    requires sep != [] && IndexOf(s, sep) == Some(i)
    ensures Split(s, sep) == [s[..i]] + Split(s[i + |sep|..], sep)
  {
  }

  /** Joining a piece in front of a non-empty list puts one separator between them. */
  lemma JoinCons(p: string, rest: seq<string>, sep: string)
    requires |rest| >= 1
    ensures Join([p] + rest, sep) == p + sep + Join(rest, sep)
  {
    assert ([p] + rest)[1..] == rest;
  }

  /** Joining pieces that avoid `c` with a separator that avoids `c` gives a string that avoids `c`. */
  lemma {:induction false} JoinAvoids(parts: seq<string>, sep: string, c: char)
    requires forall p | p in parts :: c !in p
    requires c !in sep
    ensures c !in Join(parts, sep)
  {
    if |parts| > 1 {
      assert parts[0] in parts;
      forall p | p in parts[1..] ensures c !in p { assert p in parts; }
      JoinAvoids(parts[1..], sep, c);
    } else if |parts| == 1 {
      assert parts[0] in parts;
    }
  }
}

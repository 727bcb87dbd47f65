/**
 * `fetchAboutText`: the "about me" text shown in the about section (and as
 * the hero bio when the profile has none). The file read depends on the
 * language; its text is trimmed, cut into paragraphs at blank lines, its
 * line breaks become `<br>`, and the paragraphs are joined with `</p><p>`
 * (the caller wraps the whole in `<p>…</p>`). A file that cannot be read
 * gives a fixed sentence in the language.
 */
module About {
  import opened JsText

  const ParagraphBreak := "</p><p>"
  const LineBreak := "<br>"
  const SpanishFileName := "sobreMi"
  const EnglishFileName := "aboutMe"
  const SpanishFallback := "Tu texto personalizado en español aquí."
  const EnglishFallback := "Your custom text in English here."

  /** `paragraph.replace(/\n/g, "<br>")`: every line feed becomes `<br>`, nothing else changes. */
  function BreakLines(p: string): (r: string)
    ensures '\n' !in r
  {
    if p == [] then []
    else (if p[0] == '\n' then LineBreak else [p[0]]) + BreakLines(p[1..])
  }

  /** Each line feed grows the text by three characters, since `<br>` is four long. */
  lemma {:induction false} BreakLinesLength(p: string)
    ensures |BreakLines(p)| == |p| + 3 * multiset(p)['\n']
  {
    if p != [] {
      assert p == [p[0]] + p[1..];
      BreakLinesLength(p[1..]);
    }
  }

  /** `BreakLines` of every paragraph, in order. */
  function BreakAll(ps: seq<string>): (r: seq<string>)
    ensures |r| == |ps|
  {
    if ps == [] then [] else [BreakLines(ps[0])] + BreakAll(ps[1..])
  }

  /** The i-th element of `BreakAll(ps)` is the i-th paragraph with its line breaks converted. */
  lemma {:induction false} BreakAllAt(ps: seq<string>, i: nat)
    requires i < |ps|
    ensures BreakAll(ps)[i] == BreakLines(ps[i])
    decreases i
  {
    if i > 0 {
      BreakAllAt(ps[1..], i - 1);
    }
  }

  /** The paragraphs of an about file: its trimmed text cut at every blank line. */
  function Paragraphs(text: string): (ps: seq<string>)
    ensures |ps| >= 1
  {
    Split(Trim(text), "\n\n")
  }

  /** The markup made of an about file's text. */
  function FormatAbout(text: string): string {
    Join(BreakAll(Paragraphs(text)), ParagraphBreak)
  }

  /** The file read for a language: Spanish reads `sobreMi`, every other code (valid or not) `aboutMe`. */
  function AboutFileName(language: string): string {
    if language == "es" then SpanishFileName else EnglishFileName
  }

  /** The sentence shown when the file cannot be read. */
  function FallbackAbout(language: string): string {
    if language == "es" then SpanishFallback else EnglishFallback
  }

  /**
   * `fetchAboutText(language)`, given the site files that can be read
   * successfully (a name outside `files` stands for a failed request, a
   * non-success status or an unreadable body).
   */
  function FetchAboutText(language: string, files: map<string, string>): string {
    var name := AboutFileName(language);
    if name in files then FormatAbout(files[name]) else FallbackAbout(language)
  }

  // ---------------------------------------------------------------- properties

  lemma {:induction false} BreakLinesAppend(a: string, b: string)
    ensures BreakLines(a + b) == BreakLines(a) + BreakLines(b)
  {
    if a != [] {
      assert (a + b)[0] == a[0] && (a + b)[1..] == a[1..] + b;
      BreakLinesAppend(a[1..], b);
    } else {
      assert a + b == b;
    }
  }

  lemma {:induction false} BreakLinesKeepsPlainText(p: string)
    requires '\n' !in p
    ensures BreakLines(p) == p
  {
    if p != [] {
      assert p[0] in p;
      assert forall c | c in p[1..] :: c in p;
      BreakLinesKeepsPlainText(p[1..]);
    }
  }

  /**
   * The global regular-expression replace is the same as splitting at every
   * line feed and joining the pieces with `<br>`.
   */
  lemma {:induction false} BreakLinesIsSplitJoin(p: string)
    ensures BreakLines(p) == Join(Split(p, "\n"), LineBreak)
    decreases |p|
  {
    BeforeFirstChar(p, '\n');
    var found := IndexOf(p, "\n");
    if found.None? {
      BreakLinesKeepsPlainText(p);
    } else {
      var i := found.value;
      var head, rest := p[..i], p[i + 1..];
      SplitAt(p, "\n", i);
      BreakLinesKeepsPlainText(head);
      assert p == head + ("\n" + rest);
      BreakLinesAppend(head, "\n" + rest);
      BreakLinesAppend("\n", rest);
      assert BreakLines("\n") == LineBreak;
      BreakLinesIsSplitJoin(rest);
      JoinCons(head, Split(rest, "\n"), LineBreak);
    }
  }

  /** Every `<` of `w` is followed, inside `w`, by something other than `b`: `w` cannot start on an inserted `<br>`. */
  predicate NoBreakStart(w: string) {
    forall j | 0 <= j < |w| && w[j] == '<' :: j + 1 < |w| && w[j + 1] != 'b'
  }

  /** A text like that which begins the converted paragraph already begins the paragraph. */
  lemma {:induction false} BreakLinesPrefix(q: string, w: string)
    requires NoBreakStart(w)
    ensures |w| <= |BreakLines(q)| && BreakLines(q)[..|w|] == w ==> |w| <= |q| && q[..|w|] == w
    decreases |q|
  {
    if w != [] && |w| <= |BreakLines(q)| && BreakLines(q)[..|w|] == w {
      var rest := BreakLines(q[1..]);
      assert BreakLines(q) == (if q[0] == '\n' then LineBreak else [q[0]]) + rest;
      assert w[0] == BreakLines(q)[0];
      assert |w| < 2 || w[1] == BreakLines(q)[1];
      assert q[0] != '\n';
      assert forall j | 0 <= j < |w| - 1 :: w[1..][j] == w[j + 1];
      assert rest[..|w| - 1] == w[1..];
      BreakLinesPrefix(q[1..], w[1..]);
      assert q == [q[0]] + q[1..];
    }
  }

  /** A paragraph without `</p><p>` has none from its second character on. */
  lemma NoParagraphBreakInTail(p: string)
    requires p != [] && !Contains(p, ParagraphBreak)
    ensures !Contains(p[1..], ParagraphBreak)
  {
    forall i: nat | i <= |p[1..]| ensures !OccursAt(p[1..], ParagraphBreak, i) {
      assert !OccursAt(p, ParagraphBreak, i + 1);
      if i + |ParagraphBreak| <= |p[1..]| {
        assert p[1..][i..i + |ParagraphBreak|] == p[i + 1..i + 1 + |ParagraphBreak|];
      }
    }
  }

  /** An occurrence past a prefix `head` is an occurrence in the rest. */
  lemma OccursAfter(head: string, rest: string, i: nat)
    requires |head| <= i
    ensures OccursAt(head + rest, ParagraphBreak, i) == OccursAt(rest, ParagraphBreak, i - |head|)
  {
    if i + |ParagraphBreak| <= |head + rest| {
      assert (head + rest)[i..i + |ParagraphBreak|] == rest[i - |head|..i - |head| + |ParagraphBreak|];
    }
  }

  /** No `</p><p>` starts inside the `<br>` that replaces a leading line feed. */
  lemma NoParagraphBreakInLineBreak(p: string, i: nat)
    requires p != [] && p[0] == '\n' && i < |LineBreak|
    ensures !OccursAt(BreakLines(p), ParagraphBreak, i)
  {
    var s := BreakLines(p);
    assert s == LineBreak + BreakLines(p[1..]);
    if i + |ParagraphBreak| <= |s| {
      assert s[i] != ParagraphBreak[0] || s[i + 1] != ParagraphBreak[1];
      assert s[i..i + |ParagraphBreak|][0] == s[i] && s[i..i + |ParagraphBreak|][1] == s[i + 1];
    }
  }

  /** What follows the first `<` of `</p><p>` cannot start on an inserted `<br>`. */
  lemma ParagraphBreakTailNoBreakStart()
    ensures NoBreakStart(ParagraphBreak[1..])
  {
    assert ParagraphBreak[1..] == "/p><p>";
  }

  /** A `</p><p>` at the start of the converted paragraph is already at the start of the paragraph. */
  lemma ParagraphBreakAtStart(p: string)
    requires p != [] && p[0] != '\n'
    ensures OccursAt(BreakLines(p), ParagraphBreak, 0) ==> OccursAt(p, ParagraphBreak, 0)
  {
    var s, rest := BreakLines(p), BreakLines(p[1..]);
    if OccursAt(s, ParagraphBreak, 0) {
      var m := |ParagraphBreak|;
      assert s == [p[0]] + rest;
      assert s[..m][0] == s[0] == p[0];
      assert rest[..m - 1] == s[1..m] == ParagraphBreak[1..];
      ParagraphBreakTailNoBreakStart();
      BreakLinesPrefix(p[1..], ParagraphBreak[1..]);
      assert p[..m] == [p[0]] + p[1..][..m - 1];
      assert ParagraphBreak == [ParagraphBreak[0]] + ParagraphBreak[1..];
    }
  }

  /**
   * The converted paragraph has no `</p><p>` at position `i`: not inside the
   * conversion of the first character, and not in that of the rest.
   */
  lemma NoParagraphBreakAt(p: string, i: nat)
    requires p != [] && !Contains(p, ParagraphBreak) && !Contains(BreakLines(p[1..]), ParagraphBreak)
    ensures !OccursAt(BreakLines(p), ParagraphBreak, i)
  {
    var head := if p[0] == '\n' then LineBreak else [p[0]];
    assert BreakLines(p) == head + BreakLines(p[1..]);
    if i >= |head| {
      OccursAfter(head, BreakLines(p[1..]), i);
    } else if p[0] == '\n' {
      NoParagraphBreakInLineBreak(p, i);
    } else {
      assert !OccursAt(p, ParagraphBreak, 0);
      ParagraphBreakAtStart(p);
    }
  }

  /** Converting line feeds never creates a `</p><p>` the paragraph did not have. */
  lemma {:induction false} BreakLinesAvoidsParagraphBreak(p: string)
    requires !Contains(p, ParagraphBreak)
    ensures !Contains(BreakLines(p), ParagraphBreak)
    decreases |p|
  {
    if p != [] {
      NoParagraphBreakInTail(p);
      BreakLinesAvoidsParagraphBreak(p[1..]);
      forall i: nat | i <= |BreakLines(p)| ensures !OccursAt(BreakLines(p), ParagraphBreak, i) {
        NoParagraphBreakAt(p, i);
      }
    }
  }

  /** The formatted text never contains a line feed. */
  lemma FormatAboutHasNoNewline(text: string)
    ensures '\n' !in FormatAbout(text)
  {
    var ps := BreakAll(Paragraphs(text));
    forall p | p in ps ensures '\n' !in p {
      var i :| 0 <= i < |ps| && ps[i] == p;
      BreakAllAt(Paragraphs(text), i);
    }
    JoinAvoids(ps, ParagraphBreak, '\n');
  }

  lemma ParagraphBreakIsBorderFree()
    ensures BorderFree(ParagraphBreak)
  {
    var m := ParagraphBreak;
    forall k | 0 < k < |m| ensures m[..k] != m[|m| - k..] {
      if k == 1 || k == 4 {
        assert m[..k][0] != m[|m| - k..][0];
      } else {
        assert m[..k][1] != m[|m| - k..][1];
      }
    }
  }

  /**
   * k paragraphs give k - 1 paragraph breaks: when no paragraph already
   * contains `</p><p>`, cutting the output at `</p><p>` gives back exactly
   * the paragraphs with their line breaks converted.
   */
  lemma FormatAboutParagraphs(text: string)
    requires forall p | p in Paragraphs(text) :: !Contains(p, ParagraphBreak)
    ensures Split(FormatAbout(text), ParagraphBreak) == BreakAll(Paragraphs(text))
    ensures |Split(FormatAbout(text), ParagraphBreak)| == |Paragraphs(text)|
  {
    var ps := Paragraphs(text);
    var bs := BreakAll(ps);
    forall b | b in bs ensures !Contains(b, ParagraphBreak) {
      var i :| 0 <= i < |bs| && bs[i] == b;
      BreakAllAt(ps, i);
      assert ps[i] in ps;
      BreakLinesAvoidsParagraphBreak(ps[i]);
    }
    ParagraphBreakIsBorderFree();
    SplitJoin(bs, ParagraphBreak);
  }

  /** Text without a blank line is a single paragraph: only its line feeds change. */
  lemma SingleParagraph(text: string)
    requires !Contains(Trim(text), "\n\n")
    ensures FormatAbout(text) == BreakLines(Trim(text))
  {
    assert IndexOf(Trim(text), "\n\n").None?;
    assert Paragraphs(text) == [Trim(text)];
  }

  /** Whichever language is asked for and whether or not its file can be read, the result has no line feed. */
  lemma AboutTextHasNoNewline(language: string, files: map<string, string>)
    ensures '\n' !in FetchAboutText(language, files)
  {
    var name := AboutFileName(language);
    if name in files {
      FormatAboutHasNoNewline(files[name]);
    } else {
      FallbackHasNoNewline(language);
    }
  }

  lemma FallbackHasNoNewline(language: string)
    ensures '\n' !in FallbackAbout(language)
  {
    if language == "es" {
      assert '\n' !in SpanishFallback;
    } else {
      assert '\n' !in EnglishFallback;
    }
  }

  /** Spanish reads `sobreMi` and falls back to the Spanish sentence; every other code reads `aboutMe` and falls back to English. */
  lemma AboutTextLanguage(language: string, files: map<string, string>)
    ensures language == "es" ==>
      FetchAboutText(language, files) ==
        (if SpanishFileName in files then FormatAbout(files[SpanishFileName]) else SpanishFallback)
    ensures language != "es" ==>
      FetchAboutText(language, files) ==
        (if EnglishFileName in files then FormatAbout(files[EnglishFileName]) else EnglishFallback)
  {
  }
}

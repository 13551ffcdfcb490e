/** Slugs: the repeated rewrite of "--" against a single pass over the text. */
module Slug {

  /** What the text library says about characters. */
  datatype Charset = Charset(alnum: char -> bool, lower: char -> string, space: char -> bool)

  predicate DashFree(s: string) { '-' !in s }

  /** What any character set keeps to: a letter or digit is not blank, and neither it nor its lower case is a dash. */
  ghost predicate Sane(cs: Charset) {
    && !cs.alnum('-')
    && (forall c :: cs.alnum(c) ==> !cs.space(c) && cs.lower(c) != "" && DashFree(cs.lower(c)))
  }

  /** Lower-casing twice is lower-casing once, and makes no blank. */
  ghost predicate Settles(cs: Charset) {
    forall c, d :: cs.alnum(c) && d in cs.lower(c) ==> cs.lower(d) == [d] && !cs.space(d)
  }

  // ---------- The source's passes ----------

  function StripLeft(cs: Charset, s: string): string {
    if s != "" && cs.space(s[0]) then StripLeft(cs, s[1..]) else s
  }

  function StripRight(cs: Charset, s: string): string {
    if s != "" && cs.space(s[|s| - 1]) then StripRight(cs, s[..|s| - 1]) else s
  }

  function Image(cs: Charset, c: char): string { if cs.alnum(c) then cs.lower(c) else "-" }

  function Mark(cs: Charset, s: string): string {
    if s == "" then "" else Mark(cs, s[..|s| - 1]) + Image(cs, s[|s| - 1])
  }

  predicate HasDouble(s: string) {
    exists i :: 0 <= i < |s| - 1 && DoubleAt(s, i)
  }

  predicate DoubleAt(s: string, i: nat)
    requires i < |s| - 1
  {
    s[i] == '-' && s[i + 1] == '-'
  }

  /** Every "--" becomes "-", scanning from the left, never looking again at what was written. */
  function Halve(s: string): string {
    if |s| < 2 then s
    else if s[0] == '-' && s[1] == '-' then "-" + Halve(s[2..])
    else [s[0]] + Halve(s[1..])
  }

  function TrimLeft(s: string): string {
    if s != "" && s[0] == '-' then TrimLeft(s[1..]) else s
  }

  function TrimRight(s: string): string {
    if s != "" && s[|s| - 1] == '-' then TrimRight(s[..|s| - 1]) else s
  }

  // ---------- One pass ----------

  /** What has been written so far, and whether anything has been skipped since the last letter or digit. */
  function Scan(cs: Charset, s: string): (string, bool) {
    if s == "" then ("", false)
    else
      var (out, gap) := Scan(cs, s[..|s| - 1]);
      var c := s[|s| - 1];
      if cs.alnum(c) then ((if gap && out != "" then out + "-" else out) + cs.lower(c), false)
      else (out, true)
  }

  function Slug(cs: Charset, s: string): string { Scan(cs, s).0 }

  // ---------- Runs of dashes ----------

  /** Every run of dashes made one dash. */
  function Collapse(s: string): string {
    if s == "" then ""
    else
      var before, c := Collapse(s[..|s| - 1]), s[|s| - 1];
      if c == '-' && before != "" && before[|before| - 1] == '-' then before else before + [c]
  }

  function Glue(x: string, y: string): string {
    if x != "" && y != "" && x[|x| - 1] == '-' && y[0] == '-' then x + y[1..] else x + y
  }

  lemma NoDoubleAppend(s: string, c: char)
    requires !HasDouble(s) && !(s != "" && s[|s| - 1] == '-' && c == '-')
    ensures !HasDouble(s + [c])
  {
    forall i | 0 <= i < |s + [c]| - 1
      ensures !DoubleAt(s + [c], i)
    {
      assert i < |s| - 1 ==> !DoubleAt(s, i);
    }
  }

  lemma {:induction false} CollapseEnds(s: string)
    ensures (Collapse(s) == "" <==> s == "") && !HasDouble(Collapse(s))
    ensures s != "" ==> Collapse(s)[0] == s[0] && Collapse(s)[|Collapse(s)| - 1] == s[|s| - 1]
  {
    if s != "" {
      CollapseEnds(s[..|s| - 1]);
      var before, c := Collapse(s[..|s| - 1]), s[|s| - 1];
      if !(before != "" && before[|before| - 1] == '-' && c == '-') {
        NoDoubleAppend(before, c);
      }
    }
  }

  lemma {:induction false} CollapseConcat(a: string, b: string)
    ensures Collapse(a + b) == Glue(Collapse(a), Collapse(b))
  {
    if b == "" {
      assert a + b == a;
    } else {
      var n := |b| - 1;
      CollapseConcat(a, b[..n]);
      assert (a + b)[..|a + b| - 1] == a + b[..n];
      CollapseEnds(a);
      CollapseEnds(b[..n]);
      GlueOne(Collapse(a), Collapse(b[..n]), b[n]);
    }
  }

  function Put(s: string, c: char): string {
    if c == '-' && s != "" && s[|s| - 1] == '-' then s else s + [c]
  }

  lemma GlueOne(x: string, y: string, c: char)
    ensures Put(Glue(x, y), c) == Glue(x, Put(y, c))
  {
    if y == "" {
      assert Glue(x, y) == x;
    } else if x != "" && x[|x| - 1] == '-' && y[0] == '-' {
      assert (y + [c])[1..] == y[1..] + [c];
      assert x + y[1..] + [c] == x + (y[1..] + [c]);
    } else {
      assert x + y + [c] == x + (y + [c]);
    }
  }

  lemma NoDoubleInside(s: string, from: nat, to: nat)
    requires from <= to <= |s| && !HasDouble(s)
    ensures !HasDouble(s[from..to])
  {
    var part := s[from..to];
    forall i | 0 <= i < |part| - 1
      ensures !DoubleAt(part, i)
    {
      assert !DoubleAt(s, from + i);
    }
  }

  lemma {:induction false} CollapseFixed(s: string)
    requires !HasDouble(s)
    ensures Collapse(s) == s
  {
    if s != "" {
      var rest := s[..|s| - 1];
      NoDoubleInside(s, 0, |s| - 1);
      CollapseFixed(rest);
      assert |s| > 1 ==> !DoubleAt(s, |s| - 2);
      assert s == rest + [s[|s| - 1]];
    }
  }

  lemma {:induction false} HalveSameRuns(s: string)
    ensures Collapse(Halve(s)) == Collapse(s)
  {
    if |s| >= 2 {
      if s[0] == '-' && s[1] == '-' {
        HalveSameRuns(s[2..]);
        CollapseConcat("-", Halve(s[2..]));
        CollapseConcat("--", s[2..]);
        assert s == "--" + s[2..];
        assert Collapse("-") == "-" && "--"[..1] == "-";
      } else {
        HalveSameRuns(s[1..]);
        CollapseConcat([s[0]], Halve(s[1..]));
        CollapseConcat([s[0]], s[1..]);
        assert s == [s[0]] + s[1..];
      }
    }
  }

  lemma {:induction false} HalveShrinks(s: string)
    ensures |Halve(s)| <= |s|
    ensures HasDouble(s) ==> |Halve(s)| < |s|
  {
    if |s| >= 2 {
      if s[0] == '-' && s[1] == '-' {
        HalveShrinks(s[2..]);
      } else {
        HalveShrinks(s[1..]);
        if HasDouble(s) {
          var i :| 0 <= i < |s| - 1 && DoubleAt(s, i);
          assert DoubleAt(s[1..], i - 1);
        }
      }
    }
  }

  // ---------- The passes agree ----------

  lemma {:induction false} TrimLeftConcat(a: string, b: string)
    ensures TrimLeft(a + b) == if TrimLeft(a) == "" then TrimLeft(b) else TrimLeft(a) + b
  {
    if a == "" {
      assert a + b == b;
    } else if a[0] == '-' {
      assert (a + b)[1..] == a[1..] + b;
      TrimLeftConcat(a[1..], b);
    }
  }

  /** How the collapsed text and the scan's state hang together. */
  ghost predicate Agree(m: string, out: string, gap: bool) {
    && (out != "" ==> out[0] != '-' && out[|out| - 1] != '-')
    && (out == "" ==> m == if gap then "-" else "")
    && (m != "" ==> (gap <==> m[|m| - 1] == '-'))
    && TrimLeft(m) == if gap && out != "" then out + "-" else out
  }

  lemma {:induction false} ScanAgrees(cs: Charset, s: string)
    requires Sane(cs)
    ensures Agree(Collapse(Mark(cs, s)), Scan(cs, s).0, Scan(cs, s).1)
  {
    if s != "" {
      var rest, c := s[..|s| - 1], s[|s| - 1];
      ScanAgrees(cs, rest);
      var (out, gap) := Scan(cs, rest);
      var m := Collapse(Mark(cs, rest));
      CollapseConcat(Mark(cs, rest), Image(cs, c));
      if cs.alnum(c) {
        LetterAgrees(m, out, gap, cs.lower(c));
      } else {
        assert Collapse("-") == "-";
        DashAgrees(m, out, gap);
      }
    }
  }

  lemma LetterAgrees(m: string, out: string, gap: bool, w: string)
    requires Agree(m, out, gap) && w != "" && DashFree(w)
    ensures Agree(Glue(m, Collapse(w)), (if gap && out != "" then out + "-" else out) + w, false)
  {
    assert w[0] in w && w[|w| - 1] in w;
    NoDashNoDouble(w);
    CollapseFixed(w);
    assert Glue(m, w) == m + w;
    TrimLeftConcat(m, w);
    assert TrimLeft(w) == w;
  }

  lemma NoDashNoDouble(w: string)
    requires DashFree(w)
    ensures !HasDouble(w)
  {
  }

  lemma DashAgrees(m: string, out: string, gap: bool)
    requires Agree(m, out, gap)
    ensures Agree(Glue(m, "-"), out, true)
  {
    if gap && m != "" {
      assert Glue(m, "-") == m;
    } else {
      assert Glue(m, "-") == m + "-";
      TrimLeftConcat(m, "-");
      assert TrimLeft("-") == "";
    }
  }

  /** Collapsing the marked text and trimming its ends gives the single pass. */
  lemma TrimmedIsSlug(cs: Charset, s: string)
    requires Sane(cs)
    ensures TrimRight(TrimLeft(Collapse(Mark(cs, s)))) == Slug(cs, s)
  {
    ScanAgrees(cs, s);
    var (out, gap) := Scan(cs, s);
    if gap && out != "" {
      assert (out + "-")[..|out|] == out;
    }
  }

  lemma {:induction false} StripRightSame(cs: Charset, s: string)
    requires Sane(cs)
    ensures Slug(cs, StripRight(cs, s)) == Slug(cs, s)
  {
    if s != "" && cs.space(s[|s| - 1]) {
      StripRightSame(cs, s[..|s| - 1]);
    }
  }

  lemma {:induction false} LeadingSkipped(cs: Charset, s: string)
    requires s != "" && !cs.alnum(s[0])
    ensures Scan(cs, s[1..]).0 == Scan(cs, s).0 && (Scan(cs, s).0 != "" ==> Scan(cs, s[1..]).1 == Scan(cs, s).1)
  {
    if |s| > 1 {
      LeadingSkipped(cs, s[..|s| - 1]);
      assert s[1..][..|s| - 2] == s[..|s| - 1][1..];
    }
  }

  lemma {:induction false} StripLeftSame(cs: Charset, s: string)
    requires Sane(cs)
    ensures Slug(cs, StripLeft(cs, s)) == Slug(cs, s)
  {
    if s != "" && cs.space(s[0]) {
      StripLeftSame(cs, s[1..]);
      LeadingSkipped(cs, s);
    }
  }

  /** The source's loop ends, and ends in what one pass over the text gives. */
  method Slugify(cs: Charset, value: string) returns (slug: string)
    requires Sane(cs)
    ensures slug == Slug(cs, value)
  {
    var stripped := StripRight(cs, StripLeft(cs, value));
    slug := Mark(cs, stripped);
    while HasDouble(slug)
      invariant Collapse(slug) == Collapse(Mark(cs, stripped))
      decreases |slug|
    {
      HalveSameRuns(slug);
      HalveShrinks(slug);
      slug := Halve(slug);
    }
    CollapseFixed(slug);
    TrimmedIsSlug(cs, stripped);
    StripRightSame(cs, StripLeft(cs, value));
    StripLeftSame(cs, value);
    slug := TrimRight(TrimLeft(slug));
  }

  // ---------- What a slug looks like ----------

  lemma SlugShape(cs: Charset, s: string)
    requires Sane(cs)
    ensures !HasDouble(Slug(cs, s))
    ensures Slug(cs, s) != "" ==> Slug(cs, s)[0] != '-' && Slug(cs, s)[|Slug(cs, s)| - 1] != '-'
  {
    hide Scan, Collapse, Mark, TrimLeft, HasDouble, Sane;
    ScanAgrees(cs, s);
    CollapseEnds(Mark(cs, s));
    var trimmed, out := TrimLeft(Collapse(Mark(cs, s))), Slug(cs, s);
    TrimLeftNoDouble(Collapse(Mark(cs, s)));
    NoDoubleInside(trimmed, 0, |out|);
    assert trimmed[0..|out|] == out;
  }

  lemma {:induction false} TrimLeftNoDouble(s: string)
    requires !HasDouble(s)
    ensures !HasDouble(TrimLeft(s))
  {
    if s != "" && s[0] == '-' {
      NoDoubleInside(s, 1, |s|);
      assert s[1..|s|] == s[1..];
      TrimLeftNoDouble(s[1..]);
    }
  }

  /** Every character of a slug is a dash or comes from a letter or digit, and none of those is lost. */
  lemma {:induction false} SlugLetters(cs: Charset, s: string, d: char)
    requires Sane(cs) && d != '-'
    ensures d in Slug(cs, s) <==> exists i :: 0 <= i < |s| && cs.alnum(s[i]) && d in cs.lower(s[i])
  {
    if s != "" {
      var rest, c := s[..|s| - 1], s[|s| - 1];
      SlugLetters(cs, rest, d);
      if i :| 0 <= i < |rest| && cs.alnum(rest[i]) && d in cs.lower(rest[i]) {
        assert s[i] == rest[i];
      }
      if i :| 0 <= i < |s| && cs.alnum(s[i]) && d in cs.lower(s[i]) {
        assert i < |rest| ==> rest[i] == s[i];
      }
    }
  }

  // ---------- Slugs of slugs ----------

  /** Text of settled letters and single inner dashes is its own slug. */
  lemma {:induction false} OwnSlug(cs: Charset, s: string)
    requires Sane(cs) && !HasDouble(s) && (s != "" ==> s[0] != '-')
    requires forall i :: 0 <= i < |s| ==> s[i] == '-' || (cs.alnum(s[i]) && cs.lower(s[i]) == [s[i]])
    ensures Scan(cs, s) == if s != "" && s[|s| - 1] == '-' then (s[..|s| - 1], true) else (s, false)
  {
    if s != "" {
      var rest, c := s[..|s| - 1], s[|s| - 1];
      NoDoubleInside(s, 0, |s| - 1);
      OwnSlug(cs, rest);
      assert s == rest + [c];
      if rest != "" && rest[|rest| - 1] == '-' {
        assert !DoubleAt(s, |s| - 2);
        assert rest[..|rest| - 1] + "-" == rest;
        assert |rest| > 1;
      }
    }
  }

  /** Every letter or digit of the text lowers to letters and digits. */
  ghost predicate LowersClean(cs: Charset, s: string) {
    forall i, d :: 0 <= i < |s| && cs.alnum(s[i]) && d in cs.lower(s[i]) ==> cs.alnum(d)
  }

  /** Making a slug of a slug changes nothing exactly when no letter of the text lowers to something else than letters. */
  lemma IdempotentExactly(cs: Charset, s: string)
    requires Sane(cs) && Settles(cs)
    ensures Slug(cs, Slug(cs, s)) == Slug(cs, s) <==> LowersClean(cs, s)
  {
    var slug := Slug(cs, s);
    if LowersClean(cs, s) {
      SlugShape(cs, s);
      forall i | 0 <= i < |slug|
        ensures slug[i] == '-' || (cs.alnum(slug[i]) && cs.lower(slug[i]) == [slug[i]])
      {
        if slug[i] != '-' {
          SlugLetters(cs, s, slug[i]);
        }
      }
      OwnSlug(cs, slug);
    } else {
      var i, d :| 0 <= i < |s| && cs.alnum(s[i]) && d in cs.lower(s[i]) && !cs.alnum(d);
      assert d != '-';
      SlugLetters(cs, s, d);
      SlugLetters(cs, slug, d);
      // A letter of a slug is itself the lower case of something, so it is its own lower case.
      forall k | 0 <= k < |slug| && cs.alnum(slug[k])
        ensures d !in cs.lower(slug[k])
      {
        SlugLetters(cs, s, slug[k]);
      }
    }
  }

  // ---------- Character sets ----------

  function AsciiLower(c: char): string { if 'A' <= c <= 'Z' then [c - 'A' + 'a'] else [c] }

  predicate AsciiAlnum(c: char) { '0' <= c <= '9' || 'A' <= c <= 'Z' || 'a' <= c <= 'z' }

  const Ascii := Charset(AsciiAlnum, AsciiLower, c => c == ' ' || '\t' <= c <= '\r')

  /** On ASCII text a slug is always its own slug. */
  lemma AsciiIdempotent(s: string)
    ensures Slug(Ascii, Slug(Ascii, s)) == Slug(Ascii, s)
  {
    AsciiSane();
    IdempotentExactly(Ascii, s);
  }

  lemma AsciiSane()
    ensures Sane(Ascii) && Settles(Ascii) && forall s :: LowersClean(Ascii, s)
  {
  }

  // ASCII and one capital letter, I with a dot above, whose lower case is an i and a combining dot.
  const Dotted := Charset(
    c => c == '\U{130}' || AsciiAlnum(c), c => if c == '\U{130}' then "i\U{307}" else AsciiLower(c), Ascii.space)

  lemma ScanOne(cs: Charset, s: string, c: char)
    ensures var (out, gap) := Scan(cs, s);
            Scan(cs, s + [c]) ==
            if cs.alnum(c) then ((if gap && out != "" then out + "-" else out) + cs.lower(c), false) else (out, true)
  {
    assert (s + [c])[..|s|] == s;
  }

  lemma DottedSane()
    ensures Sane(Dotted) && Settles(Dotted)
  {
  }

  lemma DottedUnclean()
    ensures !LowersClean(Dotted, "\U{130}x")
  {
    assert Dotted.alnum("\U{130}x"[0]) && Dotted.lower("\U{130}x"[0])[1] == '\U{307}' && !Dotted.alnum('\U{307}');
  }

  /** With that letter in the text the slug's slug is another one: its combining dot becomes a dash. */
  lemma DottedNotIdempotent()
    ensures Sane(Dotted) && Settles(Dotted) && !LowersClean(Dotted, "\U{130}x")
    ensures Slug(Dotted, "\U{130}x") == "i\U{307}x" && Slug(Dotted, "i\U{307}x") == "i-x"
  {
    DottedSane();
    DottedUnclean();
    hide Scan, Sane, Settles, LowersClean;
    assert Scan(Dotted, "") == ("", false) by { ScanNone(Dotted); }
    ScanOne(Dotted, "", '\U{130}');
    assert "" + ['\U{130}'] == "\U{130}" && "" + "i\U{307}" == "i\U{307}";
    ScanOne(Dotted, "\U{130}", 'x');
    assert "\U{130}" + ['x'] == "\U{130}x" && "i\U{307}" + "x" == "i\U{307}x";
    ScanOne(Dotted, "", 'i');
    assert "" + ['i'] == "i";
    ScanOne(Dotted, "i", '\U{307}');
    assert "i" + ['\U{307}'] == "i\U{307}";
    ScanOne(Dotted, "i\U{307}", 'x');
    assert "i" + "-" + "x" == "i-x";
  }

  lemma ScanNone(cs: Charset)
    ensures Scan(cs, "") == ("", false)
  {
  }
}

/** Rebuilding a PEM from however the environment mangled its newlines: `normalizeCaCert`. */
module CaCert {
  import opened Sequences
  import opened Text

  /** Replace each literal backslash-n by a line break. */
  function Unescape(s: string): string {
    if s == "" then ""
    else if |s| >= 2 && s[0] == '\\' && s[1] == 'n' then "\n" + Unescape(s[2..])
    else [s[0]] + Unescape(s[1..])
  }

  function Split(s: string): (lines: seq<string>)
    ensures |lines| >= 1
  {
    if s == "" then [""]
    else
      var rest := Split(s[1..]);
      if s[0] == '\n' then [""] + rest else [[s[0]] + rest[0]] + rest[1..]
  }

  function TrimmedOrNothing(line: string): seq<string> {
    if Trim(line) == "" then [] else [Trim(line)]
  }

  /** Trim every line and drop the blank ones. */
  function TrimLines(lines: seq<string>): seq<string> {
    if lines == [] then [] else TrimmedOrNothing(lines[0]) + TrimLines(lines[1..])
  }

  function Clean(s: string): seq<string> {
    TrimLines(Split(s))
  }

  function NormalizeCaCert(caCert: Option<string>): Option<string> {
    if caCert.None? || Trim(caCert.value) == "" then None
    else
      var normalized := Join(Clean(Unescape(Trim(caCert.value))), "\n");
      if normalized == "" then None else Some(normalized)
  }

  // ----- The texts a canonical PEM may have become -----

  datatype Token = Line(text: string) | Blank(c: char) | LineBreak | EscapedBreak

  predicate HasEscape(s: string) {
    exists i :: 0 <= i < |s| - 1 && s[i] == '\\' && s[i + 1] == 'n'
  }

  /** A line of canonical text: not blank, trimmed, free of line breaks in either notation. */
  predicate CanonicalLine(s: string) {
    s != "" && IsTrimmed(s) && '\n' !in s && !HasEscape(s)
  }

  function TokenText(t: Token): string {
    match t
    case Line(text) => text
    case Blank(c) => [c]
    case LineBreak => "\n"
    case EscapedBreak => "\\n"
  }

  function Rendered(ts: seq<Token>): string {
    if ts == [] then "" else TokenText(ts[0]) + Rendered(ts[1..])
  }

  function LinesOf(ts: seq<Token>): seq<string> {
    if ts == [] then []
    else if ts[0].Line? then [ts[0].text] + LinesOf(ts[1..])
    else LinesOf(ts[1..])
  }

  /** Lines are canonical, blanks are blanks, and between two lines there is at least one
      break of either kind; `open` says the line before `ts` has not been broken off yet. */
  predicate Mangled(ts: seq<Token>, open: bool) {
    ts == [] ||
    match ts[0]
    case Line(text) => !open && CanonicalLine(text) && Mangled(ts[1..], true)
    case Blank(c) => IsBlank(c) && c != '\n' && Mangled(ts[1..], open)
    case LineBreak => Mangled(ts[1..], false)
    case EscapedBreak => Mangled(ts[1..], false)
  }

  // ----- Unescaping -----

  lemma {:induction false} UnescapeConcat(a: string, b: string)
    requires a == "" || a[|a| - 1] != '\\' || b == "" || b[0] != 'n'
    ensures Unescape(a + b) == Unescape(a) + Unescape(b)
  {
    var s := a + b;
    if a == "" {
      assert s == b;
    } else if |a| >= 2 && a[0] == '\\' && a[1] == 'n' {
      assert s[2..] == a[2..] + b;
      UnescapeConcat(a[2..], b);
      Assoc("\n", Unescape(a[2..]), Unescape(b));
    } else {
      assert !(|s| >= 2 && s[0] == '\\' && s[1] == 'n');
      assert s[1..] == a[1..] + b;
      UnescapeConcat(a[1..], b);
      Assoc([a[0]], Unescape(a[1..]), Unescape(b));
    }
  }

  lemma {:induction false} UnescapeFree(a: string)
    requires !HasEscape(a)
    ensures Unescape(a) == a
  {
    if a != "" {
      assert |a| >= 2 ==> !(a[0] == '\\' && a[0 + 1] == 'n');
      forall i | 0 <= i < |a[1..]| - 1 ensures !(a[1..][i] == '\\' && a[1..][i + 1] == 'n') {
        assert a[1..][i] == a[i + 1] && a[1..][i + 1] == a[(i + 1) + 1];
      }
      UnescapeFree(a[1..]);
    }
  }

  lemma UnescapePlain(a: string, b: string)
    requires !HasEscape(a) && (a == "" || a[|a| - 1] != '\\' || b == "" || b[0] != 'n')
    ensures Unescape(a + b) == a + Unescape(b)
  {
    UnescapeConcat(a, b);
    UnescapeFree(a);
  }

  lemma {:induction false} UnescapeLeavesNoEscape(s: string)
    ensures !HasEscape(Unescape(s))
    ensures s != "" && Unescape(s) != "" ==> Unescape(s)[0] == s[0] || Unescape(s)[0] == '\n'
  {
    if s != "" {
      if |s| >= 2 && s[0] == '\\' && s[1] == 'n' {
        UnescapeLeavesNoEscape(s[2..]);
        NoEscapeCons('\n', Unescape(s[2..]));
      } else {
        UnescapeLeavesNoEscape(s[1..]);
        assert |s| >= 2 ==> s[1..][0] == s[1];
        NoEscapeCons(s[0], Unescape(s[1..]));
      }
    }
  }

  lemma NoEscapeCons(c: char, s: string)
    requires !HasEscape(s) && (c != '\\' || s == "" || s[0] != 'n')
    ensures !HasEscape([c] + s)
  {
  }

  // ----- Splitting and cleaning -----

  lemma {:induction false} SplitAtBreak(a: string, b: string)
    requires '\n' !in a
    ensures Split(a + "\n" + b) == [a] + Split(b)
  {
    var s := a + "\n" + b;
    if a == "" {
      assert s[0] == '\n' && s[1..] == b;
    } else {
      assert a[0] in a && s[0] == a[0] && s[1..] == a[1..] + "\n" + b;
      SplitAtBreak(a[1..], b);
      assert [a[0]] + a[1..] == a;
    }
  }

  lemma {:induction false} SplitSingle(a: string)
    requires '\n' !in a
    ensures Split(a) == [a]
  {
    if a != "" {
      SplitSingle(a[1..]);
      assert a[0] in a && [a[0]] + a[1..] == a;
    }
  }

  lemma TrimLinesCons(line: string, rest: seq<string>)
    ensures TrimLines([line] + rest) == TrimmedOrNothing(line) + TrimLines(rest)
  {
  }

  lemma CleanAtBreak(line: string, rest: string)
    requires '\n' !in line
    ensures Clean(line + "\n" + rest) == TrimmedOrNothing(line) + Clean(rest)
  {
    SplitAtBreak(line, rest);
    TrimLinesCons(line, Split(rest));
  }

  lemma CleanSingle(line: string)
    requires '\n' !in line
    ensures Clean(line) == TrimmedOrNothing(line)
  {
    SplitSingle(line);
    TrimLinesCons(line, []);
    assert [line] + [] == [line] && TrimmedOrNothing(line) + [] == TrimmedOrNothing(line);
  }

  lemma CleanBlankFirst(c: char, s: string)
    requires IsBlank(c)
    ensures Clean([c] + s) == Clean(s)
  {
    assert ([c] + s)[1..] == s;
    var lines := Split(s);
    if c != '\n' {
      TrimIgnoresPadding([c], lines[0], "");
      NoMore([c] + lines[0]);
    } else {
      TrimOfTrimmed("");
    }
  }

  /** Blanks in front of the text make no difference. */
  lemma {:induction false} CleanPadded(pad: string, s: string)
    requires AllBlank(pad)
    ensures Clean(pad + s) == Clean(s)
  {
    if pad == "" {
      assert pad + s == s;
    } else {
      CleanPadded(pad[1..], s);
      CleanBlankFirst(pad[0], pad[1..] + s);
      Assoc([pad[0]], pad[1..], s);
      assert [pad[0]] + pad[1..] == pad;
    }
  }

  lemma CleanBlank(pad: string)
    requires AllBlank(pad)
    ensures Clean(pad) == []
  {
    CleanPadded(pad, "");
    assert pad + "" == pad;
    TrimOfTrimmed("");
    CleanSingle("");
  }

  lemma FirstBreak(s: string) returns (line: string, rest: string)
    requires '\n' in s
    ensures '\n' !in line && s == line + "\n" + rest
  {
    if s[0] == '\n' {
      line, rest := "", s[1..];
    } else {
      line, rest := FirstBreak(s[1..]);
      Assoc([s[0]], line, "\n" + rest);
      Assoc(line, "\n", rest);
      Assoc([s[0]] + line, "\n", rest);
      line := [s[0]] + line;
    }
  }

  lemma TrimmedEnd(s: string, c: char)
    requires IsBlank(c)
    ensures Trim(s + [c]) == Trim(s)
  {
    TrimIgnoresPadding("", s, [c]);
    assert "" + s == s;
  }

  lemma CleanLineBlankLast(s: string, c: char)
    requires IsBlank(c) && '\n' !in s
    ensures Clean(s + [c]) == Clean(s)
  {
    CleanSingle(s);
    if c == '\n' {
      NoMore(s + "\n");
      CleanAtBreak(s, "");
      CleanBlank("");
      NoMore(TrimmedOrNothing(s));
    } else {
      CleanSingle(s + [c]);
      TrimmedEnd(s, c);
    }
  }

  lemma {:induction false} CleanBlankLast(s: string, c: char)
    requires IsBlank(c)
    ensures Clean(s + [c]) == Clean(s)
    decreases |s|
  {
    if '\n' in s {
      var line, rest := FirstBreak(s);
      CleanAtBreak(line, rest);
      CleanAtBreak(line, rest + [c]);
      CleanBlankLast(rest, c);
      Assoc(line + "\n", rest, [c]);
    } else {
      CleanLineBlankLast(s, c);
    }
  }

  /** Nor do blanks at its end. */
  lemma {:induction false} CleanPaddedEnd(s: string, pad: string)
    requires AllBlank(pad)
    ensures Clean(s + pad) == Clean(s)
    decreases |pad|
  {
    if pad == "" {
      assert s + pad == s;
    } else {
      var init, c := pad[..|pad| - 1], pad[|pad| - 1];
      assert pad == init + [c];
      Assoc(s, init, [c]);
      CleanBlankLast(s + init, c);
      CleanPaddedEnd(s, init);
    }
  }

  lemma CleanIgnoresTrim(s: string)
    ensures Clean(Unescape(Trim(s))) == Clean(Unescape(s))
  {
    var t := Trim(s);
    var pre, post := TrimCuts(s);
    Assoc(pre, t, post);
    UnescapePlain(pre, t + post);
    UnescapeConcat(t, post);
    UnescapeFree(post);
    CleanPadded(pre, Unescape(t) + post);
    CleanPaddedEnd(Unescape(t), post);
  }

  // ----- Round trip -----

  lemma {:induction false} AfterLine(ts: seq<Token>)
    requires Mangled(ts, true)
    ensures Rendered(ts) == "" || Rendered(ts)[0] != 'n'
  {
  }

  /** `line` is the line being read, with the blanks that follow it so far; it is still
      empty between lines. */
  lemma {:induction false} CleanTokens(line: string, blanks: string, ts: seq<Token>)
    requires line == "" || CanonicalLine(line)
    requires AllBlank(blanks) && '\n' !in blanks && Mangled(ts, line != "")
    ensures Clean(line + blanks + Unescape(Rendered(ts))) == Opened(line) + LinesOf(ts)
    decreases |ts|, 1
  {
    if ts == [] {
      assert line + blanks + "" == line + blanks;
      CleanOpened(line, blanks);
      assert Opened(line) + [] == Opened(line);
    } else {
      var tail := ts[1..];
      var r := Rendered(tail);
      match ts[0] {
        case Blank(c) =>
          UnescapePlain([c], r);
          Assoc(line + blanks, [c], Unescape(r));
          Assoc(line, blanks, [c]);
          CleanTokens(line, blanks + [c], tail);
        case Line(text) =>
          CleanLineToken(blanks, text, tail);
          assert line + blanks == blanks && Opened(line) + LinesOf(ts) == LinesOf(ts);
        case LineBreak =>
          UnescapePlain("\n", r);
          BreakOff(line, blanks, tail);
        case EscapedBreak =>
          assert Rendered(ts)[2..] == r;
          BreakOff(line, blanks, tail);
      }
    }
  }

  function Opened(line: string): seq<string> {
    if line == "" then [] else [line]
  }

  lemma CleanOpened(line: string, blanks: string)
    requires line == "" || CanonicalLine(line)
    requires AllBlank(blanks) && '\n' !in blanks
    ensures TrimmedOrNothing(line + blanks) == Opened(line) && '\n' !in line + blanks
    ensures Clean(line + blanks) == Opened(line)
  {
    TrimIgnoresPadding("", line, blanks);
    assert "" + line + blanks == line + blanks;
    TrimOfTrimmed(line);
    CleanSingle(line + blanks);
  }

  lemma {:induction false} CleanLineToken(blanks: string, text: string, tail: seq<Token>)
    requires AllBlank(blanks) && CanonicalLine(text) && Mangled(tail, true)
    ensures Clean(blanks + Unescape(text + Rendered(tail))) == [text] + LinesOf(tail)
    decreases |tail|, 2
  {
    AfterLine(tail);
    UnescapePlain(text, Rendered(tail));
    CleanPadded(blanks, text + Unescape(Rendered(tail)));
    CleanTokens(text, "", tail);
    assert text + "" == text;
  }

  lemma {:induction false} BreakOff(line: string, blanks: string, tail: seq<Token>)
    requires line == "" || CanonicalLine(line)
    requires AllBlank(blanks) && '\n' !in blanks && Mangled(tail, false)
    ensures Clean(line + blanks + ("\n" + Unescape(Rendered(tail)))) == Opened(line) + LinesOf(tail)
    decreases |tail|, 2
  {
    var u := Unescape(Rendered(tail));
    CleanOpened(line, blanks);
    CleanAtBreak(line + blanks, u);
    Assoc(line + blanks, "\n", u);
    CleanTokens("", "", tail);
    assert "" + "" + u == u;
    assert Opened("") + LinesOf(tail) == LinesOf(tail);
  }

  lemma {:induction false} JoinNonEmpty(lines: seq<string>)
    requires lines != [] && forall l :: l in lines ==> l != ""
    ensures Join(lines, "\n") != ""
  {
    assert lines[0] in lines;
  }

  lemma CleanRendered(ts: seq<Token>)
    requires Mangled(ts, false)
    ensures Clean(Unescape(Trim(Rendered(ts)))) == LinesOf(ts)
  {
    CleanTokens("", "", ts);
    assert "" + "" + Unescape(Rendered(ts)) == Unescape(Rendered(ts));
    assert Opened("") + LinesOf(ts) == LinesOf(ts);
    CleanIgnoresTrim(Rendered(ts));
  }

  /** Whatever mixture of real line breaks, literal backslash-n's and stray blanks separates
      the lines, normalizing gives back the canonical text. */
  lemma NormalizeRestores(ts: seq<Token>)
    requires Mangled(ts, false) && LinesOf(ts) != []
    ensures NormalizeCaCert(Some(Rendered(ts))) == Some(Join(LinesOf(ts), "\n"))
  {
    CleanRendered(ts);
    CleanBlank("");
    LinesAreCanonical(ts, false);
    JoinNonEmpty(LinesOf(ts));
  }

  lemma {:induction false} LinesAreCanonical(ts: seq<Token>, open: bool)
    requires Mangled(ts, open)
    ensures forall l :: l in LinesOf(ts) ==> CanonicalLine(l)
  {
    if ts != [] {
      LinesAreCanonical(ts[1..], if ts[0].Line? then true else if ts[0].Blank? then open else false);
    }
  }

  // ----- Idempotence -----

  /** The canonical text as a token sequence. */
  function Canonical(lines: seq<string>): seq<Token> {
    if lines == [] then []
    else if |lines| == 1 then [Line(lines[0])]
    else [Line(lines[0]), LineBreak] + Canonical(lines[1..])
  }

  lemma {:induction false} CanonicalRendering(lines: seq<string>)
    requires forall l :: l in lines ==> CanonicalLine(l)
    ensures Rendered(Canonical(lines)) == Join(lines, "\n")
  {
    if |lines| == 1 {
      var ts := Canonical(lines);
      assert ts[1..] == [];
      NoMore(lines[0]);
    } else if lines != [] {
      CanonicalRendering(lines[1..]);
      CanonicalTail(lines);
      Assoc(lines[0], "\n", Join(lines[1..], "\n"));
    }
  }

  lemma CanonicalTail(lines: seq<string>)
    requires |lines| > 1
    ensures var ts := Canonical(lines);
            && |ts| > 1 && ts[0] == Line(lines[0]) && ts[1..] == [LineBreak] + Canonical(lines[1..])
            && ts[1..][0] == LineBreak && ts[1..][1..] == Canonical(lines[1..])
  {
    AfterPair(Line(lines[0]), LineBreak, Canonical(lines[1..]));
  }

  lemma {:induction false} CanonicalLines(lines: seq<string>)
    requires forall l :: l in lines ==> CanonicalLine(l)
    ensures LinesOf(Canonical(lines)) == lines && Mangled(Canonical(lines), false)
  {
    if |lines| == 1 {
      assert Canonical(lines)[1..] == [];
    } else if lines != [] {
      CanonicalLines(lines[1..]);
      CanonicalTail(lines);
      assert lines == [lines[0]] + lines[1..];
    }
  }

  lemma NoEscapeSub(whole: string, i: nat, j: nat)
    requires i <= j <= |whole| && !HasEscape(whole)
    ensures !HasEscape(whole[i..j])
  {
  }

  lemma {:induction false} SplitLines(s: string)
    requires !HasEscape(s)
    ensures Split(s)[0] <= s
    ensures forall l :: l in Split(s) ==> '\n' !in l && !HasEscape(l)
  {
    if s != "" {
      NoEscapeSub(s, 1, |s|);
      SplitLines(s[1..]);
      var rest := Split(s[1..]);
      var first := [s[0]] + rest[0];
      if s[0] != '\n' {
        assert first == s[..|first|];
        NoEscapeSub(s, 0, |first|);
        forall l | l in Split(s) ensures '\n' !in l && !HasEscape(l) {
          assert l == first || l in rest;
        }
      }
    }
  }

  lemma {:induction false} TrimLinesCanonical(lines: seq<string>)
    requires forall l :: l in lines ==> '\n' !in l && !HasEscape(l)
    ensures forall l :: l in TrimLines(lines) ==> CanonicalLine(l)
  {
    if lines != [] {
      TrimLinesCanonical(lines[1..]);
      TrimmedLine(lines[0]);
    }
  }

  lemma TrimmedLine(line: string)
    requires '\n' !in line && !HasEscape(line)
    ensures Trim(line) != "" ==> CanonicalLine(Trim(line))
  {
    var pre, post := TrimCuts(line);
    assert Trim(line) == line[|pre|..|pre| + |Trim(line)|];
    NoEscapeSub(line, |pre|, |pre| + |Trim(line)|);
  }

  /** Normalizing twice is normalizing once, for every input. */
  lemma NormalizeIsIdempotent(caCert: Option<string>)
    ensures NormalizeCaCert(NormalizeCaCert(caCert)) == NormalizeCaCert(caCert)
  {
    if NormalizeCaCert(caCert).Some? {
      var u := Unescape(Trim(caCert.value));
      UnescapeLeavesNoEscape(Trim(caCert.value));
      SplitLines(u);
      TrimLinesCanonical(Split(u));
      CanonicalRendering(Clean(u));
      CanonicalLines(Clean(u));
      assert Clean(u) != [];
      NormalizeRestores(Canonical(Clean(u)));
    }
  }
}

/** JavaScript string trimming. */
module Text {
  import opened Sequences

  /** The white space and line terminators `String.prototype.trim` removes. */
  predicate IsBlank(c: char) {
    '\t' <= c <= '\r' || c == ' ' || c == '\U{A0}' || c == '\U{1680}' || '\U{2000}' <= c <= '\U{200A}'
    || '\U{2028}' <= c <= '\U{2029}' || c == '\U{202F}' || c == '\U{205F}' || c == '\U{3000}' || c == '\U{FEFF}'
  }

  predicate AllBlank(s: string) {
    forall i :: 0 <= i < |s| ==> IsBlank(s[i])
  }

  predicate IsTrimmed(s: string) {
    s == "" || (!IsBlank(s[0]) && !IsBlank(s[|s| - 1]))
  }

  function TrimStart(s: string): (r: string)
    ensures r == "" || !IsBlank(r[0])
  {
    if s != "" && IsBlank(s[0]) then TrimStart(s[1..]) else s
  }

  function TrimEnd(s: string): (r: string)
    ensures r <= s && (r == "" || !IsBlank(r[|r| - 1]))
  {
    if s != "" && IsBlank(s[|s| - 1]) then TrimEnd(s[..|s| - 1]) else s
  }

  function Trim(s: string): (r: string)
    ensures IsTrimmed(r)
  {
    TrimEnd(TrimStart(s))
  }

  lemma {:induction false} TrimStartCuts(s: string) returns (pre: string)
    ensures AllBlank(pre) && s == pre + TrimStart(s)
  {
    pre := "";
    if s != "" && IsBlank(s[0]) {
      pre := TrimStartCuts(s[1..]);
      Assoc([s[0]], pre, TrimStart(s));
      pre := [s[0]] + pre;
    }
  }

  lemma {:induction false} TrimEndCuts(s: string) returns (post: string)
    ensures AllBlank(post) && s == TrimEnd(s) + post
  {
    post := "";
    if s != "" && IsBlank(s[|s| - 1]) {
      post := TrimEndCuts(s[..|s| - 1]);
      Assoc(TrimEnd(s), post, [s[|s| - 1]]);
      post := post + [s[|s| - 1]];
    }
  }

  /** Trimming cuts off blanks only. */
  lemma TrimCuts(s: string) returns (pre: string, post: string)
    ensures AllBlank(pre) && AllBlank(post) && s == pre + Trim(s) + post
  {
    pre := TrimStartCuts(s);
    post := TrimEndCuts(TrimStart(s));
    Assoc(pre, Trim(s), post);
  }

  /** Trimming is determined by its result: padding a trimmed text with blanks and
      trimming gives it back. */
  lemma TrimPadded(pre: string, text: string, post: string)
    requires AllBlank(pre) && AllBlank(post) && IsTrimmed(text)
    ensures Trim(pre + text + post) == text
  {
    var s := pre + text + post;
    var pre', post' := TrimCuts(s);
    SameCore(pre, text, post, pre', Trim(s), post');
  }

  lemma CoreBounds(pre: string, text: string, post: string, pre': string, text': string, post': string)
    requires AllBlank(pre') && AllBlank(post') && text != "" && IsTrimmed(text)
    requires pre + text + post == pre' + text' + post'
    ensures |pre'| <= |pre| && |pre| + |text| <= |pre'| + |text'|
  {
    var s := pre + text + post;
    assert !IsBlank(s[|pre|]) && !IsBlank(s[|pre| + |text| - 1]);
    assert forall i :: 0 <= i < |pre'| ==> s[i] == pre'[i];
    assert forall i :: |pre'| + |text'| <= i < |s| ==> s[i] == post'[i - |pre'| - |text'|];
  }

  /** A text has only one trimmed core. */
  lemma SameCore(pre: string, text: string, post: string, pre': string, text': string, post': string)
    requires AllBlank(pre) && AllBlank(post) && IsTrimmed(text)
    requires AllBlank(pre') && AllBlank(post') && IsTrimmed(text')
    requires pre + text + post == pre' + text' + post'
    ensures text == text'
  {
    if text != "" {
      CoreBounds(pre, text, post, pre', text', post');
    }
    if text' != "" {
      CoreBounds(pre', text', post', pre, text, post);
    }
    var s := pre + text + post;
    if text != "" {
      assert text == s[|pre|..|pre| + |text|] && text' == (pre' + text' + post')[|pre'|..|pre'| + |text'|];
    }
  }

  lemma TrimOfTrimmed(text: string)
    requires IsTrimmed(text)
    ensures Trim(text) == text
  {
  }

  lemma TrimIgnoresPadding(pad: string, s: string, pad': string)
    requires AllBlank(pad) && AllBlank(pad')
    ensures Trim(pad + s + pad') == Trim(s)
  {
    var pre, post := TrimCuts(s);
    TrimPadded(pad + pre, Trim(s), post + pad');
    Regroup(pad, pre, Trim(s), post, pad');
  }

  lemma Regroup(a: string, b: string, c: string, d: string, e: string)
    ensures a + (b + c + d) + e == (a + b) + c + (d + e)
  {
  }

  function LowerChar(c: char): char {
    if 'A' <= c <= 'Z' then (c as int + 32) as char else c
  }

  /** The two cases of a letter, and nothing else, have one lower case. */
  lemma LowerIs(i: nat, c: char)
    ensures i < 26 ==> LowerChar(('A' as int + i) as char) == ('a' as int + i) as char
    ensures !('A' <= c <= 'Z') ==> LowerChar(c) == c
  {
  }

  /** Lower case of the ASCII letters, other characters unchanged. */
  function Lower(s: string): (r: string)
    ensures |r| == |s| && forall i :: 0 <= i < |s| ==> r[i] == LowerChar(s[i])
  {
    Map(LowerChar, s)
  }
}

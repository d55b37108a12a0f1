/** The string operations of the Rust standard library that the gateway relies on. */
module Text {

  /** The Unicode White_Space property, as `char::is_whitespace` reads it. */
  predicate IsWhitespace(c: char) {
    || '\U{0009}' <= c <= '\U{000D}'
    || c == '\U{0020}' || c == '\U{0085}' || c == '\U{00A0}' || c == '\U{1680}'
    || '\U{2000}' <= c <= '\U{200A}'
    || c == '\U{2028}' || c == '\U{2029}' || c == '\U{202F}' || c == '\U{205F}' || c == '\U{3000}'
  }

  function TrimStart(s: string): string {
    if s != [] && IsWhitespace(s[0]) then TrimStart(s[1..]) else s
  }

  function TrimEnd(s: string): string {
    if s != [] && IsWhitespace(s[|s| - 1]) then TrimEnd(s[..|s| - 1]) else s
  }

  function Trim(s: string): string {
    TrimEnd(TrimStart(s))
  }

  ghost predicate Trimmed(s: string) {
    s == [] || (!IsWhitespace(s[0]) && !IsWhitespace(s[|s| - 1]))
  }

  ghost predicate AllWhitespace(s: string) {
    forall i :: 0 <= i < |s| ==> IsWhitespace(s[i])
  }

  lemma {:induction false} TrimStartSplits(s: string) returns (pre: string)
    ensures s == pre + TrimStart(s) && AllWhitespace(pre)
    ensures TrimStart(s) != [] ==> !IsWhitespace(TrimStart(s)[0])
  {
    if s != [] && IsWhitespace(s[0]) {
      var rest := TrimStartSplits(s[1..]);
      pre := [s[0]] + rest;
    } else {
      pre := [];
    }
  }

  lemma {:induction false} TrimEndSplits(s: string) returns (post: string)
    ensures s == TrimEnd(s) + post && AllWhitespace(post)
    ensures TrimEnd(s) != [] ==> !IsWhitespace(TrimEnd(s)[|TrimEnd(s)| - 1])
  {
    if s != [] && IsWhitespace(s[|s| - 1]) {
      var rest := TrimEndSplits(s[..|s| - 1]);
      post := rest + [s[|s| - 1]];
    } else {
      post := [];
    }
  }

  /** Trimming removes white space on both sides and nothing else. */
  lemma TrimSplits(s: string) returns (pre: string, post: string)
    ensures s == pre + Trim(s) + post
    ensures AllWhitespace(pre) && AllWhitespace(post) && Trimmed(Trim(s))
  {
    pre := TrimStartSplits(s);
    post := TrimEndSplits(TrimStart(s));
    assert TrimStart(s) == Trim(s) + post;
    if Trim(s) != [] {
      assert TrimStart(s)[0] == Trim(s)[0];
    }
  }

  lemma TrimOfTrimmed(s: string)
    requires Trimmed(s)
    ensures Trim(s) == s
  {
  }

  lemma Assoc<T>(a: seq<T>, b: seq<T>, c: seq<T>)
    ensures a + (b + c) == a + b + c
  {
  }

  lemma TakeSnoc<T>(xs: seq<T>, i: nat)
    requires i < |xs|
    ensures xs[..i + 1] == xs[..i] + [xs[i]]
  {
  }

  lemma SplitLast<T>(xs: seq<T>)
    requires xs != []
    ensures xs == xs[..|xs| - 1] + [xs[|xs| - 1]]
  {
  }

  function Concat<T>(ss: seq<seq<T>>): seq<T> {
    if ss == [] then [] else ss[0] + Concat(ss[1..])
  }

  lemma {:induction false} ConcatAppend<T>(a: seq<seq<T>>, b: seq<seq<T>>)
    ensures Concat(a + b) == Concat(a) + Concat(b)
  {
    if a == [] {
      assert a + b == b;
    } else {
      assert (a + b)[1..] == a[1..] + b;
      ConcatAppend(a[1..], b);
    }
  }

  lemma ConcatSnoc<T>(a: seq<seq<T>>, x: seq<T>)
    ensures Concat(a + [x]) == Concat(a) + x
  {
    ConcatAppend(a, [x]);
    assert Concat([x]) == x + Concat([x][1..]);
  }

  function Join(ss: seq<string>, sep: string): string {
    if ss == [] then []
    else if |ss| == 1 then ss[0]
    else ss[0] + sep + Join(ss[1..], sep)
  }

  lemma {:induction false} JoinSnoc(ss: seq<string>, x: string, sep: string)
    requires ss != []
    ensures Join(ss + [x], sep) == Join(ss, sep) + sep + x
  {
    var t := ss + [x];
    assert t[1..] == ss[1..] + [x];
    if |ss| == 1 {
      assert t[1..] == [x];
    } else {
      JoinSnoc(ss[1..], x, sep);
      calc {
        Join(t, sep);
        ss[0] + sep + Join(ss[1..] + [x], sep);
        ss[0] + sep + (Join(ss[1..], sep) + sep + x);
        Join(ss, sep) + sep + x;
      }
    }
  }

  /** The position of the first occurrence of a character, or the length when there is none. */
  function Find(s: string, c: char): (i: nat)
    ensures i <= |s|
    ensures c !in s[..i]
    ensures i < |s| ==> s[i] == c
  {
    if s == [] || s[0] == c then 0
    else
      var i := 1 + Find(s[1..], c);
      assert s[..i] == [s[0]] + s[1..][..i - 1];
      i
  }

  lemma {:induction false} FindIsFirst(s: string, c: char, i: nat)
    requires i < |s| && s[i] == c && c !in s[..i]
    ensures Find(s, c) == i
  {
    if i == 0 {
    } else {
      assert s[..i] == [s[0]] + s[1..][..i - 1];
      FindIsFirst(s[1..], c, i - 1);
    }
  }

  lemma {:induction false} FindNone(s: string, c: char)
    requires c !in s
    ensures Find(s, c) == |s|
  {
    if s == [] {
    } else {
      assert s[0] in s;
      FindNone(s[1..], c);
    }
  }

  function StripCr(line: string): string {
    if line != [] && line[|line| - 1] == '\r' then line[..|line| - 1] else line
  }

  /** The newline-terminated lines of a text, without their LF or CRLF terminators: the definition
      reads the text one character at a time. */
  function CompleteLines(s: string): seq<string> {
    if s == [] then []
    else
      var init, last := s[..|s| - 1], s[|s| - 1];
      if last == '\n' then CompleteLines(init) + [StripCr(Residue(init))] else CompleteLines(init)
  }

  /** What follows the last newline of a text. */
  function Residue(s: string): (r: string)
    ensures '\n' !in r
    ensures |r| <= |s|
  {
    if s == [] || s[|s| - 1] == '\n' then [] else Residue(s[..|s| - 1]) + [s[|s| - 1]]
  }

  /** `str::lines`: a last line without terminator is kept as it stands, an empty one is not. */
  function Lines(s: string): seq<string> {
    CompleteLines(s) + if Residue(s) == [] then [] else [Residue(s)]
  }

  lemma LinesOfSnoc(s: string, c: char)
    ensures CompleteLines(s + [c]) == if c == '\n' then CompleteLines(s) + [StripCr(Residue(s))] else CompleteLines(s)
    ensures Residue(s + [c]) == if c == '\n' then "" else Residue(s) + [c]
  {
    assert (s + [c])[..|s|] == s;
  }

  lemma {:induction false} NoLine(s: string)
    requires '\n' !in s
    ensures CompleteLines(s) == [] && Residue(s) == s
  {
    if s == [] {
    } else {
      var init, last := s[..|s| - 1], s[|s| - 1];
      NoLine(init);
      LinesOfSnoc(init, last);
      SplitLast(s);
    }
  }

  lemma LinesOfConcatSnoc(a: string, b: string, c: char, head: seq<string>, residue: string)
    requires CompleteLines(a + b) == head + CompleteLines(residue + b)
    requires Residue(a + b) == Residue(residue + b)
    ensures CompleteLines(a + (b + [c])) == head + CompleteLines(residue + (b + [c]))
    ensures Residue(a + (b + [c])) == Residue(residue + (b + [c]))
  {
    Assoc(a, b, [c]);
    Assoc(residue, b, [c]);
    LinesOfSnoc(a + b, c);
    LinesOfSnoc(residue + b, c);
    Assoc(head, CompleteLines(residue + b), [StripCr(Residue(residue + b))]);
  }

  /** Splitting a text into lines can be suspended anywhere: only the residue has to be kept. */
  lemma {:induction false} LinesOfConcat(a: string, b: string)
    ensures CompleteLines(a + b) == CompleteLines(a) + CompleteLines(Residue(a) + b)
    ensures Residue(a + b) == Residue(Residue(a) + b)
  {
    if b == [] {
      NoLine(Residue(a));
      assert a + b == a && Residue(a) + b == Residue(a);
    } else {
      var init, last := b[..|b| - 1], b[|b| - 1];
      LinesOfConcat(a, init);
      LinesOfConcatSnoc(a, init, last, CompleteLines(a), Residue(a));
      SplitLast(b);
    }
  }

  lemma FirstLine(line: string, rest: string)
    requires '\n' !in line
    ensures CompleteLines(line + "\n" + rest) == [StripCr(line)] + CompleteLines(rest)
    ensures Residue(line + "\n" + rest) == Residue(rest)
  {
    NoLine(line);
    LinesOfSnoc(line, '\n');
    LinesOfConcat(line + "\n", rest);
    assert "" + rest == rest;
  }

  /** Lower case for ASCII letters, which is all that a comparison with an ASCII name can see. */
  function LowerAscii(s: string): string {
    seq(|s|, i requires 0 <= i < |s| => if 'A' <= s[i] <= 'Z' then ((s[i] as int) + 32) as char else s[i])
  }

  // ---------------------------------------------------------------- substrings

  predicate Contains(text: string, part: string) {
    exists i | 0 <= i <= |text| :: part <= text[i..]
  }

  ghost predicate Occurs(part: string, text: string) {
    exists pre, post :: text == pre + part + post
  }

  lemma ContainsIff(text: string, part: string)
    ensures Contains(text, part) <==> Occurs(part, text)
  {
    if Contains(text, part) {
      var i :| 0 <= i <= |text| && part <= text[i..];
      assert text == text[..i] + part + text[i..][|part|..];
    }
    if Occurs(part, text) {
      var pre, post :| text == pre + part + post;
      SuffixAt(pre, part + post);
      Assoc(pre, part, post);
      assert part <= part + post;
    }
  }

  lemma SuffixAt(pre: string, rest: string)
    ensures (pre + rest)[|pre|..] == rest
  {
  }
}

/** Rule-based token estimation (src/proxy/upstream.rs, `estimate_tokens_by_rules`). */
module TokenEstimate {
  import opened Text

  predicate IsWordChar(c: char) {
    'a' <= c <= 'z' || 'A' <= c <= 'Z'
  }

  predicate IsCjk(c: char) {
    || '\U{4E00}' <= c <= '\U{9FFF}'
    || '\U{3400}' <= c <= '\U{4DBF}'
    || '\U{F900}' <= c <= '\U{FAFF}'
  }

  predicate IsPunctuation(c: char) {
    || '!' <= c <= '/' || ':' <= c <= '@' || '[' <= c <= '`' || '{' <= c <= '~'
    || c in "，。！？；：、“”‘’（）【】《》「」『』—…·～﹏－"
  }

  /** A character that counts on its own: neither a letter nor white space. */
  predicate IsOther(c: char) {
    !IsWordChar(c) && !IsWhitespace(c)
  }

  ghost predicate StartsWord(s: string, i: nat)
    requires i < |s|
  {
    IsWordChar(s[i]) && (i == 0 || !IsWordChar(s[i - 1]))
  }

  /** Positions where a maximal run of ASCII letters begins. */
  ghost function WordStarts(s: string): set<nat> {
    set i: nat | i < |s| && StartsWord(s, i)
  }

  ghost function Others(s: string): set<nat> {
    set i: nat | i < |s| && IsOther(s[i])
  }

  /** ceil((5 * words + 2 * others) / 2), in integers. */
  ghost function Estimate(s: string): nat {
    (5 * |WordStarts(s)| + 2 * |Others(s)| + 1) / 2
  }

  lemma CountsOfSnoc(s: string, c: char)
    ensures WordStarts(s + [c]) == WordStarts(s) +
            if IsWordChar(c) && (s == [] || !IsWordChar(s[|s| - 1])) then {|s|} else {}
    ensures Others(s + [c]) == Others(s) + if IsOther(c) then {|s|} else {}
    ensures |s| !in WordStarts(s) && |s| !in Others(s)
  {
    var t := s + [c];
    assert forall i :: 0 <= i < |s| ==> t[i] == s[i];
  }

  lemma OneMoreChar(s: string, i: nat)
    requires i < |s|
    ensures |WordStarts(s[..i + 1])| == |WordStarts(s[..i])| + if StartsWord(s, i) then 1 else 0
    ensures |Others(s[..i + 1])| == |Others(s[..i])| + if IsOther(s[i]) then 1 else 0
  {
    CountsOfSnoc(s[..i], s[i]);
    TakeSnoc(s, i);
  }

  function Ceil(x: real): int {
    -((-x).Floor)
  }

  method EstimateTokensByRules(text: string) returns (estimated: int)
    ensures estimated == Estimate(text)
  {
    var trimmed := Trim(text);
    EstimateIgnoresTrimming(text);
    if trimmed == [] {
      return 0;
    }
    var cjkChars, englishWords, punctuationChars, otherChars := 0, 0, 0, 0;
    var inEnglishWord := false;
    for i := 0 to |trimmed|
      invariant inEnglishWord == (i > 0 && IsWordChar(trimmed[i - 1]))
      invariant englishWords == |WordStarts(trimmed[..i])|
      invariant cjkChars + punctuationChars + otherChars == |Others(trimmed[..i])|
    {
      var ch := trimmed[i];
      OneMoreChar(trimmed, i);
      if IsWordChar(ch) {
        if !inEnglishWord {
          englishWords := englishWords + 1;
          inEnglishWord := true;
        }
        continue;
      }
      inEnglishWord := false;
      if IsWhitespace(ch) {
        continue;
      }
      if IsCjk(ch) {
        cjkChars := cjkChars + 1;
        continue;
      }
      if IsPunctuation(ch) {
        punctuationChars := punctuationChars + 1;
        continue;
      }
      otherChars := otherChars + 1;
    }
    assert trimmed[..|trimmed|] == trimmed;
    var sum := cjkChars as real + englishWords as real * 2.5 + punctuationChars as real + otherChars as real;
    CeilOfHalves(5 * englishWords + 2 * (cjkChars + punctuationChars + otherChars), sum);
    estimated := Ceil(sum);
  }

  lemma CeilOfHalves(n: nat, x: real)
    requires x * 2.0 == n as real
    ensures Ceil(x) == (n + 1) / 2
  {
    var q := (n + 1) / 2;
    assert (-x) - 1.0 < (-q) as real <= -x;
  }

  /** Positions shifted to the right, with their number unchanged. */
  lemma ShiftKeepsSize(a: set<nat>, k: nat, b: set<nat>)
    requires forall i :: i in b <==> i >= k && i - k in a
    ensures |b| == |a|
  {
    if a == {} {
      assert b == {};
    } else {
      var x :| x in a;
      ShiftKeepsSize(a - {x}, k, b - {x + k});
      assert x + k in b;
    }
  }

  /** Does a run of letters of `a` continue into `b`? */
  ghost predicate WordRunsOn(a: string, b: string) {
    a != [] && b != [] && IsWordChar(a[|a| - 1]) && IsWordChar(b[0])
  }

  lemma StartsOfConcat(a: string, b: string, i: nat)
    ensures i in WordStarts(a + b) <==>
            if i < |a| then i in WordStarts(a) else i - |a| in WordStarts(b) && !(i == |a| && WordRunsOn(a, b))
  {
    if i < |a + b| {
      assert (a + b)[i] == if i < |a| then a[i] else b[i - |a|];
      assert i > 0 ==> (a + b)[i - 1] == if i - 1 < |a| then a[i - 1] else b[i - 1 - |a|];
    }
  }

  lemma WordsOfConcat(a: string, b: string)
    ensures |WordStarts(a + b)| == |WordStarts(a)| + |WordStarts(b)| - if WordRunsOn(a, b) then 1 else 0
  {
    var n: nat := |a|;
    var late := WordStarts(a + b) - WordStarts(a);
    var shifted := if WordRunsOn(a, b) then late + {n} else late;
    forall i: nat ensures i in WordStarts(a + b) <==>
            if i < n then i in WordStarts(a) else i - n in WordStarts(b) && !(i == n && WordRunsOn(a, b))
    {
      StartsOfConcat(a, b, i);
    }
    assert WordStarts(a) <= WordStarts(a + b);
    StartsOfConcat(a, b, n);
    assert WordRunsOn(a, b) ==> 0 in WordStarts(b) && n !in late;
    ShiftKeepsSize(WordStarts(b), n, shifted);
  }

  lemma OthersOfConcat(a: string, b: string)
    ensures |Others(a + b)| == |Others(a)| + |Others(b)|
  {
    var s, n: nat := a + b, |a|;
    var late := set i | i in Others(s) && i >= n;
    assert Others(s) == Others(a) + late;
    ShiftKeepsSize(Others(b), n, late);
  }

  lemma WhitespaceCountsNothing(s: string)
    requires AllWhitespace(s)
    ensures WordStarts(s) == {} && Others(s) == {}
  {
  }

  /** Leading and trailing white space does not change the estimate. */
  lemma EstimateIgnoresTrimming(s: string)
    ensures Estimate(Trim(s)) == Estimate(s)
    ensures Trim(s) == [] ==> Estimate(s) == 0
  {
    var pre, post := TrimSplits(s);
    WhitespaceCountsNothing(pre);
    WhitespaceCountsNothing(post);
    WordsOfConcat(pre + Trim(s), post);
    WordsOfConcat(pre, Trim(s));
    OthersOfConcat(pre + Trim(s), post);
    OthersOfConcat(pre, Trim(s));
  }

  /** The estimate is subadditive, and splitting a text costs at most three tokens. */
  lemma EstimateOfConcat(a: string, b: string)
    ensures Estimate(a) + Estimate(b) - 3 <= Estimate(a + b) <= Estimate(a) + Estimate(b)
  {
    WordsOfConcat(a, b);
    OthersOfConcat(a, b);
  }

  lemma {:induction false} OthersCount(s: string)
    requires forall i :: 0 <= i < |s| ==>
               !('a' <= s[i] <= 'z') && !('A' <= s[i] <= 'Z') && !IsWhitespace(s[i])
    ensures |Others(s)| == |s| && WordStarts(s) == {}
  {
    if s == "" {
    } else {
      var init, last := s[..|s| - 1], s[|s| - 1];
      OthersCount(init);
      CountsOfSnoc(init, last);
      SplitLast(s);
    }
  }

  /** Where there are no letters and no white space, every character counts once. */
  lemma OthersCountOnce(s: string)
    requires forall i :: 0 <= i < |s| ==>
               !('a' <= s[i] <= 'z') && !('A' <= s[i] <= 'Z') && !IsWhitespace(s[i])
    ensures Estimate(s) == |s|
  {
    OthersCount(s);
  }

  /** A single word of any length counts three, which is two and a half rounded up. */
  lemma OneWordIsThree(s: string)
    requires s != "" && forall i :: 0 <= i < |s| ==> 'a' <= s[i] <= 'z' || 'A' <= s[i] <= 'Z'
    ensures Estimate(s) == 3
  {
    assert WordStarts(s) == {0} && Others(s) == {};
  }

  /** Three is attained: two letters make one word together and two words apart. */
  lemma SplittingAWordCostsThree()
    ensures Estimate("x") + Estimate("y") - 3 == Estimate("x" + "y")
  {
    assert WordStarts("x") == {0} && WordStarts("y") == {0};
    WordsOfConcat("x", "y");
    OthersOfConcat("x", "y");
    assert Others("x") == {} && Others("y") == {};
  }
}

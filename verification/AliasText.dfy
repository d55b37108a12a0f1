/** Comma-separated lists of names (src/db/model_visibility.rs, `parse_aliases`, `normalize_aliases`,
    `normalize_keywords`). */
module AliasText {
  import opened Wrappers
  import opened Text

  function Split(s: string, sep: char): seq<string>
    decreases |s|
  {
    var i := Find(s, sep);
    if i == |s| then [s] else [s[..i]] + Split(s[i + 1..], sep)
  }

  /** Trim every piece and keep the non-empty ones. */
  function Cleaned(pieces: seq<string>): seq<string> {
    if pieces == [] then []
    else
      var last := Trim(pieces[|pieces| - 1]);
      Cleaned(pieces[..|pieces| - 1]) + if last == "" then [] else [last]
  }

  function ParseAliases(raw: Option<string>): seq<string> {
    Cleaned(Split(raw.GetOr(""), ','))
  }

  /** The first occurrence of each element. */
  function Deduped(xs: seq<string>): seq<string> {
    if xs == [] then []
    else
      var init, last := Deduped(xs[..|xs| - 1]), xs[|xs| - 1];
      if last in init then init else init + [last]
  }

  function AliasSource(aliases: Option<seq<string>>, alias: Option<string>): string {
    if aliases.Some? then Join(aliases.value, ",") else alias.GetOr("")
  }

  function Normalized(aliases: Option<seq<string>>, alias: Option<string>): seq<string> {
    Deduped(Cleaned(Split(AliasSource(aliases, alias), ',')))
  }

  function NormalizedKeywords(raw: Option<seq<string>>): seq<string> {
    Deduped(Cleaned(raw.GetOr([])))
  }

  /** The column that stores a list: NULL when it is empty. */
  function Stored(names: seq<string>): Option<string> {
    if names == [] then None else Some(Join(names, ","))
  }

  lemma CleanOneMore(pieces: seq<string>, i: nat)
    requires i < |pieces|
    ensures var before, piece := Cleaned(pieces[..i]), Trim(pieces[i]);
            Deduped(Cleaned(pieces[..i + 1])) ==
            if piece == "" || piece in Deduped(before) then Deduped(before) else Deduped(before) + [piece]
  {
    var before, piece := Cleaned(pieces[..i]), Trim(pieces[i]);
    assert pieces[..i + 1][..i] == pieces[..i];
    assert before + [] == before;
    assert (before + [piece])[..|before|] == before;
  }

  /** The loop shared by both normalisations. */
  method PushNew(pieces: seq<string>) returns (out: seq<string>)
    ensures out == Deduped(Cleaned(pieces))
  {
    out := [];
    for i := 0 to |pieces|
      invariant out == Deduped(Cleaned(pieces[..i]))
    {
      CleanOneMore(pieces, i);
      var piece := Trim(pieces[i]);
      if piece == "" {
        continue;
      }
      if piece !in out {
        out := out + [piece];
      }
    }
    assert pieces[..|pieces|] == pieces;
  }

  method NormalizeAliases(aliases: Option<seq<string>>, alias: Option<string>) returns (out: seq<string>)
    ensures out == Normalized(aliases, alias)
  {
    out := PushNew(Split(AliasSource(aliases, alias), ','));
  }

  method NormalizeKeywords(raw: Option<seq<string>>) returns (out: seq<string>)
    ensures out == NormalizedKeywords(raw)
  {
    out := PushNew(raw.GetOr([]));
  }

  // ---------------------------------------------------------------- what the lists look like

  /** Non-empty and without white space around it. */
  ghost predicate Tidy(name: string) {
    name != "" && Trimmed(name)
  }

  ghost predicate CommaFree(names: seq<string>) {
    forall i :: 0 <= i < |names| ==> ',' !in names[i]
  }

  ghost predicate AllTidy(names: seq<string>) {
    forall i :: 0 <= i < |names| ==> Tidy(names[i])
  }

  ghost predicate NoRepeats(names: seq<string>) {
    forall i, j :: 0 <= i < j < |names| ==> names[i] != names[j]
  }

  lemma TrimIsTidy(piece: string)
    ensures Trimmed(Trim(piece))
    ensures ',' !in piece ==> ',' !in Trim(piece)
  {
    var pre, post := TrimSplits(piece);
    if ',' in Trim(piece) {
      var k :| 0 <= k < |Trim(piece)| && Trim(piece)[k] == ',';
      assert piece[|pre| + k] == ',';
    }
  }

  lemma {:induction false} CleanedIsTidy(pieces: seq<string>)
    ensures AllTidy(Cleaned(pieces))
    ensures CommaFree(pieces) ==> CommaFree(Cleaned(pieces))
  {
    if pieces == [] {
    } else {
      CleanedIsTidy(pieces[..|pieces| - 1]);
      TrimIsTidy(pieces[|pieces| - 1]);
    }
  }

  lemma {:induction false} SplitIsCommaFree(s: string)
    ensures CommaFree(Split(s, ','))
    decreases |s|
  {
    var i := Find(s, ',');
    if i == |s| {
      assert s[..i] == s;
    } else {
      SplitIsCommaFree(s[i + 1..]);
    }
  }

  /** Removing duplicates keeps what occurs, in order of first occurrence. */
  lemma {:induction false} DedupedKeepsMembers(xs: seq<string>)
    ensures NoRepeats(Deduped(xs))
    ensures forall x :: x in Deduped(xs) <==> x in xs
  {
    if xs == [] {
    } else {
      DedupedKeepsMembers(xs[..|xs| - 1]);
      SplitLast(xs);
    }
  }

  /** The text is some piece without the white space around it. */
  ghost predicate TrimmedPiece(pieces: seq<string>, x: string) {
    exists i :: 0 <= i < |pieces| && x == Trim(pieces[i])
  }

  lemma TrimmedPieceSnoc(pieces: seq<string>, piece: string, x: string)
    ensures TrimmedPiece(pieces + [piece], x) <==> TrimmedPiece(pieces, x) || x == Trim(piece)
  {
    var more := pieces + [piece];
    assert more[|pieces|] == piece;
    if TrimmedPiece(pieces, x) {
      var i :| 0 <= i < |pieces| && x == Trim(pieces[i]);
      assert more[i] == pieces[i];
    }
  }

  /** What remains of the pieces: each without the white space around it, unless nothing is left. */
  lemma {:induction false} CleanedMembers(pieces: seq<string>, x: string)
    ensures x in Cleaned(pieces) <==> x != "" && TrimmedPiece(pieces, x)
  {
    if pieces == [] {
    } else {
      CleanedMembers(pieces[..|pieces| - 1], x);
      TrimmedPieceSnoc(pieces[..|pieces| - 1], pieces[|pieces| - 1], x);
      SplitLast(pieces);
    }
  }

  /** A normalised alias is a trimmed, non-empty part between commas of what was entered: of the list if there
      is one, and of the single alias otherwise. */
  lemma NormalizedMembers(aliases: Option<seq<string>>, alias: Option<string>, x: string)
    ensures var entered := if aliases.Some? then Join(aliases.value, ",") else if alias.Some? then alias.value else "";
            x in Normalized(aliases, alias) <==> x != "" && TrimmedPiece(Split(entered, ','), x)
  {
    var pieces := Split(AliasSource(aliases, alias), ',');
    CleanedMembers(pieces, x);
    DedupedKeepsMembers(Cleaned(pieces));
  }

  /** A normalised keyword is a trimmed, non-empty one of those entered. */
  lemma KeywordMembers(raw: Option<seq<string>>, x: string)
    ensures x in NormalizedKeywords(raw) <==> x != "" && raw.Some? && TrimmedPiece(raw.value, x)
  {
    CleanedMembers(raw.GetOr([]), x);
    DedupedKeepsMembers(Cleaned(raw.GetOr([])));
  }

  /** The first occurrences stay in their order: what is added later comes later. */
  lemma DedupedGrows(xs: seq<string>, x: string)
    ensures Deduped(xs + [x]) == if x in xs then Deduped(xs) else Deduped(xs) + [x]
  {
    DedupedKeepsMembers(xs);
    assert (xs + [x])[..|xs|] == xs;
  }

  lemma {:induction false} DedupedOfDistinct(xs: seq<string>)
    requires NoRepeats(xs)
    ensures Deduped(xs) == xs
  {
    if xs == [] {
    } else {
      DedupedOfDistinct(xs[..|xs| - 1]);
    }
  }

  lemma NormalizedIsTidy(aliases: Option<seq<string>>, alias: Option<string>)
    ensures AllTidy(Normalized(aliases, alias)) && CommaFree(Normalized(aliases, alias))
            && NoRepeats(Normalized(aliases, alias))
  {
    var pieces := Split(AliasSource(aliases, alias), ',');
    SplitIsCommaFree(AliasSource(aliases, alias));
    CleanedIsTidy(pieces);
    DedupedKeepsTidy(Cleaned(pieces));
    DedupedKeepsMembers(Cleaned(pieces));
  }

  lemma DedupedKeepsTidy(xs: seq<string>)
    ensures AllTidy(xs) ==> AllTidy(Deduped(xs))
    ensures CommaFree(xs) <==> CommaFree(Deduped(xs))
  {
    DedupedKeepsMembers(xs);
    assert forall i :: 0 <= i < |Deduped(xs)| ==> Deduped(xs)[i] in xs;
    assert forall i :: 0 <= i < |xs| ==> xs[i] in Deduped(xs);
  }

  // ---------------------------------------------------------------- storing and loading

  lemma {:induction false} SplitOfJoin(names: seq<string>)
    requires names != [] && CommaFree(names)
    ensures Split(Join(names, ","), ',') == names
  {
    var s := Join(names, ",");
    if |names| == 1 {
      FindNone(s, ',');
    } else {
      var rest := Join(names[1..], ",");
      assert s == names[0] + "," + rest;
      assert s[..|names[0]|] == names[0];
      FindIsFirst(s, ',', |names[0]|);
      assert s[|names[0]| + 1..] == rest;
      SplitOfJoin(names[1..]);
    }
  }

  /** The comma-separated parts of all names. */
  function AllParts(names: seq<string>): seq<string> {
    if names == [] then [] else Split(names[0], ',') + AllParts(names[1..])
  }

  lemma SplitStep(piece: string, rest: string)
    requires ',' !in piece
    ensures Split(piece + "," + rest, ',') == [piece] + Split(rest, ',')
  {
    var s := piece + "," + rest;
    assert s[..|piece|] == piece && s[|piece| + 1..] == rest;
    FindIsFirst(s, ',', |piece|);
  }

  lemma CutAtComma(a: string, b: string, i: nat)
    requires i < |a| && a[i] == ','
    ensures a == a[..i] + "," + a[i + 1..]
    ensures a + "," + b == a[..i] + "," + (a[i + 1..] + "," + b)
  {
  }

  lemma {:induction false} SplitOfConcat(a: string, b: string)
    ensures Split(a + "," + b, ',') == Split(a, ',') + Split(b, ',')
    decreases |a|
  {
    var i := Find(a, ',');
    if i == |a| {
      assert a[..i] == a;
      SplitStep(a, b);
    } else {
      var piece, rest := a[..i], a[i + 1..];
      CutAtComma(a, b, i);
      SplitStep(piece, rest);
      SplitOfConcat(rest, b);
      SplitStep(piece, rest + "," + b);
      Assoc([piece], Split(rest, ','), Split(b, ','));
    }
  }

  /** What a stored list falls into when it is split again. */
  lemma {:induction false} PartsOfJoin(names: seq<string>)
    requires names != []
    ensures Split(Join(names, ","), ',') == AllParts(names)
  {
    if |names| == 1 {
      assert Split(names[0], ',') + [] == Split(names[0], ',');
    } else {
      PartsOfJoin(names[1..]);
      SplitOfConcat(names[0], Join(names[1..], ","));
    }
  }

  lemma {:induction false} CleanedOfTidy(names: seq<string>)
    requires AllTidy(names)
    ensures Cleaned(names) == names
  {
    if names == [] {
    } else {
      var init, last := names[..|names| - 1], names[|names| - 1];
      CleanedOfTidy(init);
      assert Tidy(last);
      TrimOfTrimmed(last);
      assert Cleaned(names) == Cleaned(init) + [last];
    }
  }

  /** A stored list of tidy names is read back unchanged exactly when no name contains a comma. */
  lemma StoredRoundTrip(names: seq<string>)
    requires AllTidy(names)
    ensures ParseAliases(Stored(names)) == names <==> CommaFree(names)
  {
    if names == [] {
      assert Split("", ',') == [""];
      assert [""][..0] == [];
      assert Cleaned([""]) == [];
    } else if CommaFree(names) {
      SplitOfJoin(names);
      CleanedOfTidy(names);
    } else {
      SplitIsCommaFree(Join(names, ","));
      CleanedIsTidy(Split(Join(names, ","), ','));
    }
  }

  /** Saving and loading model aliases gives back the normalised list, for every input. */
  lemma AliasesRoundTrip(aliases: Option<seq<string>>, alias: Option<string>)
    ensures ParseAliases(Stored(Normalized(aliases, alias))) == Normalized(aliases, alias)
  {
    NormalizedIsTidy(aliases, alias);
    StoredRoundTrip(Normalized(aliases, alias));
  }

  /** Keywords may contain commas, and then they come back in pieces. */
  lemma KeywordsRoundTrip(raw: Option<seq<string>>)
    ensures ParseAliases(Stored(NormalizedKeywords(raw))) == NormalizedKeywords(raw) <==>
            CommaFree(NormalizedKeywords(raw))
  {
    CleanedIsTidy(raw.GetOr([]));
    DedupedKeepsTidy(Cleaned(raw.GetOr([])));
    StoredRoundTrip(NormalizedKeywords(raw));
  }

  lemma CommaKeywordIsSplit()
    ensures NormalizedKeywords(Some(["a,b"])) == ["a,b"]
    ensures ParseAliases(Stored(["a,b"])) != ["a,b"]
  {
    TrimOfTrimmed("a,b");
    assert ["a,b"][..0] == [];
    assert Cleaned(["a,b"]) == Cleaned([]) + ["a,b"];
    assert AllTidy(["a,b"]) && !CommaFree(["a,b"]) by {
      assert "a,b"[1] == ',';
    }
    StoredRoundTrip(["a,b"]);
  }
}

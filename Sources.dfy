/**
 * `normalize_sources`: the comma-separated list of agents to watch,
 * trimmed, lower-cased, with empty pieces dropped, "all" expanding to every
 * agent, and repeated names kept only at their first occurrence.
 */
module Sources {
  import opened Text

  /** Every agent the watcher knows, in the order used when all are selected. */
  const AllSources: seq<string> := ["claude", "codex", "gemini"]

  /** One piece of the list, trimmed and lower-cased. */
  function CleanPiece(piece: string): string {
    AsciiLower(Trim(piece))
  }

  /** The trimmed, lower-cased, non-empty pieces of a comma-separated list. */
  function CleanPieces(pieces: seq<string>): (r: seq<string>)
    ensures |r| <= |pieces|
    ensures forall i :: 0 <= i < |r| ==> r[i] != []
  {
    if pieces == [] then []
    else
      var rest := CleanPieces(pieces[1..]);
      var head := CleanPiece(pieces[0]);
      if head == [] then rest else [head] + rest
  }

  predicate NoDuplicates(xs: seq<string>) {
    forall i, j :: 0 <= i < j < |xs| ==> xs[i] != xs[j]
  }

  /** Each element kept at its first occurrence, in order. */
  function Dedupe(xs: seq<string>): seq<string>
  {
    if xs == [] then []
    else
      var d := Dedupe(xs[..|xs| - 1]);
      if xs[|xs| - 1] in d then d else d + [xs[|xs| - 1]]
  }

  /** The list of agents an input selects. */
  function Normalized(input: string): seq<string> {
    if input == [] then AllSources
    else
      var parts := CleanPieces(Split(input, ','));
      if "all" in parts then AllSources else Dedupe(parts)
  }

  /** `normalize_sources`: "all" or an empty input selects every agent, otherwise the cleaned pieces once each. */
  method NormalizeSources(input: string) returns (r: seq<string>)
    ensures r == Normalized(input)
  {
    if input == [] {
      return AllSources;
    }
    var parts := CleanPieces(Split(input, ','));
    if "all" in parts {
      return AllSources;
    }
    r := DedupeInOrder(parts);
  }

  /** The loop of `normalize_sources`, with the set of names already seen. */
  method DedupeInOrder(parts: seq<string>) returns (r: seq<string>)
    ensures r == Dedupe(parts)
  {
    var seen: set<string> := {};
    r := [];
    for k := 0 to |parts|
      invariant r == Dedupe(parts[..k])
      invariant seen == set x | x in r
    {
      assert parts[..k + 1][..k] == parts[..k];
      if parts[k] !in seen {
        seen := seen + {parts[k]};
        r := r + [parts[k]];
      }
    }
    assert parts[..|parts|] == parts;
  }

  /** Deduplication keeps exactly the elements of its input, once each. */
  lemma {:induction false} DedupeKeepsElements(xs: seq<string>)
    ensures NoDuplicates(Dedupe(xs))
    ensures forall x :: x in Dedupe(xs) <==> x in xs
  {
    if xs != [] {
      var init := xs[..|xs| - 1];
      DedupeKeepsElements(init);
      assert xs == init + [xs[|xs| - 1]];
    }
  }

  /** Deduplicating a longer input only appends: earlier first occurrences keep their places. */
  lemma {:induction false} DedupePrefix(xs: seq<string>, k: nat)
    requires k <= |xs|
    ensures |Dedupe(xs[..k])| <= |Dedupe(xs)|
    ensures Dedupe(xs[..k]) == Dedupe(xs)[..|Dedupe(xs[..k])|]
    decreases |xs| - k
  {
    if k < |xs| {
      DedupePrefix(xs[..|xs| - 1], k);
      assert xs[..|xs| - 1][..k] == xs[..k];
    } else {
      assert xs[..k] == xs;
    }
  }

  /** A list without repetitions is left as it is. */
  lemma {:induction false} DedupeOfDistinct(xs: seq<string>)
    requires NoDuplicates(xs)
    ensures Dedupe(xs) == xs
  {
    if xs != [] {
      var init := xs[..|xs| - 1];
      DedupeOfDistinct(init);
      DedupeKeepsElements(init);
      assert xs == init + [xs[|xs| - 1]];
    }
  }

  /** The selected agents are never repeated, and each was named in the input or implied by "all" or an empty input. */
  lemma NormalizedIsDistinct(input: string)
    ensures NoDuplicates(Normalized(input))
    ensures input != [] && "all" !in CleanPieces(Split(input, ','))
            ==> forall x :: x in Normalized(input) <==> x in CleanPieces(Split(input, ','))
  {
    if input != [] {
      DedupeKeepsElements(CleanPieces(Split(input, ',')));
    }
  }

  /** Pieces that are all blank contribute nothing. */
  lemma {:induction false} CleanPiecesOfBlanks(pieces: seq<string>)
    requires forall i :: 0 <= i < |pieces| ==> IsBlank(pieces[i])
    ensures CleanPieces(pieces) == []
  {
    if pieces != [] {
      assert Trim(pieces[0]) == [];
      CleanPiecesOfBlanks(pieces[1..]);
    }
  }

  /** An input made only of commas and blanks selects nothing. */
  lemma BlankListSelectsNothing()
    ensures Normalized(" ") == []
    ensures Normalized(" , ") == []
  {
    assert IsBlank(" ");
    SplitOfSeparatorFree(" ", ',');
    CleanPiecesOfBlanks([" "]);
    assert Split(" , ", ',') == [" ", " "] by {
      JoinSplit([" ", " "], ',');
      assert Join([" ", " "], [',']) == " , ";
    }
    CleanPiecesOfBlanks([" ", " "]);
  }

  /** A piece whose trimmed text has no capitals contributes exactly that text. */
  lemma CleanPiecesCons(piece: string, rest: seq<string>)
    requires Trim(piece) != []
    requires forall i :: 0 <= i < |Trim(piece)| ==> !('A' <= Trim(piece)[i] <= 'Z')
    ensures CleanPieces([piece] + rest) == [Trim(piece)] + CleanPieces(rest)
  {
    assert AsciiLower(Trim(piece)) == Trim(piece);
    assert ([piece] + rest)[1..] == rest;
  }

  /** A source name as a user would write it: non-empty, unpadded, lower-case, without commas. */
  predicate IsPlainName(w: string) {
    && w != []
    && !IsWhitespace(w[0]) && !IsWhitespace(w[|w| - 1])
    && forall k :: 0 <= k < |w| ==> !('A' <= w[k] <= 'Z') && w[k] != ','
  }

  lemma PlainNameCons(w: string, rest: seq<string>)
    requires IsPlainName(w)
    ensures CleanPieces([w] + rest) == [w] + CleanPieces(rest)
  {
    TrimOfUnpadded(w);
    CleanPiecesCons(w, rest);
  }

  lemma {:induction false} CleanPiecesOfPlainNames(words: seq<string>)
    requires forall i :: 0 <= i < |words| ==> IsPlainName(words[i])
    ensures CleanPieces(words) == words
  {
    if words != [] {
      var w, rest := words[0], words[1..];
      assert words == [w] + rest;
      CleanPiecesOfPlainNames(rest);
      PlainNameCons(w, rest);
    }
  }

  lemma {:induction false} JoinKeepsFirst(parts: seq<string>, sep: string)
    requires |parts| >= 1
    ensures |Join(parts, sep)| >= |parts[0]|
  {
  }

  /** A comma-separated list of plain names other than "all" selects those names, each once, in order of first mention. */
  lemma NormalizedOfPlainList(words: seq<string>)
    requires |words| >= 1
    requires forall i :: 0 <= i < |words| ==> IsPlainName(words[i])
    requires "all" !in words
    ensures Normalized(Join(words, [','])) == Dedupe(words)
  {
    JoinSplit(words, ',');
    JoinKeepsFirst(words, [',']);
    CleanPiecesOfPlainNames(words);
  }

  /** The documented examples: "all" and an empty input select every agent. */
  lemma NormalizedExamplesAll()
    ensures Normalized("") == AllSources
    ensures Normalized("all") == AllSources
  {
    SplitOfSeparatorFree("all", ',');
    TrimOfUnpadded("all");
    CleanPiecesCons("all", []);
    assert CleanPieces(Split("all", ',')) == ["all"];
  }

  lemma PlainExampleNames()
    ensures IsPlainName("claude") && IsPlainName("gemini")
  {
  }

  /** The documented example of two distinct names. */
  lemma NormalizedExampleTwo()
    ensures Normalized("claude,gemini") == ["claude", "gemini"]
  {
    var xs := ["claude", "gemini"];
    PlainExampleNames();
    assert Join(xs, [',']) == "claude,gemini";
    NormalizedOfPlainList(xs);
    DedupeOfDistinct(xs);
  }

  lemma DedupeSnoc(xs: seq<string>, x: string)
    ensures Dedupe(xs + [x]) == if x in Dedupe(xs) then Dedupe(xs) else Dedupe(xs) + [x]
  {
    assert (xs + [x])[..|xs|] == xs;
  }

  lemma DedupeExample()
    ensures Dedupe(["claude", "claude", "gemini"]) == ["claude", "gemini"]
  {
    DedupeSnoc([], "claude");
    DedupeSnoc(["claude"], "claude");
    DedupeSnoc(["claude", "claude"], "gemini");
    assert [] + ["claude"] == ["claude"];
    assert ["claude"] + ["claude"] == ["claude", "claude"];
    assert ["claude", "claude"] + ["gemini"] == ["claude", "claude", "gemini"];
  }

  /** A repeated name is selected once. */
  lemma NormalizedExampleRepeated()
    ensures Normalized("claude,claude,gemini") == ["claude", "gemini"]
  {
    var xs := ["claude", "claude", "gemini"];
    PlainExampleNames();
    assert Join(xs, [',']) == "claude,claude,gemini";
    NormalizedOfPlainList(xs);
    DedupeExample();
  }
}

/** `extractPageTitle` and `countHeadings`: the page title and the number of
    headings at each level. */
module Structure {

  import opened Text
  import opened Page

  /** Go's `Selection.Text()` over several elements: their texts joined. */
  function JoinTexts(parts: seq<string>): (joined: string)
    ensures |joined| >= (if parts == [] then 0 else |parts[0]|)
  {
    if parts == [] then "" else parts[0] + JoinTexts(parts[1..])
  }

  /** `extractPageTitle`: the text of the title elements without its
      surrounding whitespace. */
  function ExtractPageTitle(doc: Document): (title: string)
    ensures title == [] || (!IsUnicodeSpace(title[0]) && !IsUnicodeSpace(title[|title| - 1]))
    ensures PaddedBy(JoinTexts(doc.titles), title)
  {
    TrimSpace(JoinTexts(doc.titles))
  }

  /** A single title padded with whitespace yields the text inside it. */
  lemma TitleOfPaddedText(doc: Document, w1: string, t: string, w2: string)
    requires doc.titles == [w1 + t + w2]
    requires AllUnicodeSpace(w1) && AllUnicodeSpace(w2)
    requires t == [] || (!IsUnicodeSpace(t[0]) && !IsUnicodeSpace(t[|t| - 1]))
    ensures ExtractPageTitle(doc) == t
  {
    assert JoinTexts(doc.titles) == w1 + t + w2 + "";
    assert w1 + t + w2 + "" == w1 + t + w2;
    TrimSpaceStripsPadding(w1, t, w2);
  }

  /** The map key Go builds with `fmt.Sprintf("h%d", level)`. */
  function Selector(level: HeadingLevel): (key: string)
    ensures |key| == 2 && key[0] == 'h' && key[1] == ('0' as int + level) as char
  {
    "h" + [('0' as int + level) as char]
  }

  /** The six keys of the heading map. */
  function SelectorsUpTo(n: int): set<string>
  {
    set level: HeadingLevel | level < n :: Selector(level)
  }

  /** Number of headings of the given level. */
  function CountLevel(headings: seq<HeadingLevel>, level: HeadingLevel): nat
  {
    multiset(headings)[level]
  }

  /** Distinct levels have distinct keys. */
  lemma SelectorInjective(a: HeadingLevel, b: HeadingLevel)
    ensures Selector(a) == Selector(b) ==> a == b
  {
    if Selector(a) == Selector(b) {
      assert Selector(a)[1] == Selector(b)[1];
    }
  }

  /** The heading map `countHeadings` builds, written out. */
  function HeadingCounts(headings: seq<HeadingLevel>): map<string, int> {
    map[Selector(1) := CountLevel(headings, 1), Selector(2) := CountLevel(headings, 2),
        Selector(3) := CountLevel(headings, 3), Selector(4) := CountLevel(headings, 4),
        Selector(5) := CountLevel(headings, 5), Selector(6) := CountLevel(headings, 6)]
  }

  /** The map after the loop of `countHeadings` has handled the levels
      below `n`. */
  function CountsBelow(headings: seq<HeadingLevel>, n: int): map<string, int>
    requires 1 <= n <= 7
    decreases n
  {
    if n == 1 then map[] else CountsBelow(headings, n - 1)[Selector(n - 1) := CountLevel(headings, n - 1)]
  }

  /** `countHeadings`: a map with exactly the keys h1 … h6, each holding the
      number of headings of its level. */
  method CountHeadings(doc: Document) returns (headings: map<string, int>)
    ensures headings.Keys == SelectorsUpTo(7)
    ensures forall level: HeadingLevel :: headings[Selector(level)] == CountLevel(doc.headings, level)
    ensures headings == HeadingCounts(doc.headings)
  {
    headings := map[];
    var i := 1;
    while i <= 6
      invariant 1 <= i <= 7
      invariant headings == CountsBelow(doc.headings, i)
    {
      headings := headings[Selector(i) := CountLevel(doc.headings, i)];
      i := i + 1;
    }
    assert headings == HeadingCounts(doc.headings);
    HeadingCountsKeys(doc.headings);
  }

  /** The written-out map has the six keys and the six counts. */
  lemma HeadingCountsKeys(headings: seq<HeadingLevel>)
    ensures HeadingCounts(headings).Keys == SelectorsUpTo(7)
    ensures forall level: HeadingLevel :: HeadingCounts(headings)[Selector(level)] == CountLevel(headings, level)
  {
    var m := HeadingCounts(headings);
    forall level: HeadingLevel ensures Selector(level) in m && m[Selector(level)] == CountLevel(headings, level) {
      forall other: HeadingLevel | other > level ensures Selector(other) != Selector(level) {
        SelectorInjective(other, level);
      }
    }
    forall key | key in m ensures key in SelectorsUpTo(7) {
    }
  }

  /** Every heading is counted at exactly one level: the six counts add up
      to the number of headings. */
  lemma {:induction false} HeadingCountsSum(headings: seq<HeadingLevel>)
    ensures CountLevel(headings, 1) + CountLevel(headings, 2) + CountLevel(headings, 3)
            + CountLevel(headings, 4) + CountLevel(headings, 5) + CountLevel(headings, 6) == |headings|
  {
    if headings != [] {
      var last := headings[|headings| - 1];
      var rest := headings[..|headings| - 1];
      assert headings == rest + [last];
      assert multiset(headings) == multiset(rest) + multiset{last};
      HeadingCountsSum(rest);
    }
  }
}

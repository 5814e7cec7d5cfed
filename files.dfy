/** The two helpers of the collection tools: a line counter and the item check. */
module Files {
  import opened Wrappers
  import opened Text
  import opened JsonValues

  /** count_lines: the number of lines iterating over the open file yields, or 0 when
      the file cannot be opened or read (text = None). The count is the number of
      '\n' characters plus one for a trailing piece without one, so an empty file has 0. */
  function CountLines(text: Option<string>): (n: nat)
    ensures text.None? ==> n == 0
    ensures text.Some? ==> n == CountChar(text.value, '\n')
                                + (if text.value != [] && text.value[|text.value| - 1] != '\n' then 1 else 0)
  {
    match text
    case None => 0
    case Some(s) =>
      SplitLinesCount(s);
      |SplitLines(s)|
  }

  /** The lines iteration yields, which the count counts, cut the text into pieces that
      make up the whole text: none is empty, and every one but the last ends in '\n'. */
  lemma CountLinesIsReadlines(s: string)
    ensures var lines := SplitLines(s);
      Concat(lines) == s
      && (forall j :: 0 <= j < |lines| ==> lines[j] != "")
      && (forall j :: 0 <= j < |lines| - 1 ==> lines[j][|lines[j]| - 1] == '\n')
  {
    SplitLinesConcat(s);
    SplitLinesShape(s);
  }

  /** A text made of n lines, each ending in its only '\n', counts n lines. */
  lemma {:induction false} CountTerminatedLines(lines: seq<string>)
    requires forall j :: 0 <= j < |lines| ==> lines[j] != [] && lines[j][|lines[j]| - 1] == '\n'
    requires forall j :: 0 <= j < |lines| ==> '\n' !in lines[j][..|lines[j]| - 1]
    ensures CountLines(Some(Concat(lines))) == |lines|
  {
    NewlinesOfTerminatedLines(lines);
    if lines != [] {
      var s := Concat(lines);
      var last := lines[|lines| - 1];
      ConcatLast(lines);
      assert s[|s| - 1] == last[|last| - 1];
    }
  }

  lemma {:induction false} NewlinesOfTerminatedLines(lines: seq<string>)
    requires forall j :: 0 <= j < |lines| ==> lines[j] != [] && lines[j][|lines[j]| - 1] == '\n'
    requires forall j :: 0 <= j < |lines| ==> '\n' !in lines[j][..|lines[j]| - 1]
    ensures CountChar(Concat(lines), '\n') == |lines|
  {
    if lines != [] {
      var w := lines[0];
      NewlinesOfTerminatedLines(lines[1..]);
      assert w == w[..|w| - 1] + "\n";
      CountCharAbsent(w[..|w| - 1], '\n');
      CountCharAppend(w[..|w| - 1], "\n", '\n');
      CountCharAppend(w, Concat(lines[1..]), '\n');
    }
  }

  lemma {:induction false} ConcatLast(lines: seq<string>)
    requires lines != [] && lines[|lines| - 1] != []
    ensures var s := Concat(lines); var last := lines[|lines| - 1];
      |s| >= |last| && s[|s| - |last|..] == last
  {
    if |lines| > 1 {
      ConcatLast(lines[1..]);
    } else {
      assert Concat(lines) == lines[0] + Concat([]);
    }
  }

  /** A file holding "Line 1\nLine 2\nLine 3\n" has three lines. */
  lemma CountLinesThreeLines()
    ensures CountLines(Some("Line 1\nLine 2\nLine 3\n")) == 3
  {
    var lines := ["Line 1\n", "Line 2\n", "Line 3\n"];
    assert Concat(lines) == "Line 1\nLine 2\nLine 3\n";
    CountTerminatedLines(lines);
  }

  /** is_a_valid_item: an item must carry both a "name" and a "request" key. */
  predicate IsValidItem(item: map<string, Json>)
  {
    "name" in item && "request" in item
  }

  /** Validity depends on the presence of "name" and "request" alone: the other keys and
      all the values are irrelevant. */
  lemma ValidItemDependsOnTwoKeys(a: map<string, Json>, b: map<string, Json>)
    requires ("name" in a <==> "name" in b) && ("request" in a <==> "request" in b)
    ensures IsValidItem(a) == IsValidItem(b)
  {
  }
}

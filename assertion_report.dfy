/**
 * The assertion summary of the reporting helper: an `AssertionBuilder` records
 * (field, expected, actual) triples in insertion order and renders them as a
 * fixed-format plain-text report, one block of lines per recorded check.
 *
 * The report is specified twice: as the list of lines the builder appends
 * (`ReportLines`), and as the text that results from appending each of them
 * followed by a line terminator (`Render`). `AssertionBuilder.Build` is proved
 * to produce exactly `Render` of the recorded entries.
 */
module AssertionReport {

  /** A value handed to `Add`: `null`, or an object whose string form is `text`. */
  datatype Value = Null | Present(text: string)

  /** One recorded check, with both values already in their string form. */
  datatype Assertion = Assertion(field: string, expected: string, actual: string)

  /** The line terminator that every appended line ends with. */
  const NewLine: string := "\n"

  /** Returned when nothing was recorded. */
  const NoAssertions: string := "No assertions recorded"

  const Title: string := "ASSERTIONS SUMMARY"
  const EqualsRule: string := "========================================"
  const DashRule: string := "----------------------------------------"
  const PassLabel: string := "? PASS"
  const FailLabel: string := "? FAIL"

  /** The string a value is stored as: its string form, or "null" for null. */
  function Shown(v: Value): string
  {
    match v
    case Null => "null"
    case Present(text) => text
  }

  /** The status label of a check: the pass label exactly when both strings are equal. */
  function Status(a: Assertion): (status: string)
    ensures status == PassLabel <==> a.expected == a.actual
    ensures status == FailLabel <==> a.expected != a.actual
  {
    if a.expected == a.actual then PassLabel else FailLabel
  }

  /** The status line names the pass label exactly when both strings are equal. */
  lemma {:induction false} StatusLine(a: Assertion)
    ensures "Status: " + Status(a) == "Status: " + PassLabel <==> a.expected == a.actual
    ensures "Status: " + Status(a) == "Status: " + FailLabel <==> a.expected != a.actual
  {
    var prefix := "Status: ";
    forall l: string | prefix + l == prefix + Status(a)
      ensures l == Status(a)
    {
      assert (prefix + l)[|prefix|..] == l;
      assert (prefix + Status(a))[|prefix|..] == Status(a);
    }
  }

  /** The six lines of one entry's block. */
  function BlockLines(a: Assertion): seq<string>
  {
    ["", "Field: " + a.field, "Expected: " + a.expected, "Actual: " + a.actual,
     "Status: " + Status(a), DashRule]
  }

  /** The two header lines of a non-empty report. */
  const HeaderLines: seq<string> := [Title, EqualsRule]

  /** The lines of every item, item after item, in sequence order. */
  function Concat<T>(items: seq<T>, lines: T -> seq<string>): seq<string>
  {
    if items == [] then []
    else Concat(items[..|items| - 1], lines) + lines(items[|items| - 1])
  }

  /** The blocks of all entries, in insertion order. */
  function BlocksLines(entries: seq<Assertion>): seq<string>
  {
    Concat(entries, BlockLines)
  }

  /** Every line of the report of a non-empty list of entries. */
  function ReportLines(entries: seq<Assertion>): seq<string>
  {
    HeaderLines + BlocksLines(entries)
  }

  /** The text obtained by appending each line followed by the line terminator. */
  function Text(lines: seq<string>): string
  {
    if lines == [] then ""
    else Text(lines[..|lines| - 1]) + lines[|lines| - 1] + NewLine
  }

  /** The report rendered for the recorded entries. */
  function Render(entries: seq<Assertion>): string
  {
    if entries == [] then NoAssertions else Text(ReportLines(entries))
  }

  /** Appending two lists of lines appends their texts. */
  lemma {:induction false} TextAppend(xs: seq<string>, ys: seq<string>)
    ensures Text(xs + ys) == Text(xs) + Text(ys)
    decreases |ys|
  {
    if ys == [] {
      assert xs + ys == xs;
    } else {
      var init := ys[..|ys| - 1];
      assert (xs + ys)[..|xs + ys| - 1] == xs + init;
      TextAppend(xs, init);
    }
  }

  /** Appending one line to the list appends it, with its terminator, to the text. */
  lemma {:induction false} TextSnoc(lines: seq<string>, line: string)
    ensures Text(lines + [line]) == Text(lines) + line + NewLine
  {
  }

  /** The text of the header lines. */
  lemma {:induction false} HeaderText()
    ensures Text(HeaderLines) == Title + NewLine + EqualsRule + NewLine
  {
    TextSnoc([], Title);
    assert [Title] + [EqualsRule] == HeaderLines;
    TextSnoc([Title], EqualsRule);
  }

  /** Appending an entry's block appends its six lines, each with its terminator. */
  lemma {:induction false} AppendBlock(lines: seq<string>, a: Assertion)
    ensures Text(lines + BlockLines(a)) ==
      Text(lines) + NewLine + ("Field: " + a.field) + NewLine + ("Expected: " + a.expected) + NewLine
        + ("Actual: " + a.actual) + NewLine + ("Status: " + Status(a)) + NewLine + DashRule + NewLine
  {
    var l1 := lines + [""];
    var l2 := l1 + ["Field: " + a.field];
    var l3 := l2 + ["Expected: " + a.expected];
    var l4 := l3 + ["Actual: " + a.actual];
    var l5 := l4 + ["Status: " + Status(a)];
    var l6 := l5 + [DashRule];
    TextSnoc(lines, "");
    TextSnoc(l1, "Field: " + a.field);
    TextSnoc(l2, "Expected: " + a.expected);
    TextSnoc(l3, "Actual: " + a.actual);
    TextSnoc(l4, "Status: " + Status(a));
    TextSnoc(l5, DashRule);
    assert l6 == lines + BlockLines(a);
    assert Text(lines) + "" == Text(lines);
  }

  /** The report lines of the first i + 1 entries extend those of the first i by entry i's block. */
  lemma {:induction false} ReportLinesSnoc(entries: seq<Assertion>, i: nat)
    requires i < |entries|
    ensures ReportLines(entries[..i + 1]) == ReportLines(entries[..i]) + BlockLines(entries[i])
  {
    assert entries[..i + 1][..i] == entries[..i];
  }

  /** The lines of a concatenation are the concatenation of the lines. */
  lemma {:induction false} ConcatAppend<T>(xs: seq<T>, ys: seq<T>, lines: T -> seq<string>)
    ensures Concat(xs + ys, lines) == Concat(xs, lines) + Concat(ys, lines)
    decreases |ys|
  {
    if ys == [] {
      assert xs + ys == xs;
    } else {
      var init := ys[..|ys| - 1];
      assert (xs + ys)[..|xs + ys| - 1] == xs + init;
      ConcatAppend(xs, init, lines);
    }
  }

  /** When every item has six lines, item k occupies lines 6k up to 6k+6. */
  lemma {:induction false} ConcatAt<T>(items: seq<T>, lines: T -> seq<string>, k: nat)
    requires forall x :: |lines(x)| == 6
    requires k < |items|
    ensures |Concat(items, lines)| == 6 * |items|
    ensures Concat(items, lines)[6 * k..6 * k + 6] == lines(items[k])
    decreases |items|
  {
    var n := |items| - 1;
    var init, last := items[..n], items[n];
    var front, back := Concat(init, lines), lines(last);
    if n == 0 {
      assert init == [];
    } else {
      ConcatAt(init, lines, if k < n then k else 0);
    }
    assert |front| == 6 * n;
    if k < n {
      assert (front + back)[6 * k..6 * k + 6] == front[6 * k..6 * k + 6];
    } else {
      assert (front + back)[6 * k..6 * k + 6] == back;
    }
  }

  /** The lines of all items, split around item k. */
  lemma {:induction false} ConcatSplit<T>(items: seq<T>, lines: T -> seq<string>, k: nat)
    requires k < |items|
    ensures Concat(items, lines) ==
      Concat(items[..k], lines) + lines(items[k]) + Concat(items[k + 1..], lines)
  {
    var before, x, after := items[..k], items[k], items[k + 1..];
    assert items == (before + [x]) + after;
    ConcatAppend(before + [x], after, lines);
    assert (before + [x])[..k] == before;
  }

  /** The text of the lines of all items, split around item k. */
  lemma {:induction false} TextConcatSplit<T>(items: seq<T>, lines: T -> seq<string>, k: nat)
    requires k < |items|
    ensures Text(Concat(items, lines)) ==
      Text(Concat(items[..k], lines)) + Text(lines(items[k])) + Text(Concat(items[k + 1..], lines))
  {
    var before, block, after := Concat(items[..k], lines), lines(items[k]), Concat(items[k + 1..], lines);
    ConcatSplit(items, lines, k);
    TextAppend(before + block, after);
    TextAppend(before, block);
  }

  /**
   * Exactly six lines per entry, and entry k occupies lines 6k up to 6k+6 of the
   * blocks, in insertion order.
   */
  lemma {:induction false} BlocksLinesAt(entries: seq<Assertion>, k: nat)
    requires k < |entries|
    ensures |BlocksLines(entries)| == 6 * |entries|
    ensures BlocksLines(entries)[6 * k..6 * k + 6] == BlockLines(entries[k])
  {
    ConcatAt(entries, BlockLines, k);
  }

  /** In a non-empty report, the two header lines are followed by entry k's block at lines 2+6k up to 2+6k+6. */
  lemma {:induction false} ReportBlockAt(entries: seq<Assertion>, k: nat)
    requires k < |entries|
    ensures |ReportLines(entries)| == 2 + 6 * |entries|
    ensures ReportLines(entries)[..2] == HeaderLines
    ensures ReportLines(entries)[2 + 6 * k..2 + 6 * k + 6] == BlockLines(entries[k])
  {
    BlocksLinesAt(entries, k);
    var lines := ReportLines(entries);
    assert lines[2 + 6 * k..2 + 6 * k + 6] == BlocksLines(entries)[6 * k..6 * k + 6];
  }

  /**
   * Line 2+6k+4 of a non-empty report is entry k's status line: it names the
   * pass label exactly when the entry's expected and actual strings are equal,
   * and the fail label exactly when they differ.
   */
  lemma {:induction false} StatusLineAt(entries: seq<Assertion>, k: nat)
    requires k < |entries|
    ensures |ReportLines(entries)| == 2 + 6 * |entries|
    ensures ReportLines(entries)[2 + 6 * k + 4] == "Status: " + PassLabel <==> entries[k].expected == entries[k].actual
    ensures ReportLines(entries)[2 + 6 * k + 4] == "Status: " + FailLabel <==> entries[k].expected != entries[k].actual
  {
    ReportBlockAt(entries, k);
    var block := ReportLines(entries)[2 + 6 * k..2 + 6 * k + 6];
    assert ReportLines(entries)[2 + 6 * k + 4] == block[4];
    assert block[4] == "Status: " + Status(entries[k]);
    StatusLine(entries[k]);
  }

  /** The sentinel is returned exactly for the empty list; otherwise the report starts with the header. */
  lemma {:induction false} RenderShape(entries: seq<Assertion>)
    ensures Render(entries) == "No assertions recorded" <==> entries == []
    ensures entries != [] ==>
      Render(entries) == Title + NewLine + EqualsRule + NewLine + Text(BlocksLines(entries))
  {
    if entries != [] {
      TextAppend(HeaderLines, BlocksLines(entries));
      HeaderText();
      assert Render(entries)[0] == 'A';
    }
  }

  /**
   * Recording one more entry extends a non-empty report by exactly that entry's
   * block, and turns the sentinel into the header followed by that block.
   */
  lemma {:induction false} RenderAppend(entries: seq<Assertion>, a: Assertion)
    ensures entries != [] ==> Render(entries + [a]) == Render(entries) + Text(BlockLines(a))
    ensures entries == [] ==> Render(entries + [a]) == Text(HeaderLines) + Text(BlockLines(a))
  {
    var es := entries + [a];
    assert es[..|es| - 1] == entries;
    assert ReportLines(es) == ReportLines(entries) + BlockLines(a);
    TextAppend(HeaderLines + BlocksLines(entries), BlockLines(a));
    if entries == [] {
      assert BlocksLines(es) == BlockLines(a) by {
        assert es[..0] == [];
      }
      TextAppend(HeaderLines, BlockLines(a));
    }
  }

  /**
   * The report of a list is the header, then the text of every entry's block in
   * order: for each k, the blocks of the entries before k, the block of entry k,
   * then the blocks of the entries after it.
   */
  lemma {:induction false} RenderSplit(entries: seq<Assertion>, k: nat)
    requires k < |entries|
    ensures Render(entries) == Text(HeaderLines) + Text(BlocksLines(entries))
    ensures Text(BlocksLines(entries)) ==
      Text(BlocksLines(entries[..k])) + Text(BlockLines(entries[k])) + Text(BlocksLines(entries[k + 1..]))
  {
    assert Render(entries) == Text(HeaderLines + BlocksLines(entries));
    TextAppend(HeaderLines, BlocksLines(entries));
    TextConcatSplit(entries, BlockLines, k);
  }

  /** The in-memory assertion recorder. */
  class AssertionBuilder {
    /** The recorded checks, in insertion order. */
    var entries: seq<Assertion>

    constructor ()
      ensures entries == []
    {
      entries := [];
    }

    /**
     * Records one check at the end of the list, storing "null" for a null value,
     * and returns this same builder so that calls chain on one list.
     */
    method Add(field: string, expected: Value, actual: Value) returns (builder: AssertionBuilder)
      modifies this
      ensures builder == this
      ensures |entries| == |old(entries)| + 1
      ensures entries[..|old(entries)|] == old(entries)
      ensures entries[|old(entries)|] == Assertion(field, Shown(expected), Shown(actual))
      ensures expected.Null? ==> entries[|old(entries)|].expected == "null"
      ensures actual.Null? ==> entries[|old(entries)|].actual == "null"
      ensures entries == old(entries) + [Assertion(field, Shown(expected), Shown(actual))]
    {
      entries := entries + [Assertion(field, Shown(expected), Shown(actual))];
      builder := this;
    }

    /** Renders the recorded checks; reads the list and changes nothing. */
    method Build() returns (report: string)
      ensures report == Render(entries)
    {
      if |entries| == 0 {
        return NoAssertions;
      }
      var sb := "";
      sb := sb + Title + NewLine;
      sb := sb + EqualsRule + NewLine;
      HeaderText();
      for i := 0 to |entries|
        invariant sb == Text(ReportLines(entries[..i]))
      {
        var Assertion(field, expected, actual) := entries[i];
        sb := sb + NewLine;
        sb := sb + ("Field: " + field) + NewLine;
        sb := sb + ("Expected: " + expected) + NewLine;
        sb := sb + ("Actual: " + actual) + NewLine;
        sb := sb + ("Status: " + (if expected == actual then PassLabel else FailLabel)) + NewLine;
        sb := sb + DashRule + NewLine;
        ReportLinesSnoc(entries, i);
        AppendBlock(ReportLines(entries[..i]), entries[i]);
      }
      assert entries[..|entries|] == entries;
      report := sb;
    }
  }

  /**
   * How the tests use the builder: chain two `Add` calls through the returned
   * builder, then render the summary twice. Both calls accumulate on one list,
   * and rendering only reads it, so both renderings are the header followed by
   * the two blocks in call order.
   */
  method TwoCheckSummary(field1: string, expected1: Value, actual1: Value,
                         field2: string, expected2: Value, actual2: Value)
    returns (first: string, second: string)
    ensures first == second
    ensures first == Text(HeaderLines)
      + Text(BlockLines(Assertion(field1, Shown(expected1), Shown(actual1))))
      + Text(BlockLines(Assertion(field2, Shown(expected2), Shown(actual2))))
  {
    var builder := new AssertionBuilder();
    var chained := builder.Add(field1, expected1, actual1);
    chained := chained.Add(field2, expected2, actual2);
    RenderAppend([], builder.entries[0]);
    assert [] + [builder.entries[0]] == [builder.entries[0]];
    RenderAppend([builder.entries[0]], builder.entries[1]);
    assert [builder.entries[0]] + [builder.entries[1]] == builder.entries;
    first := builder.Build();
    second := builder.Build();
  }
}

/** What the lines of the grid show, character by character (`_text_grid`). */
module GridLayout {
  import opened GridEscapes
  import opened TextGrid

  /** All of it the one character. */
  predicate AllOf(text: string, c: char) {
    forall x :: x in text ==> x == c
  }

  /** The line has the text in the place of a column: so many cells from the line's beginning, after a bar and a
      space, with spaces up to the column's width on the side it is not aligned to, and before a space and a
      bar. */
  ghost predicate Shows(u: Tables, line: string, text: string, at: nat, width: nat, right: bool) {
    exists before, padding, after :: ShowsBetween(u, line, text, at, width, right, before, padding, after)
  }

  ghost predicate ShowsBetween(u: Tables, line: string, text: string, at: nat, width: nat, right: bool,
                               before: string, padding: string, after: string) {
    && line == before + (if right then padding + text else text + padding) + after
    && Width(u, before) == at && |before| >= 2 && before[|before| - 2..] == "| "
    && " |" <= after
    && AllOf(padding, ' ') && Width(u, text) + |padding| == width
  }

  lemma PadIs(u: Tables, text: string, width: nat, right: bool)
    requires Width(u, text) <= width
    ensures exists padding :: AllOf(padding, ' ') && Width(u, text) + |padding| == width
                              && Pad(u, text, width, right) == if right then padding + text else text + padding
  {
    var padding := Repeated(' ', width - Width(u, text));
    assert AllOf(padding, ' ');
  }

  lemma {:induction false} JoinedParts(separator: string, parts: seq<string>, k: nat)
    requires k < |parts|
    ensures var front := if k == 0 then "" else Joined(separator, parts[..k]) + separator;
            var whole := Joined(separator, parts);
            && front + parts[k] <= whole
            && (k + 1 < |parts| ==> separator <= whole[|front + parts[k]|..])
            && (k + 1 == |parts| ==> whole == front + parts[k])
  {
    var n := |parts| - 1;
    var front := if k == 0 then "" else Joined(separator, parts[..k]) + separator;
    if k < n {
      JoinedParts(separator, parts[..n], k);
      assert parts[..n][..k] == parts[..k];
      var init, whole := Joined(separator, parts[..n]), Joined(separator, parts);
      assert whole == init + separator + parts[n];
      assert whole[|front + parts[k]|..] == init[|front + parts[k]|..] + separator + parts[n];
    }
  }

  /** Joined parts around one of them. */
  lemma PiecesAround(separator: string, parts: seq<string>, k: nat) returns (front: string, rest: string)
    requires k < |parts|
    ensures Joined(separator, parts) == front + parts[k] + rest
    ensures front == if k == 0 then "" else Joined(separator, parts[..k]) + separator
    ensures if k + 1 == |parts| then rest == "" else separator <= rest
  {
    hide Joined;
    front := if k == 0 then "" else Joined(separator, parts[..k]) + separator;
    JoinedParts(separator, parts, k);
    rest := Joined(separator, parts)[|front + parts[k]|..];
  }

  /** A line around the text of a column. */
  lemma LineAround(u: Tables, texts: seq<string>, widths: seq<nat>, right: seq<bool>, k: nat)
    returns (before: string, after: string)
    requires Sane(u) && |texts| == |widths| == |right| && k < |texts|
    requires forall j :: 0 <= j < |texts| ==> Width(u, texts[j]) <= widths[j]
    ensures Line(u, texts, widths, right) == before + Pad(u, texts[k], widths[k], right[k]) + after
    ensures Width(u, before) == 2 + Total(widths[..k]) && |before| >= 2 && before[|before| - 2..] == "| "
    ensures " |" <= after
  {
    hide Width, Joined, Total, Line, Pad;
    var parts := Padded(u, texts, widths, right);
    var front, rest := PiecesAround(" | ", parts, k);
    FrontWidth(u, texts, widths, right, k);
    before := BeforeOf(u, if k == 0 then "" else Joined(" | ", parts[..k]), front, k, Total(widths[..k]));
    after := AfterOf(rest, k + 1 == |parts|);
    LineIs(u, texts, widths, right, front, k, rest);
  }

  lemma LineShows(u: Tables, texts: seq<string>, widths: seq<nat>, right: seq<bool>, k: nat)
    requires Sane(u) && |texts| == |widths| == |right| && k < |texts|
    requires forall j :: 0 <= j < |texts| ==> Width(u, texts[j]) <= widths[j]
    ensures Shows(u, Line(u, texts, widths, right), texts[k], 2 + Total(widths[..k]), widths[k], right[k])
  {
    hide Width, Joined, Total, Line, Pad, Shows;
    var before, after := LineAround(u, texts, widths, right, k);
    PadShows(u, Line(u, texts, widths, right), texts[k], 2 + Total(widths[..k]), widths[k], right[k], before, after);
  }

  lemma PadShows(u: Tables, line: string, text: string, at: nat, width: nat, right: bool, before: string, after: string)
    requires line == before + Pad(u, text, width, right) + after && Width(u, text) <= width
    requires Width(u, before) == at && |before| >= 2 && before[|before| - 2..] == "| " && " |" <= after
    ensures Shows(u, line, text, at, width, right)
  {
    hide Width, AllOf, Pad;
    PadIs(u, text, width, right);
    var padding :| AllOf(padding, ' ') && Width(u, text) + |padding| == width
                   && Pad(u, text, width, right) == if right then padding + text else text + padding;
    assert ShowsBetween(u, line, text, at, width, right, before, padding, after);
  }

  lemma LineIs(u: Tables, texts: seq<string>, widths: seq<nat>, right: seq<bool>, front: string, k: nat, rest: string)
    requires |texts| == |widths| == |right| && k < |texts|
    requires Joined(" | ", Padded(u, texts, widths, right))
             == front + Pad(u, texts[k], widths[k], right[k]) + rest
    ensures Line(u, texts, widths, right)
            == ("| " + front) + Pad(u, texts[k], widths[k], right[k]) + (rest + " |")
  {
    hide Joined, Pad;
  }

  lemma BeforeOf(u: Tables, joined: string, front: string, k: nat, at: nat) returns (before: string)
    requires Sane(u) && Width(u, front) == at && front == if k == 0 then "" else joined + " | "
    ensures before == "| " + front
    ensures Width(u, before) == 2 + at && |before| >= 2 && before[|before| - 2..] == "| "
  {
    hide Width;
    before := "| " + front;
    AsciiWidth(u, "| ");
    WidthOfConcat(u, "| ", front);
  }

  lemma AfterOf(rest: string, last: bool) returns (after: string)
    requires if last then rest == "" else " | " <= rest
    ensures after == rest + " |" && " |" <= after
  {
    after := rest + " |";
  }

  /** A border has a plus sign at both ends of every column, and dashes all the way between them. */
  ghost predicate Bounds(line: string, at: nat, width: nat) {
    && at + width + 4 <= |line| && line[at] == '+' && line[at + width + 3] == '+'
    && AllOf(line[at + 1..at + width + 3], '-')
  }

  lemma {:induction false} TotalOfDashes(widths: seq<nat>)
    ensures widths != [] ==> |Joined("+", Dashes(widths))| + 1 == Total(widths)
  {
    if |widths| > 1 {
      var n := |widths| - 1;
      TotalOfDashes(widths[..n]);
      assert Dashes(widths)[..n] == Dashes(widths[..n]);
    } else if |widths| == 1 {
      assert widths[..0] == [];
      assert Dashes(widths) == [Repeated('-', widths[0] + 2)];
    }
  }

  lemma BorderBounds(widths: seq<nat>, k: nat)
    requires k < |widths|
    ensures Bounds(Border(widths), Total(widths[..k]), widths[k])
  {
    hide Joined, Total;
    var parts, whole := Dashes(widths), Joined("+", Dashes(widths));
    var front := if k == 0 then "" else Joined("+", parts[..k]) + "+";
    JoinedParts("+", parts, k);
    assert parts[..k] == Dashes(widths[..k]);
    TotalOfDashes(widths[..k]);
    assert |front| == Total(widths[..k]) by { if k == 0 { NoTotal(widths); } }
    var line, at, width := Border(widths), Total(widths[..k]), widths[k];
    assert line == "+" + whole + "+";
    assert ("+" + front)[at] == '+' by { if k > 0 { assert front[at - 1] == '+'; } }
    assert whole == front + parts[k] + whole[|front + parts[k]|..];
    assert line == ("+" + front) + parts[k] + (whole[|front + parts[k]|..] + "+");
    assert (whole[|front + parts[k]|..] + "+")[0] == '+';
    assert line[at + 1..at + width + 3] == parts[k];
  }

  lemma NoTotal(widths: seq<nat>)
    ensures Total(widths[..0]) == 0
  {
  }

  /** The widths of the columns: each as wide as the widest of its label and cells. */
  ghost predicate Fit(u: Tables, labels: seq<string>, rows: seq<seq<string>>, widths: seq<nat>)
    requires forall row :: row in rows ==> |row| == |labels|
  {
    && |widths| == |labels|
    && forall k :: 0 <= k < |labels| ==>
         && Width(u, labels[k]) <= widths[k]
         && (forall row :: row in rows ==> Width(u, row[k]) <= widths[k])
         && (widths[k] == Width(u, labels[k]) || exists row :: row in rows && widths[k] == Width(u, row[k]))
  }

  lemma WidthsFit(u: Tables, labels: seq<string>, rows: seq<seq<string>>)
    requires forall row :: row in rows ==> |row| == |labels|
    ensures Fit(u, labels, rows, Widths(u, labels, rows))
  {
    hide Width, ColumnWidth;
    var widths := Widths(u, labels, rows);
    forall k | 0 <= k < |labels|
      ensures && Width(u, labels[k]) <= widths[k]
              && (forall row :: row in rows ==> Width(u, row[k]) <= widths[k])
              && (widths[k] == Width(u, labels[k]) || exists row :: row in rows && widths[k] == Width(u, row[k]))
    {
      WidestIsWideEnough(u, labels, rows, k);
      WidestIsThere(u, labels, rows, k);
    }
  }

  /** The whole grid: a border, the labels, escaped and always to the left, a border, the rows in their order,
      each cell on the side its column is aligned to, and after any row a border; every label and cell in its
      column, and the columns in the same places in all of them. */
  lemma GridShows(u: Tables, columns: seq<string>, rows: seq<seq<string>>, right: seq<bool>, k: nat)
    requires Sane(u) && Rectangular(columns, rows, right) && k < |columns|
    ensures var lines := GridLines(u, columns, rows, right);
            var labels := seq(|columns|, j requires 0 <= j < |columns| => Escape(columns[j]));
            exists widths :: Fit(u, labels, rows, widths)
              && |lines| == (if rows == [] then 3 else |rows| + 4)
              && var at := Total(widths[..k]);
                 && Bounds(lines[0], at, widths[k]) && lines[2] == lines[0]
                 && (rows != [] ==> lines[|rows| + 3] == lines[0])
                 && Shows(u, lines[1], labels[k], 2 + at, widths[k], false)
                 && forall i :: 0 <= i < |rows| ==> Shows(u, lines[3 + i], rows[i][k], 2 + at, widths[k], right[k])
  {
    hide Width, Border, Line, ColumnWidth, Escape, Total, Shows, Bounds;
    var labels, lines := Labels(columns), GridLines(u, columns, rows, right);
    assert labels == seq(|columns|, j requires 0 <= j < |columns| => Escape(columns[j]));
    var widths := Widths(u, labels, rows);
    WidthsFit(u, labels, rows);
    BorderBounds(widths, k);
    LineShows(u, labels, widths, LeftAligned(|columns|), k);
    forall i | 0 <= i < |rows|
      ensures Shows(u, lines[3 + i], rows[i][k], 2 + Total(widths[..k]), widths[k], right[k])
    {
      assert rows[i] in rows;
      LineShows(u, rows[i], widths, right, k);
      assert lines[3 + i] == RowLines(u, rows, widths, right)[i];
    }
  }
}

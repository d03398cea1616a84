/**
 The text grid (`_display_width`, `_text_grid`): a result set drawn as the mariadb client prints it.

 Which characters take no cell and which take two is Unicode's to say; a Tables value stands for
 that.
 */
module TextGrid {
  import opened GridEscapes

  datatype Tables = Tables(zeroWidth: char -> bool, wide: char -> bool)

  predicate IsAscii(c: char) {
    c as nat < 0x80
  }

  /** No ASCII character is a combining mark, a format character or wide. */
  ghost predicate Sane(u: Tables) {
    forall c: char :: c as nat < 0x80 ==> !u.zeroWidth(c) && !u.wide(c)
  }

  function CharWidth(u: Tables, c: char): nat {
    if u.zeroWidth(c) then 0 else if u.wide(c) then 2 else 1
  }

  /** The cells a text takes up, character by character. */
  function Width(u: Tables, text: string): nat {
    if text == [] then 0 else Width(u, text[..|text| - 1]) + CharWidth(u, text[|text| - 1])
  }

  lemma {:induction false} WidthOfConcat(u: Tables, a: string, b: string)
    ensures Width(u, a + b) == Width(u, a) + Width(u, b)
  {
    if b == [] {
      assert a + b == a;
    } else {
      assert (a + b)[..|a + b| - 1] == a + b[..|b| - 1];
      WidthOfConcat(u, a, b[..|b| - 1]);
    }
  }

  lemma {:induction false} AsciiWidth(u: Tables, text: string)
    requires Sane(u) && forall c :: c in text ==> IsAscii(c)
    ensures Width(u, text) == |text|
  {
    if text != [] {
      var c := text[|text| - 1];
      assert IsAscii(c) && !u.zeroWidth(c) && !u.wide(c);
      AsciiWidth(u, text[..|text| - 1]);
    }
  }

  /** The characters that take no cell, and the wide ones among the others. */
  ghost function Invisible(u: Tables, text: string): set<nat> {
    set i | 0 <= i < |text| && u.zeroWidth(text[i])
  }

  ghost function Doubled(u: Tables, text: string): set<nat> {
    set i | 0 <= i < |text| && !u.zeroWidth(text[i]) && u.wide(text[i])
  }

  lemma CountsGrow(u: Tables, text: string)
    requires text != []
    ensures var n := |text| - 1;
            && |Invisible(u, text)| == |Invisible(u, text[..n])| + (if u.zeroWidth(text[n]) then 1 else 0)
            && |Doubled(u, text)|
               == |Doubled(u, text[..n])| + (if !u.zeroWidth(text[n]) && u.wide(text[n]) then 1 else 0)
  {
    var n := |text| - 1;
    assert Invisible(u, text) == Invisible(u, text[..n]) + if u.zeroWidth(text[n]) then {n} else {};
    assert Doubled(u, text) == Doubled(u, text[..n]) + if !u.zeroWidth(text[n]) && u.wide(text[n]) then {n} else {};
  }

  /** One cell for each character, one less for each that takes none, and one more for each that is wide. */
  lemma {:induction false} WidthCounts(u: Tables, text: string)
    ensures Width(u, text) == |text| - |Invisible(u, text)| + |Doubled(u, text)|
  {
    if text != [] {
      WidthCounts(u, text[..|text| - 1]);
      CountsGrow(u, text);
      hide Invisible, Doubled;
    } else {
      assert Invisible(u, text) == {} && Doubled(u, text) == {};
    }
  }

  method DisplayWidth(u: Tables, text: string) returns (width: nat)
    requires Sane(u)
    ensures width == Width(u, text)
  {
    if forall i :: 0 <= i < |text| ==> IsAscii(text[i]) {
      AsciiWidth(u, text);
      return |text|;
    }
    width := 0;
    for i := 0 to |text|
      invariant width == Width(u, text[..i])
    {
      assert text[..i + 1][..i] == text[..i];
      width := width + CharWidth(u, text[i]);
    }
    assert text[..|text|] == text;
  }

  // --- What the grid is --------------------------------------------------------------------------------

  function Repeated(c: char, n: nat): string {
    seq(n, _ => c)
  }

  function Joined(separator: string, parts: seq<string>): string {
    if parts == [] then ""
    else if |parts| == 1 then parts[0]
    else Joined(separator, parts[..|parts| - 1]) + separator + parts[|parts| - 1]
  }

  function Max(a: nat, b: nat): nat {
    if a < b then b else a
  }

  /** The widest of a column's label and its cells. */
  function ColumnWidth(u: Tables, header: seq<string>, rows: seq<seq<string>>, j: nat): nat
    requires j < |header| && forall row :: row in rows ==> |row| == |header|
  {
    if rows == [] then Width(u, header[j])
    else Max(ColumnWidth(u, header, rows[..|rows| - 1], j), Width(u, rows[|rows| - 1][j]))
  }

  function Pad(u: Tables, text: string, width: nat, right: bool): string {
    var padding := Repeated(' ', if Width(u, text) <= width then width - Width(u, text) else 0);
    if right then padding + text else text + padding
  }

  function Padded(u: Tables, texts: seq<string>, widths: seq<nat>, right: seq<bool>): (parts: seq<string>)
    requires |texts| == |widths| == |right|
    ensures |parts| == |texts|
    ensures forall j :: 0 <= j < |texts| ==> parts[j] == Pad(u, texts[j], widths[j], right[j])
  {
    seq(|texts|, j requires 0 <= j < |texts| => Pad(u, texts[j], widths[j], right[j]))
  }

  function Line(u: Tables, texts: seq<string>, widths: seq<nat>, right: seq<bool>): string
    requires |texts| == |widths| == |right|
  {
    "| " + Joined(" | ", Padded(u, texts, widths, right)) + " |"
  }

  function Dashes(widths: seq<nat>): (parts: seq<string>)
    ensures |parts| == |widths|
    ensures forall j :: 0 <= j < |widths| ==> parts[j] == Repeated('-', widths[j] + 2)
  {
    seq(|widths|, j requires 0 <= j < |widths| => Repeated('-', widths[j] + 2))
  }

  function Border(widths: seq<nat>): string {
    "+" + Joined("+", Dashes(widths)) + "+"
  }

  function Labels(columns: seq<string>): (header: seq<string>)
    ensures |header| == |columns| && forall j :: 0 <= j < |columns| ==> header[j] == Escape(columns[j])
  {
    seq(|columns|, j requires 0 <= j < |columns| => Escape(columns[j]))
  }

  function Widths(u: Tables, header: seq<string>, rows: seq<seq<string>>): (widths: seq<nat>)
    requires forall row :: row in rows ==> |row| == |header|
    ensures |widths| == |header|
    ensures forall j :: 0 <= j < |header| ==> widths[j] == ColumnWidth(u, header, rows, j)
  {
    seq(|header|, j requires 0 <= j < |header| => ColumnWidth(u, header, rows, j))
  }

  predicate Rectangular(columns: seq<string>, rows: seq<seq<string>>, right: seq<bool>) {
    |right| == |columns| && forall row :: row in rows ==> |row| == |columns|
  }

  function RowLines(u: Tables, rows: seq<seq<string>>, widths: seq<nat>, right: seq<bool>): (lines: seq<string>)
    requires |right| == |widths| && forall row :: row in rows ==> |row| == |widths|
    ensures |lines| == |rows|
    ensures forall i :: 0 <= i < |rows| ==> lines[i] == Line(u, rows[i], widths, right)
  {
    seq(|rows|, i requires 0 <= i < |rows| => Line(u, rows[i], widths, right))
  }

  function LeftAligned(n: nat): (right: seq<bool>)
    ensures |right| == n
  {
    seq(n, _ => false)
  }

  /** The lines of the grid. */
  function GridLines(u: Tables, columns: seq<string>, rows: seq<seq<string>>, right: seq<bool>): seq<string>
    requires Rectangular(columns, rows, right)
  {
    var header := Labels(columns);
    var widths := Widths(u, header, rows);
    var border := Border(widths);
    [border, Line(u, header, widths, LeftAligned(|columns|)), border]
    + RowLines(u, rows, widths, right)
    + if rows != [] then [border] else []
  }

  // --- Drawing it ---------------------------------------------------------------------------------------

  datatype Cell = Cell(text: string, width: nat)

  predicate Measured(u: Tables, cells: seq<Cell>, texts: seq<string>) {
    |cells| == |texts| && forall j :: 0 <= j < |texts| ==> cells[j] == Cell(texts[j], Width(u, texts[j]))
  }

  method DrawLine(u: Tables, cells: seq<Cell>, widths: seq<nat>, right: seq<bool>, ghost texts: seq<string>)
    returns (text: string)
    requires |texts| == |widths| == |right| && Measured(u, cells, texts)
    requires forall j :: 0 <= j < |texts| ==> Width(u, texts[j]) <= widths[j]
    ensures text == Line(u, texts, widths, right)
  {
    ghost var parts := Padded(u, texts, widths, right);
    var padded := [];
    for j := 0 to |cells|
      invariant padded == parts[..j]
    {
      var padding := Repeated(' ', widths[j] - cells[j].width);
      padded := padded + [if right[j] then padding + cells[j].text else cells[j].text + padding];
      assert parts[j] == Pad(u, texts[j], widths[j], right[j]);
      assert parts[..j + 1] == parts[..j] + [parts[j]];
    }
    assert parts[..|cells|] == parts;
    text := "| " + Joined(" | ", padded) + " |";
  }

  lemma {:induction false} WidestIsWideEnough(u: Tables, header: seq<string>, rows: seq<seq<string>>, j: nat)
    requires j < |header| && forall row :: row in rows ==> |row| == |header|
    ensures Width(u, header[j]) <= ColumnWidth(u, header, rows, j)
    ensures forall row :: row in rows ==> Width(u, row[j]) <= ColumnWidth(u, header, rows, j)
  {
    if rows != [] {
      var init := rows[..|rows| - 1];
      WidestIsWideEnough(u, header, init, j);
      assert rows == init + [rows[|rows| - 1]];
    }
  }

  method Measure(u: Tables, texts: seq<string>) returns (cells: seq<Cell>)
    requires Sane(u)
    ensures Measured(u, cells, texts)
  {
    cells := [];
    for j := 0 to |texts|
      invariant Measured(u, cells, texts[..j])
    {
      var width := DisplayWidth(u, texts[j]);
      cells := cells + [Cell(texts[j], width)];
    }
    assert texts[..|texts|] == texts;
  }

  /** One more row taken into the widths. */
  method Widen(u: Tables, cells: seq<Cell>, widths: seq<nat>,
               ghost header: seq<string>, ghost rows: seq<seq<string>>)
    returns (wider: seq<nat>)
    requires rows != [] && forall row :: row in rows ==> |row| == |header|
    requires widths == Widths(u, header, rows[..|rows| - 1]) && Measured(u, cells, rows[|rows| - 1])
    ensures wider == Widths(u, header, rows)
  {
    wider := widths;
    for j := 0 to |cells|
      invariant |wider| == |widths|
      invariant forall k :: j <= k < |widths| ==> wider[k] == widths[k]
      invariant forall k :: 0 <= k < j ==> wider[k] == ColumnWidth(u, header, rows, k)
    {
      wider := wider[j := Max(wider[j], cells[j].width)];
    }
  }

  method MeasureLabels(u: Tables, columns: seq<string>) returns (header: seq<Cell>, widths: seq<nat>)
    requires Sane(u)
    ensures Measured(u, header, Labels(columns)) && widths == Widths(u, Labels(columns), [])
  {
    hide Width, Escape;
    ghost var labels := Labels(columns);
    header, widths := [], [];
    for j := 0 to |columns|
      invariant Measured(u, header, labels[..j]) && |widths| == j
      invariant forall k :: 0 <= k < j ==> widths[k] == Width(u, labels[k])
    {
      var width := DisplayWidth(u, Escape(columns[j]));
      header := header + [Cell(Escape(columns[j]), width)];
      widths := widths + [width];
    }
    assert labels[..|columns|] == labels;
  }

  method Grid(u: Tables, columns: seq<string>, rows: seq<seq<string>>, right: seq<bool>)
    returns (text: string)
    requires Sane(u) && Rectangular(columns, rows, right)
    ensures text == Joined("\n", GridLines(u, columns, rows, right))
  {
    hide Joined, Width, Measured, ColumnWidth, Escape;
    ghost var labels := Labels(columns);
    var header, widths := MeasureLabels(u, columns);
    assert rows[..0] == [];
    var cells: seq<seq<Cell>> := [];
    for i := 0 to |rows|
      invariant |cells| == i && forall k :: 0 <= k < i ==> Measured(u, cells[k], rows[k])
      invariant widths == Widths(u, labels, rows[..i])
    {
      var measured := Measure(u, rows[i]);
      assert rows[..i + 1][..i] == rows[..i];
      widths := Widen(u, measured, widths, labels, rows[..i + 1]);
      cells := cells + [measured];
    }
    assert rows[..|rows|] == rows;
    text := Draw(u, header, cells, widths, right, columns, rows);
  }

  method Draw(u: Tables, header: seq<Cell>, cells: seq<seq<Cell>>, widths: seq<nat>, right: seq<bool>,
              ghost columns: seq<string>, ghost rows: seq<seq<string>>)
    returns (text: string)
    requires Rectangular(columns, rows, right) && widths == Widths(u, Labels(columns), rows)
    requires Measured(u, header, Labels(columns))
    requires |cells| == |rows| && forall k :: 0 <= k < |rows| ==> Measured(u, cells[k], rows[k])
    ensures text == Joined("\n", GridLines(u, columns, rows, right))
  {
    hide Joined, Line, Width, Measured;
    ghost var labels, body := Labels(columns), RowLines(u, rows, widths, right);
    forall j | 0 <= j < |labels|
      ensures Width(u, labels[j]) <= widths[j]
      ensures forall row :: row in rows ==> Width(u, row[j]) <= widths[j]
    {
      WidestIsWideEnough(u, labels, rows, j);
    }
    var border := "+" + Joined("+", Dashes(widths)) + "+";
    var top := DrawLine(u, header, widths, LeftAligned(|widths|), labels);
    var lines := [border, top, border];
    for i := 0 to |cells|
      invariant lines == [border, top, border] + body[..i]
    {
      assert rows[i] in rows;
      var line := DrawLine(u, cells[i], widths, right, rows[i]);
      lines := lines + [line];
      assert body[..i + 1] == body[..i] + [body[i]];
    }
    assert body[..|rows|] == body;
    if cells != [] { lines := lines + [border]; }
    text := Joined("\n", lines);
  }

  // --- What it looks like --------------------------------------------------------------------------------

  /** The cells a line's columns take up, each with what stands between it and the next. */
  function Total(widths: seq<nat>): nat {
    if widths == [] then 0 else Total(widths[..|widths| - 1]) + widths[|widths| - 1] + 3
  }

  lemma {:induction false} RepeatedWidth(u: Tables, c: char, n: nat)
    requires Sane(u) && IsAscii(c)
    ensures Width(u, Repeated(c, n)) == n
  {
    AsciiWidth(u, Repeated(c, n));
  }

  lemma PadWidth(u: Tables, text: string, width: nat, right: bool)
    requires Sane(u) && Width(u, text) <= width
    ensures Width(u, Pad(u, text, width, right)) == width
  {
    var padding := Repeated(' ', width - Width(u, text));
    RepeatedWidth(u, ' ', width - Width(u, text));
    WidthOfConcat(u, padding, text);
    WidthOfConcat(u, text, padding);
  }

  /** Joined parts, one gap more than there is, take up the widths and the gaps. */
  lemma {:induction false} JoinedWidth(u: Tables, separator: string, parts: seq<string>, widths: seq<nat>)
    requires |parts| == |widths| > 0 && Width(u, separator) <= 3
    requires forall j :: 0 <= j < |parts| ==> Width(u, parts[j]) + Width(u, separator) == widths[j] + 3
    ensures Width(u, Joined(separator, parts)) + Width(u, separator) == Total(widths)
  {
    hide Width;
    var n := |parts| - 1;
    if n > 0 {
      JoinedWidth(u, separator, parts[..n], widths[..n]);
      WidthOfConcat(u, Joined(separator, parts[..n]), separator);
      WidthOfConcat(u, Joined(separator, parts[..n]) + separator, parts[n]);
    } else {
      assert widths[..0] == [];
    }
  }

  lemma BorderWidth(u: Tables, widths: seq<nat>)
    requires Sane(u)
    ensures Width(u, Border(widths)) == if widths == [] then 2 else Total(widths) + 1
  {
    hide Width, Repeated;
    var parts := Dashes(widths);
    AsciiWidth(u, "+");
    if widths == [] {
      assert Border(widths) == "+" + "+";
      WidthOfConcat(u, "+", "+");
    } else {
      forall j | 0 <= j < |parts| ensures Width(u, parts[j]) == widths[j] + 2 { RepeatedWidth(u, '-', widths[j] + 2); }
      JoinedWidth(u, "+", parts, widths);
      WidthOfConcat(u, "+", Joined("+", parts));
      WidthOfConcat(u, "+" + Joined("+", parts), "+");
    }
  }

  lemma LineWidth(u: Tables, texts: seq<string>, widths: seq<nat>, right: seq<bool>)
    requires Sane(u) && |texts| == |widths| == |right|
    requires forall j :: 0 <= j < |texts| ==> Width(u, texts[j]) <= widths[j]
    ensures Width(u, Line(u, texts, widths, right)) == if widths == [] then 4 else Total(widths) + 1
  {
    hide Width, Pad;
    var parts := Padded(u, texts, widths, right);
    AsciiWidth(u, "| ");
    AsciiWidth(u, " |");
    AsciiWidth(u, " | ");
    if widths == [] {
      assert Line(u, texts, widths, right) == "| " + " |";
      WidthOfConcat(u, "| ", " |");
    } else {
      forall j | 0 <= j < |parts| ensures Width(u, parts[j]) == widths[j] {
        PadWidth(u, texts[j], widths[j], right[j]);
      }
      JoinedWidth(u, " | ", parts, widths);
      WidthOfConcat(u, "| ", Joined(" | ", parts));
      WidthOfConcat(u, "| " + Joined(" | ", parts), " |");
    }
  }

  /** With a column, every line of the grid takes up the same number of cells. Without one, the border
      is narrower than the lines. */
  lemma LinesAreEquallyWide(u: Tables, columns: seq<string>, rows: seq<seq<string>>, right: seq<bool>)
    requires Sane(u) && Rectangular(columns, rows, right)
    ensures var lines := GridLines(u, columns, rows, right);
            && |lines| == (if rows == [] then 3 else |rows| + 4)
            && ((forall a, b :: 0 <= a < |lines| && 0 <= b < |lines| ==> Width(u, lines[a]) == Width(u, lines[b]))
                <==> columns != [])
  {
    hide Width, Border, Line, ColumnWidth, Escape;
    var labels, lines := Labels(columns), GridLines(u, columns, rows, right);
    var widths := Widths(u, labels, rows);
    forall j | 0 <= j < |labels|
      ensures Width(u, labels[j]) <= widths[j]
      ensures forall row :: row in rows ==> Width(u, row[j]) <= widths[j]
    {
      WidestIsWideEnough(u, labels, rows, j);
    }
    BorderWidth(u, widths);
    LineWidth(u, labels, widths, LeftAligned(|columns|));
    var wide := if columns == [] then 4 else Total(widths) + 1;
    var body := RowLines(u, rows, widths, right);
    forall i | 0 <= i < |rows| ensures Width(u, body[i]) == wide {
      assert rows[i] in rows;
      LineWidth(u, rows[i], widths, right);
    }
    assert Width(u, lines[0]) == if columns == [] then 2 else wide;
    assert Width(u, lines[1]) == wide;
  }

  /** Some column is as wide as it is because of its label or a cell, so no narrower grid would do. */
  lemma {:induction false} WidestIsThere(u: Tables, header: seq<string>, rows: seq<seq<string>>, j: nat)
    requires j < |header| && forall row :: row in rows ==> |row| == |header|
    ensures ColumnWidth(u, header, rows, j) == Width(u, header[j])
            || exists row :: row in rows && ColumnWidth(u, header, rows, j) == Width(u, row[j])
  {
    hide Width;
    if rows != [] {
      WidestIsThere(u, header, rows[..|rows| - 1], j);
      assert rows[|rows| - 1] in rows;
    }
  }

  lemma {:induction false} JoinedAround(separator: string, parts: seq<string>, k: nat)
    requires k < |parts|
    ensures var front := if k == 0 then "" else Joined(separator, parts[..k]) + separator;
            front + parts[k] <= Joined(separator, parts)
  {
    var n := |parts| - 1;
    if k < n {
      JoinedAround(separator, parts[..n], k);
      assert parts[..n][..k] == parts[..k];
    }
  }

  /** Every line has its columns in the same places: the k-th text, padded, begins where the columns
      before it end. */
  lemma ColumnsLineUp(u: Tables, texts: seq<string>, widths: seq<nat>, right: seq<bool>, k: nat)
    requires Sane(u) && |texts| == |widths| == |right| && k < |texts|
    requires forall j :: 0 <= j < |texts| ==> Width(u, texts[j]) <= widths[j]
    ensures exists before, after ::
              && Line(u, texts, widths, right) == before + Pad(u, texts[k], widths[k], right[k]) + after
              && Width(u, before) == 2 + Total(widths[..k])
              && Width(u, Pad(u, texts[k], widths[k], right[k])) == widths[k]
  {
    hide Width, Pad, Joined, Total;
    var parts := Padded(u, texts, widths, right);
    var whole := Joined(" | ", parts);
    var front := if k == 0 then "" else Joined(" | ", parts[..k]) + " | ";
    JoinedAround(" | ", parts, k);
    FrontWidth(u, texts, widths, right, k);
    PadWidth(u, texts[k], widths[k], right[k]);
    var before := "| " + front;
    var after := whole[|front + parts[k]|..] + " |";
    AsciiWidth(u, "| ");
    WidthOfConcat(u, "| ", front);
    assert whole == front + parts[k] + whole[|front + parts[k]|..];
    assert Line(u, texts, widths, right) == before + parts[k] + after;
  }

  lemma FrontWidth(u: Tables, texts: seq<string>, widths: seq<nat>, right: seq<bool>, k: nat)
    requires Sane(u) && |texts| == |widths| == |right| && k < |texts|
    requires forall j :: 0 <= j < |texts| ==> Width(u, texts[j]) <= widths[j]
    ensures var parts := Padded(u, texts, widths, right);
            Width(u, if k == 0 then "" else Joined(" | ", parts[..k]) + " | ") == Total(widths[..k])
  {
    hide Pad, Joined;
    var parts := Padded(u, texts, widths, right);
    if k > 0 {
      AsciiWidth(u, " | ");
      forall j | 0 <= j < k ensures Width(u, parts[j]) == widths[j] {
        PadWidth(u, texts[j], widths[j], right[j]);
      }
      JoinedWidth(u, " | ", parts[..k], widths[..k]);
      WidthOfConcat(u, Joined(" | ", parts[..k]), " | ");
    }
  }

  // --- The lines of the text -----------------------------------------------------------------------------

  /** The lines of a text, as a terminal breaks it. */
  function SplitLines(text: string): (lines: seq<string>)
    ensures lines != []
  {
    if text == [] then [""]
    else
      var lines, c := SplitLines(text[..|text| - 1]), text[|text| - 1];
      if c == '\n' then lines + [""] else lines[..|lines| - 1] + [lines[|lines| - 1] + [c]]
  }

  lemma {:induction false} SplitGoesOn(text: string, s: string)
    requires '\n' !in s
    ensures var lines := SplitLines(text); SplitLines(text + s) == lines[..|lines| - 1] + [lines[|lines| - 1] + s]
  {
    var lines := SplitLines(text);
    if s == [] {
      assert text + s == text && lines[|lines| - 1] + s == lines[|lines| - 1];
    } else {
      var init, c := s[..|s| - 1], s[|s| - 1];
      SplitGoesOn(text, init);
      assert (text + s)[..|text + s| - 1] == text + init;
      assert c in s;
      assert lines[|lines| - 1] + init + [c] == lines[|lines| - 1] + s by { assert init + [c] == s; }
    }
  }

  lemma NewlineSplits(front: string, line: string)
    requires '\n' !in line
    ensures SplitLines(front + "\n" + line) == SplitLines(front) + [line]
  {
    var text := front + "\n";
    assert text[..|text| - 1] == front;
    SplitGoesOn(text, line);
    assert "" + line == line;
  }

  predicate OneLine(text: string) {
    '\n' !in text
  }

  lemma OneLineSplits(lines: seq<string>)
    requires |lines| == 1 && OneLine(lines[0])
    ensures SplitLines(Joined("\n", lines)) == lines
  {
    var line := lines[0];
    SplitGoesOn("", line);
    assert "" + line == line;
    assert SplitLines("") == [""] && [""][..0] == [];
    assert lines == [line];
  }

  lemma JoinedStep(separator: string, parts: seq<string>, last: string)
    requires parts != []
    ensures Joined(separator, parts + [last]) == Joined(separator, parts) + separator + last
  {
    assert (parts + [last])[..|parts|] == parts;
  }

  lemma OneMoreLineSplits(lines: seq<string>, line: string)
    requires lines != [] && SplitLines(Joined("\n", lines)) == lines && OneLine(line)
    ensures SplitLines(Joined("\n", lines + [line])) == lines + [line]
  {
    hide SplitLines, Joined;
    JoinedStep("\n", lines, line);
    NewlineSplits(Joined("\n", lines), line);
  }

  /** Joined lines split into themselves again. */
  lemma {:induction false} JoinedLinesSplit(lines: seq<string>)
    requires lines != [] && forall i :: 0 <= i < |lines| ==> OneLine(lines[i])
    ensures SplitLines(Joined("\n", lines)) == lines
  {
    hide SplitLines, Joined, OneLine;
    var n := |lines| - 1;
    if n == 0 {
      OneLineSplits(lines);
    } else {
      var init, last := lines[..n], lines[n];
      JoinedLinesSplit(init);
      OneMoreLineSplits(init, last);
      assert init + [last] == lines;
    }
  }

  lemma {:induction false} JoinedIsOneLine(separator: string, parts: seq<string>)
    requires OneLine(separator) && forall part :: part in parts ==> OneLine(part)
    ensures OneLine(Joined(separator, parts))
  {
    if |parts| > 1 {
      JoinedIsOneLine(separator, parts[..|parts| - 1]);
      assert parts[|parts| - 1] in parts;
    } else if |parts| == 1 {
      assert parts[0] in parts;
    }
  }

  lemma PadIsOneLine(u: Tables, text: string, width: nat, right: bool)
    requires OneLine(text)
    ensures OneLine(Pad(u, text, width, right))
  {
  }

  lemma LineIsOneLine(u: Tables, texts: seq<string>, widths: seq<nat>, right: seq<bool>)
    requires |texts| == |widths| == |right| && forall text :: text in texts ==> OneLine(text)
    ensures OneLine(Line(u, texts, widths, right))
  {
    hide Pad, Joined;
    var parts := Padded(u, texts, widths, right);
    forall part | part in parts ensures OneLine(part) {
      var j :| 0 <= j < |parts| && part == parts[j];
      PadIsOneLine(u, texts[j], widths[j], right[j]);
    }
    JoinedIsOneLine(" | ", parts);
  }

  lemma BorderIsOneLine(widths: seq<nat>)
    ensures OneLine(Border(widths))
  {
    hide Joined;
    forall part | part in Dashes(widths) ensures OneLine(part) {
    }
    JoinedIsOneLine("+", Dashes(widths));
  }

  lemma LabelsAreOneLine(columns: seq<string>)
    ensures forall name :: name in Labels(columns) ==> OneLine(name)
  {
    forall name | name in Labels(columns) ensures OneLine(name) {
      var j :| 0 <= j < |columns| && name == Escape(columns[j]);
      EscapedIsTame(columns[j]);
    }
  }

  /** The text breaks into exactly the lines of the grid, whatever the labels hold and as long as no
      cell's text holds a newline. */
  lemma GridBreaksIntoItsLines(u: Tables, columns: seq<string>, rows: seq<seq<string>>, right: seq<bool>)
    requires Rectangular(columns, rows, right)
    requires forall row, text :: row in rows && text in row ==> OneLine(text)
    ensures var lines := GridLines(u, columns, rows, right); SplitLines(Joined("\n", lines)) == lines
  {
    hide Border, Line, Escape, ColumnWidth, Joined, SplitLines, OneLine;
    var labels, lines := Labels(columns), GridLines(u, columns, rows, right);
    var widths := Widths(u, labels, rows);
    BorderIsOneLine(widths);
    LabelsAreOneLine(columns);
    LineIsOneLine(u, labels, widths, LeftAligned(|columns|));
    forall i | 0 <= i < |rows| ensures OneLine(RowLines(u, rows, widths, right)[i]) {
      assert rows[i] in rows;
      LineIsOneLine(u, rows[i], widths, right);
    }
    JoinedLinesSplit(lines);
  }
}

/**
 * The text the Markdown builders produce, as functions on strings.
 *
 * Every builder in the model appends one of these fragments to its buffer;
 * the builders are proved against these functions, and the properties of the
 * output (header shape, delimiter counts, one line per row) are proved here,
 * once, about the functions. The equivalence of the two table paths is proved
 * on the builders themselves (`AssignmentsClients.TablePathsAgree`).
 */
module Markdown {

  /** The line terminator `AppendLine` writes (`Environment.NewLine`). */
  const NL: string := "\n"

  // ---------------------------------------------------------------------------
  // Inline fragments
  // ---------------------------------------------------------------------------

  /** `new string('#', n)`: exactly n hash characters. */
  function Hashes(n: nat): (r: string)
    ensures |r| == n
    ensures forall i :: 0 <= i < |r| ==> r[i] == '#'
  {
    if n == 0 then "" else Hashes(n - 1) + "#"
  }

  /** The line a header of the given level appends: hashes, a space, the text, a line terminator. */
  function HeaderLine(level: nat, text: string): string
  {
    Hashes(level) + " " + text + NL
  }

  function BoldSpan(text: string): string
  {
    "**" + text + "**"
  }

  function ItalicSpan(text: string): string
  {
    "*" + text + "*"
  }

  function LinkSpan(caption: string, url: string): string
  {
    "[" + caption + "](" + url + ")"
  }

  /**
   * One call a label or cell callback makes on the builder it is handed.
   * A nested link carries the calls its own label callback makes on a fresh
   * child builder.
   */
  datatype Inline =
    | Text(text: string)
    | Header(level: nat, text: string)
    | Bold(text: string)
    | Italic(text: string)
    | Link(caption: string, url: string)
    | NestedLink(captionCalls: seq<Inline>, url: string)
    | NewLine

  /** A callback that configures a document builder: the calls it makes, in order. */
  type Callback = seq<Inline>

  /** A row callback: one cell callback per `AddCell` call. */
  type RowCallback = seq<Callback>

  /** A table callback: one row callback per `AddRow` call. */
  type TableCallback = seq<RowCallback>

  /** The text a builder that starts empty holds after the calls `calls`. */
  function Render(calls: Callback): string
    decreases calls
  {
    if calls == [] then "" else Fragment(calls[0]) + Render(calls[1..])
  }

  /** The text one call appends. */
  function Fragment(call: Inline): string
    decreases call
  {
    match call
    case Text(t) => t
    case Header(n, t) => HeaderLine(n, t)
    case Bold(t) => BoldSpan(t)
    case Italic(t) => ItalicSpan(t)
    case Link(c, u) => LinkSpan(c, u)
    case NestedLink(cs, u) => LinkSpan(Render(cs), u)
    case NewLine => NL
  }

  /** Calls that the flat builder offers as well: everything but the nested link. */
  predicate IsFlat(call: Inline)
  {
    !call.NestedLink?
  }

  type FlatInline = call: Inline | IsFlat(call) witness NewLine

  // ---------------------------------------------------------------------------
  // Tables
  // ---------------------------------------------------------------------------

  /** Each cell followed by its closing delimiter, `c0|c1|...|`. */
  function Cells(cells: seq<string>): string
  {
    if cells == [] then "" else Cells(cells[..|cells| - 1]) + cells[|cells| - 1] + "|"
  }

  /** One table line: a leading delimiter, the cells, a line terminator. */
  function RowLine(cells: seq<string>): string
  {
    "|" + Cells(cells) + NL
  }

  /** The cells of the separator line: one `---` per column. */
  function Dashes(n: nat): seq<string>
  {
    seq(n, _ => "---")
  }

  /** The row lines of a table body, in order. */
  function Lines(rows: seq<seq<string>>): string
  {
    if rows == [] then "" else Lines(rows[..|rows| - 1]) + RowLine(rows[|rows| - 1])
  }

  /** The header line and the separator line a table starts with. */
  function TableHead(headers: seq<string>): string
  {
    RowLine(headers) + RowLine(Dashes(|headers|))
  }

  /** A whole table: head, then one line per row of pre-rendered cells. */
  function TableText(headers: seq<string>, rows: seq<seq<string>>): string
  {
    TableHead(headers) + Lines(rows)
  }

  /** The rendered text of each cell callback of a row. */
  function RenderCells(row: RowCallback): (r: seq<string>)
  {
    seq(|row|, j requires 0 <= j < |row| => Render(row[j]))
  }

  /** The rendered cells of each row callback of a table. */
  function RenderTable(table: TableCallback): seq<seq<string>>
  {
    seq(|table|, i requires 0 <= i < |table| => RenderCells(table[i]))
  }

  // ---------------------------------------------------------------------------
  // Lemmas about the text
  // ---------------------------------------------------------------------------

  /** Running two call sequences one after the other appends both texts, in order. */
  lemma {:induction false} RenderAppend(a: Callback, b: Callback)
    ensures Render(a + b) == Render(a) + Render(b)
    decreases a
  {
    if a == [] {
      assert a + b == b;
    } else {
      assert (a + b)[1..] == a[1..] + b;
      RenderAppend(a[1..], b);
    }
  }

  /** The header line: exactly `level` hashes, one space, the text, the terminator. */
  lemma HeaderLineShape(level: nat, text: string)
    ensures |HeaderLine(level, text)| == level + 1 + |text| + |NL|
    ensures forall i :: 0 <= i < level ==> HeaderLine(level, text)[i] == '#'
    ensures HeaderLine(level, text)[level] == ' '
    ensures HeaderLine(level, text)[level + 1..] == text + NL
  {
  }

  /** No cell text holds the character `c`. */
  predicate NoneContains(c: char, cells: seq<string>)
  {
    forall i :: 0 <= i < |cells| ==> c !in cells[i]
  }

  /** Number of occurrences of a character in a string. */
  function Count(c: char, s: string): (n: nat)
    ensures n <= |s|
    ensures n == 0 <==> c !in s
  {
    if s == [] then 0 else (if s[0] == c then 1 else 0) + Count(c, s[1..])
  }

  lemma {:induction false} CountAppend(c: char, a: string, b: string)
    ensures Count(c, a + b) == Count(c, a) + Count(c, b)
    decreases a
  {
    if a == [] {
      assert a + b == b;
    } else {
      assert (a + b)[1..] == a[1..] + b;
      CountAppend(c, a[1..], b);
    }
  }

  /**
   * The cells of a row contribute one delimiter each, whatever their number,
   * as long as no cell text holds a delimiter itself.
   */
  lemma {:induction false} CellsDelimiters(cells: seq<string>)
    requires NoneContains('|', cells)
    ensures Count('|', Cells(cells)) == |cells|
    decreases |cells|
  {
    if cells != [] {
      var init, last := cells[..|cells| - 1], cells[|cells| - 1];
      CellsDelimiters(init);
      CountAppend('|', Cells(init), last);
      CountAppend('|', Cells(init) + last, "|");
    }
  }

  /** A row line with n delimiter-free cells holds exactly n + 1 delimiters. */
  lemma RowLineDelimiters(cells: seq<string>)
    requires NoneContains('|', cells)
    ensures Count('|', RowLine(cells)) == |cells| + 1
  {
    CellsDelimiters(cells);
    CountAppend('|', "|", Cells(cells));
    CountAppend('|', "|" + Cells(cells), NL);
  }

  /**
   * The separator line written for n headers has one cell per header: it
   * holds n + 1 delimiters, whatever the headers say (also for no headers).
   */
  lemma SeparatorDelimiters(n: nat)
    ensures Count('|', RowLine(Dashes(n))) == n + 1
  {
    var dashes := Dashes(n);
    assert forall i :: 0 <= i < |dashes| ==> dashes[i] == "---";
    RowLineDelimiters(dashes);
  }

  /**
   * When no header holds a delimiter, the header line and the separator
   * line hold the same number of delimiters.
   */
  lemma SeparatorMatchesHeader(headers: seq<string>)
    requires NoneContains('|', headers)
    ensures Count('|', RowLine(headers)) == Count('|', RowLine(Dashes(|headers|)))
  {
    RowLineDelimiters(headers);
    SeparatorDelimiters(|headers|);
  }

  /** A row line whose cells hold no line break is exactly one line. */
  lemma {:induction false} RowLineIsOneLine(cells: seq<string>)
    requires NoneContains('\n', cells)
    ensures Count('\n', RowLine(cells)) == 1
    decreases |cells|
  {
    if cells == [] {
      assert RowLine(cells) == "|\n";
    } else {
      var init, last := cells[..|cells| - 1], cells[|cells| - 1];
      RowLineIsOneLine(init);
      CountAppend('\n', "|", Cells(init));
      CountAppend('\n', "|" + Cells(init), NL);
      CountAppend('\n', Cells(init), last);
      CountAppend('\n', Cells(init) + last, "|");
      CountAppend('\n', "|", Cells(cells));
      CountAppend('\n', "|" + Cells(cells), NL);
    }
  }

  /** The head of a table whose headers hold no line break is two lines. */
  lemma TableHeadLines(headers: seq<string>)
    requires NoneContains('\n', headers)
    ensures Count('\n', TableHead(headers)) == 2
  {
    var dashes := Dashes(|headers|);
    assert forall i :: 0 <= i < |dashes| ==> dashes[i] == "---";
    RowLineIsOneLine(headers);
    RowLineIsOneLine(dashes);
    CountAppend('\n', RowLine(headers), RowLine(dashes));
  }

  /** Each row line of a table body whose cells hold no line break is one line. */
  lemma {:induction false} LinesLineCount(rows: seq<seq<string>>)
    requires forall i :: 0 <= i < |rows| ==> NoneContains('\n', rows[i])
    ensures Count('\n', Lines(rows)) == |rows|
    decreases |rows|
  {
    if rows != [] {
      var init, last := rows[..|rows| - 1], rows[|rows| - 1];
      assert forall i :: 0 <= i < |init| ==> init[i] == rows[i];
      LinesLineCount(init);
      RowLineIsOneLine(last);
      CountAppend('\n', Lines(init), RowLine(last));
    }
  }

  /**
   * Every row adds exactly one line: a table whose headers and cells hold no
   * line break has two head lines and one line per row.
   */
  lemma TableLineCount(headers: seq<string>, rows: seq<seq<string>>)
    requires NoneContains('\n', headers)
    requires forall i :: 0 <= i < |rows| ==> NoneContains('\n', rows[i])
    ensures Count('\n', TableText(headers, rows)) == |rows| + 2
  {
    TableHeadLines(headers);
    LinesLineCount(rows);
    CountAppend('\n', TableHead(headers), Lines(rows));
  }
}

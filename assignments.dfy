/**
 * The nested Markdown builders: a document builder whose link labels and
 * table cells are built by fresh child builders, a table builder and a row
 * builder. Each builder owns one append-only text buffer.
 *
 * A callback is modelled as the calls it makes on the builder it is handed
 * (`Markdown.Callback` and friends); `Configure` on each class plays such a
 * callback on that builder.
 */
module Assignments {
  import opened Markdown

  /**
   * `MarkdownElement` together with its only concrete subclass
   * `FluentMarkdownBuilder`.
   */
  class FluentMarkdownBuilder {
    /** The text appended so far (`_builder`). */
    var buffer: string

    constructor ()
      ensures buffer == []
    {
      buffer := [];
    }

    method AddText(text: string) returns (self: FluentMarkdownBuilder)
      modifies this
      ensures self == this
      ensures buffer == old(buffer) + text
    {
      buffer := buffer + text;
      self := this;
    }

    /** A negative level makes `new string('#', level)` throw; callers must not pass one. */
    method AddHeader(headerLevel: int, text: string) returns (self: FluentMarkdownBuilder)
      requires headerLevel >= 0
      modifies this
      ensures self == this
      ensures buffer == old(buffer) + HeaderLine(headerLevel, text)
    {
      var prefix := Hashes(headerLevel);
      buffer := buffer + (prefix + " " + text) + NL;
      self := this;
    }

    method AddBold(text: string) returns (self: FluentMarkdownBuilder)
      modifies this
      ensures self == this
      ensures buffer == old(buffer) + BoldSpan(text)
    {
      buffer := buffer + "**" + text + "**";
      self := this;
    }

    method AddItalic(text: string) returns (self: FluentMarkdownBuilder)
      modifies this
      ensures self == this
      ensures buffer == old(buffer) + ItalicSpan(text)
    {
      buffer := buffer + "*" + text + "*";
      self := this;
    }

    /** Both `MarkdownElement.AddLink(string, string)` and the hiding `FluentMarkdownBuilder.AddLink`. */
    method AddLink(linkText: string, url: string) returns (self: FluentMarkdownBuilder)
      modifies this
      ensures self == this
      ensures buffer == old(buffer) + LinkSpan(linkText, url)
    {
      buffer := buffer + "[" + linkText + "](" + url + ")";
      self := this;
    }

    /**
     * `AddLink(configureLinkText, url)`: the label is whatever the callback
     * writes into a fresh, empty child builder.
     */
    method AddLinkWith(configureLinkText: Callback, url: string) returns (self: FluentMarkdownBuilder)
      modifies this
      decreases configureLinkText, 1
      ensures self == this
      ensures buffer == old(buffer) + LinkSpan(Render(configureLinkText), url)
    {
      buffer := buffer + "[";
      var linkBuilder := new FluentMarkdownBuilder();
      linkBuilder.Configure(configureLinkText);
      var linkText := linkBuilder.ToString();
      buffer := buffer + linkText;
      buffer := buffer + "](" + url + ")";
      self := this;
    }

    method NewLine() returns (self: FluentMarkdownBuilder)
      modifies this
      ensures self == this
      ensures buffer == old(buffer) + NL
    {
      buffer := buffer + NL;
      self := this;
    }

    /** Reads the buffer and changes nothing. */
    method ToString() returns (s: string)
      ensures s == buffer
    {
      s := buffer;
    }

    /** Plays one call of a callback on this builder. */
    method Call(call: Inline)
      modifies this
      decreases call, 0
      ensures buffer == old(buffer) + Fragment(call)
    {
      var self: FluentMarkdownBuilder;
      match call
      case Text(t) => self := AddText(t);
      case Header(n, t) => self := AddHeader(n, t);
      case Bold(t) => self := AddBold(t);
      case Italic(t) => self := AddItalic(t);
      case Link(c, u) => self := AddLink(c, u);
      case NestedLink(cs, u) => self := AddLinkWith(cs, u);
      case NewLine => self := NewLine();
    }

    /** Plays a whole callback on this builder: its calls, in order. */
    method Configure(calls: Callback)
      modifies this
      decreases calls, 0
      ensures buffer == old(buffer) + Render(calls)
    {
      for i := 0 to |calls|
        invariant buffer == old(buffer) + Render(calls[..i])
      {
        Call(calls[i]);
        assert calls[..i + 1] == calls[..i] + [calls[i]];
        RenderAppend(calls[..i], [calls[i]]);
      }
      assert calls[..|calls|] == calls;
    }

    /** `AddTable(string[] headers, string[][] rows)`: the table from pre-rendered cells. */
    method AddTable(headers: seq<string>, rows: seq<seq<string>>) returns (self: FluentMarkdownBuilder)
      modifies this
      ensures self == this
      ensures buffer == old(buffer) + TableText(headers, rows)
    {
      AppendRowLine(headers);
      AppendSeparatorLine(headers);
      ghost var afterHead := buffer;
      for i := 0 to |rows|
        invariant buffer == afterHead + Lines(rows[..i])
      {
        AppendRowLine(rows[i]);
        assert rows[..i + 1][..i] == rows[..i];
      }
      assert rows[..|rows|] == rows;
      self := this;
    }

    /** `AddTable`'s second loop: a leading delimiter, one `---|` per header, a terminator. */
    method AppendSeparatorLine(headers: seq<string>)
      modifies this
      ensures buffer == old(buffer) + RowLine(Dashes(|headers|))
    {
      buffer := buffer + "|";
      for i := 0 to |headers|
        invariant buffer == old(buffer) + "|" + Cells(Dashes(i))
      {
        buffer := buffer + "---|";
        assert Dashes(i + 1)[..i] == Dashes(i);
      }
      buffer := buffer + NL;
    }

    /**
     * `AddTable`'s first loop (over the headers) and the body of its loop over
     * rows append the same way: a leading delimiter, each cell followed by a
     * delimiter, a terminator.
     */
    method AppendRowLine(row: seq<string>)
      modifies this
      ensures buffer == old(buffer) + RowLine(row)
    {
      buffer := buffer + "|";
      for j := 0 to |row|
        invariant buffer == old(buffer) + "|" + Cells(row[..j])
      {
        buffer := buffer + row[j];
        buffer := buffer + "|";
        assert row[..j + 1][..j] == row[..j];
      }
      assert row[..|row|] == row;
      buffer := buffer + NL;
    }

    /**
     * `AddTable(string[] headers, Action<ITableBuilder> configureTable)`: the
     * table a fresh table builder holds after the callback, spliced in once.
     */
    method AddTableWith(headers: seq<string>, configureTable: TableCallback) returns (self: FluentMarkdownBuilder)
      modifies this
      ensures self == this
      ensures buffer == old(buffer) + TableText(headers, RenderTable(configureTable))
    {
      var tableBuilder := new TableBuilder(headers);
      tableBuilder.Configure(configureTable);
      var table := tableBuilder.ToString();
      buffer := buffer + table;
      self := this;
    }
  }

  /** Accumulates a table: head at construction, then one line per `AddRow`. */
  class TableBuilder {
    /** The table text so far (`_tableBuilder`). */
    var buffer: string

    constructor (headers: seq<string>)
      ensures buffer == TableHead(headers)
    {
      buffer := [];
      new;
      buffer := buffer + "|";
      for i := 0 to |headers|
        invariant buffer == "|" + Cells(headers[..i])
      {
        buffer := buffer + headers[i];
        buffer := buffer + "|";
        assert headers[..i + 1][..i] == headers[..i];
      }
      assert headers[..|headers|] == headers;
      buffer := buffer + NL;

      ghost var afterHeader := buffer;
      buffer := buffer + "|";
      for i := 0 to |headers|
        invariant buffer == afterHeader + "|" + Cells(Dashes(i))
      {
        buffer := buffer + "---|";
        assert Dashes(i + 1)[..i] == Dashes(i);
      }
      buffer := buffer + NL;
    }

    /** The row is rendered by a fresh row builder; its text is appended exactly once. */
    method AddRow(configureRow: RowCallback) returns (self: TableBuilder)
      modifies this
      ensures self == this
      ensures buffer == old(buffer) + RowLine(RenderCells(configureRow))
    {
      var rowBuilder := new RowBuilder();
      rowBuilder.Configure(configureRow);
      var row := rowBuilder.ToString();
      buffer := buffer + row;
      self := this;
    }

    /** Reads the buffer and changes nothing. */
    method ToString() returns (s: string)
      ensures s == buffer
    {
      s := buffer;
    }

    /** Plays a table callback on this builder: one `AddRow` per row callback. */
    method Configure(rows: TableCallback)
      modifies this
      ensures buffer == old(buffer) + Lines(RenderTable(rows))
    {
      for i := 0 to |rows|
        invariant buffer == old(buffer) + Lines(RenderTable(rows)[..i])
      {
        var self := AddRow(rows[i]);
        assert RenderTable(rows)[..i + 1] == RenderTable(rows)[..i] + [RenderCells(rows[i])];
      }
      assert RenderTable(rows)[..|rows|] == RenderTable(rows);
    }
  }

  /** Accumulates one row: a leading delimiter, then each cell and its delimiter. */
  class RowBuilder {
    /** The row text so far (`_rowBuilder`). */
    var buffer: string

    constructor ()
      ensures buffer == "|"
    {
      buffer := [];
      new;
      buffer := buffer + "|";
    }

    /** The cell is rendered by a fresh document builder; no column count is checked. */
    method AddCell(configureCell: Callback) returns (self: RowBuilder)
      modifies this
      ensures self == this
      ensures buffer == old(buffer) + Render(configureCell) + "|"
    {
      var cellBuilder := new FluentMarkdownBuilder();
      cellBuilder.Configure(configureCell);
      var cell := cellBuilder.ToString();
      buffer := buffer + cell;
      buffer := buffer + "|";
      self := this;
    }

    /**
     * Appends a line terminator to the stored buffer on EVERY call and then
     * returns the buffer: rendering a row twice yields two terminators.
     */
    method ToString() returns (s: string)
      modifies this
      ensures buffer == old(buffer) + NL
      ensures s == buffer
    {
      buffer := buffer + NL;
      s := buffer;
    }

    /** Plays a row callback on this builder: one `AddCell` per cell callback. */
    method Configure(cells: RowCallback)
      modifies this
      ensures buffer == old(buffer) + Cells(RenderCells(cells))
    {
      for i := 0 to |cells|
        invariant buffer == old(buffer) + Cells(RenderCells(cells)[..i])
      {
        var self := AddCell(cells[i]);
        assert RenderCells(cells)[..i + 1][..i] == RenderCells(cells)[..i];
      }
      assert RenderCells(cells)[..|cells|] == RenderCells(cells);
    }
  }
}

/**
 * What callers of the nested builders can rely on, each shown on fresh
 * builders: rendering twice, the table paths, the row quirk and the
 * documented example outputs.
 */
module AssignmentsClients {
  import opened Markdown
  import opened Assignments

  /** `MarkdownElement.ToString` has no side effect: two renders in a row agree. */
  method RenderTwice(b: FluentMarkdownBuilder) returns (first: string, second: string)
    ensures first == second == b.buffer
  {
    first := b.ToString();
    second := b.ToString();
  }

  /**
   * The nested table path writes exactly what the flat path writes when the
   * flat path is given, for each row and cell, the text the cell callback renders.
   */
  method TablePathsAgree(headers: seq<string>, table: TableCallback, rows: seq<seq<string>>)
    returns (nested: string, flat: string)
    requires |rows| == |table|
    requires forall i :: 0 <= i < |rows| ==> |rows[i]| == |table[i]|
    requires forall i, j :: 0 <= i < |rows| && 0 <= j < |rows[i]| ==> rows[i][j] == Render(table[i][j])
    ensures nested == flat
    ensures flat == TableText(headers, rows)
  {
    assert rows == RenderTable(table) by {
      forall i | 0 <= i < |rows|
        ensures rows[i] == RenderTable(table)[i]
      {
        assert rows[i] == RenderCells(table[i]);
      }
    }
    var withCallbacks := new FluentMarkdownBuilder();
    var self := withCallbacks.AddTableWith(headers, table);
    nested := withCallbacks.ToString();
    var withArrays := new FluentMarkdownBuilder();
    self := withArrays.AddTable(headers, rows);
    flat := withArrays.ToString();
  }

  /** k line terminators in a row. */
  function Terminators(k: nat): string
  {
    if k == 0 then "" else Terminators(k - 1) + NL
  }

  /**
   * `RowBuilder.ToString` is not idempotent: every render appends another
   * terminator to the stored row, so the i-th render ends in i terminators.
   */
  method RowRenderedRepeatedly(cells: RowCallback, k: nat) returns (renders: seq<string>)
    ensures |renders| == k
    ensures forall i :: 0 <= i < k ==> renders[i] == "|" + Cells(RenderCells(cells)) + Terminators(i + 1)
  {
    var row := new RowBuilder();
    row.Configure(cells);
    renders := [];
    for i := 0 to k
      invariant |renders| == i
      invariant row.buffer == "|" + Cells(RenderCells(cells)) + Terminators(i)
      invariant forall n :: 0 <= n < i ==> renders[n] == "|" + Cells(RenderCells(cells)) + Terminators(n + 1)
    {
      var s := row.ToString();
      renders := renders + [s];
    }
  }

  /** Level 0 writes no hash but still writes the space. */
  method HeaderLevelZero(text: string) returns (s: string)
    ensures s == " " + text + NL
  {
    var b := new FluentMarkdownBuilder();
    var self := b.AddHeader(0, text);
    s := b.ToString();
  }

  /** A level-3 header is three hashes, a space, the text and a terminator. */
  method HeaderExample() returns (s: string)
    ensures s == "### Title\n"
  {
    var b := new FluentMarkdownBuilder();
    var self := b.AddHeader(3, "Title");
    s := b.ToString();
  }

  /** A label callback that adds bold text keeps the bold markup inside the brackets. */
  method BoldLabelLink(url: string) returns (s: string)
    ensures s == "[**X**](" + url + ")"
  {
    var b := new FluentMarkdownBuilder();
    var self := b.AddLinkWith([Bold("X")], url);
    s := b.ToString();
  }

  /** A label callback that does nothing leaves the brackets empty. */
  method EmptyLabelLink(url: string) returns (s: string)
    ensures s == "[](" + url + ")"
  {
    var b := new FluentMarkdownBuilder();
    var self := b.AddLinkWith([], url);
    s := b.ToString();
  }

  /** Headers A and B with one row of cells 1 and 2, built through the callbacks. */
  method TableExample() returns (s: string)
    ensures s == "|A|B|\n|---|---|\n|1|2|\n"
  {
    var b := new FluentMarkdownBuilder();
    var table: TableCallback := [[[Text("1")], [Text("2")]]];
    var self := b.AddTableWith(["A", "B"], table);
    s := b.ToString();
    assert RenderTable(table) == [["1", "2"]] by {
      assert Render([Text("1")]) == "1" && Render([Text("2")]) == "2";
      assert RenderCells(table[0]) == ["1", "2"];
    }
    assert RowLine(["A", "B"]) == "|A|B|\n" by {
      assert ["A", "B"][..1] == ["A"] && ["A"][..0] == [];
    }
    assert RowLine(Dashes(2)) == "|---|---|\n" by {
      assert Dashes(2) == ["---", "---"] && Dashes(2)[..1] == ["---"] && ["---"][..0] == [];
    }
    assert Lines([["1", "2"]]) == "|1|2|\n" by {
      assert ["1", "2"][..1] == ["1"] && ["1"][..0] == [];
      assert [["1", "2"]][..0] == [];
    }
  }
}

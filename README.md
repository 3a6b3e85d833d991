# Fluent Markdown builders, modelled in Dafny

The system builds Markdown text through chained calls on builders that each
own one append-only text buffer. The document builder (`MarkdownElement`,
concretely `FluentMarkdownBuilder`) appends text, headers, bold and italic
spans, links and line breaks. For a link label, a table or a table cell it
hands a callback a fresh child builder and splices the child's rendered text
into its own buffer once the callback returns. A table builder writes the
header and separator lines at construction and one line per row. A row
builder writes a leading `|` and one `cell|` per cell. A second, flat builder
(`NestedBuilders` in the `Creational/Builder` folder) offers the same inline
operations on a single buffer, with no children and no tables.

Layout:

- `markdown.dfy`, module `Markdown`: the text each operation writes, as
  functions. `Inline` describes one call a callback makes. `Render` is the
  text a fresh builder holds after a sequence of such calls. `TableText` is a
  whole table. The lemmas about the output live here.
- `assignments.dfy`, module `Assignments`: the classes `FluentMarkdownBuilder`,
  `TableBuilder` and `RowBuilder`. Each has a `buffer: string` field and
  methods that append to it. Module `AssignmentsClients` holds methods that
  build on fresh builders and state what a caller observes.
- `creational_builder.dfy`, module `CreationalBuilder`: the flat class
  `NestedBuilders`. Module `CreationalBuilderClients` proves that it writes the
  same text as the document builder for the same calls.

Every mutator returns the builder it was called on (`self == this`), as the
fluent `return this` does. Every mutator's postcondition is
`buffer == old(buffer) + fragment`. So every operation only appends, and the
old text is always a prefix of the new one.

Callbacks are data, not closures. A label or cell callback is the sequence of
calls it makes (`Callback = seq<Inline>`). A row callback is one cell
callback per `AddCell` (`RowCallback`). A table callback is one row callback
per `AddRow` (`TableCallback`). The `Configure` method of each class plays
such a callback on that builder, in order.

`RowBuilder.ToString` appends a line terminator to the stored row on every
call. It is modelled as written, as a method that modifies the row.
`TableBuilder.AddRow` renders each row exactly once, so tables are unaffected
unless the row callback renders its own row, which the model's row callbacks
cannot do.
`RowRenderedRepeatedly` states what repeated renders return. A render
without side effects would be the evident alternative, but the model follows
the code.

Markdown headers conventionally start at level 1, but the code accepts 0 (writing `" text"` and a terminator) and throws on a
negative level. The model follows the code: `AddHeader` requires
`headerLevel >= 0`, and `HeaderLevelZero` states the level-0 output.

## Model

| member | source | states |
|---|---|---|
| Markdown.Hashes | CSharpCourse.DesignPatterns/Assignments/NestedBuilders.cs:40 | the header prefix has exactly n characters, every one of them `#` |
| Markdown.HeaderLineShape | CSharpCourse.DesignPatterns/Assignments/NestedBuilders.cs:38-43 | a header line is exactly `level` `#`s, one space, the text and one terminator, and nothing else |
| Markdown.RenderAppend | CSharpCourse.DesignPatterns/Assignments/NestedBuilders.cs:62-70 | running two call sequences one after the other on one builder writes the first text, then the second |
| Markdown.CellsDelimiters | CSharpCourse.DesignPatterns/Assignments/NestedBuilders.cs:167-173 | when no cell text holds a delimiter, each cell contributes exactly one delimiter, whatever the number of cells |
| Markdown.RowLineDelimiters | CSharpCourse.DesignPatterns/Assignments/NestedBuilders.cs:99-107 | a row line with n delimiter-free cells holds n + 1 delimiters; the column count is not checked against the headers |
| Markdown.SeparatorDelimiters | CSharpCourse.DesignPatterns/Assignments/NestedBuilders.cs:139-144 | the separator line for n headers holds n + 1 delimiters, one cell per header, for every n including 0 |
| Markdown.SeparatorMatchesHeader | CSharpCourse.DesignPatterns/Assignments/NestedBuilders.cs:130-145 | when no header holds a delimiter, the header line and the separator line hold the same number of delimiters |
| Markdown.RowLineIsOneLine | CSharpCourse.DesignPatterns/Assignments/NestedBuilders.cs:101-106 | a row line whose cells hold no line break is exactly one line |
| Markdown.TableHeadLines | CSharpCourse.DesignPatterns/Assignments/NestedBuilders.cs:130-145 | when no header holds a line break, the header line and separator line are two lines |
| Markdown.LinesLineCount | CSharpCourse.DesignPatterns/Assignments/NestedBuilders.cs:99-107 | the rows loop writes exactly one line per row when no cell holds a line break |
| Markdown.TableLineCount | CSharpCourse.DesignPatterns/Assignments/NestedBuilders.cs:83-110 | when no header and no cell holds a line break, every row adds exactly one line: a table holds two head lines plus one per row |
| Assignments.FluentMarkdownBuilder.constructor | CSharpCourse.DesignPatterns/Assignments/NestedBuilders.cs:30 | a new builder starts empty |
| Assignments.FluentMarkdownBuilder.AddText | CSharpCourse.DesignPatterns/Assignments/NestedBuilders.cs:32-36 | appends the text verbatim and returns the same builder |
| Assignments.FluentMarkdownBuilder.AddHeader | CSharpCourse.DesignPatterns/Assignments/NestedBuilders.cs:38-43 | appends the header line for a level of at least 0 (a negative level throws in the source) |
| Assignments.FluentMarkdownBuilder.AddBold | CSharpCourse.DesignPatterns/Assignments/NestedBuilders.cs:45-49 | appends `**text**`, no separator |
| Assignments.FluentMarkdownBuilder.AddItalic | CSharpCourse.DesignPatterns/Assignments/NestedBuilders.cs:51-55 | appends `*text*`, no separator |
| Assignments.FluentMarkdownBuilder.AddLink | CSharpCourse.DesignPatterns/Assignments/NestedBuilders.cs:56-60 | appends `[text](url)`; the hiding overload at lines 119-123 writes the same |
| Assignments.FluentMarkdownBuilder.AddLinkWith | CSharpCourse.DesignPatterns/Assignments/NestedBuilders.cs:62-70 | appends `[`, the text the callback leaves in a fresh empty child, then `](url)` |
| Assignments.FluentMarkdownBuilder.NewLine | CSharpCourse.DesignPatterns/Assignments/NestedBuilders.cs:72-76 | appends only the line terminator |
| Assignments.FluentMarkdownBuilder.ToString | CSharpCourse.DesignPatterns/Assignments/NestedBuilders.cs:78 | returns the whole buffer and changes nothing |
| Assignments.FluentMarkdownBuilder.Call | CSharpCourse.DesignPatterns/Assignments/NestedBuilders.cs:32-76 | one call of a callback appends that operation's fragment |
| Assignments.FluentMarkdownBuilder.Configure | CSharpCourse.DesignPatterns/Assignments/NestedBuilders.cs:66 | a callback's calls, played in order, append the rendered text of the whole sequence |
| Assignments.FluentMarkdownBuilder.AddTable | CSharpCourse.DesignPatterns/Assignments/NestedBuilders.cs:83-110 | appends the head lines and one line per row of pre-rendered cells |
| Assignments.FluentMarkdownBuilder.AppendSeparatorLine | CSharpCourse.DesignPatterns/Assignments/NestedBuilders.cs:92-97 | appends the separator line: a leading delimiter, one `---` cell per header (none for no headers), a terminator |
| Assignments.FluentMarkdownBuilder.AppendRowLine | CSharpCourse.DesignPatterns/Assignments/NestedBuilders.cs:85-90 | appends a leading delimiter, each cell followed by a delimiter, and a terminator; the header line (lines 85-90) and every data row (lines 101-106) are written this way |
| Assignments.FluentMarkdownBuilder.AddTableWith | CSharpCourse.DesignPatterns/Assignments/NestedBuilders.cs:112-118 | appends the table text whose cells are the rendered cell callbacks |
| Assignments.TableBuilder.constructor | CSharpCourse.DesignPatterns/Assignments/NestedBuilders.cs:130-145 | the buffer starts as the header line and a separator line with one `---` cell per header |
| Assignments.TableBuilder.AddRow | CSharpCourse.DesignPatterns/Assignments/NestedBuilders.cs:147-153 | appends the row line of a fresh row builder, rendered once |
| Assignments.TableBuilder.ToString | CSharpCourse.DesignPatterns/Assignments/NestedBuilders.cs:155 | returns the table text and changes nothing |
| Assignments.TableBuilder.Configure | CSharpCourse.DesignPatterns/Assignments/NestedBuilders.cs:115 | a table callback appends one row line per row callback, in order |
| Assignments.RowBuilder.constructor | CSharpCourse.DesignPatterns/Assignments/NestedBuilders.cs:162-165 | a new row holds the single leading delimiter |
| Assignments.RowBuilder.AddCell | CSharpCourse.DesignPatterns/Assignments/NestedBuilders.cs:167-173 | appends the cell callback's rendered text, then a delimiter |
| Assignments.RowBuilder.ToString | CSharpCourse.DesignPatterns/Assignments/NestedBuilders.cs:175-179 | appends a terminator to the stored row, then returns the row |
| Assignments.RowBuilder.Configure | CSharpCourse.DesignPatterns/Assignments/NestedBuilders.cs:150 | a row callback appends each rendered cell followed by a delimiter |
| AssignmentsClients.RenderTwice | CSharpCourse.DesignPatterns/Assignments/NestedBuilders.cs:78 | two renders with nothing in between return the same text |
| AssignmentsClients.TablePathsAgree | CSharpCourse.DesignPatterns/Assignments/NestedBuilders.cs:83-118 | the callback path writes byte for byte what the array path writes when each array cell is the rendered cell callback |
| AssignmentsClients.RowRenderedRepeatedly | CSharpCourse.DesignPatterns/Assignments/NestedBuilders.cs:175-179 | the i-th render of a row returns the row followed by i terminators |
| AssignmentsClients.HeaderLevelZero | CSharpCourse.DesignPatterns/Assignments/NestedBuilders.cs:38-43 | level 0 writes a space, the text and a terminator |
| AssignmentsClients.HeaderExample | CSharpCourse.DesignPatterns/Assignments/NestedBuilders.cs:38-43 | `AddHeader(3, "Title")` writes `### Title` and a line break |
| AssignmentsClients.BoldLabelLink | CSharpCourse.DesignPatterns/Assignments/NestedBuilders.cs:62-70 | a label callback adding bold `X` gives `[**X**](url)` |
| AssignmentsClients.EmptyLabelLink | CSharpCourse.DesignPatterns/Assignments/NestedBuilders.cs:62-70 | an empty label callback gives `[](url)` |
| AssignmentsClients.TableExample | CSharpCourse.DesignPatterns/Assignments/NestedBuilders.cs:112-179 | headers A, B and one row with cells 1, 2 give exactly the header line, a two-cell separator line and the row line, each ending in a line break |
| CreationalBuilder.NestedBuilders.constructor | CSharpCourse.DesignPatterns/Creational/Builder/NestedBuilders.cs:7 | a new builder starts empty |
| CreationalBuilder.NestedBuilders.AddText | CSharpCourse.DesignPatterns/Creational/Builder/NestedBuilders.cs:9-13 | appends the text verbatim and returns the same builder |
| CreationalBuilder.NestedBuilders.AddHeader | CSharpCourse.DesignPatterns/Creational/Builder/NestedBuilders.cs:15-20 | appends n `#`, a space, the text and a terminator, for n of at least 0 |
| CreationalBuilder.NestedBuilders.AddBold | CSharpCourse.DesignPatterns/Creational/Builder/NestedBuilders.cs:22-26 | appends `**text**` |
| CreationalBuilder.NestedBuilders.AddItalic | CSharpCourse.DesignPatterns/Creational/Builder/NestedBuilders.cs:28-32 | appends `*text*` |
| CreationalBuilder.NestedBuilders.AddLink | CSharpCourse.DesignPatterns/Creational/Builder/NestedBuilders.cs:34-38 | appends exactly `[name](url)` |
| CreationalBuilder.NestedBuilders.NewLine | CSharpCourse.DesignPatterns/Creational/Builder/NestedBuilders.cs:40-44 | appends only the line terminator |
| CreationalBuilder.NestedBuilders.ToString | CSharpCourse.DesignPatterns/Creational/Builder/NestedBuilders.cs:46-47 | returns the buffer unchanged and changes nothing |
| CreationalBuilderClients.Perform | CSharpCourse.DesignPatterns/Creational/Builder/NestedBuilders.cs:9-44 | each call appends that operation's fragment, the same fragment the document builder appends |
| CreationalBuilderClients.FlatMatchesNested | CSharpCourse.DesignPatterns/Creational/Builder/NestedBuilders.cs:9-44 | the same calls in the same order leave the flat builder and the document builder with the same text |
| CreationalBuilderClients.RenderTwice | CSharpCourse.DesignPatterns/Creational/Builder/NestedBuilders.cs:46-47 | two renders with nothing in between return the same text |
| CreationalBuilderClients.BoldThenItalic | CSharpCourse.DesignPatterns/Creational/Builder/NestedBuilders.cs:22-32 | bold `x` then italic `y` leave the suffix `**x***y*` |
| CreationalBuilderClients.LinkExample | CSharpCourse.DesignPatterns/Creational/Builder/NestedBuilders.cs:34-38 | `AddLink("Go", "https://go.dev")` writes `[Go](https://go.dev)` |

## Left out

- Callbacks are sequences of builder calls, not arbitrary code. A callback with other side effects, or one that throws, is not modelled. Nor is a row callback that renders its own row through the `IRowBuilder` it is handed (`$"{r}"`, logging `r`): that render appends a terminator to the stored row, and `AddRow` then writes the row with two terminators. A throw would propagate and leave the partial output in place.
- The platform line terminator (`Environment.NewLine`) is the constant `NL`, fixed at `"\n"`. The `"\r\n"` platforms are not modelled.
- `StringBuilder` capacity and chunking are not modelled, and neither are `Append(object)` dispatch, `Enumerable.Repeat` or `new string(char, int)`. Only the resulting strings are kept. Appending a builder object is modelled as calling its `ToString` once.
- The interfaces `IMarkdownBuilder`, `ITableBuilder` and `IRowBuilder` are not modelled. The abstract class `MarkdownElement` and its subclass `FluentMarkdownBuilder` are merged into one class. The hiding `FluentMarkdownBuilder.AddLink(name, url)` and `MarkdownElement.AddLink(linkText, url)` write the same text, so they are one method.
- Null `headers`, `rows` and row arrays in `AddTable(string[], string[][])` and a null label callback in `AddLink` throw after a partial append. Null table, row and cell callbacks, and null headers given to `TableBuilder`, throw before anything is appended to the parent. Null strings append as empty text. None of this is modelled, because Dafny strings are never null.
- Header levels are unbounded integers. The 32-bit `int` range and out-of-memory on huge levels are not modelled.
- `AddLinkWith` and `AddTableWith` are the source's `AddLink(Action, url)` and `AddTable(headers, Action)` overloads, renamed because Dafny has no overloading.
- Assignments.FluentMarkdownBuilder.AddTable: its loops are split into two helpers. `AppendRowLine` writes the header line and each data row, which the source writes with the same three appends. `AppendSeparatorLine` writes the separator line. The appended text is the same as the single method's.
- No Markdown escaping or validation exists in the source, and none is modelled.

/**
 * The flat Markdown builder: the same inline operations as the nested
 * document builder, all appending to a single buffer, with no child builders
 * and no tables.
 */
module CreationalBuilder {
  import opened Markdown

  class NestedBuilders {
    /** The text appended so far (`_builder`). */
    var buffer: string

    constructor ()
      ensures buffer == []
    {
      buffer := [];
    }

    method AddText(text: string) returns (self: NestedBuilders)
      modifies this
      ensures self == this
      ensures buffer == old(buffer) + text
    {
      buffer := buffer + text;
      self := this;
    }

    /** A negative level makes the repeat of `#` throw; callers must not pass one. */
    method AddHeader(headerLevel: int, text: string) returns (self: NestedBuilders)
      requires headerLevel >= 0
      modifies this
      ensures self == this
      ensures buffer == old(buffer) + HeaderLine(headerLevel, text)
    {
      var prefix := Hashes(headerLevel);
      buffer := buffer + (prefix + " " + text) + NL;
      self := this;
    }

    method AddBold(text: string) returns (self: NestedBuilders)
      modifies this
      ensures self == this
      ensures buffer == old(buffer) + BoldSpan(text)
    {
      buffer := buffer + "**" + text + "**";
      self := this;
    }

    method AddItalic(text: string) returns (self: NestedBuilders)
      modifies this
      ensures self == this
      ensures buffer == old(buffer) + ItalicSpan(text)
    {
      buffer := buffer + "*" + text + "*";
      self := this;
    }

    method AddLink(name: string, url: string) returns (self: NestedBuilders)
      modifies this
      ensures self == this
      ensures buffer == old(buffer) + LinkSpan(name, url)
    {
      buffer := buffer + "[" + name + "](" + url + ")";
      self := this;
    }

    method NewLine() returns (self: NestedBuilders)
      modifies this
      ensures self == this
      ensures buffer == old(buffer) + NL
    {
      buffer := buffer + NL;
      self := this;
    }

    /** Reads the buffer and changes nothing. */
    method ToString() returns (s: string)
      ensures s == buffer
    {
      s := buffer;
    }
  }
}

/**
 * What callers of the flat builder can rely on, and its agreement with the
 * nested document builder.
 */
module CreationalBuilderClients {
  import opened Markdown
  import CreationalBuilder
  import Assignments

  /** Makes on the flat builder the call `call` describes. */
  method Perform(b: CreationalBuilder.NestedBuilders, call: FlatInline)
    modifies b
    ensures b.buffer == old(b.buffer) + Fragment(call)
  {
    var self: CreationalBuilder.NestedBuilders;
    match call
    case Text(t) => self := b.AddText(t);
    case Header(n, t) => self := b.AddHeader(n, t);
    case Bold(t) => self := b.AddBold(t);
    case Italic(t) => self := b.AddItalic(t);
    case Link(c, u) => self := b.AddLink(c, u);
    case NewLine => self := b.NewLine();
  }

  /**
   * The same calls, made in the same order on a fresh flat builder and on a
   * fresh nested document builder, leave both with the same text.
   */
  method FlatMatchesNested(calls: seq<FlatInline>) returns (flatText: string, nestedText: string)
    ensures flatText == nestedText
    ensures flatText == Render(calls)
  {
    var flat := new CreationalBuilder.NestedBuilders();
    var nested := new Assignments.FluentMarkdownBuilder();
    for i := 0 to |calls|
      invariant flat.buffer == nested.buffer
      invariant flat.buffer == Render(calls[..i])
    {
      Perform(flat, calls[i]);
      nested.Call(calls[i]);
      assert calls[..i + 1] == calls[..i] + [calls[i]];
      RenderAppend(calls[..i], [calls[i]]);
    }
    assert calls[..|calls|] == calls;
    flatText := flat.ToString();
    nestedText := nested.ToString();
  }

  /** `ToString` has no side effect: two renders in a row agree. */
  method RenderTwice(b: CreationalBuilder.NestedBuilders) returns (first: string, second: string)
    ensures first == second == b.buffer
  {
    first := b.ToString();
    second := b.ToString();
  }

  /** Bold then italic are written back to back, with no separator between them. */
  method BoldThenItalic(before: string) returns (s: string)
    ensures s == before + "**x***y*"
  {
    var b := new CreationalBuilder.NestedBuilders();
    var self := b.AddText(before);
    self := self.AddBold("x");
    self := self.AddItalic("y");
    s := b.ToString();
  }

  /** A link is exactly its bracketed name and parenthesised url. */
  method LinkExample() returns (s: string)
    ensures s == "[Go](https://go.dev)"
  {
    var b := new CreationalBuilder.NestedBuilders();
    var self := b.AddLink("Go", "https://go.dev");
    s := b.ToString();
  }
}

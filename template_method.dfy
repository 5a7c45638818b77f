/** The Template Method pattern of scripts/template_method.py: `display`
    fixes the skeleton (open, five prints, close) and each concrete display
    supplies the three steps. */
module TemplateMethodPattern {
  import opened Output

  /** Frames a string with `<<` and `>>` on one line: every step prints
      without a newline except `close`. */
  class CharDisplay {
    const ch: string

    constructor (ch: string)
      ensures this.ch == ch
    {
      this.ch := ch;
    }

    method Open(out: Stdout)
      modifies out
      ensures out.text == old(out.text) + "<<"
    {
      out.Write("<<");
    }

    method PrintBody(out: Stdout)
      modifies out
      ensures out.text == old(out.text) + ch
    {
      out.Write(ch);
    }

    method Close(out: Stdout)
      modifies out
      ensures out.text == old(out.text) + Render([">>"])
    {
      out.WriteLine(">>");
    }
  }

  /** Frames a string in a box whose width is fixed when it is made. */
  class StringDisplay {
    const str: string
    const width: nat

    constructor (str: string)
      ensures this.str == str && width == |str|
    {
      this.str := str;
      width := |str|;
    }

    function Border(): string
    {
      "+" + Repeat("-", width) + "+"
    }

    function Body(): string
    {
      "|" + str + "|"
    }

    method PrintLine(out: Stdout)
      modifies out
      ensures out.text == old(out.text) + Render([Border()])
    {
      out.WriteLine("+" + Repeat("-", width) + "+");
    }

    method Open(out: Stdout)
      modifies out
      ensures out.text == old(out.text) + Render([Border()])
    {
      PrintLine(out);
    }

    method PrintBody(out: Stdout)
      modifies out
      ensures out.text == old(out.text) + Render([Body()])
    {
      out.WriteLine("|" + str + "|");
    }

    method Close(out: Stdout)
      modifies out
      ensures out.text == old(out.text) + Render([Border()])
    {
      PrintLine(out);
    }
  }

  /** A display as `AbstractDisplay.display` sees it: one of the two
      concrete displays, whose steps it calls. */
  datatype AbstractDisplay = CharOne(c: CharDisplay) | StringOne(s: StringDisplay)
  {
    /** The text the `open` step writes. */
    function OpenText(): string
    {
      match this
      case CharOne(_) => "<<"
      case StringOne(s) => Render([s.Border()])
    }

    /** The text the `print` step writes. */
    function BodyText(): string
    {
      match this
      case CharOne(c) => c.ch
      case StringOne(s) => Render([s.Body()])
    }

    /** The text the `close` step writes. */
    function CloseText(): string
    {
      match this
      case CharOne(_) => Render([">>"])
      case StringOne(s) => Render([s.Border()])
    }

    /** Everything `display` writes. */
    function Written(): string
    {
      OpenText() + Repeat(BodyText(), 5) + CloseText()
    }

    method Open(out: Stdout)
      modifies out
      ensures out.text == old(out.text) + OpenText()
    {
      match this
      case CharOne(c) => c.Open(out);
      case StringOne(s) => s.Open(out);
    }

    method PrintBody(out: Stdout)
      modifies out
      ensures out.text == old(out.text) + BodyText()
    {
      match this
      case CharOne(c) => c.PrintBody(out);
      case StringOne(s) => s.PrintBody(out);
    }

    method Close(out: Stdout)
      modifies out
      ensures out.text == old(out.text) + CloseText()
    {
      match this
      case CharOne(c) => c.Close(out);
      case StringOne(s) => s.Close(out);
    }

    /** The template method: open, print five times, close. */
    method Display(out: Stdout)
      modifies out
      ensures out.text == old(out.text) + Written()
    {
      Open(out);
      ghost var afterOpen := old(out.text) + OpenText();
      for i := 0 to 5
        invariant out.text == afterOpen + Repeat(BodyText(), i)
      {
        Assoc(afterOpen, Repeat(BodyText(), i), BodyText());
        PrintBody(out);
      }
      Assoc(old(out.text), OpenText(), Repeat(BodyText(), 5));
      Assoc(old(out.text), OpenText() + Repeat(BodyText(), 5), CloseText());
      Close(out);
    }
  }

  /** A `CharDisplay` writes the single line `<<` + the string five times +
      `>>`: for a string without a newline the output holds exactly one. */
  lemma CharDisplayIsOneLine(c: CharDisplay)
    ensures CharOne(c).Written() == Render(["<<" + Repeat(c.ch, 5) + ">>"])
    ensures NoNewline(c.ch) ==> Count('\n', CharOne(c).Written()) == 1
  {
    var line := "<<" + Repeat(c.ch, 5) + ">>";
    RenderOne(">>");
    RenderOne(line);
    Assoc("<<" + Repeat(c.ch, 5), ">>", "\n");
    if NoNewline(c.ch) {
      CountAbsent('\n', c.ch);
      RepeatKeepsOut('\n', c.ch, 5);
      CountAbsent('\n', "<<");
      CountAbsent('\n', ">>");
      CountAppend('\n', "<<", Repeat(c.ch, 5));
      CountAppend('\n', "<<" + Repeat(c.ch, 5), ">>");
      NoNewlineByCount(line);
      RenderLineCount([line]);
    }
  }

  /** A `StringDisplay` writes seven lines: a border, five copies of the body
      line, and the border again; border and body are both `width + 2` long. */
  lemma StringDisplayLines(s: StringDisplay)
    requires s.width == |s.str|
    ensures StringOne(s).Written() == Render([s.Border()] + Copies(s.Body(), 5) + [s.Border()])
    ensures |s.Border()| == s.width + 2 == |s.Body()|
  {
    var border, body := s.Border(), s.Body();
    RenderOne(body);
    RepeatIsRenderCopies(body, 5);
    RenderAppend([border], Copies(body, 5));
    RenderAppend([border] + Copies(body, 5), [border]);
    RepeatLength("-", s.width);
  }
}

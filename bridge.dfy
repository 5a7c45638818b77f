/** The Bridge pattern of scripts/bridge.py: a display (the feature side)
    that delegates every step to a string display implementation. */
module BridgePattern {
  import opened Output

  /** The implementation that frames a string in a box. */
  class StringDisplayImpl {
    const str: string

    constructor (str: string)
      ensures this.str == str
    {
      this.str := str;
    }

    /** The `width` property: the string's length, so the box's inner width
        is exactly the printed string's. */
    function Width(): (w: nat)
      ensures w + 2 == |Body()|
    {
      |str|
    }

    /** The line `print_line` prints. */
    function Border(): string
    {
      "+" + Repeat("-", Width()) + "+"
    }

    /** The line `raw_print` prints. */
    function Body(): string
    {
      "|" + str + "|"
    }

    method PrintLine(out: Stdout)
      modifies out
      ensures out.text == old(out.text) + Render([Border()])
    {
      out.WriteLine("+" + Repeat("-", Width()) + "+");
    }

    method RawOpen(out: Stdout)
      modifies out
      ensures out.text == old(out.text) + Render([Border()])
    {
      PrintLine(out);
    }

    method RawPrint(out: Stdout)
      modifies out
      ensures out.text == old(out.text) + Render([Body()])
    {
      out.WriteLine("|" + str + "|");
    }

    method RawClose(out: Stdout)
      modifies out
      ensures out.text == old(out.text) + Render([Border()])
    {
      PrintLine(out);
    }
  }

  /** The border is `width + 2` characters: a `+`, `width` dashes and a `+`;
      the body line is just as long, so the box closes. */
  lemma BoxShape(impl: StringDisplayImpl)
    ensures |impl.Border()| == impl.Width() + 2 == |impl.Body()|
    ensures impl.Border()[0] == '+' && impl.Border()[impl.Width() + 1] == '+'
    ensures forall i :: 1 <= i <= impl.Width() ==> impl.Border()[i] == '-'
  {
    RepeatChar('-', impl.Width());
    var dashes := Repeat("-", impl.Width());
    assert impl.Border() == "+" + dashes + "+";
    forall i | 1 <= i <= impl.Width()
      ensures impl.Border()[i] == '-'
    {
      assert impl.Border()[i] == dashes[i - 1];
    }
  }

  /** The lines `display` prints: open, print, close. */
  function DisplayLines(impl: StringDisplayImpl): seq<string>
  {
    [impl.Border(), impl.Body(), impl.Border()]
  }

  /** The lines `multi_display(times)` prints: open, `times` prints, close. */
  function MultiDisplayLines(impl: StringDisplayImpl, times: int): seq<string>
  {
    [impl.Border()] + Copies(impl.Body(), times) + [impl.Border()]
  }

  /** `multi_display(times)` prints `2 + max(times, 0)` lines: the same
      border first and last, and the same body line in between. */
  lemma MultiDisplayShape(impl: StringDisplayImpl, times: int)
    ensures var lines := MultiDisplayLines(impl, times);
      && |lines| == 2 + (if times <= 0 then 0 else times)
      && lines[0] == lines[|lines| - 1] == impl.Border()
      && forall k :: 0 < k < |lines| - 1 ==> lines[k] == impl.Body()
  {
    var lines := MultiDisplayLines(impl, times);
    var body := Copies(impl.Body(), times);
    forall k | 0 < k < |lines| - 1
      ensures lines[k] == impl.Body()
    {
      assert lines[k] == body[k - 1];
    }
  }

  /** `multi_display(1)` prints exactly what `display()` prints. */
  lemma MultiDisplayOnceIsDisplay(impl: StringDisplayImpl)
    ensures MultiDisplayLines(impl, 1) == DisplayLines(impl)
  {
    assert Copies(impl.Body(), 1) == [impl.Body()];
  }

  /** The feature side of the bridge; it only delegates and never replaces
      its implementation. */
  class Display {
    const impl: StringDisplayImpl

    constructor (impl: StringDisplayImpl)
      ensures this.impl == impl
    {
      this.impl := impl;
    }

    method Open(out: Stdout)
      modifies out
      ensures out.text == old(out.text) + Render([impl.Border()])
    {
      impl.RawOpen(out);
    }

    /** `print`, which sends the body line through the implementation. */
    method PrintBody(out: Stdout)
      modifies out
      ensures out.text == old(out.text) + Render([impl.Body()])
    {
      impl.RawPrint(out);
    }

    method Close(out: Stdout)
      modifies out
      ensures out.text == old(out.text) + Render([impl.Border()])
    {
      impl.RawClose(out);
    }

    method Display(out: Stdout)
      modifies out
      ensures out.text == old(out.text) + Render(DisplayLines(impl))
    {
      var border, body := impl.Border(), impl.Body();
      Open(out);
      PrintBody(out);
      RenderAppend([border], [body]);
      assert [border] + [body] == [border, body];
      Assoc(old(out.text), Render([border]), Render([body]));
      Close(out);
      RenderAppend([border, body], [border]);
      assert [border, body] + [border] == DisplayLines(impl);
      Assoc(old(out.text), Render([border, body]), Render([border]));
    }
  }

  /** A display with one more feature, built on a `Display` that it extends. */
  class CountDisplay {
    const base: Display

    constructor (impl: StringDisplayImpl)
      ensures base.impl == impl && fresh(base)
    {
      base := new Display(impl);
    }

    /** Open once, print `times` times (not at all when `times <= 0`), close once. */
    method MultiDisplay(times: int, out: Stdout)
      modifies out
      ensures out.text == old(out.text) + Render(MultiDisplayLines(base.impl, times))
    {
      var border, body := base.impl.Border(), base.impl.Body();
      base.Open(out);
      var i := 0;
      while i < times
        invariant 0 <= i <= (if times <= 0 then 0 else times)
        invariant out.text == old(out.text) + Render([border] + Copies(body, i))
      {
        ghost var done := [border] + Copies(body, i);
        base.PrintBody(out);
        assert [border] + Copies(body, i + 1) == done + [body];
        RenderAppend(done, [body]);
        Assoc(old(out.text), Render(done), Render([body]));
        i := i + 1;
      }
      assert Copies(body, times) == Copies(body, i);
      ghost var done := [border] + Copies(body, i);
      base.Close(out);
      RenderAppend(done, [border]);
      Assoc(old(out.text), Render(done), Render([border]));
    }
  }
}

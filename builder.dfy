/** The Builder pattern of scripts/builder.py: a director that drives either
    a plain-text or an HTML builder through one fixed script, each builder
    appending its own rendering of every step to a `content` string. */
module BuilderPattern {
  import opened Output

  /** Which of the two builders renders a fragment. */
  datatype Format = Text | Html

  /** The rule that opens a plain-text title and closes the document. */
  const Rule: string := "==========================================\n"

  const HtmlHead: string := "<!DOCTYPE html>\n<html>\n<head>...</head>\n<body>\n"

  /** What `make_title(title)` appends. */
  function Title(f: Format, title: string): string
  {
    match f
    case Text => Rule + ("【" + title + "】\n\n")
    case Html => HtmlHead + ("<h1>" + title + "</h1>\n\n")
  }

  /** What `make_string(s)` appends. */
  function Paragraph(f: Format, s: string): string
  {
    match f
    case Text => "■ " + s + "\n\n"
    case Html => "<p>" + s + "</p>\n\n"
  }

  /** The line, without its newline, that `make_items` writes for one item. */
  function Bullet(f: Format, item: string): string
  {
    match f
    case Text => "* " + item
    case Html => "  <li>" + item + "</li>"
  }

  /** The line `make_items` appends for one item. */
  function ItemLine(f: Format, item: string): string
  {
    Bullet(f, item) + "\n"
  }

  /** The item lines of `items`, in order. */
  function ItemLines(f: Format, items: seq<string>): string
  {
    if items == [] then ""
    else ItemLines(f, items[..|items| - 1]) + ItemLine(f, items[|items| - 1])
  }

  /** What `make_items(items)` appends: the bare item lines for text, and the
      same wrapped in a `<ul>` element (even when empty) for HTML. */
  function Items(f: Format, items: seq<string>): string
  {
    match f
    case Text => ItemLines(f, items)
    case Html => "<ul>\n" + ItemLines(f, items) + "</ul>\n"
  }

  /** What `close()` appends. */
  function Closing(f: Format): string
  {
    match f
    case Text => Rule
    case Html => "</body>\n</html>"
  }

  const FirstItems: seq<string> := ["How are you?", "Hello.", "Hi."]
  const SecondItems: seq<string> := ["Good morning.", "Good afternoon", "Good evening"]

  /** The document `Director.construct` assembles: title, string, items,
      string, items, close. */
  function Document(f: Format): string
  {
    Title(f, "Greeting")
    + Paragraph(f, "General greetings")
    + Items(f, FirstItems)
    + Paragraph(f, "Time-dependent greetings")
    + Items(f, SecondItems)
    + Closing(f)
  }

  /** The bullet lines of `items`, one per item, in item order. */
  function Bullets(f: Format, items: seq<string>): (r: seq<string>)
    ensures |r| == |items|
    ensures forall i :: 0 <= i < |items| ==> r[i] == Bullet(f, items[i])
  {
    seq(|items|, i requires 0 <= i < |items| => Bullet(f, items[i]))
  }

  /** One line per item: the item lines are exactly the printed form of the
      list of bullets, in item order. */
  lemma {:induction false} ItemLinesAreOnePerItem(f: Format, items: seq<string>)
    ensures ItemLines(f, items) == Render(Bullets(f, items))
    decreases |items|
  {
    if items != [] {
      var init := items[..|items| - 1];
      ItemLinesAreOnePerItem(f, init);
      assert Bullets(f, items)[..|items| - 1] == Bullets(f, init);
    }
  }

  lemma BulletNoNewline(f: Format, item: string)
    requires NoNewline(item)
    ensures NoNewline(Bullet(f, item))
  {
    var b := Bullet(f, item);
    forall i | 0 <= i < |b|
      ensures b[i] != '\n'
    {
      match f
      case Text =>
        if i >= 2 { assert b[i] == item[i - 2]; }
      case Html =>
        if 6 <= i < 6 + |item| { assert b[i] == item[i - 6]; }
    }
  }

  lemma BulletsNoNewline(f: Format, items: seq<string>)
    requires forall i :: 0 <= i < |items| ==> NoNewline(items[i])
    ensures forall i :: 0 <= i < |items| ==> NoNewline(Bullets(f, items)[i])
  {
    forall i | 0 <= i < |items|
      ensures NoNewline(Bullets(f, items)[i])
    {
      BulletNoNewline(f, items[i]);
    }
  }

  /** The text builder writes one line per item, and nothing at all for an
      empty list. */
  lemma TextItemsLineCount(items: seq<string>)
    requires forall i :: 0 <= i < |items| ==> NoNewline(items[i])
    ensures Count('\n', Items(Text, items)) == |items|
    ensures items == [] ==> Items(Text, items) == ""
  {
    ItemLinesAreOnePerItem(Text, items);
    BulletsNoNewline(Text, items);
    RenderLineCount(Bullets(Text, items));
  }

  /** The HTML builder writes the `<ul>` line, one line per item and the
      `</ul>` line, even for an empty list. */
  lemma HtmlItemsAreLines(items: seq<string>)
    ensures Items(Html, items) == Render(["<ul>"] + Bullets(Html, items) + ["</ul>"])
  {
    var lines := Bullets(Html, items);
    var open, close := "<ul>", "</ul>";
    var il := ItemLines(Html, items);
    ItemLinesAreOnePerItem(Html, items);
    RenderAppend([open], lines);
    RenderAppend([open] + lines, [close]);
    var a, c := Render([open]), Render([close]);
    assert a == "<ul>\n" by {
      RenderOne(open);
    }
    assert c == "</ul>\n" by {
      RenderOne(close);
    }
    assert Render([open] + lines + [close]) == a + il + c;
  }

  /** So it writes two lines more than there are items. */
  lemma HtmlItemsLineCount(items: seq<string>)
    requires forall i :: 0 <= i < |items| ==> NoNewline(items[i])
    ensures Count('\n', Items(Html, items)) == |items| + 2
  {
    var lines := Bullets(Html, items);
    var all := ["<ul>"] + lines + ["</ul>"];
    HtmlItemsAreLines(items);
    BulletsNoNewline(Html, items);
    forall i | 0 <= i < |all|
      ensures NoNewline(all[i])
    {
      if 0 < i < |all| - 1 {
        assert all[i] == lines[i - 1];
      }
    }
    RenderLineCount(all);
  }

  /** A text made of a head, any four parts and a tail starts with the head
      and ends with the tail. */
  lemma Framed(head: string, a: string, b: string, c: string, d: string, tail: string)
    ensures var s := head + a + b + c + d + tail;
      |s| >= |head| + |tail| && s[..|head|] == head && s[|s| - |tail|..] == tail
  {
  }

  /** A plain-text document begins and ends with the rule line. */
  lemma TextDocumentFramedByRule()
    ensures |Document(Text)| >= 2 * |Rule|
    ensures Document(Text)[..|Rule|] == Rule
    ensures Document(Text)[|Document(Text)| - |Rule|..] == Rule
  {
    var title := "【" + "Greeting" + "】\n\n";
    var p1, i1 := Paragraph(Text, "General greetings"), Items(Text, FirstItems);
    var p2, i2 := Paragraph(Text, "Time-dependent greetings"), Items(Text, SecondItems);
    Assoc(Rule, title, p1);
    Framed(Rule, title + p1, i1, p2, i2, Rule);
  }

  /** The HTML document ends with `</html>` and no newline after it. */
  lemma HtmlDocumentEnd()
    ensures |Document(Html)| >= 7
    ensures Document(Html)[|Document(Html)| - 7..] == "</html>"
  {
    var rest := Title(Html, "Greeting") + Paragraph(Html, "General greetings")
      + Items(Html, FirstItems) + Paragraph(Html, "Time-dependent greetings")
      + Items(Html, SecondItems);
    var close := "</body>\n";
    var html := "</html>";
    assert Closing(Html) == close + html;
    Assoc(rest, close, html);
    var s := rest + close + html;
    assert s[|s| - |html|..] == html;
  }

  class TextBuilder {
    var content: string

    constructor ()
      ensures content == ""
    {
      content := "";
    }

    method MakeTitle(title: string)
      modifies this
      ensures content == old(content) + Title(Text, title)
    {
      content := content + Rule;
      content := content + ("【" + title + "】\n\n");
      Assoc(old(content), Rule, "【" + title + "】\n\n");
    }

    method MakeString(s: string)
      modifies this
      ensures content == old(content) + Paragraph(Text, s)
    {
      content := content + ("■ " + s + "\n\n");
    }

    method MakeItems(items: seq<string>)
      modifies this
      ensures content == old(content) + Items(Text, items)
    {
      for i := 0 to |items|
        invariant content == old(content) + ItemLines(Text, items[..i])
      {
        assert items[..i + 1][..i] == items[..i];
        Assoc(old(content), ItemLines(Text, items[..i]), ItemLine(Text, items[i]));
        content := content + ("* " + items[i] + "\n");
      }
      assert items[..|items|] == items;
    }

    method Close()
      modifies this
      ensures content == old(content) + Closing(Text)
    {
      content := content + Rule;
    }

    /** Returns the document built so far and changes nothing. */
    method GetContent() returns (r: string)
      ensures r == content
    {
      r := content;
    }
  }

  class HTMLBuilder {
    var content: string

    constructor ()
      ensures content == ""
    {
      content := "";
    }

    method MakeTitle(title: string)
      modifies this
      ensures content == old(content) + Title(Html, title)
    {
      content := content + HtmlHead;
      content := content + ("<h1>" + title + "</h1>\n\n");
      Assoc(old(content), HtmlHead, "<h1>" + title + "</h1>\n\n");
    }

    method MakeString(s: string)
      modifies this
      ensures content == old(content) + Paragraph(Html, s)
    {
      content := content + ("<p>" + s + "</p>\n\n");
    }

    method MakeItems(items: seq<string>)
      modifies this
      ensures content == old(content) + Items(Html, items)
    {
      content := content + "<ul>\n";
      ghost var start := content;
      for i := 0 to |items|
        invariant content == start + ItemLines(Html, items[..i])
      {
        assert items[..i + 1][..i] == items[..i];
        Assoc(start, ItemLines(Html, items[..i]), ItemLine(Html, items[i]));
        content := content + ("  <li>" + items[i] + "</li>\n");
      }
      assert items[..|items|] == items;
      ghost var lines := ItemLines(Html, items);
      content := content + "</ul>\n";
      Assoc(old(content), "<ul>\n", lines);
      Assoc(old(content), "<ul>\n" + lines, "</ul>\n");
    }

    method Close()
      modifies this
      ensures content == old(content) + Closing(Html)
    {
      content := content + "</body>\n</html>";
    }

    /** Returns the document built so far and changes nothing. */
    method GetContent() returns (r: string)
      ensures r == content
    {
      r := content;
    }
  }

  /** Either builder, as the director sees it: anything with the four
      building operations. */
  datatype AnyBuilder = TextOne(t: TextBuilder) | HtmlOne(h: HTMLBuilder)
  {
    /** Which format this builder renders. */
    function Kind(): Format
    {
      match this
      case TextOne(_) => Text
      case HtmlOne(_) => Html
    }

    function Target(): object
    {
      match this
      case TextOne(t) => t
      case HtmlOne(h) => h
    }

    function Content(): string
      reads Target()
    {
      match this
      case TextOne(t) => t.content
      case HtmlOne(h) => h.content
    }

    method MakeTitle(title: string)
      modifies Target()
      ensures Content() == old(Content()) + Title(Kind(), title)
    {
      match this
      case TextOne(t) => t.MakeTitle(title);
      case HtmlOne(h) => h.MakeTitle(title);
    }

    method MakeString(s: string)
      modifies Target()
      ensures Content() == old(Content()) + Paragraph(Kind(), s)
    {
      match this
      case TextOne(t) => t.MakeString(s);
      case HtmlOne(h) => h.MakeString(s);
    }

    method MakeItems(items: seq<string>)
      modifies Target()
      ensures Content() == old(Content()) + Items(Kind(), items)
    {
      match this
      case TextOne(t) => t.MakeItems(items);
      case HtmlOne(h) => h.MakeItems(items);
    }

    method Close()
      modifies Target()
      ensures Content() == old(Content()) + Closing(Kind())
    {
      match this
      case TextOne(t) => t.Close();
      case HtmlOne(h) => h.Close();
    }
  }

  class Director {
    const builder: AnyBuilder

    constructor (builder: AnyBuilder)
      ensures this.builder == builder
    {
      this.builder := builder;
    }

    /** Drives the builder through the fixed script; the builder's content
        grows by exactly the document of its format. */
    method Construct()
      modifies builder.Target()
      ensures builder.Content() == old(builder.Content()) + Document(builder.Kind())
    {
      ghost var f, c0 := builder.Kind(), builder.Content();
      builder.MakeTitle("Greeting");
      ghost var t := Title(f, "Greeting");
      builder.MakeString("General greetings");
      ghost var p1 := Paragraph(f, "General greetings");
      Assoc(c0, t, p1);
      builder.MakeItems(FirstItems);
      ghost var i1 := Items(f, FirstItems);
      Assoc(c0, t + p1, i1);
      builder.MakeString("Time-dependent greetings");
      ghost var p2 := Paragraph(f, "Time-dependent greetings");
      Assoc(c0, t + p1 + i1, p2);
      builder.MakeItems(SecondItems);
      ghost var i2 := Items(f, SecondItems);
      Assoc(c0, t + p1 + i1 + p2, i2);
      Assoc(c0, t + p1 + i1 + p2 + i2, Closing(f));
      builder.Close();
    }
  }
}

/** The parts of scripts/abstract_factory.py that hold state: items, links,
    trays of items and pages of items. */
module AbstractFactoryPattern {

  class Item {
    var caption: string

    constructor (caption: string)
      ensures this.caption == caption
    {
      this.caption := caption;
    }
  }

  /** An item that also carries a URL. */
  class Link {
    var caption: string
    var url: string

    constructor (caption: string, url: string)
      ensures this.caption == caption && this.url == url
    {
      this.caption := caption;
      this.url := url;
    }
  }

  /** Anything a tray or a page can hold: a plain item, a link or a tray,
      by reference. */
  datatype Entry = PlainItem(item: Item) | LinkItem(link: Link) | TrayItem(tray: Tray)

  /** An item that collects other items, in the order they are added. */
  class Tray {
    var caption: string
    var tray: seq<Entry>

    constructor (caption: string)
      ensures this.caption == caption && tray == []
    {
      this.caption := caption;
      tray := [];
    }

    /** Appends `item` at the end; earlier items and the caption stay. */
    method Add(item: Entry)
      modifies this
      ensures tray == old(tray) + [item]
      ensures |tray| == |old(tray)| + 1 && tray[..|old(tray)|] == old(tray)
      ensures caption == old(caption)
    {
      tray := tray + [item];
    }
  }

  /** A page with a title and an author that collects items in order. */
  class Page {
    var title: string
    var author: string
    var content: seq<Entry>

    constructor (title: string, author: string)
      ensures this.title == title && this.author == author && content == []
    {
      this.title := title;
      this.author := author;
      content := [];
    }

    /** Appends `item` at the end; earlier items, the title and the author stay. */
    method Add(item: Entry)
      modifies this
      ensures content == old(content) + [item]
      ensures |content| == |old(content)| + 1 && content[..|old(content)|] == old(content)
      ensures title == old(title) && author == old(author)
    {
      content := content + [item];
    }
  }
}

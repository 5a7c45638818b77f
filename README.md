# Design-pattern scripts, modelled in Dafny

The repository is a set of small Python scripts, one per classic design
pattern. Each script has a few roles, one or two concrete classes and a
driver that prints. This project models the scripts that hold state or build
text, and proves what their output is:

- `iterator.dfy` — the bookshelf and its forward-only cursor (`has_next`,
  `next`), and the driver loop that prints every book.
- `builder.dfy` — the plain-text and HTML builders, which only ever append
  to their `content`, and the director's fixed script.
- `prototype.dfy` — the manager's name-to-prototype showcase, `create` as a
  lookup plus value copy, and the lines the message box and underline pen print.
- `singleton.dfy` — the class attribute `_unique_instance`, the refused
  constructor and the accessor, as the code is written (see Findings).
- `bridge.dfy`, `template_method.dfy`, `factory_method.dfy`, `adapter.dfy` —
  the output each display, factory and banner operation produces.
- `abstract_factory.dfy` — items, links, trays and pages, with their `add` operations.
- `output.dfy` — how printing is represented, plus the `Exceptions` module.

Printing is modelled as appending to the `text` of a `Stdout` object.
`print(s)` appends `s` and a newline (`Stdout.WriteLine`), and
`print(s, end="")` appends `s` alone (`Stdout.Write`). `Render(lines)` is the
text that printing `lines` one by one writes. The adapter's banner
operations and the prototypes' `use` also print (scripts/adapter.py:13, 16;
scripts/prototype.py:56-58, 67-68), but they hold no state and only format
their argument, so the model gives them as functions that return the lines
they print.

Python exceptions become a `Result` value, `Ok(v)` or `Raised(e)`, instead
of a precondition. `copy.deepcopy` of a prototype is a value copy.

Dafny has no class inheritance here, so every call that Python dispatches on
the receiver's class is resolved in one of two ways:

- Where a call site can meet more than one concrete class, a datatype holds
  one case per class and matches on it. The director's builder is an
  `AnyBuilder`, a template-method display is an `AbstractDisplay`, and a
  prototype is a `Product`. The prototype's `create_copy` and `use` calls
  (scripts/prototype.py:35, 82-86) match on that `Product` datatype.
- Where the script has only one concrete class behind the abstract one, the
  call goes straight to it. `Factory.create` calls `self.create_product` and
  `self.register_product` (scripts/factory_method.py:15-16), which are the ID
  card factory's. `Display` calls `self._impl.raw_*` (scripts/bridge.py:57-63),
  which are `StringDisplayImpl`'s.

`CountDisplay` holds the `Display` it extends as `base`, so `d2.display()` is
`d2.base.Display(out)`.

The script's comments (scripts/singleton.py:26, 37-38) say that the first
`get_instance()` creates the instance and later calls return that same
instance. The code never creates one, and the model follows the code (see
Findings).

## Model

| member | source | states |
|---|---|---|
| IteratorPattern.ListIndex | scripts/iterator.py:76-77 | list indexing succeeds exactly for indices `-len .. len-1`, negative ones counting from the end; otherwise it raises IndexError |
| IteratorPattern.Bookshelf.constructor | scripts/iterator.py:70-71 | the shelf holds the given books |
| IteratorPattern.Bookshelf.GetItem | scripts/iterator.py:76-77 | `bookshelf[i]` is list indexing on the books |
| IteratorPattern.Bookshelf.Iterator | scripts/iterator.py:73-74 | every call returns a new cursor on this shelf at index 0 |
| IteratorPattern.BookshelfIterator.constructor | scripts/iterator.py:52-54 | a new cursor is at index 0 on its shelf |
| IteratorPattern.BookshelfIterator.HasNext | scripts/iterator.py:61-66 | true iff `index < len(books)`; changes nothing, so on an empty shelf it is false at once |
| IteratorPattern.BookshelfIterator.Next | scripts/iterator.py:56-59 | before the end: returns `books[index]` and the index grows by exactly 1; at the end: IndexError and the index stays; the shelf never changes |
| IteratorPattern.ListBooks | scripts/iterator.py:80-88 | the driver prints every book's name exactly once, in shelf order, and calls `next` exactly `len(books)` times |
| BuilderPattern.ItemLinesAreOnePerItem | scripts/builder.py:70-72 | the item part is one line per item, in item order |
| BuilderPattern.TextItemsLineCount | scripts/builder.py:70-72 | the text builder writes exactly one line per item, and nothing for an empty list |
| BuilderPattern.HtmlItemsAreLines | scripts/builder.py:96-100 | the HTML builder writes `<ul>`, one `<li>` line per item, then `</ul>`, even for an empty list |
| BuilderPattern.HtmlItemsLineCount | scripts/builder.py:96-100 | so the HTML item list is two lines longer than the number of items |
| BuilderPattern.TextDocumentFramedByRule | scripts/builder.py:63-75 | a constructed text document begins and ends with the same rule line |
| BuilderPattern.HtmlDocumentEnd | scripts/builder.py:102-103 | a constructed HTML document ends with `</html>` and no newline after it |
| BuilderPattern.TextBuilder.constructor | scripts/builder.py:60-61 | content starts empty |
| BuilderPattern.TextBuilder.MakeTitle | scripts/builder.py:63-65 | appends the rule line and the bracketed title; the old content is kept as a prefix |
| BuilderPattern.TextBuilder.MakeString | scripts/builder.py:67-68 | appends the marked paragraph and nothing else |
| BuilderPattern.TextBuilder.MakeItems | scripts/builder.py:70-72 | appends the `* item` lines, one per item in order, and nothing else |
| BuilderPattern.TextBuilder.Close | scripts/builder.py:74-75 | appends the rule line |
| BuilderPattern.TextBuilder.GetContent | scripts/builder.py:77-78 | returns the content and changes nothing |
| BuilderPattern.HTMLBuilder.constructor | scripts/builder.py:84-85 | content starts empty |
| BuilderPattern.HTMLBuilder.MakeTitle | scripts/builder.py:87-91 | appends the document head and the `<h1>` title; the old content is kept as a prefix |
| BuilderPattern.HTMLBuilder.MakeString | scripts/builder.py:93-94 | appends the `<p>` paragraph and nothing else |
| BuilderPattern.HTMLBuilder.MakeItems | scripts/builder.py:96-100 | appends `<ul>`, the `<li>` lines and `</ul>`, and nothing else |
| BuilderPattern.HTMLBuilder.Close | scripts/builder.py:102-103 | appends `</body>` and `</html>` with no final newline |
| BuilderPattern.HTMLBuilder.GetContent | scripts/builder.py:105-106 | returns the content and changes nothing |
| BuilderPattern.AnyBuilder.MakeTitle | scripts/builder.py:14-15 | calling `make_title` on either builder appends that builder's title fragment |
| BuilderPattern.AnyBuilder.MakeString | scripts/builder.py:17-18 | calling `make_string` on either builder appends that builder's paragraph |
| BuilderPattern.AnyBuilder.MakeItems | scripts/builder.py:20-21 | calling `make_items` on either builder appends that builder's item list |
| BuilderPattern.AnyBuilder.Close | scripts/builder.py:23-24 | calling `close` on either builder appends that builder's closing |
| BuilderPattern.Director.constructor | scripts/builder.py:33-34 | the director keeps the builder it is given |
| BuilderPattern.Director.Construct | scripts/builder.py:36-54 | the builder's content grows by exactly title, string, items, string, items, close, in that order, for its format |
| PrototypePattern.CreateCopy | scripts/prototype.py:60-61 | the copy is the same kind of product; a message box copy has the same decoration |
| PrototypePattern.Use | scripts/prototype.py:48-58 | a message box prints three lines: the middle one is the content between two decoration strings, and the first and last are equal, `len(content)+2` decorations long; an underline pen (scripts/prototype.py:65-68) prints the content, then a line exactly as long |
| PrototypePattern.MessageBoxShape | scripts/prototype.py:54-58 | a message box prints three lines; with a one-character decoration all are `len(content)+2` long, the outer two are pure decoration and the middle one is the content framed by it |
| PrototypePattern.UnderlinePenShape | scripts/prototype.py:65-68 | an underline pen prints the content, then exactly as many dashes |
| PrototypePattern.Lookup | scripts/prototype.py:31-35 | `create(name)` succeeds iff the name is registered, returning the registered prototype's value; otherwise KeyError |
| PrototypePattern.RegisterThenCreate | scripts/prototype.py:28-35 | after `register(name, p)`, creating `name` gives `p`, and every other name gives what it gave before |
| PrototypePattern.Manager.constructor | scripts/prototype.py:25-26 | the showcase starts empty |
| PrototypePattern.Manager.Register | scripts/prototype.py:28-29 | the name now maps to the prototype, overwriting any earlier entry; all other names are unchanged |
| PrototypePattern.Manager.Create | scripts/prototype.py:31-35 | returns a copy of the registered prototype, or KeyError for an unknown name; the showcase is not modified |
| SingletonPattern.Singleton.constructor | scripts/singleton.py:15-16 | `_unique_instance` starts as None |
| SingletonPattern.Singleton.New | scripts/singleton.py:18-22 | direct construction always raises NotImplementedError |
| SingletonPattern.Singleton.InternalNew | scripts/singleton.py:24-27 | as written, returns None; the allocated instance is discarded |
| SingletonPattern.Singleton.GetInstance | scripts/singleton.py:29-33 | as written, from any state it returns None and leaves the field None; it writes the field only when it was not None |
| SingletonPattern.Singleton.Demo | scripts/singleton.py:36-41 | two accessor calls give the same value (both None), so `a and b is identical.` is printed, and then direct construction raises |
| SingletonPattern.Singleton.InternalNewIntended | scripts/singleton.py:25-27 | corrected: returns a new instance |
| SingletonPattern.Singleton.GetInstanceIntended | scripts/singleton.py:30-33 | corrected: stores and returns an instance, new on the first call and the stored one afterwards |
| SingletonPattern.Singleton.DemoIntended | scripts/singleton.py:37-40 | corrected: the two calls return the same, real instance, and the identity line is printed |
| BridgePattern.StringDisplayImpl.constructor | scripts/bridge.py:26-27 | the implementation keeps its string |
| BridgePattern.StringDisplayImpl.Width | scripts/bridge.py:29-31 | the width is the string's length: two less than the printed body line (BoxShape: the border is then as long as the body) |
| BridgePattern.StringDisplayImpl.PrintLine | scripts/bridge.py:33-34 | prints the border line |
| BridgePattern.StringDisplayImpl.RawOpen | scripts/bridge.py:36-37 | prints the border line |
| BridgePattern.StringDisplayImpl.RawPrint | scripts/bridge.py:39-40 | prints the string between bars |
| BridgePattern.StringDisplayImpl.RawClose | scripts/bridge.py:42-43 | prints the same border line as `raw_open` |
| BridgePattern.BoxShape | scripts/bridge.py:29-40 | the border is `+`, `width` dashes and `+`, so it is `width+2` long, as long as the body line; `width` is the string's length |
| BridgePattern.MultiDisplayShape | scripts/bridge.py:103-107 | `multi_display(times)` prints `2 + max(times, 0)` lines, the same border first and last and identical body lines between |
| BridgePattern.MultiDisplayOnceIsDisplay | scripts/bridge.py:65-68 | `multi_display(1)` prints exactly what `display()` prints |
| BridgePattern.Display.constructor | scripts/bridge.py:53-54 | the display keeps its implementation, which never changes afterwards |
| BridgePattern.Display.Open | scripts/bridge.py:56-57 | delegates to `raw_open` |
| BridgePattern.Display.PrintBody | scripts/bridge.py:59-60 | delegates to `raw_print` |
| BridgePattern.Display.Close | scripts/bridge.py:62-63 | delegates to `raw_close` |
| BridgePattern.Display.Display | scripts/bridge.py:65-68 | prints exactly open, print, close: three lines |
| BridgePattern.CountDisplay.constructor | scripts/bridge.py:96 | a count display is a new display over the given implementation |
| BridgePattern.CountDisplay.MultiDisplay | scripts/bridge.py:103-107 | prints the border, `times` body lines (none when `times <= 0`) and the border |
| TemplateMethodPattern.CharDisplay.constructor | scripts/template_method.py:31-32 | the display keeps its string |
| TemplateMethodPattern.CharDisplay.Open | scripts/template_method.py:34-35 | writes `<<` without a newline |
| TemplateMethodPattern.CharDisplay.PrintBody | scripts/template_method.py:37-38 | writes the string without a newline |
| TemplateMethodPattern.CharDisplay.Close | scripts/template_method.py:40-41 | writes `>>` and ends the line |
| TemplateMethodPattern.StringDisplay.constructor | scripts/template_method.py:45-47 | the width is fixed at construction as the string's length |
| TemplateMethodPattern.StringDisplay.PrintLine | scripts/template_method.py:49-50 | prints the border line |
| TemplateMethodPattern.StringDisplay.Open | scripts/template_method.py:52-53 | prints the border line |
| TemplateMethodPattern.StringDisplay.PrintBody | scripts/template_method.py:55-56 | prints the string between bars |
| TemplateMethodPattern.StringDisplay.Close | scripts/template_method.py:58-59 | prints the border line |
| TemplateMethodPattern.AbstractDisplay.Open | scripts/template_method.py:11-12 | the `open` step of whichever display it is |
| TemplateMethodPattern.AbstractDisplay.PrintBody | scripts/template_method.py:14-15 | the `print` step of whichever display it is |
| TemplateMethodPattern.AbstractDisplay.Close | scripts/template_method.py:17-18 | the `close` step of whichever display it is |
| TemplateMethodPattern.AbstractDisplay.Display | scripts/template_method.py:20-25 | writes the open text, the print text exactly five times, then the close text, and changes no display field |
| TemplateMethodPattern.CharDisplayIsOneLine | scripts/template_method.py:34-41 | a char display prints the single line `<<`, the string five times, `>>` |
| TemplateMethodPattern.StringDisplayLines | scripts/template_method.py:45-59 | a string display prints seven lines: a border, five body lines, a border, the borders as long as the body lines (`width+2`) |
| FactoryMethodPattern.Label | scripts/factory_method.py:34-35 | `str(card)` is `[IDCard: ` followed by the owner and `]` |
| FactoryMethodPattern.LabelInjective | scripts/factory_method.py:34-35 | cards of different owners have different labels |
| FactoryMethodPattern.DriverLinesPerEmployee | scripts/factory_method.py:46-52 | the driver prints two lines per employee, issue then use, in list order, and no registration line |
| FactoryMethodPattern.IDCard.constructor | scripts/factory_method.py:27-29 | issuing prints `Issue owner's card` and records the owner |
| FactoryMethodPattern.IDCard.Use | scripts/factory_method.py:31-32 | prints `Use owner's card`; the owner stays |
| FactoryMethodPattern.IDCard.ToString | scripts/factory_method.py:34-35 | the card's label is the owner's label |
| FactoryMethodPattern.IDCardFactory.CreateProduct | scripts/factory_method.py:39-40 | returns a new card whose owner is the given owner |
| FactoryMethodPattern.IDCardFactory.RegisterProduct | scripts/factory_method.py:42-43 | prints `registered ` followed by the card's label |
| FactoryMethodPattern.IDCardFactory.Create | scripts/factory_method.py:14-17 | creates a card, registers that same card and returns it: exactly the issue line, then the registration line |
| FactoryMethodPattern.IssueAndUse | scripts/factory_method.py:46-52 | the driver's output is the issue and use lines of every employee, in order |
| AdapterPattern.Banner.ShowWithParen | scripts/adapter.py:12-13 | the string between `(` and `)` |
| AdapterPattern.Banner.ShowWithAster | scripts/adapter.py:15-16 | the string between two `*` |
| AdapterPattern.PrintBanner.PrintWeak | scripts/adapter.py:28-29 | the inheriting adapter's weak print is its own string in parentheses (AdaptersAgree: the same as the delegating adapter's) |
| AdapterPattern.PrintBanner.PrintStrong | scripts/adapter.py:31-32 | the inheriting adapter's strong print is its own string between asterisks |
| AdapterPattern.PrintBannerDelegation.PrintWeak | scripts/adapter.py:39-40 | the delegating adapter's weak print is its banner's string in parentheses |
| AdapterPattern.PrintBannerDelegation.PrintStrong | scripts/adapter.py:42-43 | the delegating adapter's strong print is its banner's string between asterisks |
| AdapterPattern.NewPrintBannerDelegation | scripts/adapter.py:36-37 | the delegating adapter holds a banner of the given string |
| AdapterPattern.AdaptersAgree | scripts/adapter.py:27-43 | weak printing is the parenthesised string and strong printing the starred string, for both adapters alike |
| AdapterPattern.WeakAndStrongDiffer | scripts/adapter.py:12-16 | the two outputs always differ and both carry the string unchanged |
| AbstractFactoryPattern.Item.constructor | scripts/abstract_factory.py:15-16 | an item stores its caption |
| AbstractFactoryPattern.Link.constructor | scripts/abstract_factory.py:25-27 | a link stores its caption and its URL |
| AbstractFactoryPattern.Tray.constructor | scripts/abstract_factory.py:33-35 | a tray stores its caption and starts with no items |
| AbstractFactoryPattern.Tray.Add | scripts/abstract_factory.py:37-38 | appends at the end: one more item, the earlier ones and the caption unchanged |
| AbstractFactoryPattern.Page.constructor | scripts/abstract_factory.py:44-47 | a page stores title and author and starts with no content |
| AbstractFactoryPattern.Page.Add | scripts/abstract_factory.py:49-50 | appends at the end: one more item, the earlier ones, title and author unchanged |

## Left out

- scripts/strategy.py is not part of this model: two of its functions have empty bodies, so the file does not parse and has no behaviour.
- scripts/composite.py is not part of this model: it holds only a docstring and an empty `main`.
- Real console output: printing appends to `Stdout.text` instead.
- The abstract methods of the base classes (those of `Iterable`, `Iterator`, `Builder`, the two `Product`s, `Print`, `DisplayImpl`, `AbstractDisplay`'s three steps, and `Factory.create_product` and `Factory.register_product`): they only `pass`. Calls through them go to the concrete classes, as described above. `Factory.create` has a real body and is modelled as `IDCardFactory.Create`.
- `DisplayExtend` (scripts/bridge.py:71-93): its `raw_*` methods are the inherited no-ops, so nothing observable happens.
- From scripts/abstract_factory.py: the stub `make_html` methods, `Page.output` (it prints a bound method object), the `Factory` stubs, the empty `List*` classes and `main`.
- The `main` drivers of builder.py, prototype.py, bridge.py, template_method.py and adapter.py: they only chain the modelled operations on literal arguments.
- PrototypePattern.CreateCopy: `copy.deepcopy` is a value copy here, so the copy's being a distinct object is not modelled.
- PrototypePattern.Use: it returns the lines `use` prints instead of writing them to a `Stdout`; the same holds for the adapter's `ShowWithParen`, `ShowWithAster`, `PrintWeak` and `PrintStrong`.
- IteratorPattern.Bookshelf.constructor: the shelf holds a value copy of the list, so later mutation of the caller's list through aliasing is not modelled.
- SingletonPattern.Singleton.New: Python's `__new__` and `super().__new__` allocation machinery is modelled only by its outcome (an exception, or a new object).
- FactoryMethodPattern.IDCardFactory.RegisterProduct: takes an `IDCard` rather than any product, since ID cards are the only product.
- Python's dynamic typing: arguments of a wrong type are not modelled.

## Findings

| source | as written | input that shows it | evidently intended | confidence | as-written member | corrected member |
|---|---|---|---|---|---|---|
| scripts/singleton.py:31 | the accessor's guard replaces the instance only when one is already stored (`is not None`) | the first `get_instance()` after the class is defined returns `None` and stores nothing | create and store the instance when none is stored (`is None`) | high; not executed | SingletonPattern.Singleton.GetInstance | SingletonPattern.Singleton.GetInstanceIntended |
| scripts/singleton.py:27 | `__internal_new__` allocates an instance but has no `return` | `__internal_new__()` returns `None` | return the allocated instance | high; not executed | SingletonPattern.Singleton.InternalNew | SingletonPattern.Singleton.InternalNewIntended |

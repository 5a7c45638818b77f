/** The Prototype pattern of scripts/prototype.py: a manager keeps named
    prototypes and hands out copies of them. */
module PrototypePattern {
  import opened Exceptions
  import opened Output

  /** The two kinds of product; a message box remembers its decoration string. */
  datatype Product = MessageBox(decoString: string) | UnderlinePen

  /** `create_copy`: `copy.deepcopy` of a product, which is a value copy. */
  function CreateCopy(p: Product): (c: Product)
    ensures c.MessageBox? <==> p.MessageBox?
    ensures c.MessageBox? ==> c.decoString == p.decoString
  {
    p
  }

  /** The lines `use(content)` prints. A message box frames the content with
      its decoration string; an underline pen underlines it with dashes. */
  function Use(p: Product, content: string): (lines: seq<string>)
    ensures p.MessageBox? ==>
      && |lines| == 3 && lines[0] == lines[2]
      && |lines[0]| == |p.decoString| * (|content| + 2)
      && lines[1] == p.decoString + content + p.decoString
    ensures p.UnderlinePen? ==>
      |lines| == 2 && lines[0] == content && |lines[1]| == |content|
  {
    match p
    case MessageBox(d) =>
      RepeatLength(d, |content| + 2);
      var edge := Repeat(d, |content| + 2);
      [edge, d + content + d, edge]
    case UnderlinePen =>
      RepeatLength("-", |content|);
      [content, Repeat("-", |content|)]
  }

  /** A message box prints three lines; with a one-character decoration all
      three are two characters longer than the content, the outer two are
      made of the decoration alone, and the middle one is the content between
      two decorations. */
  lemma MessageBoxShape(d: char, content: string)
    ensures var lines := Use(MessageBox([d]), content);
      && |lines| == 3
      && (forall k :: 0 <= k < 3 ==> |lines[k]| == |content| + 2)
      && lines[0] == lines[2]
      && (forall i :: 0 <= i < |lines[0]| ==> lines[0][i] == d)
      && lines[1][0] == d && lines[1][|content| + 1] == d
      && lines[1][1..|content| + 1] == content
  {
    RepeatChar(d, |content| + 2);
    var mid := [d] + content + [d];
    assert mid[1..|content| + 1] == content;
  }

  /** An underline pen prints the content and then a line of exactly as many dashes. */
  lemma UnderlinePenShape(content: string)
    ensures var lines := Use(UnderlinePen, content);
      && |lines| == 2 && lines[0] == content
      && |lines[1]| == |content|
      && (forall i :: 0 <= i < |lines[1]| ==> lines[1][i] == '-')
  {
    RepeatChar('-', |content|);
  }

  /** `showcase[name].create_copy()`, or the `KeyError` the lookup raises. */
  function Lookup(showcase: map<string, Product>, name: string): (r: Result<Product>)
    ensures r.Ok? <==> name in showcase
    ensures r.Ok? ==> r.value == showcase[name]
    ensures r.Raised? ==> r.exception == KeyError
  {
    if name in showcase then Ok(CreateCopy(showcase[name])) else Raised(KeyError)
  }

  /** After `register(name, p)`, creating `name` yields a copy of `p`, and
      creating any other name yields what it yielded before. */
  lemma RegisterThenCreate(showcase: map<string, Product>, name: string, p: Product, other: string)
    ensures Lookup(showcase[name := p], name) == Ok(p)
    ensures other != name ==> Lookup(showcase[name := p], other) == Lookup(showcase, other)
  {
  }

  class Manager {
    var showcase: map<string, Product>

    constructor ()
      ensures showcase == map[]
    {
      showcase := map[];
    }

    /** Adds `prototype` under `name`, replacing any earlier entry; no other
        name changes. */
    method Register(name: string, prototype: Product)
      modifies this
      ensures name in showcase && showcase[name] == prototype
      ensures showcase.Keys == old(showcase.Keys) + {name}
      ensures forall n :: n in old(showcase) && n != name ==> showcase[n] == old(showcase)[n]
    {
      showcase := showcase[name := prototype];
    }

    /** A copy of the prototype registered under `name`, or `KeyError` when
        there is none; the showcase is left as it was. */
    method Create(name: string) returns (r: Result<Product>)
      ensures r == Lookup(showcase, name)
      ensures name in showcase ==> r == Ok(showcase[name])
      ensures name !in showcase ==> r == Raised(KeyError)
    {
      if name !in showcase {
        return Raised(KeyError);
      }
      var proto := showcase[name];
      r := Ok(CreateCopy(proto));
    }
  }
}

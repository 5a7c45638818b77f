/** The Factory Method pattern of scripts/factory_method.py: `create` fixes
    the recipe (make a product, register it, return it) and the ID-card
    factory supplies both steps. */
module FactoryMethodPattern {
  import opened Output

  /** The line printed when a card for `owner` is issued. */
  function IssueLine(owner: string): string
  {
    "Issue " + owner + "'s card"
  }

  /** The line printed when the card of `owner` is used. */
  function UseLine(owner: string): string
  {
    "Use " + owner + "'s card"
  }

  /** `str(card)` for a card of `owner`. */
  function Label(owner: string): (s: string)
    ensures |s| == |owner| + 10
    ensures s[..9] == "[IDCard: " && s[9..|s| - 1] == owner && s[|s| - 1] == ']'
  {
    "[IDCard: " + owner + "]"
  }

  /** Different owners get different labels: the owner can be read back
      from the label. */
  lemma LabelInjective(a: string, b: string)
    requires Label(a) == Label(b)
    ensures a == b
  {
    var s := Label(a);
    assert a == s[9..|s| - 1];
  }

  /** The line `register_product` prints for a card of `owner`. */
  function RegisteredLine(owner: string): string
  {
    "registered " + Label(owner)
  }

  /** What `IDCardFactory().create(owner)` prints: the issue line, then the
      registration line naming the same card. */
  function CreateLines(owner: string): seq<string>
  {
    [IssueLine(owner), RegisteredLine(owner)]
  }

  /** What the driver prints: an issue line and a use line per employee, in
      list order. */
  function DriverLines(employees: seq<string>): seq<string>
  {
    if employees == [] then []
    else
      var last := employees[|employees| - 1];
      DriverLines(employees[..|employees| - 1]) + [IssueLine(last), UseLine(last)]
  }

  /** The driver prints two lines per employee: the `k`-th employee's issue
      line at position `2k` and use line at `2k + 1`, and never a
      registration line. */
  lemma {:induction false} DriverLinesPerEmployee(employees: seq<string>, k: nat)
    requires k < |employees|
    ensures |DriverLines(employees)| == 2 * |employees|
    ensures DriverLines(employees)[2 * k] == IssueLine(employees[k])
    ensures DriverLines(employees)[2 * k + 1] == UseLine(employees[k])
    decreases |employees|
  {
    var init := employees[..|employees| - 1];
    if k < |init| {
      DriverLinesPerEmployee(init, k);
    } else if init != [] {
      DriverLinesPerEmployee(init, 0);
    }
  }

  class IDCard {
    var owner: string

    /** Issuing a card prints the issue line and records the owner. */
    constructor (owner: string, out: Stdout)
      modifies out
      ensures this.owner == owner
      ensures out.text == old(out.text) + Render([IssueLine(owner)])
    {
      out.WriteLine("Issue " + owner + "'s card");
      this.owner := owner;
    }

    /** Prints the use line; the owner stays. */
    method Use(out: Stdout)
      modifies out
      ensures out.text == old(out.text) + Render([UseLine(owner)])
    {
      out.WriteLine("Use " + owner + "'s card");
    }

    function ToString(): (s: string)
      reads this
      ensures s == Label(owner)
    {
      "[IDCard: " + owner + "]"
    }
  }

  class IDCardFactory {
    constructor ()
    {
    }

    method CreateProduct(owner: string, out: Stdout) returns (card: IDCard)
      modifies out
      ensures fresh(card) && card.owner == owner
      ensures out.text == old(out.text) + Render([IssueLine(owner)])
    {
      card := new IDCard(owner, out);
    }

    method RegisterProduct(product: IDCard, out: Stdout)
      modifies out
      ensures out.text == old(out.text) + Render([RegisteredLine(product.owner)])
    {
      out.WriteLine("registered " + product.ToString());
    }

    /** The factory method's recipe: make the card, register that same card,
        return it. */
    method Create(owner: string, out: Stdout) returns (card: IDCard)
      modifies out
      ensures fresh(card) && card.owner == owner
      ensures out.text == old(out.text) + Render(CreateLines(owner))
    {
      card := CreateProduct(owner, out);
      RegisterProduct(card, out);
      RenderAppend([IssueLine(owner)], [RegisteredLine(owner)]);
      assert [IssueLine(owner)] + [RegisteredLine(owner)] == CreateLines(owner);
      Assoc(old(out.text), Render([IssueLine(owner)]), Render([RegisteredLine(owner)]));
    }
  }

  /** The driver: it calls `create_product` directly (so nothing is
      registered) and uses each card right away. */
  method IssueAndUse(employees: seq<string>, out: Stdout)
    modifies out
    ensures out.text == old(out.text) + Render(DriverLines(employees))
  {
    var factory := new IDCardFactory();
    for i := 0 to |employees|
      invariant out.text == old(out.text) + Render(DriverLines(employees[..i]))
    {
      ghost var before := DriverLines(employees[..i]);
      var e := employees[i];
      var card := factory.CreateProduct(e, out);
      card.Use(out);
      assert employees[..i + 1][..i] == employees[..i];
      assert DriverLines(employees[..i + 1]) == before + [IssueLine(e), UseLine(e)];
      RenderAppend(before, [IssueLine(e)]);
      RenderAppend(before + [IssueLine(e)], [UseLine(e)]);
      assert before + [IssueLine(e)] + [UseLine(e)] == before + [IssueLine(e), UseLine(e)];
      Assoc(old(out.text), Render(before), Render([IssueLine(e)]));
      Assoc(old(out.text), Render(before + [IssueLine(e)]), Render([UseLine(e)]));
    }
    assert employees[..|employees|] == employees;
  }
}

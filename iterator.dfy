/** The Iterator pattern of scripts/iterator.py: a bookshelf and a
    forward-only cursor over its books. */
module IteratorPattern {
  import opened Exceptions
  import opened Output

  /** A book is its name; `str(book)` is that name. */
  datatype Book = Book(name: string)

  /** Python's `xs[i]` on a list: a negative index counts from the end, and an
      index outside `-len(xs) .. len(xs) - 1` raises `IndexError`. */
  function ListIndex<T>(xs: seq<T>, i: int): (r: Result<T>)
    ensures r.Ok? <==> -|xs| <= i < |xs|
    ensures r.Raised? ==> r.exception == IndexError
    ensures 0 <= i < |xs| ==> r.value == xs[i]
    ensures -|xs| <= i < 0 ==> r.value == xs[|xs| + i]
  {
    if 0 <= i < |xs| then Ok(xs[i])
    else if -|xs| <= i < 0 then Ok(xs[|xs| + i])
    else Raised(IndexError)
  }

  /** The names the driver prints, one per book, in shelf order. */
  function Names(books: seq<Book>): (r: seq<string>)
    ensures |r| == |books|
    ensures forall i :: 0 <= i < |books| ==> r[i] == books[i].name
  {
    seq(|books|, i requires 0 <= i < |books| => books[i].name)
  }

  class Bookshelf {
    var books: seq<Book>

    constructor (books: seq<Book>)
      ensures this.books == books
    {
      this.books := books;
    }

    /** `bookshelf[index]` */
    function GetItem(index: int): (r: Result<Book>)
      reads this
      ensures r == ListIndex(books, index)
    {
      ListIndex(books, index)
    }

    /** Every call hands out a new cursor positioned before the first book. */
    method Iterator() returns (it: BookshelfIterator)
      ensures fresh(it)
      ensures it.bookshelf == this && it.index == 0
    {
      it := new BookshelfIterator(this);
    }
  }

  class BookshelfIterator {
    const bookshelf: Bookshelf
    var index: nat

    constructor (bookshelf: Bookshelf)
      ensures this.bookshelf == bookshelf && index == 0
    {
      this.bookshelf := bookshelf;
      index := 0;
    }

    /** Whether indexing the shelf at the cursor succeeds; changes nothing. */
    method HasNext() returns (b: bool)
      ensures b <==> index < |bookshelf.books|
    {
      var r := bookshelf.GetItem(index);
      b := r.Ok?;
    }

    /** The book at the cursor, after which the cursor moves one place on.
        Past the last book the lookup raises `IndexError` and the cursor stays. */
    method Next() returns (r: Result<Book>)
      modifies this
      ensures unchanged(bookshelf)
      ensures old(index) < |bookshelf.books| ==>
                r == Ok(bookshelf.books[old(index)]) && index == old(index) + 1
      ensures old(index) >= |bookshelf.books| ==>
                r == Raised(IndexError) && index == old(index)
    {
      r := bookshelf.GetItem(index);
      if r.Raised? {
        return;
      }
      index := index + 1;
    }
  }

  /** The driver loop: print every book through a fresh cursor. It prints each
      name once, in shelf order, and calls `next` exactly `len(books)` times. */
  method ListBooks(books: seq<Book>, out: Stdout) returns (steps: nat)
    modifies out
    ensures out.text == old(out.text) + Render(Names(books))
    ensures steps == |books|
  {
    var shelf := new Bookshelf(books);
    var it := shelf.Iterator();
    steps := 0;
    var more := it.HasNext();
    while more
      invariant it.bookshelf == shelf && shelf.books == books
      invariant it.index <= |books| && steps == it.index
      invariant more <==> it.index < |books|
      invariant out.text == old(out.text) + Render(Names(books[..it.index]))
      decreases |books| - it.index
    {
      ghost var k := it.index;
      var b := it.Next();
      assert Names(books[..k + 1]) == Names(books[..k]) + [b.value.name];
      RenderAppend(Names(books[..k]), [b.value.name]);
      out.WriteLine(b.value.name);
      steps := steps + 1;
      more := it.HasNext();
    }
    assert books[..it.index] == books;
  }
}

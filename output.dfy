/** How the scripts' console output is represented.

    Python's `print(s)` writes `s` followed by a newline, and `print(s, end="")`
    writes `s` alone. Both are modelled as appending to the text of a `Stdout`
    object. Helpers here give the text of a list of printed lines and Python's
    string repetition `s * n`.
*/
module Output {

  /** Python's `s * n`: `s` repeated `n` times, and the empty string when `n <= 0`. */
  function Repeat(s: string, n: int): string
    decreases if n <= 0 then 0 else n
  {
    if n <= 0 then "" else Repeat(s, n - 1) + s
  }

  lemma {:induction false} RepeatLength(s: string, n: int)
    ensures |Repeat(s, n)| == |s| * (if n <= 0 then 0 else n)
    decreases if n <= 0 then 0 else n
  {
    if n > 0 {
      RepeatLength(s, n - 1);
      assert |s| * n == |s| * (n - 1) + |s|;
    }
  }

  /** `c * n` for a one-character string is `n` copies of `c` and nothing else. */
  lemma {:induction false} RepeatChar(c: char, n: int)
    ensures |Repeat([c], n)| == (if n <= 0 then 0 else n)
    ensures forall i :: 0 <= i < |Repeat([c], n)| ==> Repeat([c], n)[i] == c
    decreases if n <= 0 then 0 else n
  {
    if n > 0 {
      RepeatChar(c, n - 1);
    }
  }

  /** Concatenation regroups freely; stated once so that proofs about long
      literal strings need not rediscover it. */
  lemma Assoc<T>(a: seq<T>, b: seq<T>, c: seq<T>)
    ensures (a + b) + c == a + (b + c)
  {
  }

  /** The text that printing each of `lines` in turn writes. */
  function Render(lines: seq<string>): string
  {
    if lines == [] then "" else Render(lines[..|lines| - 1]) + lines[|lines| - 1] + "\n"
  }

  lemma RenderOne(line: string)
    ensures Render([line]) == line + "\n"
  {
    assert [line][..0] == [];
  }

  /** Printing `a` and then `b` writes what printing `a + b` writes. */
  lemma {:induction false} RenderAppend(a: seq<string>, b: seq<string>)
    ensures Render(a + b) == Render(a) + Render(b)
    decreases |b|
  {
    if b != [] {
      var b' := b[..|b| - 1];
      assert (a + b)[..|a + b| - 1] == a + b';
      RenderAppend(a, b');
    } else {
      assert a + b == a;
    }
  }

  /** `n` copies of the line `line`, none when `n <= 0` (a `for _ in range(n)` loop). */
  function Copies(line: string, n: int): (r: seq<string>)
    ensures |r| == (if n <= 0 then 0 else n)
    ensures forall i :: 0 <= i < |r| ==> r[i] == line
  {
    seq(if n <= 0 then 0 else n, _ => line)
  }

  /** Writing `line + "\n"` `n` times is printing `n` copies of `line`. */
  lemma {:induction false} RepeatIsRenderCopies(line: string, n: int)
    ensures Repeat(line + "\n", n) == Render(Copies(line, n))
    decreases if n <= 0 then 0 else n
  {
    if n > 0 {
      RepeatIsRenderCopies(line, n - 1);
      assert Copies(line, n)[..n - 1] == Copies(line, n - 1);
    }
  }

  /** The number of occurrences of `c` in `s`. */
  function Count(c: char, s: string): nat
  {
    if s == [] then 0 else Count(c, s[..|s| - 1]) + (if s[|s| - 1] == c then 1 else 0)
  }

  lemma {:induction false} CountAppend(c: char, a: string, b: string)
    ensures Count(c, a + b) == Count(c, a) + Count(c, b)
    decreases |b|
  {
    if b != [] {
      assert (a + b)[..|a + b| - 1] == a + b[..|b| - 1];
      CountAppend(c, a, b[..|b| - 1]);
    } else {
      assert a + b == a;
    }
  }

  predicate NoNewline(s: string)
  {
    forall i :: 0 <= i < |s| ==> s[i] != '\n'
  }

  lemma {:induction false} CountAbsent(c: char, s: string)
    requires forall i :: 0 <= i < |s| ==> s[i] != c
    ensures Count(c, s) == 0
    decreases |s|
  {
    if s != [] {
      CountAbsent(c, s[..|s| - 1]);
    }
  }

  /** A character absent from `s` is absent from `s * n`. */
  lemma {:induction false} RepeatKeepsOut(c: char, s: string, n: int)
    requires Count(c, s) == 0
    ensures Count(c, Repeat(s, n)) == 0
    decreases if n <= 0 then 0 else n
  {
    if n > 0 {
      RepeatKeepsOut(c, s, n - 1);
      CountAppend(c, Repeat(s, n - 1), s);
    }
  }

  lemma {:induction false} NoNewlineByCount(s: string)
    requires Count('\n', s) == 0
    ensures NoNewline(s)
    decreases |s|
  {
    if s != [] {
      NoNewlineByCount(s[..|s| - 1]);
      assert s == s[..|s| - 1] + [s[|s| - 1]];
    }
  }

  /** Printing lines that contain no newline of their own writes exactly one
      newline per line, so the text reads back as that many lines. */
  lemma {:induction false} RenderLineCount(lines: seq<string>)
    requires forall i :: 0 <= i < |lines| ==> NoNewline(lines[i])
    ensures Count('\n', Render(lines)) == |lines|
    decreases |lines|
  {
    if lines != [] {
      var init, last := lines[..|lines| - 1], lines[|lines| - 1];
      RenderLineCount(init);
      assert lines == init + [last];
      assert Render(lines) == Render(init) + (last + "\n");
      CountAppend('\n', Render(init), last + "\n");
      CountAppend('\n', last, "\n");
      CountAbsent('\n', last);
      assert Count('\n', "\n") == 1 by {
        assert "\n"[..0] == "";
      }
    }
  }

  /** The console: everything written so far, in order. */
  class Stdout {
    var text: string

    constructor ()
      ensures text == ""
    {
      text := "";
    }

    /** `print(s)` */
    method WriteLine(s: string)
      modifies this
      ensures text == old(text) + Render([s])
    {
      text := text + s + "\n";
    }

    /** `print(s, end="")` */
    method Write(s: string)
      modifies this
      ensures text == old(text) + s
    {
      text := text + s;
    }
  }
}

/** The Python exceptions the modelled code raises, and a result type that
    carries either a returned value or a raised exception. */
module Exceptions {

  datatype Exception = IndexError | KeyError | NotImplementedError

  datatype Result<T> = Ok(value: T) | Raised(exception: Exception)
}

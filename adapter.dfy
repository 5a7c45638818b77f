/** The Adapter pattern of scripts/adapter.py: the `Print` interface
    (`print_weak`, `print_strong`) supplied on top of an existing `Banner`,
    once by inheritance and once by delegation. Each operation prints one
    line; here it returns that line. */
module AdapterPattern {

  /** The existing class being adapted. */
  datatype Banner = Banner(str: string)
  {
    /** `show_with_paren`: the string in parentheses. */
    function ShowWithParen(): (line: string)
      ensures |line| == |str| + 2
      ensures line[0] == '(' && line[|line| - 1] == ')' && line[1..|line| - 1] == str
    {
      "(" + str + ")"
    }

    /** `show_with_aster`: the string between asterisks. */
    function ShowWithAster(): (line: string)
      ensures |line| == |str| + 2
      ensures line[0] == '*' && line[|line| - 1] == '*' && line[1..|line| - 1] == str
    {
      "*" + str + "*"
    }
  }

  /** The adapter by inheritance: a banner that is also a `Print`. */
  datatype PrintBanner = PrintBanner(str: string)
  {
    function AsBanner(): Banner
    {
      Banner(str)
    }

    /** `print_weak`: the string in parentheses. */
    function PrintWeak(): (line: string)
      ensures |line| == |str| + 2
      ensures line[0] == '(' && line[|line| - 1] == ')' && line[1..|line| - 1] == str
    {
      AsBanner().ShowWithParen()
    }

    /** `print_strong`: the string between asterisks. */
    function PrintStrong(): (line: string)
      ensures |line| == |str| + 2
      ensures line[0] == '*' && line[|line| - 1] == '*' && line[1..|line| - 1] == str
    {
      AsBanner().ShowWithAster()
    }
  }

  /** The adapter by delegation: a `Print` that holds a banner. */
  datatype PrintBannerDelegation = PrintBannerDelegation(banner: Banner)
  {
    /** `print_weak`: the string in parentheses. */
    function PrintWeak(): (line: string)
      ensures |line| == |banner.str| + 2
      ensures line[0] == '(' && line[|line| - 1] == ')' && line[1..|line| - 1] == banner.str
    {
      banner.ShowWithParen()
    }

    /** `print_strong`: the string between asterisks. */
    function PrintStrong(): (line: string)
      ensures |line| == |banner.str| + 2
      ensures line[0] == '*' && line[|line| - 1] == '*' && line[1..|line| - 1] == banner.str
    {
      banner.ShowWithAster()
    }
  }

  /** `PrintBannerDelegation(s)`: the constructor wraps `s` in a new banner. */
  function NewPrintBannerDelegation(s: string): (p: PrintBannerDelegation)
    ensures p.banner.str == s
  {
    PrintBannerDelegation(Banner(s))
  }

  /** Weak printing puts the string in parentheses and strong printing puts
      it between asterisks, whichever adapter is used; the two adapters
      print the same for the same string. */
  lemma AdaptersAgree(s: string)
    ensures PrintBanner(s).PrintWeak() == NewPrintBannerDelegation(s).PrintWeak() == "(" + s + ")"
    ensures PrintBanner(s).PrintStrong() == NewPrintBannerDelegation(s).PrintStrong() == "*" + s + "*"
  {
  }

  /** Weak and strong output always differ, and each gives back the string. */
  lemma WeakAndStrongDiffer(b: Banner)
    ensures b.ShowWithParen() != b.ShowWithAster()
    ensures b.ShowWithParen()[1..|b.str| + 1] == b.ShowWithAster()[1..|b.str| + 1] == b.str
  {
    assert b.ShowWithParen()[0] != b.ShowWithAster()[0];
  }
}

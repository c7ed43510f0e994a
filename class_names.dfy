/** The `cn` helper of the voice input widgets: drop falsy class arguments, join the rest with spaces. */
module ClassNames {
  import opened Seqs
  import opened Text

  /** One argument of `cn`: `string | undefined | boolean | null`. */
  datatype ClassArg = Str(s: string) | Flag(b: bool) | Undefined | Null

  /** What `.filter(Boolean)` keeps: non-empty strings and `true`. */
  predicate Truthy(a: ClassArg)
  {
    (a.Str? && a.s != "") || (a.Flag? && a.b)
  }

  /** How `join` renders a kept argument: a string as itself, `true` as the word "true". */
  function Render(a: ClassArg): (r: string)
    requires Truthy(a)
    ensures r != ""
  {
    if a.Str? then a.s else "true"
  }

  /** The rendered truthy arguments, in argument order. */
  function Kept(args: seq<ClassArg>): (r: seq<string>)
    ensures forall i :: 0 <= i < |r| ==> r[i] != ""
    ensures r == [] <==> forall i :: 0 <= i < |args| ==> !Truthy(args[i])
  {
    RenderAll(Filter(args, Truthy))
  }

  function RenderAll(kept: seq<ClassArg>): (r: seq<string>)
    requires forall i :: 0 <= i < |kept| ==> Truthy(kept[i])
    ensures |r| == |kept|
    ensures forall i :: 0 <= i < |r| ==> r[i] == Render(kept[i]) && r[i] != ""
  {
    seq(|kept|, i requires 0 <= i < |kept| => Render(kept[i]))
  }

  /**
   * `cn(...classes)`: empty exactly when no argument is truthy, and otherwise starting with the
   * first kept class.
   */
  function Cn(args: seq<ClassArg>): (r: string)
    ensures r == "" <==> forall i :: 0 <= i < |args| ==> !Truthy(args[i])
    ensures Kept(args) != [] ==> |Kept(args)[0]| <= |r| && r[..|Kept(args)[0]|] == Kept(args)[0]
  {
    Join(Kept(args), " ")
  }

  predicate IsSpace(c: char) { c == ' ' }

  /** A falsy argument anywhere contributes nothing to the class string. */
  lemma FalsyIgnored(a: seq<ClassArg>, x: ClassArg, b: seq<ClassArg>)
    requires !Truthy(x)
    ensures Cn(a + [x] + b) == Cn(a + b)
  {
    calc {
      Filter(a + [x] + b, Truthy);
    == { FilterAppend(a + [x], b, Truthy); FilterAppend(a, [x], Truthy); }
      Filter(a, Truthy) + Filter([x], Truthy) + Filter(b, Truthy);
    == { assert [x][1..] == []; }
      Filter(a, Truthy) + Filter(b, Truthy);
    == { FilterAppend(a, b, Truthy); }
      Filter(a + b, Truthy);
    }
  }

  /**
   * Splitting the class string on single spaces gives back exactly the kept classes, provided at
   * least one is kept and none holds a space itself.
   */
  lemma CnSplitsBack(args: seq<ClassArg>)
    requires |Kept(args)| >= 1
    requires forall i :: 0 <= i < |Kept(args)| ==> SepFree(Kept(args)[i], IsSpace)
    ensures Split(Cn(args), IsSpace) == Kept(args)
  {
    SplitJoin(Kept(args), ' ', IsSpace);
  }
}

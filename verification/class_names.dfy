/**
 * `cn`: merge class names, skipping the falsy arguments (false, null,
 * undefined and the empty text), joined by single spaces.
 */
module ClassNames {
  import Lists

  /** One argument: a class-name text, or one of the falsy non-texts. */
  datatype ClassArg = Name(text: string) | False | Null | Undefined

  /** `Boolean(arg)`: only a non-empty text is truthy. */
  predicate Truthy(arg: ClassArg) {
    arg.Name? && arg.text != ""
  }

  /** `parts.join(sep)` */
  function Join(parts: seq<string>, sep: string): (joined: string) {
    if parts == [] then ""
    else if |parts| == 1 then parts[0]
    else parts[0] + sep + Join(parts[1..], sep)
  }

  /** The texts of the arguments (a non-text argument contributes ""). */
  function Texts(args: seq<ClassArg>): (texts: seq<string>)
    ensures |texts| == |args|
    ensures forall i :: 0 <= i < |args| ==> texts[i] == if args[i].Name? then args[i].text else ""
  {
    seq(|args|, i requires 0 <= i < |args| => if args[i].Name? then args[i].text else "")
  }

  /** The arguments `filter(Boolean)` keeps, in order. */
  function Kept(args: seq<ClassArg>): (kept: seq<ClassArg>)
    ensures forall i :: 0 <= i < |kept| ==> Truthy(kept[i])
  {
    Lists.Filter(args, Truthy)
  }

  /** `classes.filter(Boolean).join(" ")` */
  function Cn(args: seq<ClassArg>): (classes: string) {
    Join(Texts(Kept(args)), " ")
  }

  /** Joining two non-empty lists puts one separator between their joins. */
  lemma {:induction false} JoinAppend(a: seq<string>, b: seq<string>, sep: string)
    ensures Join(a + b, sep) ==
      if a == [] then Join(b, sep) else if b == [] then Join(a, sep) else Join(a, sep) + sep + Join(b, sep)
  {
    if a == [] {
      assert a + b == b;
    } else if b == [] {
      assert a + b == a;
    } else if |a| == 1 {
      assert (a + b)[1..] == b;
    } else {
      assert (a + b)[1..] == a[1..] + b;
      JoinAppend(a[1..], b, sep);
    }
  }

  /** A join of non-empty texts is empty only when there is nothing to join. */
  lemma {:induction false} JoinEmpty(parts: seq<string>, sep: string)
    requires forall i :: 0 <= i < |parts| ==> parts[i] != ""
    ensures Join(parts, sep) == "" <==> parts == []
  {
    if |parts| > 1 {
      JoinEmpty(parts[1..], sep);
      assert |Join(parts, sep)| >= |parts[0]|;
    }
  }

  /** The result is empty exactly when every argument is falsy (in particular, for no arguments). */
  lemma CnEmpty(args: seq<ClassArg>)
    ensures Cn(args) == "" <==> forall i :: 0 <= i < |args| ==> !Truthy(args[i])
  {
    var kept := Kept(args);
    JoinEmpty(Texts(kept), " ");
    if forall i :: 0 <= i < |args| ==> !Truthy(args[i]) {
      Lists.FilterKeepsNone(args, Truthy);
    } else {
      var i :| 0 <= i < |args| && Truthy(args[i]);
      assert args[i] in kept;
    }
  }

  /** A single non-empty class name comes back unchanged. */
  lemma CnSingle(name: string)
    requires name != ""
    ensures Cn([Name(name)]) == name
  {
    assert [Name(name)][1..] == [];
    assert Kept([Name(name)]) == [Name(name)];
  }

  /**
   * Arguments in sequence: `cn(a..., b...)` is `cn(a...)` and `cn(b...)`
   * separated by one space, or just the non-empty one of the two.
   */
  lemma CnAppend(a: seq<ClassArg>, b: seq<ClassArg>)
    ensures Cn(a + b) ==
      if Cn(a) == "" then Cn(b) else if Cn(b) == "" then Cn(a) else Cn(a) + " " + Cn(b)
  {
    Lists.FilterAppend(a, b, Truthy);
    var ka, kb := Kept(a), Kept(b);
    TextsAppend(ka, kb);
    var ta, tb := Texts(ka), Texts(kb);
    assert Cn(a + b) == Join(ta + tb, " ");
    JoinAppend(ta, tb, " ");
    NonEmptyTexts(ka);
    NonEmptyTexts(kb);
    JoinEmpty(ta, " ");
    JoinEmpty(tb, " ");
  }

  /** Taking texts commutes with concatenation. */
  lemma TextsAppend(a: seq<ClassArg>, b: seq<ClassArg>)
    ensures Texts(a + b) == Texts(a) + Texts(b)
  {
  }

  /** The kept arguments all have non-empty texts. */
  lemma NonEmptyTexts(kept: seq<ClassArg>)
    requires forall i :: 0 <= i < |kept| ==> Truthy(kept[i])
    ensures forall i :: 0 <= i < |Texts(kept)| ==> Texts(kept)[i] != ""
  {
  }

  /** Falsy arguments can be dropped anywhere without changing the result. */
  lemma CnSkipsFalsy(a: seq<ClassArg>, x: ClassArg, b: seq<ClassArg>)
    requires !Truthy(x)
    ensures Cn(a + [x] + b) == Cn(a + b)
  {
    Lists.FilterAppend(a + [x], b, Truthy);
    Lists.FilterAppend(a, [x], Truthy);
    Lists.FilterAppend(a, b, Truthy);
    assert Lists.Filter([x], Truthy) == [] by {
      assert [x][1..] == [];
    }
    assert Lists.Filter(a + [x], Truthy) == Lists.Filter(a, Truthy);
    assert Kept(a + [x] + b) == Kept(a + b);
  }
}

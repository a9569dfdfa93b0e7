/** The `List<String>` of player names that Football and FootballPhoto keep:
    the Java strings it holds, the `Objects.equals` matching that
    `contains` and `remove(Object)` use, and the effect of removing the first
    match for one name or for each name of a batch in turn. */
module PlayerNames {

  /** A Java String reference: null, or a string object with its text and
      whether it is the interned literal of that text. Only the literal
      matters for reference comparison in this model (`name != ""`). */
  datatype JString = Null | Str(text: string, literal: bool)

  /** The literal `""`. */
  const EMPTY_LITERAL: JString := Str("", true)

  /** `Objects.equals(element, name)`: two nulls match, a null matches no
      string, two strings match when their texts are equal. */
  predicate Matches(element: JString, name: JString)
  {
    match (element, name)
    case (Null, Null) => true
    case (Str(a, _), Str(b, _)) => a == b
    case _ => false
  }

  /** `list.contains(name)` */
  predicate Occurs(s: seq<JString>, name: JString)
  {
    exists i :: 0 <= i < |s| && Matches(s[i], name)
  }

  /** `list.indexOf(name)`: the first position that matches, or -1. */
  function IndexOf(s: seq<JString>, name: JString): (i: int)
    ensures -1 <= i < |s|
    ensures i == -1 <==> !Occurs(s, name)
    ensures i >= 0 ==> Matches(s[i], name) && forall j :: 0 <= j < i ==> !Matches(s[j], name)
    decreases |s|
  {
    if |s| == 0 then -1
    else if Matches(s[0], name) then 0
    else
      var k := IndexOf(s[1..], name);
      assert forall j :: 1 <= j < |s| ==> s[j] == s[1..][j - 1];
      if k == -1 then -1 else k + 1
  }

  /** `a` is `b` with some elements deleted, the rest in their order. */
  ghost predicate SubsequenceOf(a: seq<JString>, b: seq<JString>)
    decreases |b|
  {
    |a| == 0 || (|b| > 0 && ((a[0] == b[0] && SubsequenceOf(a[1..], b[1..])) || SubsequenceOf(a, b[1..])))
  }

  lemma {:induction false} SubsequenceReflexive(s: seq<JString>)
    ensures SubsequenceOf(s, s)
    decreases |s|
  {
    if |s| > 0 {
      SubsequenceReflexive(s[1..]);
    }
  }

  lemma {:induction false} SubsequenceTransitive(a: seq<JString>, b: seq<JString>, c: seq<JString>)
    requires SubsequenceOf(a, b) && SubsequenceOf(b, c)
    ensures SubsequenceOf(a, c)
    decreases |c|
  {
    if |a| > 0 {
      if SubsequenceOf(b, c[1..]) {
        SubsequenceTransitive(a, b, c[1..]);
      } else {
        assert b[0] == c[0] && SubsequenceOf(b[1..], c[1..]);
        if a[0] == b[0] && SubsequenceOf(a[1..], b[1..]) {
          SubsequenceTransitive(a[1..], b[1..], c[1..]);
        } else {
          SubsequenceTransitive(a, b[1..], c[1..]);
        }
      }
    }
  }

  /** Deleting one position leaves a subsequence. */
  lemma {:induction false} DropOneIsSubsequence(s: seq<JString>, i: int)
    requires 0 <= i < |s|
    ensures SubsequenceOf(s[..i] + s[i + 1..], s)
    decreases i
  {
    if i == 0 {
      assert s[..0] + s[1..] == s[1..];
      SubsequenceReflexive(s[1..]);
    } else {
      var a := s[..i] + s[i + 1..];
      DropOneIsSubsequence(s[1..], i - 1);
      assert a[1..] == s[1..][..i - 1] + s[1..][i..];
      assert a[0] == s[0];
    }
  }

  /** `list.remove(name)` with an Object argument: deletes the first
      element that matches, if any, and keeps the others in order. */
  function RemoveFirst(s: seq<JString>, name: JString): (r: seq<JString>)
    ensures !Occurs(s, name) ==> r == s
    ensures Occurs(s, name) ==> |r| == |s| - 1
    ensures Occurs(s, name) ==>
              exists i :: 0 <= i < |s| && Matches(s[i], name) && (forall j :: 0 <= j < i ==> !Matches(s[j], name))
                          && r == s[..i] + s[i + 1..]
  {
    var i := IndexOf(s, name);
    if i < 0 then s else s[..i] + s[i + 1..]
  }

  lemma RemoveFirstKeepsOrder(s: seq<JString>, name: JString)
    ensures SubsequenceOf(RemoveFirst(s, name), s)
  {
    var i := IndexOf(s, name);
    if i < 0 {
      SubsequenceReflexive(s);
    } else {
      DropOneIsSubsequence(s, i);
    }
  }

  /** The list after removing one occurrence of each name of the batch, in
      the batch's order; a name absent at its turn changes nothing. */
  function RemoveEach(s: seq<JString>, names: seq<JString>): seq<JString>
    decreases |names|
  {
    if |names| == 0 then s
    else RemoveFirst(RemoveEach(s, names[..|names| - 1]), names[|names| - 1])
  }

  /** How many names of the batch found a match at their turn. */
  function Removals(s: seq<JString>, names: seq<JString>): nat
    decreases |names|
  {
    if |names| == 0 then 0
    else
      var init := names[..|names| - 1];
      Removals(s, init) + if Occurs(RemoveEach(s, init), names[|names| - 1]) then 1 else 0
  }

  /** Each removal shrinks the list by exactly one. */
  lemma {:induction false} RemoveEachLength(s: seq<JString>, names: seq<JString>)
    ensures |RemoveEach(s, names)| == |s| - Removals(s, names)
    decreases |names|
  {
    if |names| > 0 {
      RemoveEachLength(s, names[..|names| - 1]);
    }
  }

  /** The remaining names keep their relative order. */
  lemma {:induction false} RemoveEachKeepsOrder(s: seq<JString>, names: seq<JString>)
    ensures SubsequenceOf(RemoveEach(s, names), s)
    decreases |names|
  {
    if |names| == 0 {
      SubsequenceReflexive(s);
    } else {
      var before := RemoveEach(s, names[..|names| - 1]);
      RemoveEachKeepsOrder(s, names[..|names| - 1]);
      RemoveFirstKeepsOrder(before, names[|names| - 1]);
      SubsequenceTransitive(RemoveEach(s, names), before, s);
    }
  }

  lemma {:induction false} NoRemovalsNoChange(s: seq<JString>, names: seq<JString>)
    requires Removals(s, names) == 0
    ensures RemoveEach(s, names) == s
    decreases |names|
  {
    if |names| > 0 {
      NoRemovalsNoChange(s, names[..|names| - 1]);
    }
  }

  /** A batch removes something exactly when one of its names matches an
      element of the original list. */
  lemma {:induction false} RemovalsPositiveIff(s: seq<JString>, names: seq<JString>)
    ensures Removals(s, names) > 0 <==>
              exists k, i :: 0 <= k < |names| && 0 <= i < |s| && Matches(s[i], names[k])
    decreases |names|
  {
    if |names| > 0 {
      var init := names[..|names| - 1];
      var last := names[|names| - 1];
      RemovalsPositiveIff(s, init);
      assert forall k :: 0 <= k < |init| ==> init[k] == names[k];
      if Removals(s, init) == 0 {
        NoRemovalsNoChange(s, init);
        if Occurs(s, last) {
          var i :| 0 <= i < |s| && Matches(s[i], last);
          assert Matches(s[i], names[|names| - 1]);
        }
      } else {
        var k, i :| 0 <= k < |init| && 0 <= i < |s| && Matches(s[i], init[k]);
        assert Matches(s[i], names[k]);
      }
    }
  }

  /** An `ArrayList<String>` that its owner mutates in place and hands out
      by reference. */
  class NameList {
    var elements: seq<JString>

    constructor()
      ensures elements == []
    {
      elements := [];
    }

    /** `add(name)`: appends at the end. */
    method Add(name: JString)
      modifies this
      ensures elements == old(elements) + [name]
    {
      elements := elements + [name];
    }

    /** `contains(name)` */
    function Contains(name: JString): (r: bool)
      reads this
      ensures r <==> Occurs(elements, name)
    {
      IndexOf(elements, name) >= 0
    }

    /** `remove(name)`: deletes the first match and reports whether there
        was one. */
    method Remove(name: JString) returns (r: bool)
      modifies this
      ensures r <==> Occurs(old(elements), name)
      ensures elements == RemoveFirst(old(elements), name)
    {
      var i := IndexOf(elements, name);
      if i < 0 {
        r := false;
      } else {
        elements := elements[..i] + elements[i + 1..];
        r := true;
      }
    }
  }
}

/** The `sourceIndex` / `sourcePaths` loop of `build`: later duplicates are
    dropped, first occurrences keep their place. */
module Dedup {

  /** The list with every element after its first occurrence removed. */
  function Distinct(s: seq<string>): (r: seq<string>)
    ensures |r| <= |s|
    ensures forall x :: x in r ==> x in s
  {
    if s == [] then []
    else
      var d := Distinct(s[..|s| - 1]);
      if s[|s| - 1] in d then d else d + [s[|s| - 1]]
  }

  predicate NoDuplicates(s: seq<string>) {
    forall i, j :: 0 <= i < j < |s| ==> s[i] != s[j]
  }

  /** The position of the first occurrence of `x` in `s`. */
  function IndexOf(s: seq<string>, x: string): (k: nat)
    requires x in s
    ensures k < |s| && s[k] == x && x !in s[..k]
  {
    if s[0] == x then 0
    else
      var k := 1 + IndexOf(s[1..], x);
      assert s[..k] == [s[0]] + s[1..][..k - 1];
      k
  }

  /** The first occurrence is the only occurrence with nothing equal before it. */
  lemma IndexOfUnique(s: seq<string>, x: string, k: nat)
    requires k < |s| && s[k] == x && x !in s[..k]
    ensures IndexOf(s, x) == k
  {
  }

  /** Appending never moves a first occurrence already present. */
  lemma IndexOfAppend(s: seq<string>, y: string, x: string)
    requires x in s
    ensures x in s + [y] && IndexOf(s + [y], x) == IndexOf(s, x)
  {
    var k := IndexOf(s, x);
    assert (s + [y])[..k] == s[..k];
    IndexOfUnique(s + [y], x, k);
  }

  /** Dedup neither loses nor invents elements. */
  lemma {:induction false} DistinctElements(s: seq<string>)
    ensures forall x :: x in Distinct(s) <==> x in s
  {
    if s != [] {
      var init := s[..|s| - 1];
      DistinctElements(init);
      assert s == init + [s[|s| - 1]];
    }
  }

  /** After dedup no path appears twice. */
  lemma {:induction false} DistinctNoDuplicates(s: seq<string>)
    ensures NoDuplicates(Distinct(s))
  {
    if s != [] {
      DistinctNoDuplicates(s[..|s| - 1]);
    }
  }

  /** One pair of kept paths: the earlier one first occurs earlier. */
  lemma {:induction false} DistinctPairOrder(s: seq<string>, i: nat, j: nat)
    requires i < j < |Distinct(s)|
    ensures Distinct(s)[i] in s && Distinct(s)[j] in s
    ensures IndexOf(s, Distinct(s)[i]) < IndexOf(s, Distinct(s)[j])
  {
    var init := s[..|s| - 1];
    var last := s[|s| - 1];
    var d := Distinct(init);
    DistinctElements(init);
    assert s == init + [last];
    assert Distinct(s) == if last in d then d else d + [last];
    assert i < |d| && Distinct(s)[i] == d[i] && d[i] in d;
    IndexOfAppend(init, last, d[i]);
    if j < |d| {
      DistinctPairOrder(init, i, j);
      IndexOfAppend(init, last, d[j]);
    } else {
      IndexOfUnique(s, last, |s| - 1);
    }
  }

  /** Dedup keeps first occurrences in their original relative order. */
  lemma DistinctKeepsFirstOccurrenceOrder(s: seq<string>)
    ensures forall x :: x in Distinct(s) ==> x in s
    ensures forall i, j :: 0 <= i < j < |Distinct(s)| ==> IndexOf(s, Distinct(s)[i]) < IndexOf(s, Distinct(s)[j])
  {
    DistinctElements(s);
    forall i, j | 0 <= i < j < |Distinct(s)| ensures IndexOf(s, Distinct(s)[i]) < IndexOf(s, Distinct(s)[j]) {
      DistinctPairOrder(s, i, j);
    }
  }

  /** The source's loop: a seen-set guards the pushes onto `sourcePaths`. */
  method DropDuplicates(sourceList: seq<string>) returns (sourcePaths: seq<string>)
    ensures sourcePaths == Distinct(sourceList)
    ensures NoDuplicates(sourcePaths)
    ensures forall p :: p in sourcePaths <==> p in sourceList
  {
    var sourceIndex: set<string> := {};
    sourcePaths := [];
    var i := 0;
    while i < |sourceList|
      invariant 0 <= i <= |sourceList|
      invariant sourcePaths == Distinct(sourceList[..i])
      invariant forall p :: p in sourceIndex <==> p in sourcePaths
    {
      assert sourceList[..i + 1][..i] == sourceList[..i];
      var p := sourceList[i];
      if p !in sourceIndex {
        sourceIndex := sourceIndex + {p};
        sourcePaths := sourcePaths + [p];
      }
      i := i + 1;
    }
    assert sourceList[..i] == sourceList;
    DistinctNoDuplicates(sourceList);
    DistinctElements(sourceList);
  }
}

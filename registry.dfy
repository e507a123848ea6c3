/** The add/remove discipline shared by every registry of the system: a
    list that holds each element at most once, where adding a null or an
    element already present, and removing a null or an absent element,
    throw and leave the list as it was. */
module Registry {
  import opened Common

  /** No element occurs twice. */
  predicate NoDup<T(==)>(s: seq<T>)
  {
    forall i, j :: 0 <= i < j < |s| ==> s[i] != s[j]
  }

  /** `List<T>.Remove`: delete the first occurrence of `x`, if any. */
  function RemoveFirst<T(==)>(s: seq<T>, x: T): (r: seq<T>)
    ensures x in s ==> |r| == |s| - 1
    ensures x !in s ==> r == s
    ensures forall y :: y in r ==> y in s
    decreases |s|
  {
    if s == [] then []
    else if s[0] == x then s[1..]
    else [s[0]] + RemoveFirst(s[1..], x)
  }

  /** The first occurrence of `x` is cut out, everything around it stays
      in place. */
  lemma {:induction false} RemoveFirstAt<T>(s: seq<T>, i: nat)
    requires i < |s| && s[i] !in s[..i]
    ensures RemoveFirst(s, s[i]) == s[..i] + s[i + 1..]
    decreases i
  {
    if i > 0 {
      var t := s[1..];
      assert s[0] == s[..i][0];
      assert t[..i - 1] == s[1..i];
      RemoveFirstAt(t, i - 1);
      assert s[..i] == [s[0]] + t[..i - 1];
      assert t[i..] == s[i + 1..];
    }
  }

  /** Removing from a duplicate-free list removes every copy, keeps every
      other element and keeps it duplicate-free. */
  lemma {:induction false} RemoveFirstNoDup<T>(s: seq<T>, x: T)
    requires NoDup(s)
    ensures NoDup(RemoveFirst(s, x)) && x !in RemoveFirst(s, x)
    ensures forall y :: y in s && y != x ==> y in RemoveFirst(s, x)
    decreases |s|
  {
    if s != [] {
      var t := s[1..];
      assert NoDup(t) by {
        forall i, j | 0 <= i < j < |t| ensures t[i] != t[j] {
          assert t[i] == s[i + 1] && t[j] == s[j + 1];
        }
      }
      assert s[0] !in t by {
        forall k | 0 <= k < |t| ensures t[k] != s[0] {
          assert t[k] == s[k + 1];
        }
      }
      assert s == [s[0]] + t;
      if s[0] != x {
        RemoveFirstNoDup(t, x);
        var u := RemoveFirst(t, x);
        var r := [s[0]] + u;
        assert RemoveFirst(s, x) == r;
        forall i, j | 0 <= i < j < |r| ensures r[i] != r[j] {
          assert r[j] == u[j - 1];
          if i > 0 {
            assert r[i] == u[i - 1];
          }
        }
      }
    }
  }

  /** `Add(element)`: null and duplicate are errors; otherwise the element
      goes at the end. */
  function Add<T(==)>(s: seq<T>, element: Option<T>): (r: Result<seq<T>>)
    ensures r.Ok? <==> element.Some? && element.value !in s
    ensures r.Fail? ==> r.error == (if element.None? then ArgumentNull else AlreadyAdded)
    ensures r.Ok? ==> |r.value| == |s| + 1 && r.value[..|s|] == s && r.value[|s|] == element.value
  {
    match element
    case None => Fail(ArgumentNull)
    case Some(e) => if e in s then Fail(AlreadyAdded) else Ok(s + [e])
  }

  /** `Remove(element)`: null and absent are errors; otherwise the element
      is deleted. */
  function Remove<T(==)>(s: seq<T>, element: Option<T>): (r: Result<seq<T>>)
    ensures element.None? ==> r == Fail(ArgumentNull)
    ensures element.Some? && element.value !in s ==> r == Fail(NotAdded)
    ensures element.Some? && element.value in s ==> r.Ok? && |r.value| == |s| - 1
  {
    match element
    case None => Fail(ArgumentNull)
    case Some(e) => if e !in s then Fail(NotAdded) else Ok(RemoveFirst(s, e))
  }

  /** A registry built only through `Add` and `Remove` never holds an
      element twice. */
  lemma AddKeepsNoDup<T>(s: seq<T>, element: Option<T>)
    requires NoDup(s)
    ensures Add(s, element).Ok? ==> NoDup(Add(s, element).value)
  {}

  lemma RemoveKeepsNoDup<T>(s: seq<T>, element: Option<T>)
    requires NoDup(s)
    ensures Remove(s, element).Ok? ==> NoDup(Remove(s, element).value)
    ensures Remove(s, element).Ok? ==> element.value !in Remove(s, element).value
  {
    if element.Some? {
      RemoveFirstNoDup(s, element.value);
    }
  }

  /** A successful remove deletes that element only, keeping the order of
      the others: it is exactly the list with the element's one position
      cut out. */
  lemma RemoveCutsOut<T>(s: seq<T>, i: nat)
    requires NoDup(s) && i < |s|
    ensures Remove(s, Some(s[i])) == Ok(s[..i] + s[i + 1..])
  {
    RemoveFirstAt(s, i);
  }

  /** Adding a new element and removing it again gives back the registry. */
  lemma AddThenRemove<T>(s: seq<T>, x: T)
    requires x !in s
    ensures Add(s, Some(x)).Ok?
    ensures Remove(Add(s, Some(x)).value, Some(x)) == Ok(s)
  {
    var t := s + [x];
    assert Add(s, Some(x)) == Ok(t);
    assert t[|s|] == x && t[..|s|] == s && t[|s| + 1..] == [];
    RemoveFirstAt(t, |s|);
    assert RemoveFirst(t, x) == s + [] == s;
  }
}

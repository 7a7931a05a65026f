/** Python list operations on lists of ids, shared by the inventory and
    the quest lists: `count`, `remove`, which takes out the first
    occurrence only, and `reversed`. */
module Lists {

  /** `list.count(x)`. */
  function Count(s: seq<string>, x: string): (n: nat)
    ensures n <= |s|
  {
    if s == [] then 0 else (if s[0] == x then 1 else 0) + Count(s[1..], x)
  }

  /** `list.remove(x)` on a list that holds `x`: the first occurrence goes. */
  function RemoveFirst(s: seq<string>, x: string): (r: seq<string>)
    requires x in s
    ensures |r| == |s| - 1
  {
    if s[0] == x then s[1..] else [s[0]] + RemoveFirst(s[1..], x)
  }

  /** The position of the first occurrence of `x`. */
  function FirstIndex(s: seq<string>, x: string): (i: nat)
    requires x in s
    ensures i < |s| && s[i] == x && forall j :: 0 <= j < i ==> s[j] != x
  {
    if s[0] == x then 0 else 1 + FirstIndex(s[1..], x)
  }

  /** Only the first occurrence leaves; the rest keep their order. */
  lemma {:induction false} RemoveFirstAt(s: seq<string>, x: string)
    requires x in s
    ensures RemoveFirst(s, x) == s[..FirstIndex(s, x)] + s[FirstIndex(s, x) + 1..]
  {
    if s[0] != x {
      var t, i := s[1..], FirstIndex(s[1..], x);
      RemoveFirstAt(t, x);
      assert FirstIndex(s, x) == i + 1;
      assert t[..i] == s[1..i + 1] && t[i + 1..] == s[i + 2..];
      assert [s[0]] + s[1..i + 1] == s[..i + 1];
      AppendAssoc([s[0]], s[1..i + 1], s[i + 2..]);
    }
  }

  /** After removal, position `k` holds what position `k` or `k + 1` held,
      depending on which side of the removed occurrence it lies. */
  lemma RemoveFirstIndex(s: seq<string>, x: string)
    requires x in s
    ensures forall k :: 0 <= k < |s| - 1 ==>
      RemoveFirst(s, x)[k] == s[if k < FirstIndex(s, x) then k else k + 1]
  {
    RemoveFirstAt(s, x);
  }

  /** Removing drops the count of `x` by one and leaves every other count. */
  lemma {:induction false} RemoveFirstCount(s: seq<string>, x: string, y: string)
    requires x in s
    ensures Count(RemoveFirst(s, x), y) == if y == x then Count(s, y) - 1 else Count(s, y)
  {
    if s[0] != x {
      RemoveFirstCount(s[1..], x, y);
      assert ([s[0]] + RemoveFirst(s[1..], x))[1..] == RemoveFirst(s[1..], x);
    }
  }

  /** `x in s` exactly when `s.count(x)` is positive. */
  lemma {:induction false} InIffCount(s: seq<string>, x: string)
    ensures x in s <==> Count(s, x) > 0
  {
    if s != [] {
      InIffCount(s[1..], x);
      assert x in s <==> s[0] == x || x in s[1..];
    }
  }

  lemma {:induction false} CountAppend(s: seq<string>, x: string, y: string)
    ensures Count(s + [x], y) == Count(s, y) + (if x == y then 1 else 0)
  {
    if s == [] {
      assert [] + [x] == [x];
      assert [x][1..] == [];
    } else {
      assert (s + [x])[1..] == s[1..] + [x];
      CountAppend(s[1..], x, y);
    }
  }

  /** An item appended to a list that did not hold it is the one removed. */
  lemma {:induction false} RemoveAppended(s: seq<string>, x: string)
    requires x !in s
    ensures RemoveFirst(s + [x], x) == s
  {
    if s == [] {
      assert [] + [x] == [x];
    } else {
      assert (s + [x])[0] == s[0];
      assert (s + [x])[1..] == s[1..] + [x];
      RemoveAppended(s[1..], x);
    }
  }

  /** `list.reverse()`. */
  function Reverse(s: seq<string>): (r: seq<string>)
    ensures |r| == |s| && forall i :: 0 <= i < |s| ==> r[i] == s[|s| - 1 - i]
  {
    if s == [] then [] else Reverse(s[1..]) + [s[0]]
  }

  /** Regrouping a concatenation, for use where extensionality is costly. */
  lemma AppendAssoc<T>(a: seq<T>, b: seq<T>, c: seq<T>)
    ensures a + b + c == a + (b + c)
  {
  }
}

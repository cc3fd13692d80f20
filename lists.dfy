/** The Python list operations the pairing engines use on their FIFO queues. */
module Lists {

  /** No element occurs twice. */
  predicate NoDup<T(==)>(s: seq<T>) {
    forall i, j :: 0 <= i < j < |s| ==> s[i] != s[j]
  }

  /** `if x in s: s.remove(x)`: drop the first occurrence of `x`, if any,
      keeping the order of the rest. */
  function RemoveFirst<T(==)>(s: seq<T>, x: T): (r: seq<T>)
    ensures x !in s ==> r == s
    ensures x in s ==> |r| == |s| - 1
    ensures multiset(r) == multiset(s) - multiset{x}
  {
    if s == [] then []
    else
      assert s == [s[0]] + s[1..];
      if s[0] == x then s[1..]
      else [s[0]] + RemoveFirst(s[1..], x)
  }

  /** Removing keeps the order of the remaining elements: the result is
      `s` spliced around the first occurrence `i` of `x`. */
  lemma {:induction false} RemoveFirstSplices<T>(s: seq<T>, x: T, i: nat)
    requires i < |s| && s[i] == x && x !in s[..i]
    ensures RemoveFirst(s, x) == s[..i] + s[i + 1..]
  {
    if i > 0 {
      var t := s[1..];
      assert s[0] != x by { assert s[0] in s[..i]; }
      assert t[i - 1] == x;
      assert x !in t[..i - 1] by { assert t[..i - 1] == s[1..i]; }
      RemoveFirstSplices(t, x, i - 1);
      assert s[..i] == [s[0]] + t[..i - 1];
      assert t[i..] == s[i + 1..];
    }
  }

  /** The splice of `RemoveFirstSplices`, stated for whichever index holds
      the first occurrence of `x`. */
  lemma RemoveFirstKeepsOrder<T>(s: seq<T>, x: T)
    ensures forall i :: 0 <= i < |s| && s[i] == x && x !in s[..i] ==> RemoveFirst(s, x) == s[..i] + s[i + 1..]
  {
    forall i | 0 <= i < |s| && s[i] == x && x !in s[..i]
      ensures RemoveFirst(s, x) == s[..i] + s[i + 1..]
    {
      RemoveFirstSplices(s, x, i);
    }
  }

  /** On a list without duplicates, removing `x` leaves no copy of it and
      creates no duplicate. */
  lemma RemoveFirstNoDup<T>(s: seq<T>, x: T)
    ensures NoDup(s) ==> NoDup(RemoveFirst(s, x)) && x !in RemoveFirst(s, x)
  {
    if NoDup(s) {
      var r := RemoveFirst(s, x);
      forall i, j | 0 <= i < j < |r| ensures r[i] != r[j] {
        NoDupCount(s, r[i]);
        CountOnceDistinct(r, i, j);
      }
      NoDupCount(s, x);
      assert multiset(r)[x] == 0;
    }
  }

  /** In a list without duplicates every element occurs at most once. */
  lemma {:induction false} NoDupCount<T>(s: seq<T>, x: T)
    requires NoDup(s)
    ensures multiset(s)[x] <= 1
  {
    if s != [] {
      assert s == [s[0]] + s[1..];
      NoDupCount(s[1..], x);
      if s[0] == x {
        assert x !in s[1..];
      }
    }
  }

  /** An element that occurs at most once cannot sit at two positions. */
  lemma CountOnceDistinct<T>(s: seq<T>, i: nat, j: nat)
    requires i < j < |s| && multiset(s)[s[i]] <= 1
    ensures s[i] != s[j]
  {
    assert s == s[..j] + s[j..];
    assert s[i] in s[..j];
    assert s[j] in s[j..];
  }
}

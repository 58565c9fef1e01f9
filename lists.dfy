/** List helpers for the QList operations the collection managers use:
    `contains` + `append` (add if absent) and `removeAll`. */
module Lists {

  ghost predicate NoDuplicates<T>(s: seq<T>)
  {
    forall i, j :: 0 <= i < j < |s| ==> s[i] != s[j]
  }

  /** QList::removeAll: drops every occurrence of x, keeping the rest in order. */
  function RemoveAll<T(==)>(s: seq<T>, x: T): (r: seq<T>)
    ensures x !in r
    ensures forall i :: 0 <= i < |r| ==> r[i] in s && r[i] != x
    ensures forall i :: 0 <= i < |s| && s[i] != x ==> s[i] in r
    ensures x !in s ==> r == s
    ensures |r| <= |s|
  {
    if |s| == 0 then []
    else if s[|s| - 1] == x then RemoveAll(s[..|s| - 1], x)
    else RemoveAll(s[..|s| - 1], x) + [s[|s| - 1]]
  }

  /** removeAll distributes over concatenation, so the survivors keep their order. */
  lemma {:induction false} RemoveAllConcat<T>(a: seq<T>, b: seq<T>, x: T)
    ensures RemoveAll(a + b, x) == RemoveAll(a, x) + RemoveAll(b, x)
    decreases |b|
  {
    if |b| == 0 {
      assert a + b == a;
    } else {
      assert (a + b)[..|a + b| - 1] == a + b[..|b| - 1];
      RemoveAllConcat(a, b[..|b| - 1], x);
    }
  }

  lemma {:induction false} RemoveAllKeepsNoDuplicates<T>(s: seq<T>, x: T)
    requires NoDuplicates(s)
    ensures NoDuplicates(RemoveAll(s, x))
    decreases |s|
  {
    if |s| > 0 {
      var init := s[..|s| - 1];
      RemoveAllKeepsNoDuplicates(init, x);
      if s[|s| - 1] != x {
        assert s[|s| - 1] !in init;
        assert s[|s| - 1] !in RemoveAll(init, x);
      }
    }
  }

  /** QList::contains followed by append when absent. */
  function AddAbsent<T(==)>(s: seq<T>, x: T): (r: seq<T>)
    ensures x in r
    ensures x in s ==> r == s
    ensures x !in s ==> r == s + [x]
    ensures NoDuplicates(s) ==> NoDuplicates(r)
  {
    if x in s then s else s + [x]
  }

  /** Adding every element of xs in turn with AddAbsent. */
  function AddAllAbsent<T(==)>(s: seq<T>, xs: seq<T>): (r: seq<T>)
    ensures NoDuplicates(s) ==> NoDuplicates(r)
    decreases |xs|
  {
    if |xs| == 0 then s else AddAllAbsent(AddAbsent(s, xs[0]), xs[1..])
  }

  /** Adding one more element at the end of xs is one more AddAbsent. */
  lemma {:induction false} AddAllAbsentSnoc<T>(s: seq<T>, xs: seq<T>, x: T)
    ensures AddAllAbsent(s, xs + [x]) == AddAbsent(AddAllAbsent(s, xs), x)
    decreases |xs|
  {
    if |xs| == 0 {
      assert xs + [x] == [x];
      assert [x][1..] == [];
    } else {
      assert (xs + [x])[0] == xs[0];
      assert (xs + [x])[1..] == xs[1..] + [x];
      AddAllAbsentSnoc(AddAbsent(s, xs[0]), xs[1..], x);
    }
  }

  /** Nothing already present is lost and every added element is present afterwards. */
  lemma {:induction false} AddAllAbsentHasAll<T>(s: seq<T>, xs: seq<T>, y: T)
    ensures y in AddAllAbsent(s, xs) <==> y in s || y in xs
    decreases |xs|
  {
    if |xs| > 0 {
      AddAllAbsentHasAll(AddAbsent(s, xs[0]), xs[1..], y);
      assert xs == [xs[0]] + xs[1..];
    }
  }

  /** A list with no repeats gains every one of its elements, in order. */
  lemma {:induction false} AddAllAbsentDistinct<T>(s: seq<T>, xs: seq<T>)
    requires NoDuplicates(xs)
    requires forall i :: 0 <= i < |xs| ==> xs[i] !in s
    ensures AddAllAbsent(s, xs) == s + xs
    decreases |xs|
  {
    if |xs| > 0 {
      var s' := s + [xs[0]];
      var rest := xs[1..];
      assert AddAbsent(s, xs[0]) == s';
      forall k | 0 <= k < |rest|
        ensures rest[k] !in s'
      {
        assert rest[k] == xs[k + 1];
        assert xs[k + 1] != xs[0];
      }
      assert NoDuplicates(rest) by {
        forall a, b | 0 <= a < b < |rest| ensures rest[a] != rest[b] {
          assert rest[a] == xs[a + 1] && rest[b] == xs[b + 1];
        }
      }
      AddAllAbsentDistinct(s', rest);
      assert s' + rest == s + xs;
    }
  }
}

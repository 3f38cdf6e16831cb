/** Order-preserving filtering of sequences, and positions in them. */
module Seqs {

  /** No element occurs twice in `s`. */
  predicate NoDup<T(==,!new)>(s: seq<T>) {
    forall i, j | 0 <= i < j < |s| :: s[i] != s[j]
  }

  /** The elements of `s` that `keep` accepts, in their order in `s`. */
  function Filter<T(==,!new)>(keep: T -> bool, s: seq<T>): (r: seq<T>)
    ensures |r| <= |s|
    ensures forall y :: y in r <==> y in s && keep(y)
  {
    if s == [] then []
    else
      var rest := Filter(keep, s[1..]);
      assert s == [s[0]] + s[1..];
      if keep(s[0]) then [s[0]] + rest else rest
  }

  /** `s` with every occurrence of `x` removed, the rest in their order. */
  function Without<T(==,!new)>(s: seq<T>, x: T): (r: seq<T>)
    ensures x !in r
    ensures forall y :: y in r <==> y in s && y != x
  {
    Filter(y => y != x, s)
  }

  /** The position of the first occurrence of `x` in `s`. */
  function IndexOf<T(==,!new)>(s: seq<T>, x: T): (k: nat)
    requires x in s
    ensures k < |s| && s[k] == x
    ensures x !in s[..k]
  {
    if s[0] == x then 0 else 1 + IndexOf(s[1..], x)
  }

  /** Filtering distributes over concatenation. */
  lemma {:induction false} FilterAppend<T(!new)>(keep: T -> bool, s: seq<T>, t: seq<T>)
    ensures Filter(keep, s + t) == Filter(keep, s) + Filter(keep, t)
  {
    if s == [] {
      assert s + t == t;
    } else {
      assert (s + t)[1..] == s[1..] + t;
      FilterAppend(keep, s[1..], t);
    }
  }

  /** A filter that accepts every element keeps the sequence as it is. */
  lemma {:induction false} FilterKeepsAll<T(!new)>(keep: T -> bool, s: seq<T>)
    requires forall i | 0 <= i < |s| :: keep(s[i])
    ensures Filter(keep, s) == s
  {
    if s != [] {
      FilterKeepsAll(keep, s[1..]);
    }
  }

  /** A filter that rejects every element keeps nothing. */
  lemma {:induction false} FilterKeepsNone<T(!new)>(keep: T -> bool, s: seq<T>)
    requires forall i | 0 <= i < |s| :: !keep(s[i])
    ensures Filter(keep, s) == []
  {
    if s != [] {
      FilterKeepsNone(keep, s[1..]);
    }
  }

  /** Removing `x` distributes over concatenation. */
  lemma WithoutConcat<T(!new)>(s: seq<T>, t: seq<T>, x: T)
    ensures Without(s + t, x) == Without(s, x) + Without(t, x)
  {
    FilterAppend(y => y != x, s, t);
  }

  /** Removing an element that is absent changes nothing. */
  lemma WithoutAbsent<T(!new)>(s: seq<T>, x: T)
    requires x !in s
    ensures Without(s, x) == s
  {
    FilterKeepsAll(y => y != x, s);
  }

  /** In a sequence without duplicates, the element at `k` occurs neither before nor after `k`. */
  lemma NoDupSplit<T(!new)>(s: seq<T>, k: nat)
    requires NoDup(s) && k < |s|
    ensures s[k] !in s[..k] && s[k] !in s[k + 1..]
  {
    var x := s[k];
    var pre, post := s[..k], s[k + 1..];
    assert x !in pre by {
      forall j | 0 <= j < |pre| ensures pre[j] != x {
        assert pre[j] == s[j];
      }
    }
    assert x !in post by {
      forall j | 0 <= j < |post| ensures post[j] != x {
        assert post[j] == s[k + 1 + j];
      }
    }
  }

  /** Removing an element that occurs exactly once, at position `k`, deletes that one slot. */
  lemma WithoutSingle<T(!new)>(s: seq<T>, k: nat)
    requires NoDup(s) && k < |s|
    ensures Without(s, s[k]) == s[..k] + s[k + 1..]
  {
    NoDupSplit(s, k);
    var x := s[k];
    var pre, post := s[..k], s[k + 1..];
    assert s == pre + [x] + post;
    WithoutConcat(pre + [x], post, x);
    WithoutConcat(pre, [x], x);
    WithoutAbsent(pre, x);
    WithoutAbsent(post, x);
    assert Without([x], x) == [];
  }

  /** Removing an element that occurs once deletes the slot of its first occurrence. */
  lemma WithoutOnce<T(!new)>(s: seq<T>, x: T)
    requires NoDup(s) && x in s
    ensures Without(s, x) == s[..IndexOf(s, x)] + s[IndexOf(s, x) + 1..]
  {
    WithoutSingle(s, IndexOf(s, x));
  }

  /** Appending an element to `s` appends it to `Without(s, x)` too, unless it is `x`. */
  lemma WithoutAppend<T(!new)>(s: seq<T>, y: T, x: T)
    ensures Without(s + [y], x) == Without(s, x) + (if y == x then [] else [y])
  {
    WithoutConcat(s, [y], x);
    assert [y][1..] == [];
  }
}

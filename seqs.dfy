/** `Array.prototype.filter`, shared by the list updaters of the core. */
module Seqs {

  /** The elements of `s` that `keep` accepts, in their original order. */
  function Filter<T>(s: seq<T>, keep: T -> bool): (r: seq<T>)
    ensures |r| <= |s|
    ensures forall i :: 0 <= i < |r| ==> keep(r[i]) && r[i] in s
    ensures forall i :: 0 <= i < |s| && keep(s[i]) ==> s[i] in r
  {
    if s == [] then []
    else (if keep(s[0]) then [s[0]] else []) + Filter(s[1..], keep)
  }

  lemma {:induction false} FilterAppend<T>(a: seq<T>, b: seq<T>, keep: T -> bool)
    ensures Filter(a + b, keep) == Filter(a, keep) + Filter(b, keep)
    decreases |a|
  {
    if a == [] {
      assert a + b == b;
    } else {
      assert (a + b)[0] == a[0] && (a + b)[1..] == a[1..] + b;
      FilterAppend(a[1..], b, keep);
    }
  }

  /** A value occurs in the result as often as in the input when it is
      accepted, and not at all otherwise. */
  lemma {:induction false} FilterCount<T>(s: seq<T>, keep: T -> bool, x: T)
    ensures multiset(Filter(s, keep))[x] == if keep(x) then multiset(s)[x] else 0
    decreases |s|
  {
    if s != [] {
      FilterCount(s[1..], keep, x);
      assert s == [s[0]] + s[1..];
      assert multiset(s) == multiset([s[0]]) + multiset(s[1..]);
    }
  }

  /** Filtering keeps everything when every element is accepted. */
  lemma {:induction false} FilterKeepsAll<T>(s: seq<T>, keep: T -> bool)
    requires forall i :: 0 <= i < |s| ==> keep(s[i])
    ensures Filter(s, keep) == s
    decreases |s|
  {
    if s != [] {
      assert keep(s[0]);
      FilterKeepsAll(s[1..], keep);
    }
  }

  /** Filtering drops everything when no element is accepted. */
  lemma {:induction false} FilterDropsAll<T>(s: seq<T>, keep: T -> bool)
    requires forall i :: 0 <= i < |s| ==> !keep(s[i])
    ensures Filter(s, keep) == []
    decreases |s|
  {
    if s != [] {
      assert !keep(s[0]);
      FilterDropsAll(s[1..], keep);
    }
  }

  /** Filtering out a single rejected element leaves the ones around it. */
  lemma FilterDropsOne<T>(s: seq<T>, k: nat, keep: T -> bool)
    requires k < |s| && !keep(s[k])
    requires forall i :: 0 <= i < |s| && i != k ==> keep(s[i])
    ensures Filter(s, keep) == s[..k] + s[k + 1..]
  {
    var before, after := s[..k], s[k + 1..];
    assert s == before + ([s[k]] + after);
    assert before + after == s[..k] + s[k + 1..];
    FilterAppend(before, [s[k]] + after, keep);
    FilterAppend([s[k]], after, keep);
    assert Filter([s[k]], keep) == [] by {
      assert [s[k]][1..] == [];
    }
    assert forall i :: 0 <= i < |before| ==> keep(before[i]) by {
      forall i | 0 <= i < |before| ensures keep(before[i]) {
        assert before[i] == s[i];
      }
    }
    assert forall i :: 0 <= i < |after| ==> keep(after[i]) by {
      forall i | 0 <= i < |after| ensures keep(after[i]) {
        assert after[i] == s[k + 1 + i];
      }
    }
    FilterKeepsAll(before, keep);
    FilterKeepsAll(after, keep);
    calc {
      Filter(s, keep);
      Filter(before + ([s[k]] + after), keep);
      Filter(before, keep) + Filter([s[k]] + after, keep);
      before + (Filter([s[k]], keep) + Filter(after, keep));
      before + ([] + after);
      { assert [] + after == after; }
      before + after;
    }
  }
}

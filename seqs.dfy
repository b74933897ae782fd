/** Sequence helpers shared by the modelled components: `filter((x) => x !== v)`
    and duplicate freedom. */
module Seqs {

  /** `s.filter((x) => x !== v)`: every element other than `v`, in order. */
  function RemoveAll<T(==)>(s: seq<T>, v: T): (r: seq<T>)
    ensures v !in r
    ensures forall i :: 0 <= i < |r| ==> r[i] in s && r[i] != v
    ensures forall i :: 0 <= i < |s| && s[i] != v ==> s[i] in r
    ensures |r| <= |s| && (v in s ==> |r| < |s|)
  {
    if s == [] then []
    else if s[0] == v then RemoveAll(s[1..], v)
    else [s[0]] + RemoveAll(s[1..], v)
  }

  /** Filtering out a value that never occurs leaves the sequence as it was. */
  lemma {:induction false} RemoveAbsent<T>(s: seq<T>, v: T)
    requires v !in s
    ensures RemoveAll(s, v) == s
  {
    if s != [] {
      assert s[0] != v;
      RemoveAbsent(s[1..], v);
    }
  }

  /** Filtering distributes over concatenation. */
  lemma {:induction false} RemoveAllAppend<T>(s: seq<T>, t: seq<T>, v: T)
    ensures RemoveAll(s + t, v) == RemoveAll(s, v) + RemoveAll(t, v)
  {
    if s == [] {
      assert s + t == t;
    } else {
      assert (s + t)[1..] == s[1..] + t;
      RemoveAllAppend(s[1..], t, v);
    }
  }

  /** Filtering out a value that occurs once removes that occurrence and keeps the
      rest in order. */
  lemma RemoveSingle<T>(before: seq<T>, v: T, after: seq<T>)
    requires v !in before && v !in after
    ensures RemoveAll(before + [v] + after, v) == before + after
  {
    RemoveAllAppend(before + [v], after, v);
    RemoveAllAppend(before, [v], v);
    RemoveAbsent(before, v);
    RemoveAbsent(after, v);
    assert RemoveAll([v], v) == [] by {
      assert [v][0] == v && [v][1..] == [];
    }
    assert RemoveAll(before + [v], v) == before;
  }

  predicate NoDup<T(==)>(s: seq<T>) {
    forall i, j :: 0 <= i < j < |s| ==> s[i] != s[j]
  }

  /** Filtering a duplicate-free sequence leaves it duplicate-free. */
  lemma {:induction false} RemoveAllNoDup<T>(s: seq<T>, v: T)
    requires NoDup(s)
    ensures NoDup(RemoveAll(s, v))
  {
    if s != [] {
      assert NoDup(s[1..]) by {
        forall i, j | 0 <= i < j < |s[1..]| ensures s[1..][i] != s[1..][j] {
          assert s[1..][i] == s[i + 1] && s[1..][j] == s[j + 1];
        }
      }
      RemoveAllNoDup(s[1..], v);
      if s[0] != v {
        var r := RemoveAll(s[1..], v);
        assert s[0] !in r by {
          forall k | 0 <= k < |s[1..]| ensures s[1..][k] != s[0] {
            assert s[1..][k] == s[k + 1];
          }
        }
      }
    }
  }

  /** A duplicate-free sequence has as many elements as its set. */
  lemma {:induction false} NoDupCard<T>(s: seq<T>)
    requires NoDup(s)
    ensures |set x | x in s| == |s|
  {
    if s != [] {
      var rest := s[1..];
      assert NoDup(rest) by {
        forall i, j | 0 <= i < j < |rest| ensures rest[i] != rest[j] {
          assert rest[i] == s[i + 1] && rest[j] == s[j + 1];
        }
      }
      NoDupCard(rest);
      assert s[0] !in rest by {
        forall k | 0 <= k < |rest| ensures rest[k] != s[0] {
          assert rest[k] == s[k + 1];
        }
      }
      assert (set x | x in s) == (set x | x in rest) + {s[0]} by {
        assert s == [s[0]] + rest;
      }
    }
  }

  /** A duplicate-free sequence drawn from a finite set is no longer than that set. */
  lemma NoDupSubsetBound<T>(s: seq<T>, u: set<T>)
    requires NoDup(s)
    requires forall x :: x in s ==> x in u
    ensures |s| <= |u|
  {
    NoDupCard(s);
    var elems := set x | x in s;
    assert elems <= u;
    SubsetCard(elems, u);
  }

  lemma {:induction false} SubsetCard<T>(a: set<T>, b: set<T>)
    requires a <= b
    ensures |a| <= |b|
    decreases |a|
  {
    if a != {} {
      var x :| x in a;
      SubsetCard(a - {x}, b - {x});
    }
  }
}

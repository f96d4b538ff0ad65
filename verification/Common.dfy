/** An optional value: the source's `None`, or something. */
module Options {
  datatype Option<+T> = None | Some(value: T)
}

/** Byte strings, and a part of one at an offset. */
module Bytes {
  type byte = b: int | 0 <= b < 256

  /** `part` stands at `at` in `data`. */
  predicate Holds(data: seq<byte>, at: nat, part: seq<byte>) {
    at + |part| <= |data| && data[at..at + |part|] == part
  }

  lemma HoldsSplit(data: seq<byte>, at: nat, first: seq<byte>, second: seq<byte>)
    requires Holds(data, at, first + second)
    ensures Holds(data, at, first) && Holds(data, at + |first|, second)
  {
    var whole := data[at..at + |first| + |second|];
    assert data[at..at + |first|] == whole[..|first|] == first;
    assert data[at + |first|..at + |first| + |second|] == whole[|first|..] == second;
  }
}

/** Two orders of the same elements. */
module Permutations {
  /** All elements but the one at `k`. */
  ghost function Others<T>(a: seq<T>, k: nat): seq<T>
    requires k < |a|
  {
    a[..k] + a[k + 1..]
  }

  lemma OneFewer<T>(a: seq<T>, k: nat)
    requires k < |a|
    ensures multiset(Others(a, k)) == multiset(a) - multiset{a[k]} && |Others(a, k)| == |a| - 1
  {
    assert a == a[..k] + [a[k]] + a[k + 1..];
    assert multiset(a) == multiset(Others(a, k)) + multiset{a[k]};
  }

  lemma SameOthers<T>(a: seq<T>, b: seq<T>, i: nat, k: nat)
    requires multiset(a) == multiset(b) && i < |a| && k < |b| && a[i] == b[k]
    ensures multiset(Others(a, i)) == multiset(Others(b, k)) && |Others(a, i)| == |a| - 1
  {
    hide Others;
    OneFewer(a, i);
    OneFewer(b, k);
  }

  lemma PlaceOf<T>(a: seq<T>, b: seq<T>, i: nat) returns (k: nat)
    requires multiset(a) == multiset(b) && i < |a|
    ensures k < |b| && b[k] == a[i]
  {
    assert a[i] in multiset(b);
    k :| k < |b| && b[k] == a[i];
  }

  /** Two elements of one order stand at two places of the other. */
  lemma Places<T>(a: seq<T>, b: seq<T>, i: nat, j: nat) returns (k: nat, l: nat)
    requires multiset(a) == multiset(b) && i < |a| && j < |a| && i != j
    ensures k < |b| && l < |b| && k != l && b[k] == a[i] && b[l] == a[j]
  {
    k := PlaceOf(a, b, i);
    SameOthers(a, b, i, k);
    assert Others(a, i)[if j < i then j else j - 1] == a[j];
    var m := PlaceOf(Others(a, i), Others(b, k), if j < i then j else j - 1);
    l := if m < k then m else m + 1;
  }
}

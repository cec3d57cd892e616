/** Option and Result, for NULL columns and thrown errors. */
module Wrappers {

  datatype Option<+T> = None | Some(value: T) {
    function GetOr(default: T): T {
      match this
      case Some(v) => v
      case None => default
    }
  }

  datatype Result<+T, +E> = Ok(value: T) | Err(error: E)
}

module Sets {

  /** Some member of the set, as a database hands out rows in no order. */
  method Pick<T(==)>(s: set<T>) returns (x: T)
    requires s != {}
    ensures x in s
  {
    x :| x in s;
  }

  ghost function Any<T>(ids: set<T>): (x: T)
    requires ids != {}
    ensures x in ids
  {
    var x :| x in ids;
    x
  }
}

module Seqs {

  lemma TakeOneMore<T>(s: seq<T>, i: nat)
    requires i < |s|
    ensures s[..i + 1] == s[..i] + [s[i]] && s[i] in s
  {
  }

  /** Two orderings of the same elements: take the last of one out of the other. */
  lemma TakeOut<T>(a: seq<T>, b: seq<T>) returns (i: nat)
    requires multiset(a) == multiset(b) && a != []
    ensures |b| == |a| && i < |b| && b[i] == a[|a| - 1]
    ensures b == b[..i] + [b[i]] + b[i + 1..]
    ensures multiset(a[..|a| - 1]) == multiset(b[..i] + b[i + 1..])
  {
    var m := |a| - 1;
    assert |b| == |a| by { assert |multiset(a)| == |a| && |multiset(b)| == |b|; }
    assert a == a[..m] + [a[m]];
    assert a[m] in multiset(b);
    i :| 0 <= i < |b| && b[i] == a[m];
    assert b == b[..i] + [b[i]] + b[i + 1..];
    assert multiset(a[..m]) == multiset(a) - multiset{a[m]};
    assert multiset(b[..i] + b[i + 1..]) == multiset(b) - multiset{b[i]};
  }
}

/** SELECT ... ORDER BY time, id over a set of row ids. */
module RowOrder {
  import opened Sets

  predicate Earlier(time: map<int, int>, a: int, b: int) {
    a in time && b in time && (time[a] < time[b] || (time[a] == time[b] && a < b))
  }

  predicate IsFirst(time: map<int, int>, ids: set<int>, m: int) {
    m in ids && forall x | x in ids && x != m :: Earlier(time, m, x)
  }

  lemma {:induction false} FirstExists(time: map<int, int>, ids: set<int>)
    requires ids <= time.Keys && ids != {}
    ensures exists m :: IsFirst(time, ids, m)
    decreases ids
  {
    var x := Any(ids);
    if ids == {x} {
      assert IsFirst(time, ids, x);
    } else {
      FirstExists(time, ids - {x});
      var m :| IsFirst(time, ids - {x}, m);
      if Earlier(time, m, x) {
        assert IsFirst(time, ids, m);
      } else {
        forall y | y in ids && y != x ensures Earlier(time, x, y) {
          assert y == m || y in ids - {x};
        }
        assert IsFirst(time, ids, x);
      }
    }
  }

  /** The ids from first to last. */
  function InOrder(time: map<int, int>, ids: set<int>): (r: seq<int>)
    requires ids <= time.Keys
    ensures forall x :: x in r <==> x in ids
    ensures forall i, j | 0 <= i < j < |r| :: Earlier(time, r[i], r[j])
    decreases ids
  {
    if ids == {} then []
    else
      assert exists m :: IsFirst(time, ids, m) by { FirstExists(time, ids); }
      var m :| IsFirst(time, ids, m);
      [m] + InOrder(time, ids - {m})
  }
}

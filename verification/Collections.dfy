/** Small helpers shared by every module: options, cardinalities and a deterministic
    ORDER BY over a finite set of row ids. */
module Collections {

  type Id = nat

  datatype Option<+T> = None | Some(value: T)

  /** A two-column sort key; the row id breaks ties. */
  datatype Rank = Rank(major: int, minor: int)

  predicate Before(ranks: map<Id, Rank>, x: Id, y: Id)
    requires x in ranks && y in ranks
  {
    || ranks[x].major < ranks[y].major
    || (ranks[x].major == ranks[y].major && ranks[x].minor < ranks[y].minor)
    || (ranks[x].major == ranks[y].major && ranks[x].minor == ranks[y].minor && x <= y)
  }

  predicate IsFirst(ranks: map<Id, Rank>, x: Id, ids: set<Id>)
    requires ids <= ranks.Keys
  {
    x in ids && forall y | y in ids :: Before(ranks, x, y)
  }

  lemma {:induction false} FirstExists(ranks: map<Id, Rank>, ids: set<Id>)
    requires ids != {} && ids <= ranks.Keys
    ensures exists x :: IsFirst(ranks, x, ids)
  {
    var z :| z in ids;
    var rest := ids - {z};
    assert ids == rest + {z};
    if rest == {} {
      assert IsFirst(ranks, z, ids);
    } else {
      FirstExists(ranks, rest);
      var x :| IsFirst(ranks, x, rest);
      if Before(ranks, x, z) {
        assert IsFirst(ranks, x, ids);
      } else {
        forall y | y in ids ensures Before(ranks, z, y) {
          if y != z { assert Before(ranks, x, y); }
        }
        assert IsFirst(ranks, z, ids);
      }
    }
  }

  lemma FirstIsUnique(ranks: map<Id, Rank>, ids: set<Id>, x: Id, y: Id)
    requires ids <= ranks.Keys && IsFirst(ranks, x, ids) && IsFirst(ranks, y, ids)
    ensures x == y
  {
    assert Before(ranks, x, y) && Before(ranks, y, x);
  }

  function First(ranks: map<Id, Rank>, ids: set<Id>): (x: Id)
    requires ids != {} && ids <= ranks.Keys
    ensures IsFirst(ranks, x, ids)
  {
    FirstExists(ranks, ids);
    assert forall x, y | IsFirst(ranks, x, ids) && IsFirst(ranks, y, ids) :: x == y by {
      forall x, y | IsFirst(ranks, x, ids) && IsFirst(ranks, y, ids) ensures x == y {
        FirstIsUnique(ranks, ids, x, y);
      }
    }
    var x :| IsFirst(ranks, x, ids);
    x
  }

  predicate Ordered(ranks: map<Id, Rank>, ids: seq<Id>)
    requires forall x | x in ids :: x in ranks
  {
    forall i, j | 0 <= i < j < |ids| :: ids[i] != ids[j] && Before(ranks, ids[i], ids[j])
  }

  /** The given ids in `ORDER BY major, minor, id` order, each once. */
  function OrderBy(ranks: map<Id, Rank>, ids: set<Id>): (rows: seq<Id>)
    requires ids <= ranks.Keys
    ensures forall x :: x in rows <==> x in ids
    ensures Ordered(ranks, rows)
  {
    if ids == {} then [] else
      var x := First(ranks, ids);
      [x] + OrderBy(ranks, ids - {x})
  }

  /** What a `fetchone()` over an unordered SELECT yields: some matching row, here the least id. */
  function AnyOf(ids: set<Id>): (x: Id)
    requires ids != {}
    ensures x in ids
  {
    First(map y | y in ids :: Rank(0, 0), ids)
  }

  lemma SubsetCard<T>(a: set<T>, b: set<T>)
    requires a <= b
    ensures |a| <= |b|
  {
    if a != {} {
      var x :| x in a;
      SubsetCard(a - {x}, b - {x});
    }
  }

  function Max(x: int, y: int): int { if x >= y then x else y }
}

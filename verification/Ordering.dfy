/** ORDER BY (created_at, id): the total order the queries sort by. */
module Ordering {
  import opened Uuids

  predicate Before(at: map<Uuid, int>, a: Uuid, b: Uuid)
    requires a in at && b in at
  {
    at[a] < at[b] || (at[a] == at[b] && a < b)
  }

  lemma {:induction false} LeastExists(ids: set<Uuid>, at: map<Uuid, int>) returns (least: Uuid)
    requires ids != {} && ids <= at.Keys
    ensures least in ids && forall x | x in ids && x != least :: Before(at, least, x)
    decreases |ids|
  {
    var y :| y in ids;
    least := y;
    if ids != {y} {
      var rest := ids - {y};
      assert ids == rest + {y};
      var r := LeastExists(rest, at);
      least := if Before(at, r, y) then r else y;
      forall x | x in ids && x != least ensures Before(at, least, x) {
        assert x == y || x in rest;
      }
    }
  }

  /** The ids in ascending (created_at, id) order. */
  ghost function Ascending(ids: set<Uuid>, at: map<Uuid, int>): seq<Uuid>
    requires ids <= at.Keys
    decreases |ids|
  {
    if ids == {} then []
    else
      assert exists x :: IsLeast(x, ids, at) by {
        var l := LeastExists(ids, at);
        assert IsLeast(l, ids, at);
      }
      var x :| IsLeast(x, ids, at);
      [x] + Ascending(ids - {x}, at)
  }

  predicate IsLeast(x: Uuid, ids: set<Uuid>, at: map<Uuid, int>)
    requires ids <= at.Keys
  {
    x in ids && forall y | y in ids && y != x :: Before(at, x, y)
  }

  /** Taking the least element first is the only way to build the ordering. */
  lemma AscendingCons(ids: set<Uuid>, at: map<Uuid, int>, x: Uuid)
    requires ids <= at.Keys && IsLeast(x, ids, at)
    ensures Ascending(ids, at) == [x] + Ascending(ids - {x}, at)
  {
    var y :| IsLeast(y, ids, at) && Ascending(ids, at) == [y] + Ascending(ids - {y}, at);
    assert IsLeast(y, ids, at);
    assert x == y;
  }

  ghost predicate StrictlyAscending(s: seq<Uuid>, at: map<Uuid, int>)
  {
    (forall x | x in s :: x in at) &&
    forall i, j | 0 <= i < j < |s| :: Before(at, s[i], s[j])
  }

  /** The ordering lists every id exactly once, strictly ascending. */
  lemma {:induction false} AscendingOrders(ids: set<Uuid>, at: map<Uuid, int>)
    requires ids <= at.Keys
    ensures |Ascending(ids, at)| == |ids|
    ensures forall x :: x in Ascending(ids, at) <==> x in ids
    ensures StrictlyAscending(Ascending(ids, at), at)
    decreases |ids|
  {
    if ids != {} {
      var x := LeastExists(ids, at);
      AscendingCons(ids, at, x);
      AscendingOrders(ids - {x}, at);
      var rest := Ascending(ids - {x}, at);
      var s := Ascending(ids, at);
      forall i, j | 0 <= i < j < |s| ensures Before(at, s[i], s[j]) {
        assert s[j] == rest[j - 1] && s[j] in rest;
        if i > 0 { assert s[i] == rest[i - 1]; }
      }
    }
  }

  method TakeOldest(ids: set<Uuid>, at: map<Uuid, int>) returns (x: Uuid, ghost rest: seq<Uuid>)
    requires ids != {} && ids <= at.Keys
    ensures x in ids && rest == Ascending(ids - {x}, at) && Ascending(ids, at) == [x] + rest
  {
    ghost var l := LeastExists(ids, at);
    assert IsLeast(l, ids, at);
    x :| x in ids && IsLeast(x, ids, at);
    AscendingCons(ids, at, x);
    rest := Ascending(ids - {x}, at);
  }

  /** One further along an ordering. */
  lemma Advance(all: seq<Uuid>, i: nat, x: Uuid, rest: seq<Uuid>)
    requires i <= |all| && all[i..] == [x] + rest
    ensures i < |all| && all[i] == x && all[i + 1..] == rest
  {
    assert all[i..][0] == x && all[i..][1..] == rest;
  }
}

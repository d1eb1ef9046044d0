/** The hub's index: client sets under citizen ids, standing for one flat set. */
module TwoLevel {
  import opened Uuids

  ghost function Flat<C>(index: map<Uuid, set<C>>): set<C> {
    set citizen, c | citizen in index && c in index[citizen] :: c
  }

  /** Every client sits under its own citizen only, and no inner set is empty. */
  ghost predicate Shaped<C>(index: map<Uuid, set<C>>, citizenOf: C -> Uuid) {
    forall citizen | citizen in index ::
      index[citizen] != {} && forall c | c in index[citizen] :: citizenOf(c) == citizen
  }

  function Under<C>(index: map<Uuid, set<C>>, citizen: Uuid): set<C> {
    if citizen in index then index[citizen] else {}
  }

  function With<C>(index: map<Uuid, set<C>>, citizen: Uuid, c: C): map<Uuid, set<C>> {
    index[citizen := Under(index, citizen) + {c}]
  }

  /** Removes the client, and its citizen's set if that leaves it empty. */
  function Without<C>(index: map<Uuid, set<C>>, citizen: Uuid, c: C): map<Uuid, set<C>> {
    if citizen !in index then index
    else if index[citizen] - {c} == {} then index - {citizen}
    else index[citizen := index[citizen] - {c}]
  }

  lemma WithIsUnion<C>(index: map<Uuid, set<C>>, citizenOf: C -> Uuid, c: C)
    requires Shaped(index, citizenOf)
    ensures Shaped(With(index, citizenOf(c), c), citizenOf)
    ensures Flat(With(index, citizenOf(c), c)) == Flat(index) + {c}
  {
    var k := citizenOf(c);
    var after := With(index, k, c);
    forall x | x in Flat(index) + {c} ensures x in Flat(after) {
      if x == c {
        assert c in after[k];
      } else {
        var j :| j in index && x in index[j];
        assert x in after[j];
      }
    }
    forall x | x in Flat(after) ensures x in Flat(index) + {c} {
      var j :| j in after && x in after[j];
      assert x != c ==> j in index && x in index[j];
    }
  }

  lemma WithoutIsDifference<C>(index: map<Uuid, set<C>>, citizenOf: C -> Uuid, c: C)
    requires Shaped(index, citizenOf)
    ensures Shaped(Without(index, citizenOf(c), c), citizenOf)
    ensures Flat(Without(index, citizenOf(c), c)) == Flat(index) - {c}
  {
    var k := citizenOf(c);
    var after := Without(index, k, c);
    forall x | x in Flat(index) - {c} ensures x in Flat(after) {
      var j :| j in index && x in index[j];
      if j == k { assert x in index[k] - {c}; }
      assert j in after && x in after[j];
    }
    forall x | x in Flat(after) ensures x in Flat(index) - {c} {
      var j :| j in after && x in after[j];
      assert j in index && x in index[j];
    }
  }

  /** Removing what is not there changes nothing. */
  lemma WithoutAbsent<C>(index: map<Uuid, set<C>>, citizenOf: C -> Uuid, c: C)
    requires Shaped(index, citizenOf) && c !in Flat(index)
    ensures Without(index, citizenOf(c), c) == index
  {
    var k := citizenOf(c);
    if k in index {
      assert c !in index[k];
      assert index[k] - {c} == index[k];
    }
  }

  /** A citizen's clients are found under its id, and nowhere else. */
  lemma UnderIsFiltered<C>(index: map<Uuid, set<C>>, citizenOf: C -> Uuid, citizen: Uuid)
    requires Shaped(index, citizenOf)
    ensures Under(index, citizen) == set c | c in Flat(index) && citizenOf(c) == citizen
  {
    forall c | c in Flat(index) && citizenOf(c) == citizen ensures c in Under(index, citizen) {
      var j :| j in index && c in index[j];
      assert j == citizen;
    }
  }

  lemma OneMore<C>(all: set<C>, todo: set<C>, c: C)
    requires c in todo && todo <= all
    ensures all - (todo - {c}) == all - todo + {c}
  {
  }
}

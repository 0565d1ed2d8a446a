/** The merge reducer of the orchestrator state (graph/state.py). */
module Reducers {
  import opened Schemas

  /** Keys written with a value take it, keys written with None disappear, the rest stays. */
  function Merge<V>(left: map<Id, V>, right: map<Id, Option<V>>): map<Id, V> {
    map k | k in left.Keys + right.Keys && (k in right ==> right[k].Some?) ::
      if k in right then right[k].value else left[k]
  }

  /** Deletion through the reducer: every key written with None. */
  function Tombstones<V>(ids: set<Id>): map<Id, Option<V>> {
    map k | k in ids :: None
  }

  /** The same value written under every key. */
  function Writes<V>(ids: set<Id>, v: V): map<Id, Option<V>> {
    map k | k in ids :: if k in ids then Some(v) else None
  }

  /** An update without entries changes nothing. */
  lemma MergeNothing<V>(m: map<Id, V>, nothing: map<Id, Option<V>>)
    requires nothing.Keys == {}
    ensures Merge(m, nothing) == m
  {
  }

  /** Tombstones delete, and do nothing else. */
  lemma Dropped<V>(m: map<Id, V>, ids: set<Id>)
    ensures forall k :: k in Merge(m, Tombstones(ids)) <==> k in m && k !in ids
    ensures forall k :: k in Merge(m, Tombstones(ids)) ==> Merge(m, Tombstones(ids))[k] == m[k]
  {
  }

  lemma Written<V>(m: map<Id, V>, ids: set<Id>, v: V)
    ensures forall k :: k in Merge(m, Writes(ids, v)) <==> k in m || k in ids
    ensures forall k :: k in Merge(m, Writes(ids, v)) ==> Merge(m, Writes(ids, v))[k] == if k in ids then v else m[k]
  {
  }

  function OrNoEntries<K(==), V>(m: Option<map<K, V>>): map<K, V> {
    if m.Some? then m.value else map[]
  }

  /** The reducer as the loop over the right-hand entries that the source runs. */
  method MergeOptionalDict<V>(left: Option<map<Id, V>>, right: Option<map<Id, Option<V>>>)
    returns (merged: map<Id, V>)
    ensures merged == Merge(OrNoEntries(left), OrNoEntries(right))
  {
    merged := OrNoEntries(left);
    var entries := OrNoEntries(right);
    var todo := entries.Keys;
    while todo != {}
      invariant todo <= entries.Keys
      invariant merged == Merge(OrNoEntries(left), entries - todo)
      decreases todo
    {
      var key :| key in todo;
      if entries[key].None? {
        merged := merged - {key};
      } else {
        merged := merged[key := entries[key].value];
      }
      todo := todo - {key};
    }
    assert entries - {} == entries;
  }
}

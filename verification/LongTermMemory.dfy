/** The long-term memory store (memory/long_term.py): consolidation, expiry and access bumps on the
    collection. The order in which the database lists a user's records and the neighbours its index
    reports are arbitrary inputs. */
module LongTermMemory {
  import opened Schemas
  import opened Memory

  /** One query answer: the ids found, with their distances. */
  type Hits = seq<(Id, real)>

  function RecordsOf(m: Records, user: string): Records {
    map id | id in m && m[id].userId == user :: m[id]
  }

  /** A listing of the records: each exactly once, in some order. */
  ghost predicate Lists(order: seq<Id>, m: Records) {
    Distinct(order) && forall id :: id in order <==> id in m
  }

  /** The ids at least as similar as the threshold. */
  function CloseIds(hits: Hits, threshold: real): set<Id> {
    if hits == [] then {}
    else CloseIds(hits[..|hits|-1], threshold)
         + (if 1.0 - hits[|hits|-1].1 >= threshold then {hits[|hits|-1].0} else {})
  }

  /** The index reported `id` at least as similar as the threshold. */
  ghost predicate ReportedClose(hits: Hits, id: Id, threshold: real) {
    exists k :: 0 <= k < |hits| && hits[k].0 == id && 1.0 - hits[k].1 >= threshold
  }

  lemma {:induction false} CloseIdsAreReported(hits: Hits, threshold: real, id: Id)
    ensures id in CloseIds(hits, threshold) <==> ReportedClose(hits, id, threshold)
  {
    if hits != [] {
      var front, last := hits[..|hits|-1], hits[|hits|-1];
      CloseIdsAreReported(front, threshold, id);
      if k :| 0 <= k < |front| && front[k].0 == id && 1.0 - front[k].1 >= threshold {
        assert hits[k] == front[k];
      }
      if k :| 0 <= k < |hits| && hits[k].0 == id && 1.0 - hits[k].1 >= threshold && k < |front| {
        assert front[k] == hits[k];
      }
    }
  }

  ghost predicate MergedForCause(orig: Records, index: Id -> Hits, threshold: real, id: Id) {
    exists r :: r in orig && r != id && ReportedClose(index(r), id, threshold)
  }

  /** Whatever was merged away was reported close to another record. */
  ghost predicate Justified(orig: Records, consumed: set<Id>, index: Id -> Hits, threshold: real) {
    forall id :: id in consumed ==> MergedForCause(orig, index, threshold, id)
  }

  lemma JustifiedMore(orig: Records, before: set<Id>, consumed: set<Id>, index: Id -> Hits, threshold: real, record: Id)
    requires Justified(orig, before, index, threshold) && record in orig
    requires consumed == MergedAway(before, index(record), threshold, record)
    ensures Justified(orig, consumed, index, threshold)
  {
    forall id | id in consumed ensures MergedForCause(orig, index, threshold, id) {
      if id !in before {
        CloseIdsAreReported(index(record), threshold, id);
        assert record in orig && record != id;
      }
    }
  }

  ghost predicate HitsAreListed(hits: Hits, m: Records) {
    forall k :: 0 <= k < |hits| ==> hits[k].0 in m
  }

  /** A state of the consolidation: the working copies and the ids merged away. */
  ghost predicate Consolidating(orig: Records, order: seq<Id>, recs: Records, consumed: set<Id>, root: map<Id, Id>) {
    && recs.Keys == orig.Keys && consumed <= orig.Keys
    && Lists(order, orig)
    && Rooted(orig, consumed, root) && AllSurvive(orig, recs, consumed, root)
    && LiveAccesses(order, recs, consumed) == LiveAccesses(order, orig, {})
  }

  lemma KeysAfterUpdate(m: Records, k: Id, v: MemoryRecord)
    requires k in m
    ensures m[k := v].Keys == m.Keys
  {
  }

  lemma MergeKeepsTotal(order: seq<Id>, orig: Records, recs: Records, consumed: set<Id>, into: Id, other: Id)
    requires Lists(order, orig) && recs.Keys == orig.Keys
    requires into in recs && other in recs && into != other && into !in consumed && other !in consumed
    ensures LiveAccesses(order, recs[into := Absorb(recs[into], recs[other])], consumed + {other})
         == LiveAccesses(order, recs, consumed)
  {
    assert into in recs.Keys && other in recs.Keys;
    MergeMovesAccesses(order, recs, consumed, into, other);
  }

  /** Merging a live record into another keeps everything consolidation promises. */
  lemma MergeKeepsConsolidating(orig: Records, order: seq<Id>, recs: Records, consumed: set<Id>, root: map<Id, Id>,
                                into: Id, other: Id)
    requires Consolidating(orig, order, recs, consumed, root)
    requires into in recs && other in recs && into != other && into !in consumed && other !in consumed
    ensures Consolidating(orig, order, recs[into := Absorb(recs[into], recs[other])], consumed + {other},
                          Rerooted(root, other, into))
  {
    assert into in orig.Keys && other in orig.Keys;
    KeysAfterUpdate(recs, into, Absorb(recs[into], recs[other]));
    MergeKeepsRoots(orig, consumed, root, into, other);
    MergeKeepsSurvivors(orig, recs, consumed, root, into, other);
    MergeKeepsTotal(order, orig, recs, consumed, into, other);
  }

  lemma UpdateAgain(recs0: Records, recs: Records, id: Id, v: MemoryRecord)
    requires id in recs && recs == recs0[id := recs[id]]
    ensures recs[id := v] == recs0[id := v]
  {
  }

  /** The ids a record has merged away after its first hits. */
  function MergedAway(before: set<Id>, hits: Hits, threshold: real, record: Id): set<Id> {
    before + (CloseIds(hits, threshold) - {record})
  }

  lemma OneMoreHit(before: set<Id>, hits: Hits, k: nat, threshold: real, record: Id)
    requires k < |hits|
    ensures var now := MergedAway(before, hits[..k], threshold, record);
            MergedAway(before, hits[..k+1], threshold, record)
            == if 1.0 - hits[k].1 < threshold || hits[k].0 == record || hits[k].0 in now then now
               else now + {hits[k].0}
  {
    assert hits[..k+1][..k] == hits[..k] && hits[..k+1][k] == hits[k];
  }

  /** The collection agrees with the working copies on every record still alive, and with what it
      was on everyone else's. */
  ghost predicate Mirrors(collection: Records, before: Records, recs: Records, consumed: set<Id>) {
    && collection.Keys == before.Keys
    && (forall id :: id in collection && id !in recs ==> collection[id] == before[id])
    && (forall id :: id in recs && id !in consumed ==> id in collection && collection[id] == recs[id])
  }

  lemma UpdateKeepsMirror(collection: Records, before: Records, recs: Records, consumed: set<Id>,
                          recs': Records, consumed': set<Id>, record: Id)
    requires Mirrors(collection, before, recs, consumed)
    requires record in recs && record !in consumed && record in recs' && recs' == recs[record := recs'[record]]
    requires consumed <= consumed'
    ensures Mirrors(collection[record := recs'[record]], before, recs', consumed')
  {
    KeysAfterUpdate(collection, record, recs'[record]);
    KeysAfterUpdate(recs, record, recs'[record]);
  }

  /** No record that is still alive among the first k has a close neighbour that is. */
  ghost predicate NoCloseSurvivors(order: seq<Id>, k: nat, consumed: set<Id>, index: Id -> Hits, threshold: real)
    requires k <= |order|
  {
    forall j :: 0 <= j < k && order[j] !in consumed ==> CloseIds(index(order[j]), threshold) - {order[j]} <= consumed
  }

  /** What consolidation leaves of a user's records: every original has a surviving root, each
      survivor holds exactly the knowledge of its originals and their highest importance, and no
      access is lost. */
  ghost predicate Consolidated(orig: Records, left: Records, order: seq<Id>, root: map<Id, Id>) {
    && left.Keys <= orig.Keys && root.Keys == orig.Keys
    && (forall i :: i in root ==> root[i] in left)
    && (forall i :: i in left ==> i in root && root[i] == i)
    && (forall r {:trigger Survives(orig, root, r, left[r])} :: r in left ==> Survives(orig, root, r, left[r]))
    && LiveAccesses(order, left, {}) == LiveAccesses(order, orig, {})
  }

  lemma ConsolidatedWhenDeleted(orig: Records, order: seq<Id>, recs: Records, consumed: set<Id>, root: map<Id, Id>,
                                left: Records)
    requires Consolidating(orig, order, recs, consumed, root)
    requires forall id :: id in left <==> id in recs && id !in consumed
    requires forall id :: id in left ==> left[id] == recs[id]
    ensures Consolidated(orig, left, order, root)
  {
    DeletingConsumed(order, recs, left, consumed);
    assert forall id :: id in left ==> id in recs.Keys;
    forall r | r in left ensures Survives(orig, root, r, left[r]) {
      assert Survives(orig, root, r, recs[r]);
    }
  }

  lemma CountAfterDeletion(orig: Records, recs: Records, consumed: set<Id>, left: Records)
    requires recs.Keys == orig.Keys && consumed <= orig.Keys
    requires forall id :: id in left <==> id in recs && id !in consumed
    ensures |orig| == |left| + |consumed|
  {
    assert orig.Keys == left.Keys + consumed && left.Keys !! consumed;
    assert |orig.Keys| == |left.Keys| + |consumed|;
  }

  /** The whole store during a consolidation. */
  ghost predicate InProgress(collection: Records, before: Records, user: string, order: seq<Id>, recs: Records,
                             consumed: set<Id>, root: map<Id, Id>) {
    && Consolidating(RecordsOf(before, user), order, recs, consumed, root)
    && Mirrors(collection, before, recs, consumed)
  }

  /** Everyone else's records are what they were. */
  ghost predicate OthersKept(before: Records, after: Records, user: string) {
    forall id :: id in before && before[id].userId != user ==> id in after && after[id] == before[id]
  }

  /** No two records left are a close pair the index reports. */
  ghost predicate NoClosePair(left: Records, index: Id -> Hits, threshold: real) {
    forall r, id {:trigger ReportedClose(index(r), id, threshold)} ::
      r in left && id in left && r != id ==> !ReportedClose(index(r), id, threshold)
  }

  lemma NoClosePairLeft(orig: Records, left: Records, order: seq<Id>, recs: Records, consumed: set<Id>,
                        index: Id -> Hits, threshold: real)
    requires recs.Keys == orig.Keys && Lists(order, orig)
    requires NoCloseSurvivors(order, |order|, consumed, index, threshold)
    requires forall id :: id in left <==> id in recs && id !in consumed
    ensures NoClosePair(left, index, threshold)
  {
    forall r, id | r in left && id in left && r != id ensures !ReportedClose(index(r), id, threshold) {
      assert r in orig.Keys;
      var j :| 0 <= j < |order| && order[j] == r;
      assert CloseIds(index(order[j]), threshold) - {order[j]} <= consumed;
      CloseIdsAreReported(index(r), threshold, id);
    }
  }

  /** Nothing disappears without a reason: the index reported it close to another record. */
  ghost predicate OnlyCloseMerged(orig: Records, left: Records, index: Id -> Hits, threshold: real) {
    forall id :: id in orig && id !in left ==> MergedForCause(orig, index, threshold, id)
  }

  lemma MergedJustly(orig: Records, recs: Records, left: Records, consumed: set<Id>, index: Id -> Hits, threshold: real)
    requires Justified(orig, consumed, index, threshold) && recs.Keys == orig.Keys
    requires forall id :: id in left <==> id in recs && id !in consumed
    ensures OnlyCloseMerged(orig, left, index, threshold)
  {
    forall id | id in orig && id !in left ensures MergedForCause(orig, index, threshold, id) {
      assert id in recs.Keys;
    }
  }

  lemma NoCloseSurvivorsGrows(order: seq<Id>, k: nat, consumed0: set<Id>, consumed: set<Id>, index: Id -> Hits,
                              threshold: real)
    requires k < |order| && NoCloseSurvivors(order, k, consumed0, index, threshold) && consumed0 <= consumed
    requires order[k] in consumed || CloseIds(index(order[k]), threshold) - {order[k]} <= consumed
    ensures NoCloseSurvivors(order, k + 1, consumed, index, threshold)
  {
  }

  /** Deleting the consumed ids from the collection leaves the other users' records alone. */
  lemma LeftOfUser(collection: Records, before: Records, user: string, order: seq<Id>, recs: Records,
                   consumed: set<Id>, root: map<Id, Id>)
    requires Consolidating(RecordsOf(before, user), order, recs, consumed, root)
    requires Mirrors(collection, before, recs, consumed)
    ensures var left := RecordsOf(collection - consumed, user);
            && (forall id :: id in left <==> id in recs && id !in consumed)
            && (forall id :: id in left ==> left[id] == recs[id])
    ensures OthersKept(before, collection - consumed, user)
  {
    var orig := RecordsOf(before, user);
    forall id | id in recs && id !in consumed ensures id in orig && recs[id].userId == user {
      assert id in recs.Keys;
      assert Survives(orig, root, id, recs[id]);
    }
    forall id | id in before && before[id].userId != user ensures id !in recs && id !in consumed && id in collection {
      assert id !in orig.Keys && id in collection.Keys;
    }
    forall id | id in collection && id !in recs ensures collection[id].userId != user {
      assert id in before.Keys && id !in orig.Keys;
    }
  }

  ghost predicate Indexed(index: Id -> Hits, m: Records) {
    forall id {:trigger index(id)} :: id in m ==> HitsAreListed(index(id), m)
  }

  lemma ListedAndHit(order: seq<Id>, k: nat, orig: Records, recs: Records, index: Id -> Hits)
    requires k < |order| && Lists(order, orig) && recs.Keys == orig.Keys && Indexed(index, orig)
    ensures order[k] in recs && HitsAreListed(index(order[k]), recs)
  {
    assert order[k] in order;
    assert order[k] in recs.Keys;
    var hits := index(order[k]);
    assert HitsAreListed(hits, orig);
    forall j | 0 <= j < |hits| ensures hits[j].0 in recs {
      assert hits[j].0 in orig.Keys;
    }
  }

  class LongTermMemory {
    var collection: Records
    const curve: Curve
    const halfLife: real
    const minImportance: real
    const minAge: real
    const threshold: real

    constructor (curve: Curve, halfLife: real, minImportance: real, minAge: real, threshold: real)
      ensures collection == map[]
      ensures this.curve == curve && this.halfLife == halfLife && this.minImportance == minImportance
      ensures this.minAge == minAge && this.threshold == threshold
    {
      collection := map[];
      this.curve, this.halfLife, this.minImportance := curve, halfLife, minImportance;
      this.minAge, this.threshold := minAge, threshold;
    }

    /** The inner loop: one record absorbs its close neighbours, in the order they were found. */
    static method AbsorbHits(ghost orig: Records, ghost order: seq<Id>, recs0: Records, consumed0: set<Id>,
                             ghost root0: map<Id, Id>, record: Id, hits: Hits, threshold: real)
      returns (recs: Records, consumed: set<Id>, ghost root: map<Id, Id>)
      requires Consolidating(orig, order, recs0, consumed0, root0) && HitsAreListed(hits, recs0)
      requires record in recs0 && record !in consumed0
      ensures Consolidating(orig, order, recs, consumed, root)
      ensures record in recs && recs == recs0[record := recs[record]]
      ensures consumed == MergedAway(consumed0, hits, threshold, record)
    {
      recs, consumed, root := recs0, consumed0, root0;
      for k := 0 to |hits|
        invariant Consolidating(orig, order, recs, consumed, root)
        invariant record in recs && recs == recs0[record := recs[record]]
        invariant consumed == MergedAway(consumed0, hits[..k], threshold, record)
      {
        OneMoreHit(consumed0, hits, k, threshold, record);
        var other := hits[k].0;
        if other == record || other in consumed {
          continue;
        }
        if 1.0 - hits[k].1 < threshold {
          continue;
        }
        MergeKeepsConsolidating(orig, order, recs, consumed, root, record, other);
        UpdateAgain(recs0, recs, record, Absorb(recs[record], recs[other]));
        recs := recs[record := Absorb(recs[record], recs[other])];
        consumed := consumed + {other};
        root := Rerooted(root, other, record);
      }
      assert hits[..|hits|] == hits;
    }

    /** One turn of the outer loop: unless it was merged away, the record absorbs its close
        neighbours and is written back. */
    method ConsolidateNext(ghost before: Records, ghost user: string, ghost orig: Records, order: seq<Id>, k: nat,
                           index: Id -> Hits, recs0: Records, consumed0: set<Id>, ghost root0: map<Id, Id>)
      returns (recs: Records, consumed: set<Id>, ghost root: map<Id, Id>)
      requires orig == RecordsOf(before, user) && k < |order| && Indexed(index, orig)
      requires InProgress(collection, before, user, order, recs0, consumed0, root0)
      requires NoCloseSurvivors(order, k, consumed0, index, threshold) && Justified(orig, consumed0, index, threshold)
      modifies this
      ensures InProgress(collection, before, user, order, recs, consumed, root)
      ensures NoCloseSurvivors(order, k + 1, consumed, index, threshold) && Justified(orig, consumed, index, threshold)
    {
      recs, consumed, root := recs0, consumed0, root0;
      var record := order[k];
      if record !in consumed {
        ListedAndHit(order, k, orig, recs, index);
        recs, consumed, root := AbsorbHits(orig, order, recs, consumed, root, record, index(record), threshold);
        JustifiedMore(orig, consumed0, consumed, index, threshold, record);
        UpdateKeepsMirror(collection, before, recs0, consumed0, recs, consumed, record);
        collection := collection[record := recs[record]];
      }
      NoCloseSurvivorsGrows(order, k, consumed0, consumed, index, threshold);
    }

    /** The outer loop over the records as they were listed. */
    method MergeAll(ghost before: Records, ghost user: string, orig: Records, order: seq<Id>, index: Id -> Hits,
                    ghost root0: map<Id, Id>)
      returns (recs: Records, consumed: set<Id>, ghost root: map<Id, Id>)
      requires orig == RecordsOf(before, user) && InProgress(collection, before, user, order, orig, {}, root0)
      requires Indexed(index, orig)
      modifies this
      ensures InProgress(collection, before, user, order, recs, consumed, root)
      ensures NoCloseSurvivors(order, |order|, consumed, index, threshold)
      ensures Justified(orig, consumed, index, threshold)
    {
      recs, consumed, root := orig, {}, root0;
      for k := 0 to |order|
        invariant InProgress(collection, before, user, order, recs, consumed, root)
        invariant NoCloseSurvivors(order, k, consumed, index, threshold) && Justified(orig, consumed, index, threshold)
      {
        recs, consumed, root := ConsolidateNext(before, user, orig, order, k, index, recs, consumed, root);
      }
    }

    /** Merge a user's near-duplicates. Whatever the index reports, asymmetric or repeated, nothing the
        user's records knew is lost; afterwards no pair is left that the index reports as close. */
    method Consolidate(user: string, order: seq<Id>, index: Id -> Hits) returns (merged: nat, ghost root: map<Id, Id>)
      requires Lists(order, RecordsOf(collection, user))
      requires Indexed(index, RecordsOf(collection, user))
      modifies this
      ensures Consolidated(RecordsOf(old(collection), user), RecordsOf(collection, user), order, root)
      ensures merged == |RecordsOf(old(collection), user)| - |RecordsOf(collection, user)|
      ensures OthersKept(old(collection), collection, user)
      ensures |RecordsOf(old(collection), user)| >= 2 ==> NoClosePair(RecordsOf(collection, user), index, threshold)
      ensures OnlyCloseMerged(RecordsOf(old(collection), user), RecordsOf(collection, user), index, threshold)
    {
      ghost var before := collection;
      var orig := RecordsOf(collection, user);
      root := map i | i in orig :: i;
      NothingMergedYet(before, user, order);
      if |orig| < 2 {
        return 0, root;
      }
      var recs, consumed;
      recs, consumed, root := MergeAll(before, user, orig, order, index, root);
      Finished(collection, before, user, order, recs, consumed, root, index, threshold);
      collection := collection - consumed;
      merged := |consumed|;
    }

    /** Delete what has decayed below the minimum and is past its grace period. */
    method Expire(user: Option<string>, now: real) returns (expired: nat)
      requires halfLife > 0.0
      modifies this
      ensures collection == Remaining(curve, halfLife, minImportance, minAge, old(collection), user, now)
      ensures forall id :: id in old(collection) ==>
                var r := old(collection)[id];
                (id !in collection
                 <==> (user.None? || user.value == "" || r.userId == user.value)
                      && now - r.createdAt >= minAge && Effective(curve, halfLife, r, now) < minImportance)
      ensures expired == |old(collection)| - |collection|
    {
      forall id | id in collection {
        WhatGoes(curve, halfLife, minImportance, minAge, collection, user, now, id);
      }
      var toDelete := set id | id in collection && InScope(user, collection[id])
                               && Expires(curve, halfLife, minImportance, minAge, collection[id], now);
      CountAfterDeletion(collection, collection, toDelete, collection - toDelete);
      collection := collection - toDelete;
      expired := |toDelete|;
    }

    /** Every record a query returns is marked as accessed now, and no other record changes. */
    method Query(found: seq<Id>, now: real) returns (records: seq<MemoryRecord>)
      requires Distinct(found) && forall k :: 0 <= k < |found| ==> found[k] in collection
      modifies this
      ensures collection.Keys == old(collection).Keys && |records| == |found|
      ensures forall k :: 0 <= k < |found| ==>
                && collection[found[k]] == records[k]
                && records[k] == old(collection)[found[k]].(accessCount := old(collection)[found[k]].accessCount + 1,
                                                            lastAccessedAt := now)
      ensures forall id :: id in collection && id !in found ==> collection[id] == old(collection)[id]
    {
      records := [];
      ghost var before := collection;
      for k := 0 to |found|
        invariant BumpedUpTo(before, collection, found, k, records, now)
      {
        BumpOneMore(before, collection, found, k, records, now);
        var r := Bumped(collection[found[k]], now);
        collection := collection[found[k] := r];
        records := records + [r];
      }
      assert found[..|found|] == found;
    }
  }

  /** The first k records found are bumped and returned, the others are as before. */
  ghost predicate BumpedUpTo(before: Records, m: Records, found: seq<Id>, k: nat, records: seq<MemoryRecord>, now: real)
    requires k <= |found|
  {
    && m.Keys == before.Keys && |records| == k
    && (forall j :: 0 <= j < k ==> found[j] in before && records[j] == Bumped(before[found[j]], now))
    && (forall id :: id in m ==> m[id] == if id in found[..k] then Bumped(before[id], now) else before[id])
  }

  lemma PrefixMembers(ids: seq<Id>, k: nat)
    requires k < |ids| && Distinct(ids)
    ensures ids[k] !in ids[..k]
    ensures forall id :: id in ids[..k+1] <==> id in ids[..k] || id == ids[k]
  {
    assert ids[..k+1] == ids[..k] + [ids[k]];
  }

  lemma BumpOneMore(before: Records, m: Records, found: seq<Id>, k: nat, records: seq<MemoryRecord>, now: real)
    requires k < |found| && Distinct(found) && found[k] in before && BumpedUpTo(before, m, found, k, records, now)
    ensures found[k] in m
    ensures var r := Bumped(m[found[k]], now);
            BumpedUpTo(before, m[found[k] := r], found, k + 1, records + [r], now)
  {
    assert found[k] in m.Keys;
    PrefixMembers(found, k);
    KeysAfterUpdate(m, found[k], Bumped(m[found[k]], now));
  }

  lemma NothingMergedYet(before: Records, user: string, order: seq<Id>)
    requires Lists(order, RecordsOf(before, user))
    ensures var orig := RecordsOf(before, user);
            var root := map i | i in orig :: i;
            InProgress(before, before, user, order, orig, {}, root) && Consolidated(orig, orig, order, root)
  {
    SingletonsSumUp(RecordsOf(before, user));
  }

  lemma Finished(collection: Records, before: Records, user: string, order: seq<Id>, recs: Records,
                 consumed: set<Id>, root: map<Id, Id>, index: Id -> Hits, threshold: real)
    requires InProgress(collection, before, user, order, recs, consumed, root)
    requires NoCloseSurvivors(order, |order|, consumed, index, threshold)
    requires Justified(RecordsOf(before, user), consumed, index, threshold)
    ensures var orig, left := RecordsOf(before, user), RecordsOf(collection - consumed, user);
            && Consolidated(orig, left, order, root) && |consumed| == |orig| - |left|
            && OthersKept(before, collection - consumed, user)
            && NoClosePair(left, index, threshold) && OnlyCloseMerged(orig, left, index, threshold)
  {
    var orig, left := RecordsOf(before, user), RecordsOf(collection - consumed, user);
    LeftOfUser(collection, before, user, order, recs, consumed, root);
    ConsolidatedWhenDeleted(orig, order, recs, consumed, root, left);
    CountAfterDeletion(orig, recs, consumed, left);
    NoClosePairLeft(orig, left, order, recs, consumed, index, threshold);
    MergedJustly(orig, recs, left, consumed, index, threshold);
  }
}

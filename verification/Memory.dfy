/** Long-term memory records (memory/models.py) and the pure part of memory/long_term.py. */
module Memory {
  import opened Schemas

  /** Times are in days. */
  datatype MemoryRecord = MemoryRecord(
    userId: string, task: string, approach: string,
    toolsUsed: seq<string>, facts: seq<string>, preferences: seq<string>,
    importance: real, accessCount: nat, createdAt: real, lastAccessedAt: real)

  /** The three lists a merge joins. */
  datatype Part = Tools | Facts | Preferences

  function PartOf(r: MemoryRecord, p: Part): seq<string> {
    match p case Tools => r.toolsUsed case Facts => r.facts case Preferences => r.preferences
  }

  // ---------------------------------------------------------------- merging two records

  /** `list(dict.fromkeys(xs))`: first occurrences, in order. */
  function Dedup(xs: seq<string>): seq<string> {
    if xs == [] then []
    else
      var front := Dedup(xs[..|xs|-1]);
      if xs[|xs|-1] in front then front else front + [xs[|xs|-1]]
  }

  lemma {:induction false} DedupKeeps(xs: seq<string>, x: string)
    ensures x in Dedup(xs) <==> x in xs
  {
    if xs != [] {
      DedupKeeps(xs[..|xs|-1], x);
      DedupKeeps(xs[..|xs|-1], xs[|xs|-1]);
      assert xs == xs[..|xs|-1] + [xs[|xs|-1]];
    }
  }

  /** Where `x` first occurs; the length if it does not. */
  function FirstAt(xs: seq<string>, x: string): nat {
    if xs == [] then 0
    else
      var k := FirstAt(xs[..|xs|-1], x);
      if k < |xs| - 1 || xs[|xs|-1] == x then k else |xs|
  }

  lemma {:induction false} FirstAtIsFirst(xs: seq<string>, x: string)
    ensures FirstAt(xs, x) <= |xs| && (FirstAt(xs, x) < |xs| <==> x in xs)
    ensures forall j :: 0 <= j < FirstAt(xs, x) && j < |xs| ==> xs[j] != x
    ensures FirstAt(xs, x) < |xs| ==> xs[FirstAt(xs, x)] == x
  {
    if xs != [] {
      FirstAtIsFirst(xs[..|xs|-1], x);
      assert xs == xs[..|xs|-1] + [xs[|xs|-1]];
    }
  }

  /** No entry is repeated, and the entries come in the order of their first occurrence. */
  lemma {:induction false} DedupInOrder(xs: seq<string>)
    ensures Distinct(Dedup(xs))
    ensures forall i, j :: 0 <= i < j < |Dedup(xs)| ==> FirstAt(xs, Dedup(xs)[i]) < FirstAt(xs, Dedup(xs)[j])
  {
    if xs != [] {
      var front, last := xs[..|xs|-1], xs[|xs|-1];
      DedupInOrder(front);
      DedupKeeps(front, last);
      forall i | 0 <= i < |Dedup(front)|
        ensures FirstAt(xs, Dedup(front)[i]) == FirstAt(front, Dedup(front)[i]) < |front|
      {
        DedupKeeps(front, Dedup(front)[i]);
        FirstAtIsFirst(front, Dedup(front)[i]);
      }
      FirstAtIsFirst(front, last);
    }
  }

  lemma {:induction false} DedupKeepsPrefix(xs: seq<string>, ys: seq<string>)
    ensures Dedup(xs) <= Dedup(xs + ys)
  {
    if ys == [] {
      assert xs + ys == xs;
    } else {
      DedupKeepsPrefix(xs, ys[..|ys|-1]);
      assert (xs + ys)[..|xs + ys|-1] == xs + ys[..|ys|-1];
    }
  }

  lemma {:induction false} DedupOfDistinct(xs: seq<string>)
    requires Distinct(xs)
    ensures Dedup(xs) == xs
  {
    if xs != [] {
      DedupOfDistinct(xs[..|xs|-1]);
      assert xs == xs[..|xs|-1] + [xs[|xs|-1]];
    }
  }

  /** A list before and after: untouched, or without repetition and its own entries first, in order. */
  predicate Tidy(absorbed: bool, own: seq<string>, now: seq<string>) {
    if absorbed then Distinct(now) && Dedup(own) <= now else now == own
  }

  lemma TidyAfter(absorbed: bool, own: seq<string>, now: seq<string>, more: seq<string>)
    requires Tidy(absorbed, own, now)
    ensures Tidy(true, own, Dedup(now + more))
  {
    DedupInOrder(now + more);
    DedupKeepsPrefix(now, more);
    if absorbed { DedupOfDistinct(now); }
  }

  function Absorb(r: MemoryRecord, o: MemoryRecord): MemoryRecord {
    r.(facts := Dedup(r.facts + o.facts),
       preferences := Dedup(r.preferences + o.preferences),
       toolsUsed := Dedup(r.toolsUsed + o.toolsUsed),
       accessCount := r.accessCount + o.accessCount,
       importance := if o.importance > r.importance then o.importance else r.importance)
  }

  lemma AbsorbJoins(r: MemoryRecord, o: MemoryRecord, p: Part, x: string)
    ensures x in PartOf(Absorb(r, o), p) <==> x in PartOf(r, p) || x in PartOf(o, p)
  {
    DedupKeeps(PartOf(r, p) + PartOf(o, p), x);
  }

  // ---------------------------------------------------------------- consolidation

  type Records = map<Id, MemoryRecord>

  /** Some original record that ended in `r` knew `x`. */
  ghost predicate Known(orig: Records, root: map<Id, Id>, r: Id, p: Part, x: string) {
    exists i :: i in orig && i in root && root[i] == r && x in PartOf(orig[i], p)
  }

  /** A record that absorbed others holds exactly their knowledge and their highest importance. */
  ghost predicate SumsUp(orig: Records, root: map<Id, Id>, r: Id, rec: MemoryRecord) {
    && (forall p, x {:trigger Known(orig, root, r, p, x)} :: x in PartOf(rec, p) <==> Known(orig, root, r, p, x))
    && (forall i :: i in orig && i in root && root[i] == r ==> orig[i].importance <= rec.importance)
    && (exists i :: i in orig && i in root && root[i] == r && orig[i].importance == rec.importance)
  }

  /** Some other original ended in `r`. */
  ghost predicate AbsorbedAny(orig: Records, root: map<Id, Id>, r: Id) {
    exists i :: i in orig && i in root && i != r && root[i] == r
  }

  ghost predicate Tidied(orig: Records, root: map<Id, Id>, r: Id, rec: MemoryRecord)
    requires r in orig
  {
    forall p :: Tidy(AbsorbedAny(orig, root, r), PartOf(orig[r], p), PartOf(rec, p))
  }

  predicate SameIdentity(a: MemoryRecord, b: MemoryRecord) {
    && a.userId == b.userId && a.task == b.task && a.approach == b.approach
    && a.createdAt == b.createdAt && a.lastAccessedAt == b.lastAccessedAt
  }

  /** Every survivor sums up its originals. */
  ghost predicate AllSurvive(orig: Records, recs: Records, consumed: set<Id>, root: map<Id, Id>) {
    forall r {:trigger Survives(orig, root, r, recs[r])} :: r in recs && r !in consumed ==>
      Survives(orig, root, r, recs[r])
  }

  /** Every original has a root among the survivors, and a survivor is its own root. */
  ghost predicate Rooted(orig: Records, consumed: set<Id>, root: map<Id, Id>) {
    && root.Keys == orig.Keys
    && (forall i {:trigger root[i]} :: i in root ==> root[i] in orig && root[i] !in consumed)
    && (forall i {:trigger root[i]} :: i in root && i !in consumed ==> root[i] == i)
  }

  ghost predicate Survives(orig: Records, root: map<Id, Id>, r: Id, rec: MemoryRecord) {
    r in orig && SumsUp(orig, root, r, rec) && SameIdentity(orig[r], rec) && Tidied(orig, root, r, rec)
  }

  function Rerooted(root: map<Id, Id>, from: Id, to: Id): map<Id, Id> {
    map i | i in root :: if root[i] == from then to else root[i]
  }

  lemma SingletonsSumUp(orig: Records)
    ensures var root := map i | i in orig :: i;
            Rooted(orig, {}, root) && AllSurvive(orig, orig, {}, root)
  {
    var root := map i | i in orig :: i;
    forall r | r in orig ensures SumsUp(orig, root, r, orig[r]) {
      forall p, x ensures x in PartOf(orig[r], p) <==> Known(orig, root, r, p, x) {
        if x in PartOf(orig[r], p) { assert root[r] == r; }
      }
      assert root[r] == r;
    }
  }

  lemma KnownAfterMerge(orig: Records, root: map<Id, Id>, into: Id, other: Id, r: Id, p: Part, x: string)
    requires into != other && r != other
    ensures Known(orig, Rerooted(root, other, into), r, p, x)
       <==> Known(orig, root, r, p, x) || (r == into && Known(orig, root, other, p, x))
  {
    var root' := Rerooted(root, other, into);
    if Known(orig, root', r, p, x) {
      var i :| i in orig && i in root' && root'[i] == r && x in PartOf(orig[i], p);
      assert root[i] == r || root[i] == other;
    }
    if i :| i in orig && i in root && root[i] == r && x in PartOf(orig[i], p) {
      assert root'[i] == r;
    }
    if r == into && Known(orig, root, other, p, x) {
      var i :| i in orig && i in root && root[i] == other && x in PartOf(orig[i], p);
      assert root'[i] == r;
    }
  }

  lemma AbsorbSumsUp(orig: Records, root: map<Id, Id>, into: Id, other: Id, a: MemoryRecord, b: MemoryRecord)
    requires into != other && SumsUp(orig, root, into, a) && SumsUp(orig, root, other, b)
    ensures SumsUp(orig, Rerooted(root, other, into), into, Absorb(a, b))
  {
    var root' := Rerooted(root, other, into);
    forall p, x ensures x in PartOf(Absorb(a, b), p) <==> Known(orig, root', into, p, x) {
      AbsorbJoins(a, b, p, x);
      KnownAfterMerge(orig, root, into, other, into, p, x);
    }
    var i :| i in orig && i in root && root[i] == into && orig[i].importance == a.importance;
    var j :| j in orig && j in root && root[j] == other && orig[j].importance == b.importance;
    assert root'[i] == into && root'[j] == into;
  }

  lemma OthersStillSumUp(orig: Records, root: map<Id, Id>, into: Id, other: Id, r: Id, rec: MemoryRecord)
    requires into != other && r != into && r != other && SumsUp(orig, root, r, rec)
    ensures SumsUp(orig, Rerooted(root, other, into), r, rec)
  {
    var root' := Rerooted(root, other, into);
    forall p, x ensures x in PartOf(rec, p) <==> Known(orig, root', r, p, x) {
      KnownAfterMerge(orig, root, into, other, r, p, x);
    }
    var i :| i in orig && i in root && root[i] == r && orig[i].importance == rec.importance;
    assert root'[i] == r;
  }

  lemma MergeKeepsRoots(orig: Records, consumed: set<Id>, root: map<Id, Id>, into: Id, other: Id)
    requires Rooted(orig, consumed, root)
    requires into in orig && other in orig && into != other && into !in consumed && other !in consumed
    ensures Rooted(orig, consumed + {other}, Rerooted(root, other, into))
  {
    var root' := Rerooted(root, other, into);
    assert root'.Keys == root.Keys;
    forall i | i in root' ensures root'[i] in orig && root'[i] !in consumed && root'[i] != other {
      assert root[i] in orig && root[i] !in consumed;
    }
    forall i | i in root' && i !in consumed && i != other ensures root'[i] == i {
      assert root[i] == i;
    }
  }

  lemma AbsorbTidies(orig: Records, root: map<Id, Id>, into: Id, other: Id, a: MemoryRecord, b: MemoryRecord)
    requires into in orig && into != other && other in orig && other in root && root[other] == other
    requires Tidied(orig, root, into, a)
    ensures Tidied(orig, Rerooted(root, other, into), into, Absorb(a, b))
  {
    var root' := Rerooted(root, other, into);
    assert root'[other] == into;
    assert AbsorbedAny(orig, root', into);
    forall p ensures Tidy(true, PartOf(orig[into], p), PartOf(Absorb(a, b), p)) {
      TidyAfter(AbsorbedAny(orig, root, into), PartOf(orig[into], p), PartOf(a, p), PartOf(b, p));
    }
  }

  lemma OthersStayTidied(orig: Records, root: map<Id, Id>, into: Id, other: Id, r: Id, rec: MemoryRecord)
    requires r in orig && r != into && r != other && Tidied(orig, root, r, rec)
    ensures Tidied(orig, Rerooted(root, other, into), r, rec)
  {
    var root' := Rerooted(root, other, into);
    assert AbsorbedAny(orig, root', r) <==> AbsorbedAny(orig, root, r) by {
      if i :| i in orig && i in root && i != r && root[i] == r { assert root'[i] == r; }
    }
    forall p ensures Tidy(AbsorbedAny(orig, root', r), PartOf(orig[r], p), PartOf(rec, p)) {
      assert Tidy(AbsorbedAny(orig, root, r), PartOf(orig[r], p), PartOf(rec, p));
    }
  }

  lemma SurvivorAfterMerge(orig: Records, root: map<Id, Id>, into: Id, other: Id, r: Id, recs: Records)
    requires into in recs && other in recs && r in recs && into != other && r != other
    requires other in orig && other in root && root[other] == other
    requires Survives(orig, root, into, recs[into]) && Survives(orig, root, other, recs[other])
    requires Survives(orig, root, r, recs[r])
    ensures Survives(orig, Rerooted(root, other, into), r,
                     if r == into then Absorb(recs[into], recs[other]) else recs[r])
  {
    if r == into {
      AbsorbSumsUp(orig, root, into, other, recs[into], recs[other]);
      AbsorbTidies(orig, root, into, other, recs[into], recs[other]);
    } else {
      OthersStillSumUp(orig, root, into, other, r, recs[r]);
      OthersStayTidied(orig, root, into, other, r, recs[r]);
    }
  }

  lemma MergeKeepsSurvivors(orig: Records, recs: Records, consumed: set<Id>, root: map<Id, Id>, into: Id, other: Id)
    requires AllSurvive(orig, recs, consumed, root)
    requires into in recs && other in recs && into != other && into !in consumed && other !in consumed
    requires other in orig && other in root && root[other] == other
    ensures AllSurvive(orig, recs[into := Absorb(recs[into], recs[other])], consumed + {other},
                       Rerooted(root, other, into))
  {
    var recs' := recs[into := Absorb(recs[into], recs[other])];
    forall r | r in recs' && r !in consumed + {other}
      ensures Survives(orig, Rerooted(root, other, into), r, recs'[r])
    {
      SurvivorAfterMerge(orig, root, into, other, r, recs);
    }
  }

  // ---------------------------------------------------------------- access counts

  /** Accesses of the listed records that are still alive. */
  function LiveAccesses(order: seq<Id>, recs: Records, consumed: set<Id>): nat {
    if order == [] then 0
    else
      var last := order[|order|-1];
      LiveAccesses(order[..|order|-1], recs, consumed)
      + (if last in recs && last !in consumed then recs[last].accessCount else 0)
  }

  /** A merge moves the consumed record's accesses to the one that absorbs it. */
  lemma {:induction false} MergeMovesAccesses(order: seq<Id>, recs: Records, consumed: set<Id>, into: Id, other: Id)
    requires Distinct(order) && into in recs && other in recs && into != other
    requires into !in consumed && other !in consumed
    ensures var recs' := recs[into := Absorb(recs[into], recs[other])];
            LiveAccesses(order, recs', consumed + {other})
              + (if other in order then recs[other].accessCount else 0)
            == LiveAccesses(order, recs, consumed)
              + (if into in order then recs[other].accessCount else 0)
  {
    if order != [] {
      var front, last := order[..|order|-1], order[|order|-1];
      MergeMovesAccesses(front, recs, consumed, into, other);
      assert order == front + [last] && last !in front;
    }
  }

  /** Deleting what was consumed leaves the live accesses as they are. */
  lemma {:induction false} DeletingConsumed(order: seq<Id>, recs: Records, left: Records, consumed: set<Id>)
    requires forall id :: id in left <==> id in recs && id !in consumed
    requires forall id :: id in left ==> left[id] == recs[id]
    ensures LiveAccesses(order, left, {}) == LiveAccesses(order, recs, consumed)
  {
    if order != [] {
      DeletingConsumed(order[..|order|-1], recs, left, consumed);
    }
  }

  // ---------------------------------------------------------------- importance over time

  /** The decay over an age in half-lives and the boost over an access count: 0.5^x and 1 + log1p(n)
      in the source; only their monotonicity matters here. */
  datatype Curve = Curve(decay: real -> real, boost: nat -> real)

  ghost predicate Monotone(c: Curve) {
    && (forall x, y :: 0.0 <= x <= y ==> c.decay(y) <= c.decay(x))
    && (forall x :: 0.0 <= c.decay(x))
    && (forall m, n :: m <= n ==> c.boost(m) <= c.boost(n))
    && (forall n :: 0.0 <= c.boost(n))
  }

  function Age(r: MemoryRecord, now: real): real {
    if now - r.lastAccessedAt < 0.0 then 0.0 else now - r.lastAccessedAt
  }

  function Effective(c: Curve, halfLife: real, r: MemoryRecord, now: real): real
    requires halfLife > 0.0
  {
    r.importance * c.boost(r.accessCount) * c.decay(Age(r, now) / halfLife)
  }

  predicate Expires(c: Curve, halfLife: real, minImportance: real, minAge: real, r: MemoryRecord, now: real)
    requires halfLife > 0.0
  {
    now - r.createdAt >= minAge && Effective(c, halfLife, r, now) < minImportance
  }

  function Bumped(r: MemoryRecord, now: real): MemoryRecord {
    r.(accessCount := r.accessCount + 1, lastAccessedAt := now)
  }

  lemma ScaleMonotone(k: real, x: real, y: real)
    requires 0.0 <= k && x <= y
    ensures k * x <= k * y
  {
  }

  lemma DivideMonotone(x: real, y: real, h: real)
    requires h > 0.0 && 0.0 <= x <= y
    ensures 0.0 <= x / h <= y / h
  {
  }

  /** Left alone, a record only loses effective importance. */
  lemma EffectiveOnlyDecays(c: Curve, halfLife: real, r: MemoryRecord, t1: real, t2: real)
    requires Monotone(c) && halfLife > 0.0 && r.importance >= 0.0 && t1 <= t2
    ensures Effective(c, halfLife, r, t2) <= Effective(c, halfLife, r, t1)
  {
    DivideMonotone(Age(r, t1), Age(r, t2), halfLife);
    var b := c.boost(r.accessCount);
    ProductsGrow(r.importance, b, b, c.decay(Age(r, t2) / halfLife), c.decay(Age(r, t1) / halfLife));
  }

  /** An access never lowers a record's effective importance: not at the moment of the access, and,
      for a record not last accessed in the future, at no later time either. */
  lemma AccessNeverLowers(c: Curve, halfLife: real, r: MemoryRecord, now: real, later: real)
    requires Monotone(c) && halfLife > 0.0 && r.importance >= 0.0 && now <= later
    requires later == now || r.lastAccessedAt <= now
    ensures Effective(c, halfLife, r, later) <= Effective(c, halfLife, Bumped(r, now), later)
  {
    var b := Bumped(r, now);
    DivideMonotone(Age(b, later), Age(r, later), halfLife);
    ProductsGrow(r.importance, c.boost(r.accessCount), c.boost(b.accessCount),
                 c.decay(Age(r, later) / halfLife), c.decay(Age(b, later) / halfLife));
  }

  /** A record never accessed and just created is worth its importance. */
  lemma FreshImportance(c: Curve, halfLife: real, r: MemoryRecord, now: real)
    requires halfLife > 0.0 && now <= r.lastAccessedAt && r.accessCount == 0
    requires c.decay(0.0) == 1.0 && c.boost(0) == 1.0
    ensures Effective(c, halfLife, r, now) == r.importance
  {
    assert 0.0 / halfLife == 0.0;
  }

  /** The boost is a factor: between two access counts, importance changes as the boosts do. */
  lemma BoostIsAFactor(c: Curve, halfLife: real, r: MemoryRecord, n: nat, now: real)
    requires halfLife > 0.0
    ensures Effective(c, halfLife, r.(accessCount := n), now) * c.boost(r.accessCount)
         == Effective(c, halfLife, r, now) * c.boost(n)
  {
    var d := c.decay(Age(r, now) / halfLife);
    SwapFactors(r.importance, c.boost(n), d, c.boost(r.accessCount));
  }

  lemma SwapFactors(i: real, m: real, d: real, n: real)
    ensures (i * m * d) * n == (i * n * d) * m
  {
    Regroup(i, m, d, n);
    Regroup(i, n, d, m);
  }

  lemma Regroup(i: real, m: real, d: real, n: real)
    ensures (i * m * d) * n == (i * d) * (m * n)
  {
    assert i * m * d == (i * d) * m;
    assert ((i * d) * m) * n == (i * d) * (m * n);
  }

  /** With a decay that halves over one unit, a record left alone halves over one half-life. */
  lemma HalvesPerHalfLife(c: Curve, halfLife: real, r: MemoryRecord, now: real)
    requires halfLife > 0.0 && r.lastAccessedAt <= now
    requires forall x :: 0.0 <= x ==> c.decay(x + 1.0) == c.decay(x) / 2.0
    ensures Effective(c, halfLife, r, now + halfLife) == Effective(c, halfLife, r, now) / 2.0
  {
    var k, x := r.importance * c.boost(r.accessCount), Age(r, now) / halfLife;
    OneUnitLater(Age(r, now), halfLife);
    assert Age(r, now + halfLife) == Age(r, now) + halfLife;
    assert Effective(c, halfLife, r, now + halfLife) == k * c.decay(x + 1.0);
    assert Effective(c, halfLife, r, now) == k * c.decay(x);
    HalfProduct(k, c.decay(x));
  }

  lemma OneUnitLater(a: real, h: real)
    requires h > 0.0 && 0.0 <= a
    ensures (a + h) / h == a / h + 1.0 && 0.0 <= a / h
  {
    DivideMonotone(0.0, a, h);
    assert (a / h) * h == a;
    assert (a / h + 1.0) * h == a + h;
    Quotient(a + h, a / h + 1.0, h);
  }

  lemma Quotient(x: real, q: real, h: real)
    requires h > 0.0 && q * h == x
    ensures x / h == q
  {
    assert (x / h - q) * h == (x / h) * h - q * h;
    ZeroFactor(x / h - q, h);
  }

  lemma ZeroFactor(d: real, h: real)
    requires h > 0.0
    ensures d * h == 0.0 ==> d == 0.0
  {
  }

  lemma HalfProduct(k: real, d: real)
    ensures k * (d / 2.0) == (k * d) / 2.0
  {
  }

  lemma ProductsGrow(k: real, a: real, a': real, d: real, d': real)
    requires 0.0 <= k && 0.0 <= a <= a' && 0.0 <= d <= d'
    ensures k * a * d <= k * a' * d'
  {
    ScaleMonotone(k, a, a');
    ScaleMonotone(k, 0.0, a');
    var x, y := k * a, k * a';
    ScaleMonotone(d, x, y);
    ScaleMonotone(y, d, d');
    assert x * d <= y * d <= y * d';
  }

  /** An absent or empty user stands for every user. */
  predicate InScope(user: Option<string>, r: MemoryRecord) {
    user.None? || user.value == "" || r.userId == user.value
  }

  /** What an expiry at `now` leaves, over all users or one. */
  function Remaining(c: Curve, halfLife: real, minImportance: real, minAge: real, m: Records,
                     user: Option<string>, now: real): Records
    requires halfLife > 0.0
  {
    map id | id in m && !(InScope(user, m[id])
                          && Expires(c, halfLife, minImportance, minAge, m[id], now)) :: m[id]
  }

  /** A record goes exactly if it is in scope, past its grace period and below the minimum. */
  lemma WhatGoes(c: Curve, halfLife: real, minImportance: real, minAge: real, m: Records, user: Option<string>,
                 now: real, id: Id)
    requires halfLife > 0.0 && id in m
    ensures id !in Remaining(c, halfLife, minImportance, minAge, m, user, now)
       <==> && (user.None? || user.value == "" || m[id].userId == user.value)
            && now - m[id].createdAt >= minAge && Effective(c, halfLife, m[id], now) < minImportance
  {
  }

  /** Expiry is coherent in time: what expires stays expired, so with no access in between an extra
      earlier run makes no difference. */
  lemma ExpiryIsCoherent(c: Curve, halfLife: real, minImportance: real, minAge: real, m: Records,
                         user: Option<string>, t1: real, t2: real)
    requires Monotone(c) && halfLife > 0.0 && t1 <= t2
    requires forall id :: id in m ==> m[id].importance >= 0.0
    ensures Remaining(c, halfLife, minImportance, minAge,
                      Remaining(c, halfLife, minImportance, minAge, m, user, t1), user, t2)
         == Remaining(c, halfLife, minImportance, minAge, m, user, t2)
  {
    forall id | id in m && Expires(c, halfLife, minImportance, minAge, m[id], t1)
      ensures Expires(c, halfLife, minImportance, minAge, m[id], t2)
    {
      EffectiveOnlyDecays(c, halfLife, m[id], t1, t2);
    }
  }
}

/**
 * The visit-counter aggregation of `FrontController.visitsCache`, on values.
 *
 * The "dayHits" cache holds, per post id, the views not yet added to the
 * post's durable `visits`. Every view increments that pending count; once the
 * incremented count exceeds `Threshold`, it is added to `visits`, the post is
 * written through the post service, and the entry is removed.
 */
module VisitCache {

  /** A pending count greater than this is flushed. */
  const Threshold: int := 50

  /** One flush (`Threshold + 1` views, when entries start within bounds). */
  const Batch: int := 51

  /** A call of the post service's `update`, with the post's id and the visits it persisted. */
  datatype Write = Write(id: int, visits: int)

  /** The pending count of post `id`; a missing entry counts as 0. */
  function Pending(hits: map<int, int>, id: int): int {
    if id in hits then hits[id] else 0
  }

  /** Every entry holds a count that can survive a call: 1 to `Threshold`. */
  predicate Bounded(hits: map<int, int>) {
    forall id :: id in hits ==> 1 <= hits[id] <= Threshold
  }

  /** What one view leaves behind: the cache, the post's durable visits, whether
      it flushed (so wrote the post once) and the value it returned. */
  datatype HitResult = HitResult(hits: map<int, int>, visits: int, flushed: bool, display: int)

  /** One view of post `id`, whose durable count is `visits`. */
  function Hit(hits: map<int, int>, id: int, visits: int): (r: HitResult)
    // the decision is taken on the incremented pending count
    ensures r.flushed <==> Pending(hits, id) + 1 > Threshold
    // below the threshold the durable count stays as it was, and is what is shown
    ensures !r.flushed ==> r.visits == visits && id in r.hits && r.hits[id] == Pending(hits, id) + 1
    // a flush carries the whole pending batch, this view included, and empties the entry
    ensures r.flushed ==> r.visits == visits + Pending(hits, id) + 1 && id !in r.hits
    // the returned value is the post's durable count after the call, in both cases
    ensures r.display == r.visits
    // no view is lost or counted twice
    ensures r.visits + Pending(r.hits, id) == visits + Pending(hits, id) + 1
    // the durable count never decreases
    ensures r.visits >= visits
    // other posts' entries are untouched
    ensures forall k :: k != id ==> (k in r.hits <==> k in hits) && Pending(r.hits, k) == Pending(hits, k)
    // bounded entries stay bounded, and then a flush adds exactly one batch
    ensures Bounded(hits) ==> Bounded(r.hits)
    ensures Bounded(hits) && r.flushed ==> Pending(hits, id) == Threshold && r.visits == visits + Batch
  {
    var count := Pending(hits, id) + 1;
    var stored := hits[id := count];
    if count > Threshold then HitResult(stored - {id}, visits + count, true, visits + count)
    else HitResult(stored, visits, false, visits)
  }

  /** The cache together with every post's durable visits and the writes made so far. */
  datatype Tally = Tally(visits: map<int, int>, hits: map<int, int>, writes: seq<Write>)

  /** The durable visits of post `id`. */
  function Durable(t: Tally, id: int): int {
    if id in t.visits then t.visits[id] else 0
  }

  /** One view of post `id`: a flush is recorded as a write of the new durable count. */
  function Record(t: Tally, id: int): (u: Tally)
    // the view is counted once, durably or as pending
    ensures Durable(u, id) + Pending(u.hits, id) == Durable(t, id) + Pending(t.hits, id) + 1
    // exactly the flushing view writes the post, with its new durable count
    ensures Pending(t.hits, id) + 1 > Threshold ==> u.writes == t.writes + [Write(id, Durable(u, id))]
    // a flush moves the whole pending batch, this view included, into the durable count and drops the entry
    ensures Pending(t.hits, id) + 1 > Threshold ==>
      id !in u.hits && Durable(u, id) == Durable(t, id) + Pending(t.hits, id) + 1
    // below the threshold the view stays pending
    ensures Pending(t.hits, id) + 1 <= Threshold ==> id in u.hits && u.hits[id] == Pending(t.hits, id) + 1
    ensures Pending(t.hits, id) + 1 <= Threshold ==> u.writes == t.writes && Durable(u, id) == Durable(t, id)
    // other posts are untouched
    ensures forall k :: k != id ==>
      Durable(u, k) == Durable(t, k) && (k in u.hits <==> k in t.hits) && Pending(u.hits, k) == Pending(t.hits, k)
  {
    var h := Hit(t.hits, id, Durable(t, id));
    Tally(t.visits[id := h.visits], h.hits, if h.flushed then t.writes + [Write(id, h.visits)] else t.writes)
  }

  /** Views of the posts in `ids`, one at a time, in order. */
  function Replay(t: Tally, ids: seq<int>): Tally
    decreases |ids|
  {
    if ids == [] then t else Record(Replay(t, ids[..|ids| - 1]), ids[|ids| - 1])
  }

  /** `n` views of the same post. */
  function Repeat(id: int, n: nat): (ids: seq<int>)
    ensures |ids| == n && forall i :: 0 <= i < n ==> ids[i] == id
  {
    seq(n, _ => id)
  }

  /** Conservation: durable plus pending visits of each post grow by exactly the
      number of its views. */
  lemma {:induction false} ReplayConserves(t: Tally, ids: seq<int>, id: int)
    ensures Durable(Replay(t, ids), id) + Pending(Replay(t, ids).hits, id)
         == Durable(t, id) + Pending(t.hits, id) + multiset(ids)[id]
  {
    if ids != [] {
      var init, last := ids[..|ids| - 1], ids[|ids| - 1];
      ReplayConserves(t, init, id);
      assert ids == init + [last];
    }
  }

  /** A post's durable visits never decrease. */
  lemma {:induction false} ReplayMonotone(t: Tally, ids: seq<int>, id: int)
    ensures Durable(Replay(t, ids), id) >= Durable(t, id)
  {
    if ids != [] {
      ReplayMonotone(t, ids[..|ids| - 1], id);
    }
  }

  /** Posts that are not viewed keep their durable and pending counts. */
  lemma {:induction false} ReplayIsolates(t: Tally, ids: seq<int>, id: int)
    requires id !in ids
    ensures Durable(Replay(t, ids), id) == Durable(t, id)
    ensures (id in Replay(t, ids).hits <==> id in t.hits) && Pending(Replay(t, ids).hits, id) == Pending(t.hits, id)
  {
    if ids != [] {
      var init := ids[..|ids| - 1];
      assert ids == init + [ids[|ids| - 1]];
      ReplayIsolates(t, init, id);
    }
  }

  /** Pending counts stay within 1 to `Threshold`; writes are only ever appended,
      at most one per view, each for a viewed post. */
  lemma {:induction false} ReplayKeepsBounded(t: Tally, ids: seq<int>)
    requires Bounded(t.hits)
    ensures Bounded(Replay(t, ids).hits)
    ensures t.writes <= Replay(t, ids).writes
    ensures |Replay(t, ids).writes| <= |t.writes| + |ids|
    ensures forall i :: |t.writes| <= i < |Replay(t, ids).writes| ==> Replay(t, ids).writes[i].id in ids
  {
    if ids != [] {
      var init := ids[..|ids| - 1];
      ReplayKeepsBounded(t, init);
      assert forall x :: x in init ==> x in ids;
    }
  }

  lemma DivModStep(x: nat)
    ensures x % Batch == Threshold ==> (x + 1) / Batch == x / Batch + 1 && (x + 1) % Batch == 0
    ensures x % Batch != Threshold ==> (x + 1) / Batch == x / Batch && (x + 1) % Batch == x % Batch + 1
  {
  }

  /** One view of a post whose entry is within bounds, seen through a `Tally`. */
  lemma RecordStep(s: Tally, id: int)
    requires Bounded(s.hits)
    ensures var u := Record(s, id);
      && Bounded(u.hits)
      && (Pending(s.hits, id) == Threshold ==>
            Pending(u.hits, id) == 0 && Durable(u, id) == Durable(s, id) + Batch
            && u.writes == s.writes + [Write(id, Durable(u, id))])
      && (Pending(s.hits, id) != Threshold ==>
            Pending(u.hits, id) == Pending(s.hits, id) + 1 && Durable(u, id) == Durable(s, id)
            && u.writes == s.writes)
  {
  }

  /** `n` views of post `id`, one after the other. */
  function ViewsOf(t: Tally, id: int, n: nat): Tally {
    if n == 0 then t else Record(ViewsOf(t, id, n - 1), id)
  }

  lemma {:induction false} ReplayRepeat(t: Tally, id: int, n: nat)
    ensures Replay(t, Repeat(id, n)) == ViewsOf(t, id, n)
  {
    if n > 0 {
      ReplayRepeat(t, id, n - 1);
      assert Repeat(id, n)[..n - 1] == Repeat(id, n - 1);
    }
  }

  /** Closed form of `n` views of one post whose entry starts within bounds
      at `p`: of the `p + n` views, every complete batch of `Batch` has been
      added to the durable count and written, once each and only for this
      post, and the remainder is pending. */
  lemma {:induction false} RepeatedViews(t: Tally, id: int, n: nat)
    requires Bounded(t.hits)
    ensures var u := Replay(t, Repeat(id, n)); var total := Pending(t.hits, id) + n;
      && Bounded(u.hits)
      && Pending(u.hits, id) == total % Batch
      && Durable(u, id) == Durable(t, id) + total - total % Batch
      && t.writes <= u.writes
      && |u.writes| == |t.writes| + total / Batch
      && forall i :: |t.writes| <= i < |u.writes| ==> u.writes[i].id == id
  {
    ReplayRepeat(t, id, n);
    ViewsClosedForm(t, id, n);
  }

  /** After `total` views counted from the start of `t` (its pending entry
      included), `u` holds their closed form. */
  predicate Settled(t: Tally, u: Tally, id: int, total: nat) {
    && Bounded(u.hits)
    && Pending(u.hits, id) == total % Batch
    && Durable(u, id) == Durable(t, id) + total - total % Batch
    && t.writes <= u.writes
    && |u.writes| == |t.writes| + total / Batch
    && forall i :: |t.writes| <= i < |u.writes| ==> u.writes[i].id == id
  }

  lemma SettledStep(t: Tally, prev: Tally, id: int, total: nat)
    requires Settled(t, prev, id, total)
    ensures Settled(t, Record(prev, id), id, total + 1)
  {
    RecordStep(prev, id);
    DivModStep(total);
  }

  lemma {:induction false} ViewsClosedForm(t: Tally, id: int, n: nat)
    requires Bounded(t.hits)
    ensures Pending(t.hits, id) >= 0
    ensures Settled(t, ViewsOf(t, id, n), id, Pending(t.hits, id) + n)
  {
    var p := Pending(t.hits, id);
    if n == 0 {
      assert p / Batch == 0 && p % Batch == p;
    } else {
      ViewsClosedForm(t, id, n - 1);
      SettledStep(t, ViewsOf(t, id, n - 1), id, p + n - 1);
    }
  }

  /** From an empty entry, none of the first `Threshold` views writes the post,
      and each returns the durable count the post had before them. */
  lemma QuietBeforeThreshold(t: Tally, id: int, k: nat)
    requires Bounded(t.hits) && id !in t.hits && k < Threshold
    ensures var u := Replay(t, Repeat(id, k)); var h := Hit(u.hits, id, Durable(u, id));
      && !h.flushed && h.display == Durable(t, id)
      && Record(u, id).writes == t.writes
  {
    RepeatedViews(t, id, k);
    assert k / Batch == 0 && k % Batch == k;
    var u := Replay(t, Repeat(id, k));
    assert Pending(u.hits, id) == k && Durable(u, id) == Durable(t, id) && u.writes == t.writes;
  }

  /** From an empty entry, the view number `Threshold + 1` flushes: it adds the
      whole batch to the durable count, writes the post once, empties the entry
      and returns the new total. */
  lemma FlushOnBatch(t: Tally, id: int)
    requires Bounded(t.hits) && id !in t.hits
    ensures var u := Replay(t, Repeat(id, Threshold)); var h := Hit(u.hits, id, Durable(u, id));
      && h.flushed && h.visits == Durable(t, id) + Batch && h.display == h.visits && id !in h.hits
      && Record(u, id).writes == t.writes + [Write(id, Durable(t, id) + Batch)]
  {
    RepeatedViews(t, id, Threshold);
  }
}

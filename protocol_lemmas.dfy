/**
 * Properties of the batch upsert rule that relate several records of a batch,
 * or several batches.
 */
module ProtocolLemmas {
  import opened Protocol

  function Max(a: int, b: int): int
  {
    if a >= b then a else b
  }

  /**
   * The batch is a left fold: handling `a + b` is handling `a` and then, if
   * nothing raised, handling `b` on the list as `a` left it.
   */
  lemma {:induction false} UpsertConcat(models: seq<Model>, a: seq<Record>, b: seq<Record>)
    ensures Upsert(models, a + b) ==
              match Upsert(models, a)
              case Acked(m) => Upsert(m, b)
              case Raised(m) => Raised(m)
    decreases |a|
  {
    if a == [] {
      assert a + b == b;
    } else {
      assert (a + b)[0] == a[0];
      assert (a + b)[1..] == a[1..] + b;
      match Apply(models, a[0])
      case None =>
      case Some(next) => UpsertConcat(next, a[1..], b);
    }
  }

  /** The final length is the initial length plus the number of records that took the append branch. */
  lemma {:induction false} LengthCountsAppends(models: seq<Model>, batch: seq<Record>)
    ensures |Upsert(models, batch).models| == |models| + Appends(models, batch)
    decreases |batch|
  {
    if batch != [] {
      match Apply(models, batch[0])
      case None =>
      case Some(next) => LengthCountsAppends(next, batch[1..]);
    }
  }

  /**
   * No record raises when none of its ids is below minus the initial length:
   * the list never shrinks, so an index valid from the end stays valid.
   * In particular a batch of non-negative ids is always acknowledged.
   */
  lemma {:induction false} InRangeIdsAreAcked(models: seq<Model>, batch: seq<Record>)
    requires forall k :: 0 <= k < |batch| ==> -(|models| as int) <= batch[k].id
    ensures Upsert(models, batch).Acked?
    decreases |batch|
  {
    if batch != [] {
      var next := Apply(models, batch[0]).value;
      assert forall k :: 0 <= k < |batch| - 1 ==> batch[1..][k] == batch[k + 1];
      InRangeIdsAreAcked(next, batch[1..]);
    }
  }

  /**
   * A client that numbers its records `off, off + 1, ...` starting at or
   * below the current length: each record lands at index `id`, moving the
   * model already there or appending a new one exactly at `id`.
   */
  lemma {:induction false} ConsecutiveIds(models: seq<Model>, batch: seq<Record>, off: nat)
    requires off <= |models|
    requires forall k :: 0 <= k < |batch| ==> batch[k].id == off + k
    ensures Upsert(models, batch).Acked?
    ensures |Upsert(models, batch).models| == Max(|models|, off + |batch|)
    ensures forall j :: 0 <= j < |Upsert(models, batch).models| ==>
              Upsert(models, batch).models[j] ==
                if j < off || j >= off + |batch| then models[j]
                else if j < |models| then Move(models[j], batch[j - off])
                else Spawn(batch[j - off])
    decreases |batch|
  {
    if batch != [] {
      var r := batch[0];
      var rest := batch[1..];
      assert forall k :: 0 <= k < |rest| ==> rest[k] == batch[k + 1];
      var next := Apply(models, r).value;
      ConsecutiveIds(next, rest, off + 1);
      var res := Upsert(next, rest);
      assert Upsert(models, batch) == res;
      forall j | 0 <= j < |res.models|
        ensures res.models[j] ==
                  if j < off || j >= off + |batch| then models[j]
                  else if j < |models| then Move(models[j], batch[j - off])
                  else Spawn(batch[j - off])
      {
        if j == off {
          assert res.models[j] == next[j];
        }
      }
    }
  }

  /** Against a list of n models, ids 0..n-1 (the shape the bundled client sends) only update. */
  lemma ResendOnlyUpdates(models: seq<Model>, batch: seq<Record>)
    requires |batch| <= |models|
    requires forall k :: 0 <= k < |batch| ==> batch[k].id == k
    ensures Appends(models, batch) == 0
    ensures Upsert(models, batch).Acked? && |Upsert(models, batch).models| == |models|
  {
    ConsecutiveIds(models, batch, 0);
    LengthCountsAppends(models, batch);
  }

  /** The first batch with ids 0..n-1 against an empty scene spawns one model per record, in order. */
  lemma FirstSendSpawnsAll(batch: seq<Record>)
    requires forall k :: 0 <= k < |batch| ==> batch[k].id == k
    ensures Upsert([], batch).Acked?
    ensures |Upsert([], batch).models| == |batch|
    ensures forall k :: 0 <= k < |batch| ==> Upsert([], batch).models[k] == Spawn(batch[k])
  {
    ConsecutiveIds([], batch, 0);
  }

  /** Sending the same batch with ids 0..n-1 a second time changes nothing. */
  lemma ResendIsIdempotent(models: seq<Model>, batch: seq<Record>)
    requires forall k :: 0 <= k < |batch| ==> batch[k].id == k
    ensures Upsert(Upsert(models, batch).models, batch) == Upsert(models, batch)
  {
    var once := Upsert(models, batch).models;
    ConsecutiveIds(models, batch, 0);
    ConsecutiveIds(once, batch, 0);
    var twice := Upsert(once, batch).models;
    assert |twice| == |once|;
    forall j | 0 <= j < |once| ensures twice[j] == once[j] {
    }
    assert twice == once;
  }

  /**
   * Ids are not indices: a record whose id lies past the end of the list
   * appends at the end, and sending it again appends a second copy instead
   * of moving the first, because the list is still shorter than the id.
   */
  lemma SparseIdAppendsAgain(models: seq<Model>, r: Record)
    requires r.id > |models|
    ensures Upsert(models, [r]) == Acked(models + [Spawn(r)])
    ensures Upsert(Upsert(models, [r]).models, [r]) == Acked(models + [Spawn(r), Spawn(r)])
  {
    var once := models + [Spawn(r)];
    assert Apply(models, r) == Some(once);
    assert Upsert(models, [r]) == Upsert(once, []);
    assert Apply(once, r) == Some(once + [Spawn(r)]);
    assert Upsert(once, [r]) == Upsert(once + [Spawn(r)], []);
    assert once + [Spawn(r)] == models + [Spawn(r), Spawn(r)];
  }
}

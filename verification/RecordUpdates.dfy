/** Updates of one record as the core executes them: an update is known by a digest of its content, so what
    the record ends with is the content that came up for the first time last. */
module RecordUpdates {
  import opened Wrappers
  import EffectRouting
  import Execution

  datatype Update = Update(data: string, version: string)

  /** The record, and how contents are digested. */
  datatype Target = Target(digests: EffectRouting.Digests, recordType: string, recordId: string) {
    function Payload(u: Update): EffectRouting.Payload { EffectRouting.Record(recordType, recordId, u.data, u.version) }

    function Key(u: Update): Execution.Key { EffectRouting.KeyOf(digests, Payload(u)) }

    /** Nothing of this digest was asked for before. */
    ghost predicate New(updates: seq<Update>, i: int) {
      0 <= i < |updates| && forall j :: 0 <= j < i ==> digests.record(updates[j].data) != digests.record(updates[i].data)
    }

    ghost predicate LastNew(updates: seq<Update>, i: int) {
      New(updates, i) && forall j :: i < j ==> !New(updates, j)
    }
  }

  /** What the executor remembers, and what was written last. */
  datatype Written = Written(executor: Execution.State, last: Option<Update>)

  /** One update that nobody else interferes with: unless its key is known, it is claimed and executed. */
  function Upsert(t: Target, w: Written, u: Update): Written {
    var key := t.Key(u);
    if Execution.IsDuplicate(w.executor, key) then w
    else Written(Execution.Settle(key, true).Apply(Execution.Claim(key).Apply(w.executor)), Some(u))
  }

  function Upserts(t: Target, updates: seq<Update>): Written {
    if updates == [] then Written(Execution.FRESH, None)
    else Upsert(t, Upserts(t, updates[..|updates| - 1]), updates[|updates| - 1])
  }

  lemma UpsertKnows(t: Target, w: Written, u: Update, key: Execution.Key)
    ensures Execution.IsDuplicate(Upsert(t, w, u).executor, key) <==> Execution.IsDuplicate(w.executor, key) || key == t.Key(u)
    ensures Upsert(t, w, u).last == if Execution.IsDuplicate(w.executor, t.Key(u)) then w.last else Some(u)
  {
    hide Target.Key;
  }

  /** What the executor knows afterwards are exactly the keys of the updates. */
  lemma {:induction false} KeysAreKnown(t: Target, updates: seq<Update>, key: Execution.Key)
    ensures Execution.IsDuplicate(Upserts(t, updates).executor, key) <==> exists i :: 0 <= i < |updates| && t.Key(updates[i]) == key
  {
    hide Target.Key, Upsert;
    if updates != [] {
      hide Execution.IsDuplicate;
      var n := |updates| - 1;
      KeysAreKnown(t, updates[..n], key);
      UpsertKnows(t, Upserts(t, updates[..n]), updates[n], key);
      assert forall i :: 0 <= i < n ==> updates[..n][i] == updates[i];
    }
  }

  /** An update is executed exactly if its content is new by its digest. */
  lemma ExecutedIffNew(t: Target, updates: seq<Update>)
    requires t.digests.Valid() && updates != []
    ensures var n := |updates| - 1;
      Upserts(t, updates).last == if t.New(updates, n) then Some(updates[n]) else Upserts(t, updates[..n]).last
  {
    hide Target.Key, Execution.IsDuplicate, Upsert, EffectRouting.Digests.Valid;
    var n := |updates| - 1;
    UpsertKnows(t, Upserts(t, updates[..n]), updates[n], t.Key(updates[n]));
    KeysAreKnown(t, updates[..n], t.Key(updates[n]));
    forall i | 0 <= i < n
      ensures t.Key(updates[i]) == t.Key(updates[n]) <==> t.digests.record(updates[i].data) == t.digests.record(updates[n].data)
    {
      SameKey(t, updates[i], updates[n]);
    }
  }

  lemma SameKey(t: Target, a: Update, b: Update)
    requires t.digests.Valid()
    ensures t.Key(a) == t.Key(b) <==> t.digests.record(a.data) == t.digests.record(b.data)
  {
    EffectRouting.RecordsApart(t.digests, t.Payload(a), t.Payload(b));
  }

  /** The record holds the update whose content came up for the first time last. */
  lemma {:induction false} HoldsTheLastNew(t: Target, updates: seq<Update>, i: int)
    requires t.digests.Valid() && t.LastNew(updates, i)
    ensures 0 <= i < |updates| && Upserts(t, updates).last == Some(updates[i])
    decreases |updates|
  {
    hide Upserts;
    var n := |updates| - 1;
    ExecutedIffNew(t, updates);
    if i < n {
      assert !t.New(updates, n);
      assert forall j :: t.New(updates[..n], j) ==> t.New(updates, j);
      HoldsTheLastNew(t, updates[..n], i);
    }
  }

  lemma {:induction false} SomeLastNew(t: Target, updates: seq<Update>) returns (i: int)
    requires updates != []
    ensures t.LastNew(updates, i)
    decreases |updates|
  {
    var n := |updates| - 1;
    if n == 0 || t.New(updates, n) {
      i := n;
    } else {
      i := SomeLastNew(t, updates[..n]);
      assert forall j :: j < n ==> (t.New(updates[..n], j) <==> t.New(updates, j));
    }
  }

  /** The record ends with the content asked for last, by its digest, if and only if no other content came
      up for the first time after that one did. */
  lemma ConvergesIff(t: Target, updates: seq<Update>)
    requires t.digests.Valid() && updates != []
    ensures var stored, digest := Upserts(t, updates).last, t.digests.record(updates[|updates| - 1].data);
      && stored.Some?
      && (t.digests.record(stored.value.data) == digest <==>
            forall j :: t.New(updates, j) && t.digests.record(updates[j].data) != digest ==>
              exists i :: j < i < |updates| && t.New(updates, i) && t.digests.record(updates[i].data) == digest)
  {
    hide Upserts;
    var i := SomeLastNew(t, updates);
    HoldsTheLastNew(t, updates, i);
    assert t.New(updates, i);
  }

  /** So a content that is replaced and then asked for again is not written again. */
  lemma RevertedContentIsLost(t: Target, a: Update, b: Update, again: Update)
    requires t.digests.Valid() && t.digests.record(a.data) != t.digests.record(b.data) && again.data == a.data
    ensures Upserts(t, [a, b, again]).last == Some(b)
  {
    var updates := [a, b, again];
    assert t.digests.record(updates[0].data) == t.digests.record(updates[2].data);
    assert t.LastNew(updates, 1);
    HoldsTheLastNew(t, updates, 1);
  }
}

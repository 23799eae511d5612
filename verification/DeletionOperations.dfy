/** The operations of the deletion worker and the confirmation page, each on its own, on the rows they update. */
module DeletionOperations {
  import opened Common
  import opened FindingModel
  import opened DeletionGuards
  import opened DeletionProtocol
  import opened DeletionRows
  import opened DeletionSafety

  /** What is found before a planned change, and how it goes if it is requested. */
  datatype Attempt = Attempt(found: Circumstances, status: RuleStatus)

  function Settled(item: Item): Item {
    RecoveredItem(RecoveredItem(RecoveredItem(item, 0), 1), 2)
  }

  /** The three updates of a recovery, in this order, settle an item. */
  lemma SettledIsSettled(item: Item)
    ensures StageGood(Settled(item), 3)
    ensures MayBeSent(item.status) ==> MayBeSent(Settled(item).status)
    ensures Settled(item).results == item.results && Settled(item).status != Verified
  {
  }

  /** Items taken for execution exist, are no longer verified, and were taken once each. */
  predicate OutOfPlay(items: Items, taken: seq<ItemId>) {
    && (forall k | 0 <= k < |taken| :: taken[k] in items && items[taken[k]].status != Verified)
    && forall j, k | 0 <= j < k < |taken| :: taken[j] != taken[k]
  }

  class Requests {
    var batches: Batches
    var items: Items
    var created: map<BatchId, Time>

    /** What left for NSX from here: positions in the plan being applied. */
    ghost var requested: seq<nat>

    /** Every item taken for execution so far, in order. */
    ghost var taken: seq<ItemId>

    ghost predicate Valid()
      reads this
    {
      OutOfPlay(items, taken) && batches.Keys <= created.Keys
    }

    constructor ()
      ensures Valid() && batches == map[] && items == map[] && requested == [] && taken == []
    {
      batches, items, created := map[], map[], map[];
      requested, taken := [], [];
    }

    /** Only one worker gets a queued request, the oldest first. */
    method Claim(preview: bool) returns (claimed: Option<BatchId>)
      requires Valid()
      modifies this`batches
      ensures Valid()
      ensures var wanted := if preview then PreviewQueued else Queued;
              && (claimed == None ==> batches == old(batches) && forall b | b in batches :: batches[b].status != wanted)
              && (claimed.Some? ==>
                    && claimed.value in old(batches) && old(batches)[claimed.value].status == wanted
                    && (forall b | b in old(batches) && old(batches)[b].status == wanted ::
                          created[claimed.value] <= created[b])
                    && batches == old(batches)[claimed.value :=
                         old(batches)[claimed.value].(status := if preview then Checking else Running)])
    {
      var wanted := if preview then PreviewQueued else Queued;
      claimed := None;
      var remaining := batches.Keys;
      while remaining != {}
        invariant remaining <= batches.Keys && batches == old(batches)
        invariant claimed.Some? ==> claimed.value in batches && batches[claimed.value].status == wanted
        invariant forall b | b in batches && b !in remaining && batches[b].status == wanted ::
                    claimed.Some? && created[claimed.value] <= created[b]
      {
        var b :| b in remaining;
        if batches[b].status == wanted && (claimed == None || created[b] < created[claimed.value]) {
          claimed := Some(b);
        }
        remaining := remaining - {b};
      }
      if claimed.Some? {
        batches := batches[claimed.value := batches[claimed.value].(status := if preview then Checking else Running)];
      }
    }

    /** Compare and set: whoever finds an item verified takes it, and it was never taken before. */
    method Take(i: ItemId) returns (ok: bool)
      requires Valid()
      modifies this`items, this`taken
      ensures Valid()
      ensures ok <==> i in old(items) && old(items)[i].status == Verified
      ensures ok ==> i !in old(taken) && taken == old(taken) + [i]
                     && items == old(items)[i := old(items)[i].(status := Validating)]
      ensures !ok ==> items == old(items) && taken == old(taken)
    {
      ok := i in items && items[i].status == Verified;
      if ok {
        items := items[i := items[i].(status := Validating)];
        taken := taken + [i];
      }
    }

    /** One of the three updates of a recovery. */
    method Settle(b: BatchId, stage: nat)
      requires Valid()
      modifies this`items
      ensures Valid()
      ensures items.Keys == old(items).Keys
      ensures forall i | i in items ::
                items[i] == if old(items)[i].batch == b then RecoveredItem(old(items)[i], stage) else old(items)[i]
    {
      items := map i | i in items :: if items[i].batch == b then RecoveredItem(items[i], stage) else items[i];
    }

    /** After a worker stopped. A request being cancelled is cancelled; otherwise its items are settled. */
    method Interrupt(b: BatchId)
      requires Valid()
      modifies this`batches, this`items
      ensures Valid()
      ensures var status := if b in old(batches) then Some(old(batches)[b].status) else None;
              && (status == Some(Cancelling) ==>
                    items == old(items) && batches == old(batches)[b := old(batches)[b].(status := BatchStatus.Cancelled)])
              && (status.Some? && status.value in {Checking, Running} ==>
                    && batches == old(batches)[b := old(batches)[b].(status := Interrupted)]
                    && items.Keys == old(items).Keys
                    && forall i | i in items ::
                         items[i] == if old(items)[i].batch == b then Settled(old(items)[i]) else old(items)[i])
              && (status == None || status.value !in {Cancelling, Checking, Running} ==>
                    items == old(items) && batches == old(batches))
    {
      if b in batches && batches[b].status == Cancelling {
        batches := batches[b := batches[b].(status := BatchStatus.Cancelled)];
        return;
      }
      if b !in batches || batches[b].status !in {Checking, Running} {
        return;
      }
      hide RecoveredItem;
      Settle(b, 0);
      Settle(b, 1);
      Settle(b, 2);
      batches := batches[b := batches[b].(status := Interrupted)];
    }

    /** Stores the intent, requests the change and stores what came of it. */
    method ApplyChange(i: ItemId, k: nat, status: RuleStatus)
      requires i in items && k == |items[i].results| < |items[i].plan| && requested == Upto(k) && status != RuleSending
      requires Aligned(items[i]) && AllDone(items[i].results) && Valid()
      modifies this`items, this`requested
      ensures Valid()
      ensures items.Keys == old(items).Keys && forall j | j in items && j != i :: items[j] == old(items)[j]
      ensures items[i] == old(items)[i].(results := items[i].results)
      ensures |items[i].results| == k + 1 && items[i].results[..k] == old(items)[i].results
      ensures items[i].results[k].status == status
      ensures Aligned(items[i]) && requested == Upto(k + 1)
      ensures AllDone(items[i].results) <==> status in {RuleUpdated, RuleDeleted}
    {
      items := items[i := Noted(items[i])];
      requested := requested + [k];
      assert Upto(k + 1) == Upto(k) + [k];
      items := items[i := Concluded(items[i], status)];
    }

    /** Applies an approved plan change by change. Every change is checked first, every intent is stored before its
        request, nothing is requested twice, and the first refusal or failure ends it. */
    method ApplyPlan(i: ItemId, attempts: seq<Attempt>) returns (finished: bool)
      requires Valid() && i in items && |attempts| == |items[i].plan| && requested == []
      requires forall a | a in attempts :: a.status != RuleSending
      modifies this`items, this`requested
      ensures Valid()
      ensures items.Keys == old(items).Keys && forall j | j in items && j != i :: items[j] == old(items)[j]
      ensures items[i] == old(items)[i].(results := items[i].results)
      ensures old(items)[i].results != [] ==> !finished && items == old(items) && requested == []
      ensures old(items)[i].results == [] ==>
                Aligned(items[i]) && requested == Upto(|items[i].results|) && (finished <==> FullyApplied(items[i]))
      ensures old(items)[i].results == [] ==> forall k | 0 <= k < |items[i].results| ::
                && MayChange(items[i].(results := items[i].results[..k]), attempts[k].found)
                && items[i].results[k].status == attempts[k].status
      ensures old(items)[i].results == [] && !finished && AllDone(items[i].results) ==>
                var k := |items[i].results|;
                k < |items[i].plan| && !MayChange(items[i], attempts[k].found)
    {
      hide Aligned, MayChange;
      assert items[i].results == [] ==> Aligned(items[i]) by {
        NothingIsAligned(items[i]);
      }
      var plan := items[i].plan;
      if items[i].results != [] {
        return false;
      }
      assert Upto(0) == [];
      for k := 0 to |plan|
        invariant Valid()
        invariant items.Keys == old(items).Keys && forall j | j in items && j != i :: items[j] == old(items)[j]
        invariant items[i] == old(items)[i].(results := items[i].results) && |items[i].results| == k
        invariant Aligned(items[i]) && AllDone(items[i].results) && requested == Upto(k)
        invariant forall m | 0 <= m < k ::
                    && MayChange(items[i].(results := items[i].results[..m]), attempts[m].found)
                    && items[i].results[m].status == attempts[m].status
      {
        if !MayChange(items[i], attempts[k].found) {
          return false;
        }
        ghost var before := items[i];
        assert attempts[k] in attempts;
        ApplyChange(i, k, attempts[k].status);
        forall m | 0 <= m <= k
          ensures items[i].(results := items[i].results[..m]) == before.(results := before.results[..m])
        {
          assert items[i].results[..m] == items[i].results[..k][..m];
        }
        assert before.(results := before.results[..k]) == before;
        if attempts[k].status !in {RuleUpdated, RuleDeleted} {
          return false;
        }
      }
      return true;
    }
  }

  lemma NothingIsAligned(item: Item)
    ensures item.results == [] ==> Aligned(item) && AllDone(item.results)
  {
  }
}

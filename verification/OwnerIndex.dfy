/** Names of the ledger. */
module Ledger {
  type Address = nat
  type Symbol = nat

  datatype Option<+T> = None | Some(value: T)

  datatype Result<+T, +E> = Ok(value: T) | Err(error: E)
}

/**
 The owner-ticket index kept by contracts/ticket/src/storage.rs and
 contracts/payments/src/storage.rs: back-pointers, numbered slots and counts, with
 removal by swapping in the last slot.
 */
module OwnerIndexes {
  import opened Ledger
  import opened MapSums

  /** Entries `OwnerTicket`, `OwnerTicketIndex` and `OwnerTicketsCount`. */
  datatype OwnerIndex = OwnerIndex(
    member: map<(Address, nat), nat>, slots: map<(Address, nat), nat>, counts: map<Address, int>)
  {
    function Count(o: Address): (n: nat) {
      if o in counts && counts[o] >= 0 then counts[o] else 0
    }

    /** `add_owner_ticket`. */
    function Add(o: Address, t: nat): OwnerIndex {
      OwnerIndex(member[(o, t) := Count(o)], slots[(o, Count(o)) := t], counts[o := Count(o) + 1])
    }

    /** `remove_owner_ticket`. */
    function Remove(o: Address, t: nat): OwnerIndex {
      if (o, t) !in member then this
      else
        var idx, left := member[(o, t)], member - {(o, t)};
        if Count(o) == 0 then OwnerIndex(left, slots - {(o, idx)}, counts)
        else
          var last := Count(o) - 1;
          if idx < last && (o, last) in slots then
            var moved := slots[(o, last)];
            OwnerIndex(left[(o, moved) := idx], slots[(o, idx) := moved] - {(o, last)}, counts[o := last])
          else
            OwnerIndex(left, slots - {(o, last)}, counts[o := last])
    }

    /** `remove_owner_ticket_map` of the payments contract, which leaves the slots alone when the count is zero. */
    function RemoveCounted(o: Address, t: nat): OwnerIndex {
      if (o, t) in member && Count(o) == 0 then this.(member := member - {(o, t)}) else Remove(o, t)
    }

    /** The first `n` slots of an owner, skipping missing entries. */
    function Collect(o: Address, n: nat): seq<nat> {
      if n == 0 then []
      else Collect(o, n - 1) + if (o, n - 1) in slots then [slots[(o, n - 1)]] else []
    }

    /** `get_tickets_by_owner`. */
    function Listing(o: Address): seq<nat> { Collect(o, Count(o)) }

    /** Every back-pointer names a slot below the count that holds its ticket. */
    ghost predicate BackPointers() {
      forall o, t {:trigger (o, t) in member} :: (o, t) in member ==>
        member[(o, t)] < Count(o) && (o, member[(o, t)]) in slots && slots[(o, member[(o, t)])] == t
    }

    /** The slots are exactly the numbered ones, and each is pointed back to. */
    ghost predicate NumberedSlots() {
      && (forall o, i {:trigger (o, i) in slots} :: (o, i) in slots ==>
            i < Count(o) && (o, slots[(o, i)]) in member && member[(o, slots[(o, i)])] == i)
      && (forall o: Address, i: nat {:trigger (o, i) in slots} :: i < Count(o) ==> (o, i) in slots)
    }

    /** The counts over all owners add up to the number of back-pointers. */
    ghost predicate CountsAddUp() {
      (forall o :: o in counts ==> counts[o] >= 0) && Sum(counts) == |member|
    }

    ghost predicate Consistent() {
      BackPointers() && NumberedSlots() && CountsAddUp()
    }
  }

  const EMPTY: OwnerIndex := OwnerIndex(map[], map[], map[])

  /** Removal in an ordered list: the last entry takes the freed place. */
  function SwapRemove(s: seq<nat>, i: nat): (r: seq<nat>)
    requires i < |s|
    ensures |r| == |s| - 1
  {
    s[i := s[|s| - 1]][..|s| - 1]
  }

  lemma {:induction false} CollectAt(ix: OwnerIndex, o: Address, n: nat)
    requires ix.Consistent() && n <= ix.Count(o)
    ensures |ix.Collect(o, n)| == n
    ensures forall i :: 0 <= i < n ==> ix.Collect(o, n)[i] == ix.slots[(o, i)]
  {
    if n > 0 { CollectAt(ix, o, n - 1); }
  }

  /** A listing is the owner's slots in order. */
  lemma ListingAt(ix: OwnerIndex, o: Address)
    requires ix.Consistent()
    ensures |ix.Listing(o)| == ix.Count(o)
    ensures forall i :: 0 <= i < ix.Count(o) ==> (o, i) in ix.slots && ix.Listing(o)[i] == ix.slots[(o, i)]
  {
    CollectAt(ix, o, ix.Count(o));
  }

  /** A ticket is listed exactly once if it has a back-pointer, and not at all otherwise. */
  lemma ListedOnce(ix: OwnerIndex, o: Address, t: nat)
    requires ix.Consistent()
    ensures multiset(ix.Listing(o))[t] == if (o, t) in ix.member then 1 else 0
    ensures (o, t) in ix.member ==> ix.member[(o, t)] < |ix.Listing(o)| && ix.Listing(o)[ix.member[(o, t)]] == t
  {
    hide OwnerIndex.Listing, OwnerIndex.CountsAddUp;
    ListingAt(ix, o);
    var s := ix.Listing(o);
    if (o, t) in ix.member {
      var k := ix.member[(o, t)];
      assert s == s[..k] + [t] + s[k + 1..];
      assert t !in s[..k] && t !in s[k + 1..];
    } else {
      assert t !in s;
    }
  }

  lemma AddPointers(ix: OwnerIndex, o: Address, t: nat)
    requires ix.BackPointers() && ix.NumberedSlots() && (o, t) !in ix.member
    ensures ix.Add(o, t).BackPointers() && ix.Add(o, t).NumberedSlots()
  {
    var a, n := ix.Add(o, t), ix.Count(o);
    assert (o, n) !in ix.slots;
    assert forall p :: p != o ==> a.Count(p) == ix.Count(p);
    assert a.Count(o) == n + 1;
  }

  lemma AddCounts(ix: OwnerIndex, o: Address, t: nat)
    requires ix.CountsAddUp() && (o, t) !in ix.member
    ensures ix.Add(o, t).CountsAddUp()
  {
    hide Sum;
    SumUpdate(ix.counts, o, ix.Count(o) + 1);
    SizeAdded(ix.member, (o, t), ix.Count(o));
  }

  lemma AddListing(ix: OwnerIndex, o: Address, t: nat)
    requires ix.Consistent() && ix.Add(o, t).Consistent() && (o, t) !in ix.member
    ensures ix.Add(o, t).Listing(o) == ix.Listing(o) + [t]
    ensures forall p :: p != o ==> ix.Add(o, t).Listing(p) == ix.Listing(p)
  {
    hide OwnerIndex.Consistent, OwnerIndex.Listing;
    var a := ix.Add(o, t);
    ListingAt(ix, o);
    ListingAt(a, o);
    forall p | p != o ensures a.Listing(p) == ix.Listing(p) {
      ListingAt(ix, p);
      ListingAt(a, p);
    }
  }

  lemma AddKeeps(ix: OwnerIndex, o: Address, t: nat)
    requires ix.Consistent() && (o, t) !in ix.member
    ensures ix.Add(o, t).Consistent()
    ensures ix.Add(o, t).Listing(o) == ix.Listing(o) + [t]
    ensures forall p :: p != o ==> ix.Add(o, t).Listing(p) == ix.Listing(p)
  {
    hide OwnerIndex.BackPointers, OwnerIndex.NumberedSlots, OwnerIndex.CountsAddUp, OwnerIndex.Add, OwnerIndex.Listing;
    AddPointers(ix, o, t);
    AddCounts(ix, o, t);
    AddListing(ix, o, t);
  }

  lemma RemovePointers(ix: OwnerIndex, o: Address, t: nat)
    requires ix.BackPointers() && ix.NumberedSlots() && (o, t) in ix.member
    requires forall p :: p in ix.counts ==> ix.counts[p] >= 0
    ensures ix.Remove(o, t).BackPointers() && ix.Remove(o, t).NumberedSlots()
    ensures ix.Remove(o, t).member.Keys == ix.member.Keys - {(o, t)}
  {
    var a, idx, last := ix.Remove(o, t), ix.member[(o, t)], ix.Count(o) - 1;
    assert (o, idx) in ix.slots && ix.slots[(o, idx)] == t;
    assert (o, last) in ix.slots;
    assert forall p :: p != o ==> a.Count(p) == ix.Count(p);
    assert a.Count(o) == last;
  }

  lemma RemoveCounts(ix: OwnerIndex, o: Address, t: nat)
    requires ix.CountsAddUp() && (o, t) in ix.member && ix.Count(o) > 0
    requires ix.Remove(o, t).member.Keys == ix.member.Keys - {(o, t)}
    ensures ix.Remove(o, t).CountsAddUp()
  {
    hide Sum;
    SumUpdate(ix.counts, o, ix.Count(o) - 1);
    SizeRemoved(ix.member, ix.Remove(o, t).member, (o, t));
  }

  lemma RemoveKeeps(ix: OwnerIndex, o: Address, t: nat)
    requires ix.Consistent() && (o, t) in ix.member
    ensures ix.Remove(o, t).Consistent()
    ensures ix.Remove(o, t).member.Keys == ix.member.Keys - {(o, t)}
  {
    hide OwnerIndex.NumberedSlots, OwnerIndex.Remove;
    RemovePointers(ix, o, t);
    RemoveCounts(ix, o, t);
  }

  /** On a consistent index the two removals agree. */
  lemma RemovalsAgree(ix: OwnerIndex, o: Address, t: nat)
    requires ix.Consistent()
    ensures ix.RemoveCounted(o, t) == ix.Remove(o, t)
  {
    hide OwnerIndex.Remove;
    assert (o, t) in ix.member ==> ix.member[(o, t)] < ix.Count(o);
  }

  lemma RemoveSlots(ix: OwnerIndex, o: Address, t: nat)
    requires ix.Consistent() && (o, t) in ix.member
    ensures var (a, idx, last) := (ix.Remove(o, t), ix.member[(o, t)], ix.Count(o) - 1);
      && idx <= last && a.Count(o) == last && (o, last) in ix.slots
      && (forall i :: 0 <= i < last ==>
            (o, i) in a.slots && (o, i) in ix.slots && a.slots[(o, i)] == ix.slots[(o, if i == idx then last else i)])
      && (forall p :: p != o ==> a.Count(p) == ix.Count(p))
      && (forall p, i :: p != o && (p, i) in ix.slots ==> (p, i) in a.slots && a.slots[(p, i)] == ix.slots[(p, i)])
  {
  }

  /** Removal is the swap-remove of the owner's listing; other listings do not change. */
  lemma RemoveListing(ix: OwnerIndex, o: Address, t: nat)
    requires ix.Consistent() && (o, t) in ix.member
    ensures ix.member[(o, t)] < |ix.Listing(o)|
    ensures ix.Remove(o, t).Listing(o) == SwapRemove(ix.Listing(o), ix.member[(o, t)])
    ensures forall p :: p != o ==> ix.Remove(o, t).Listing(p) == ix.Listing(p)
  {
    hide OwnerIndex.Consistent, OwnerIndex.Listing, OwnerIndex.Remove;
    var a := ix.Remove(o, t);
    RemoveKeeps(ix, o, t);
    RemoveSlots(ix, o, t);
    ListingAt(ix, o);
    ListingAt(a, o);
    forall p | p != o ensures a.Listing(p) == ix.Listing(p) {
      ListingAt(ix, p);
      ListingAt(a, p);
    }
  }

  /** The fields of the storage, updated in place. */
  class OwnerTicketStore {
    var member: map<(Address, nat), nat>
    var slots: map<(Address, nat), nat>
    var counts: map<Address, int>

    ghost function State(): OwnerIndex
      reads this
    {
      OwnerIndex(member, slots, counts)
    }

    constructor ()
      ensures State() == EMPTY
    {
      member, slots, counts := map[], map[], map[];
    }

    method CountOf(o: Address) returns (n: nat)
      ensures n == State().Count(o)
    {
      n := if o in counts && counts[o] >= 0 then counts[o] else 0;
    }

    /** Keeps the index consistent and appends to the owner's listing when the ticket is not yet there. */
    method Add(o: Address, t: nat)
      modifies this
      ensures State() == old(State()).Add(o, t)
      ensures old(State().Consistent()) && (o, t) !in old(member) ==>
        State().Consistent() && State().Listing(o) == old(State().Listing(o)) + [t]
    {
      ghost var before := State();
      var n := CountOf(o);
      member := member[(o, t) := n];
      slots := slots[(o, n) := t];
      counts := counts[o := n + 1];
      if before.Consistent() && (o, t) !in before.member { AddKeeps(before, o, t); }
    }

    method Remove(o: Address, t: nat)
      modifies this
      ensures State() == old(State()).Remove(o, t)
      ensures old(State().Consistent()) && (o, t) in old(member) ==>
        && State().Consistent()
        && old(member[(o, t)]) < |old(State().Listing(o))|
        && State().Listing(o) == SwapRemove(old(State().Listing(o)), old(member[(o, t)]))
    {
      ghost var before := State();
      if (o, t) in member {
        var idx := member[(o, t)];
        member := member - {(o, t)};
        var n := CountOf(o);
        if n == 0 {
          slots := slots - {(o, idx)};
        } else {
          var last := n - 1;
          if idx < last && (o, last) in slots {
            var moved := slots[(o, last)];
            slots := slots[(o, idx) := moved];
            member := member[(o, moved) := idx];
          }
          slots := slots - {(o, last)};
          counts := counts[o := last];
        }
      }
      if before.Consistent() && (o, t) in before.member {
        RemoveKeeps(before, o, t);
        RemoveListing(before, o, t);
      }
    }

    method RemoveCounted(o: Address, t: nat)
      modifies this
      ensures State() == old(State()).RemoveCounted(o, t)
    {
      if (o, t) in member {
        var idx := member[(o, t)];
        member := member - {(o, t)};
        var n := CountOf(o);
        if n == 0 { return; }
        var last := n - 1;
        if idx < last {
          if (o, last) in slots {
            var moved := slots[(o, last)];
            slots := slots[(o, idx) := moved];
            member := member[(o, moved) := idx];
          }
        }
        slots := slots - {(o, last)};
        counts := counts[o := last];
      }
    }

    method GetTicketsByOwner(o: Address) returns (tickets: seq<nat>)
      ensures tickets == State().Listing(o)
    {
      var n := CountOf(o);
      tickets := [];
      for i := 0 to n
        invariant tickets == State().Collect(o, i)
      {
        if (o, i) in slots {
          tickets := tickets + [slots[(o, i)]];
        }
      }
    }
  }
}

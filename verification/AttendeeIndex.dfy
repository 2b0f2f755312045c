/**
 The attendee index of one event in contracts/event/src/storage.rs: registration flags,
 numbered slots with a count, removal by search and swap with the last slot, and pages.
 */
module AttendeeIndex {
  import opened Ledger

  const MAX_PAGE: nat := 100
  const U64_MAX: nat := 0xFFFF_FFFF_FFFF_FFFF

  /** Entries `Registration`, `EventAttendeeIndex` and `EventAttendeesCount`. */
  datatype Attendees = Attendees(flags: set<Address>, slots: map<nat, Address>, count: nat)
  {
    /** The slots are exactly those below the count and hold different attendees. */
    ghost predicate Numbered() {
      && (forall i :: i in slots <==> 0 <= i < count)
      && (forall i, j :: 0 <= i < j < count ==> slots[i] != slots[j])
    }

    /** Exactly the flagged attendees have a slot. */
    ghost predicate Flagged()
      requires Numbered()
    {
      && (forall i :: 0 <= i < count ==> slots[i] in flags)
      && (forall a :: a in flags ==> exists i :: 0 <= i < count && slots[i] == a)
    }

    ghost predicate Consistent() { Numbered() && Flagged() }

    /** The attendees in slot order. */
    function Listing(): (l: seq<Address>)
      requires Consistent()
    {
      seq(count, i requires 0 <= i < count => slots[i])
    }

    function Added(a: Address): Attendees { Attendees(flags + {a}, slots[count := a], count + 1) }

    /** Slot `k` refilled with the last attendee. */
    function DroppedAt(k: nat): Attendees
      requires Consistent() && k < count
    {
      var last := count - 1;
      Attendees(flags - {slots[k]}, (if k != last then slots[k := slots[last]] else slots) - {last}, last)
    }
  }

  /** Removal in an ordered list: the last entry takes the freed place. */
  function SwapOut(l: seq<Address>, i: nat): seq<Address>
    requires i < |l|
  {
    l[i := l[|l| - 1]][..|l| - 1]
  }

  lemma AddedNumbered(s: Attendees, a: Address)
    requires s.Consistent() && a !in s.flags
    ensures s.Added(a).Numbered()
    ensures forall i :: 0 <= i <= s.count ==> s.Added(a).slots[i] == if i < s.count then s.slots[i] else a
    ensures s.Added(a).count == s.count + 1 && s.Added(a).flags == s.flags + {a}
  {
  }

  lemma AddedFlagged(s: Attendees, a: Address)
    requires s.Consistent() && a !in s.flags
    ensures s.Added(a).Consistent()
  {
    AddedNumbered(s, a);
    hide Attendees.Added;
    var u := s.Added(a);
    forall b | b in u.flags ensures exists i :: 0 <= i < u.count && u.slots[i] == b {
      if b == a {
        assert u.slots[s.count] == b;
      } else {
        var i :| 0 <= i < s.count && s.slots[i] == b;
        assert u.slots[i] == b;
      }
    }
  }

  lemma AddedKeeps(s: Attendees, a: Address)
    requires s.Consistent() && a !in s.flags
    ensures s.Added(a).Consistent() && s.Added(a).Listing() == s.Listing() + [a]
  {
    AddedNumbered(s, a);
    AddedFlagged(s, a);
    hide Attendees.Added, Attendees.Flagged;
    assert s.Added(a).Listing() == s.Listing() + [a];
  }

  lemma DroppedNumbered(s: Attendees, k: nat)
    requires s.Consistent() && k < s.count
    ensures s.DroppedAt(k).Numbered()
    ensures forall i :: 0 <= i < s.count - 1 ==> s.DroppedAt(k).slots[i] == s.slots[if i == k then s.count - 1 else i]
    ensures s.DroppedAt(k).count == s.count - 1 && s.DroppedAt(k).flags == s.flags - {s.slots[k]}
  {
    hide Attendees.Flagged;
  }

  lemma DroppedFlagged(s: Attendees, k: nat)
    requires s.Consistent() && k < s.count
    ensures s.DroppedAt(k).Consistent()
  {
    DroppedNumbered(s, k);
    hide Attendees.DroppedAt;
    var u := s.DroppedAt(k);
    forall a | a in u.flags ensures exists i :: 0 <= i < u.count && u.slots[i] == a {
      var i :| 0 <= i < s.count && s.slots[i] == a;
      assert u.slots[if i == u.count then k else i] == a;
    }
  }

  /** After a removal the other attendees are still listed once each. */
  lemma DroppedKeeps(s: Attendees, k: nat)
    requires s.Consistent() && k < s.count
    ensures s.DroppedAt(k).Consistent() && s.DroppedAt(k).Listing() == SwapOut(s.Listing(), k)
  {
    DroppedNumbered(s, k);
    DroppedFlagged(s, k);
    hide Attendees.DroppedAt, Attendees.Flagged;
    assert s.DroppedAt(k).Listing() == SwapOut(s.Listing(), k);
  }

  class AttendeeStore {
    var flags: set<Address>
    var slots: map<nat, Address>
    var count: nat

    ghost function View(): Attendees
      reads this
    {
      Attendees(flags, slots, count)
    }

    constructor ()
      ensures View() == Attendees({}, map[], 0) && View().Consistent()
    {
      flags, slots, count := {}, map[], 0;
    }

    /** `save_registration`; its callers register an address only once. */
    method Save(attendee: Address)
      requires View().Consistent() && attendee !in flags
      modifies this
      ensures View().Consistent() && flags == old(flags) + {attendee}
      ensures View().Listing() == old(View().Listing()) + [attendee]
    {
      hide Attendees.Consistent, Attendees.Listing;
      AddedKeeps(View(), attendee);
      flags := flags + {attendee};
      slots := slots[count := attendee];
      count := count + 1;
    }

    /** The search loop of the removal. */
    method Find(attendee: Address) returns (at: Option<nat>)
      requires View().Consistent()
      ensures at.Some? ==> at.value < count && slots[at.value] == attendee
      ensures at.None? <==> attendee !in flags
    {
      for i := 0 to count
        invariant forall j :: 0 <= j < i ==> slots[j] != attendee
      {
        if i in slots && slots[i] == attendee {
          assert View().slots[i] in View().flags;
          return Some(i);
        }
      }
      return None;
    }

    /** `remove_registration`: exactly the attendee leaves the listing, by a swap with the last one. */
    method Remove(attendee: Address)
      requires View().Consistent()
      modifies this
      ensures View().Consistent() && flags == old(flags) - {attendee}
      ensures attendee !in old(flags) ==> View() == old(View())
      ensures attendee in old(flags) ==>
        exists k :: 0 <= k < |old(View().Listing())| && old(View().Listing())[k] == attendee
                    && View().Listing() == SwapOut(old(View().Listing()), k)
    {
      hide Attendees.Flagged, SwapOut;
      var at := Find(attendee);
      if at.Some? {
        DroppedKeeps(View(), at.value);
        assert View().Listing()[at.value] == attendee;
      }
      flags := flags - {attendee};
      if at.None? {
        assert flags == old(flags);
        return;
      }
      var idx, last := at.value, count - 1;
      if idx != last {
        slots := slots[idx := slots[last]];
      }
      slots := slots - {last};
      count := last;
      assert View() == old(View()).DroppedAt(idx);
      assert attendee in old(flags) ==> old(View().Listing())[idx] == attendee;
    }

    /** `get_attendees_paginated`: a window of the listing. */
    method GetPage(start: nat, limit: nat) returns (page: seq<Address>)
      requires View().Consistent()
      ensures page == Page(View().Listing(), start, limit)
    {
      var actual := if limit < MAX_PAGE then limit else MAX_PAGE;
      var stop := if start + actual > U64_MAX then U64_MAX else start + actual;
      var end := if count < stop then count else stop;
      page := [];
      var i := start;
      while i < end
        invariant start <= i && (start <= end ==> i <= end)
        invariant page == if start <= end then View().Listing()[start..i] else []
      {
        if i in slots { page := page + [slots[i]]; }
        i := i + 1;
      }
    }
  }

  /** The part of a listing a page request gives. */
  function Page(l: seq<Address>, start: nat, limit: nat): seq<Address> {
    var actual := if limit < MAX_PAGE then limit else MAX_PAGE;
    var stop := if start + actual > U64_MAX then U64_MAX else start + actual;
    var end := if |l| < stop then |l| else stop;
    if start <= end then l[start..end] else []
  }

  /** Consecutive pages of a listing, from `start` on. */
  function Pages(l: seq<Address>, start: nat, limit: nat): seq<Address>
    requires 0 < limit <= MAX_PAGE
    decreases if start < |l| then |l| - start else 0
  {
    if start >= |l| then [] else Page(l, start, limit) + Pages(l, start + limit, limit)
  }

  /** Reading page after page gives the whole listing, in order and without repetition. */
  lemma {:induction false} PagesCover(l: seq<Address>, start: nat, limit: nat)
    requires 0 < limit <= MAX_PAGE && |l| <= U64_MAX && start <= |l|
    ensures Pages(l, start, limit) == l[start..]
    decreases |l| - start
  {
    if start < |l| {
      if start + limit < |l| {
        PagesCover(l, start + limit, limit);
        assert l[start..] == l[start..start + limit] + l[start + limit..];
      } else {
        assert Page(l, start, limit) == l[start..];
      }
    }
  }
}

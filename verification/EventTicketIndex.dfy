/**
 The event-ticket index kept by contracts/ticket/src/storage.rs: a flag per event and ticket, numbered slots and
 a count per event.  Entries are only ever added.
 */
module EventTicketIndexes {
  import opened Ledger

  /** Entries `EventTicket`, `EventTicketIndex` and `EventTicketsCount`. */
  datatype EventIndex = EventIndex(flags: set<(Symbol, nat)>, slots: map<(Symbol, nat), nat>, counts: map<Symbol, nat>)
  {
    function Count(e: Symbol): nat { if e in counts then counts[e] else 0 }

    /** `add_event_ticket`. */
    function Add(e: Symbol, t: nat): EventIndex {
      EventIndex(flags + {(e, t)}, slots[(e, Count(e)) := t], counts[e := Count(e) + 1])
    }

    /** The first `n` slots of an event, skipping missing entries. */
    function Collect(e: Symbol, n: nat): seq<nat> {
      if n == 0 then []
      else Collect(e, n - 1) + if (e, n - 1) in slots then [slots[(e, n - 1)]] else []
    }

    /** `get_tickets_by_event`. */
    function Listing(e: Symbol): seq<nat> { Collect(e, Count(e)) }

    /** The flags say what is listed, and listings ascend below `next`. */
    ghost predicate Consistent(next: nat) {
      && (forall e: Symbol, t: nat :: (e, t) in flags <==> t in Listing(e))
      && (forall e :: Ascending(Listing(e), next))
    }
  }

  const NO_TICKETS: EventIndex := EventIndex({}, map[], map[])

  ghost predicate Ascending(l: seq<nat>, next: nat) {
    && (forall i, j :: 0 <= i < j < |l| ==> l[i] < l[j])
    && (forall i :: 0 <= i < |l| ==> l[i] < next)
  }

  /** Entries beyond the first `n` slots do not matter. */
  lemma {:induction false} CollectSame(x: EventIndex, y: EventIndex, e: Symbol, n: nat)
    requires forall i: nat :: i < n ==>
      ((e, i) in x.slots <==> (e, i) in y.slots) && ((e, i) in x.slots ==> x.slots[(e, i)] == y.slots[(e, i)])
    ensures x.Collect(e, n) == y.Collect(e, n)
  {
    if n > 0 { CollectSame(x, y, e, n - 1); }
  }

  /** Adding appends to one listing, whatever the index holds. */
  lemma AddListing(x: EventIndex, e: Symbol, t: nat, f: Symbol)
    ensures x.Add(e, t).Listing(f) == x.Listing(f) + if f == e then [t] else []
  {
    CollectSame(x.Add(e, t), x, f, x.Count(f));
  }

  /** A new ticket with the next id keeps listings ascending and flags in agreement. */
  lemma AddKeeps(x: EventIndex, e: Symbol, next: nat)
    requires x.Consistent(next)
    ensures x.Add(e, next).Consistent(next + 1)
  {
    hide EventIndex.Listing;
    var y := x.Add(e, next);
    forall f ensures Ascending(y.Listing(f), next + 1) {
      AddListing(x, e, next, f);
      assert Ascending(x.Listing(f), next);
    }
    forall f: Symbol, t: nat ensures (f, t) in y.flags <==> t in y.Listing(f) {
      AddListing(x, e, next, f);
      assert (f, t) in x.flags <==> t in x.Listing(f);
    }
  }

  /** The entries in place. */
  class EventTicketStore {
    var flags: set<(Symbol, nat)>
    var slots: map<(Symbol, nat), nat>
    var counts: map<Symbol, nat>

    ghost function State(): EventIndex
      reads this
    {
      EventIndex(flags, slots, counts)
    }

    constructor ()
      ensures State() == NO_TICKETS
    {
      flags, slots, counts := {}, map[], map[];
    }

    method CountOf(e: Symbol) returns (n: nat)
      ensures n == State().Count(e)
    {
      n := if e in counts then counts[e] else 0;
    }

    method Add(e: Symbol, t: nat)
      modifies this
      ensures State() == old(State()).Add(e, t)
      ensures forall f :: State().Listing(f) == old(State()).Listing(f) + if f == e then [t] else []
      ensures old(State()).Consistent(t) ==> State().Consistent(t + 1)
    {
      hide EventIndex.Listing, EventIndex.Consistent;
      ghost var before := State();
      flags := flags + {(e, t)};
      var n := CountOf(e);
      slots := slots[(e, n) := t];
      counts := counts[e := n + 1];
      forall f ensures State().Listing(f) == before.Listing(f) + if f == e then [t] else [] { AddListing(before, e, t, f); }
      if before.Consistent(t) { AddKeeps(before, e, t); }
    }

    method GetTicketsByEvent(e: Symbol) returns (tickets: seq<nat>)
      ensures tickets == State().Listing(e)
    {
      var n := CountOf(e);
      tickets := [];
      for i := 0 to n
        invariant tickets == State().Collect(e, i)
      {
        if (e, i) in slots {
          tickets := tickets + [slots[(e, i)]];
        }
      }
    }
  }
}

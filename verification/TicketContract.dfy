/**
 contracts/ticket/src/lib.rs: mint, batch mint, transfer, admin transfer, use,
 cancel and recover as steps over ticket records and the two ticket indexes.

 A caller named in an operation is authenticated.  A failed operation changes
 nothing.  The recovery signature check is the flag `signed`.
 */
module TicketSpec {
  import opened Ledger
  import opened MapSums
  import opened OwnerIndexes
  import opened EventTicketIndexes

  datatype TicketStatus = Valid | Used | Cancelled

  datatype Ticket = Ticket(
    eventId: Symbol, organizer: Address, owner: Address, issuedAt: nat,
    status: TicketStatus, isTransferable: bool, isUsed: bool)

  datatype TicketError =
    | TicketNotFound | Unauthorized | TicketNotTransferable | TicketAlreadyUsed
    | TransferToSelf | EventNotActive | InvalidInput | RecoveryKeyNotFound | SignatureInvalid

  datatype State = State(
    tickets: map<nat, Ticket>, nextId: nat, index: OwnerIndex, events: EventIndex,
    recovery: map<nat, nat>, payments: Option<Address>)

  const INITIAL: State := State(map[], 1, EMPTY, NO_TICKETS, map[], None)

  type Outcome = Result<State, TicketError>

  function NewTicket(event: Symbol, organizer: Address, owner: Address, now: nat): Ticket {
    Ticket(event, organizer, owner, now, Valid, true, false)
  }

  function Mint(s: State, event: Symbol, organizer: Address, owner: Address, now: nat): State {
    s.(tickets := s.tickets[s.nextId := NewTicket(event, organizer, owner, now)],
       index := s.index.Add(owner, s.nextId), events := s.events.Add(event, s.nextId), nextId := s.nextId + 1)
  }

  function MintMany(s: State, event: Symbol, organizer: Address, owner: Address, count: nat, now: nat): State {
    if count == 0 then s
    else Mint(MintMany(s, event, organizer, owner, count - 1, now), event, organizer, owner, now)
  }

  function BatchMint(s: State, event: Symbol, organizer: Address, owner: Address, count: nat, now: nat): Outcome {
    if count == 0 || count > 100 then Err(InvalidInput) else Ok(MintMany(s, event, organizer, owner, count, now))
  }

  /** Hand ticket `id` over: the record, then both owners' indexes. */
  function Reassign(s: State, id: nat, to: Address): State
    requires id in s.tickets
  {
    s.(tickets := s.tickets[id := s.tickets[id].(owner := to)],
       index := s.index.Remove(s.tickets[id].owner, id).Add(to, id))
  }

  predicate Movable(t: Ticket) { t.isTransferable && !t.isUsed && t.status == Valid }

  function Transfer(s: State, from: Address, to: Address, id: nat): Outcome {
    if from == to then Err(TransferToSelf)
    else if id !in s.tickets then Err(TicketNotFound)
    else if s.tickets[id].owner != from then Err(Unauthorized)
    else if !Movable(s.tickets[id]) then Err(TicketNotTransferable)
    else Ok(Reassign(s, id, to))
  }

  function AdminTransfer(s: State, admin: Address, from: Address, to: Address, id: nat): Outcome {
    if s.payments.None? || s.payments.value != admin then Err(Unauthorized)
    else if id !in s.tickets then Err(TicketNotFound)
    else if s.tickets[id].owner != from then Err(Unauthorized)
    else if !Movable(s.tickets[id]) then Err(TicketNotTransferable)
    else Ok(Reassign(s, id, to))
  }

  function Use(s: State, organizer: Address, owner: Address, id: nat): Outcome {
    if id !in s.tickets then Err(TicketNotFound)
    else
      var t := s.tickets[id];
      if t.organizer != organizer || t.owner != owner then Err(Unauthorized)
      else if t.isUsed || t.status == Used then Err(TicketAlreadyUsed)
      else if t.status == Cancelled then Err(EventNotActive)
      else Ok(s.(tickets := s.tickets[id := t.(isUsed := true, status := Used)]))
  }

  function Cancel(s: State, caller: Address, id: nat): Outcome {
    if id !in s.tickets then Err(TicketNotFound)
    else if s.tickets[id].owner != caller then Err(Unauthorized)
    else if s.tickets[id].isUsed || s.tickets[id].status != Valid then Err(TicketAlreadyUsed)
    else Ok(s.(tickets := s.tickets[id := s.tickets[id].(status := Cancelled)]))
  }

  function SetRecoveryKey(s: State, owner: Address, id: nat, key: nat): Outcome {
    if id !in s.tickets then Err(TicketNotFound)
    else if s.tickets[id].owner != owner then Err(Unauthorized)
    else if s.tickets[id].isUsed || s.tickets[id].status != Valid then Err(TicketNotTransferable)
    else Ok(s.(recovery := s.recovery[id := key]))
  }

  function Recover(s: State, id: nat, newOwner: Address, signed: bool): Outcome {
    if id !in s.tickets then Err(TicketNotFound)
    else if s.tickets[id].isUsed || s.tickets[id].status != Valid then Err(TicketNotTransferable)
    else if id !in s.recovery then Err(RecoveryKeyNotFound)
    else if !signed then Err(SignatureInvalid)
    else Ok(Reassign(s, id, newOwner).(recovery := s.recovery - {id}))
  }

  function SetPayments(s: State, payments: Address): Outcome { Ok(s.(payments := Some(payments))) }

  datatype Op =
    | DoMint(event: Symbol, organizer: Address, owner: Address, now: nat)
    | DoBatchMint(event: Symbol, organizer: Address, owner: Address, count: nat, now: nat)
    | DoTransfer(from: Address, to: Address, id: nat)
    | DoAdminTransfer(admin: Address, from: Address, to: Address, id: nat)
    | DoUse(organizer: Address, owner: Address, id: nat)
    | DoCancel(caller: Address, id: nat)
    | DoSetRecoveryKey(owner: Address, id: nat, key: nat)
    | DoRecover(id: nat, newOwner: Address, signed: bool)
    | DoSetPayments(payments: Address)

  function Step(s: State, op: Op): Outcome {
    match op
    case DoMint(e, g, o, n) => Ok(Mint(s, e, g, o, n))
    case DoBatchMint(e, g, o, c, n) => BatchMint(s, e, g, o, c, n)
    case DoTransfer(f, t, id) => Transfer(s, f, t, id)
    case DoAdminTransfer(a, f, t, id) => AdminTransfer(s, a, f, t, id)
    case DoUse(g, o, id) => Use(s, g, o, id)
    case DoCancel(c, id) => Cancel(s, c, id)
    case DoSetRecoveryKey(o, id, k) => SetRecoveryKey(s, o, id, k)
    case DoRecover(id, o, b) => Recover(s, id, o, b)
    case DoSetPayments(p) => SetPayments(s, p)
  }

  /** A failed operation is rolled back. */
  function After(s: State, op: Op): State {
    var r := Step(s, op);
    if r.Ok? then r.value else s
  }

  function Run(s: State, ops: seq<Op>): State {
    if ops == [] then s else After(Run(s, ops[..|ops| - 1]), ops[|ops| - 1])
  }

  // ---- The invariant ----

  /** The index has a back-pointer for exactly the current owner of every ticket. */
  ghost predicate OwnersAgree(s: State) {
    forall o, t :: (o, t) in s.index.member <==> t in s.tickets && s.tickets[t].owner == o
  }

  /** The event index lists exactly the event's tickets, in the order of their ids. */
  ghost predicate EventsAgree(s: State) {
    && s.events.Consistent(s.nextId)
    && (forall e: Symbol, t: nat :: (e, t) in s.events.flags <==> t in s.tickets && s.tickets[t].eventId == e)
  }

  /** Ticket ids are handed out in order and never reused. */
  ghost predicate IdsInOrder(s: State) {
    s.nextId >= 1 && (forall t :: t in s.tickets <==> 1 <= t < s.nextId) && |s.tickets| == s.nextId - 1
  }

  ghost predicate Inv(s: State) {
    s.index.Consistent() && OwnersAgree(s) && EventsAgree(s) && IdsInOrder(s) && |s.index.member| == |s.tickets|
  }

  lemma InitialInv()
    ensures Inv(INITIAL)
  {
  }

  lemma MintInv(s: State, event: Symbol, organizer: Address, owner: Address, now: nat)
    requires Inv(s)
    ensures Inv(Mint(s, event, organizer, owner, now))
  {
    hide OwnerIndex.Consistent, OwnersAgree, EventsAgree, OwnerIndex.Add, EventIndex.Add;
    assert s.nextId !in s.tickets;
    MintEvents(s, event, organizer, owner, now);
    MintOwners(s, event, organizer, owner, now);
    SizeAdded(s.tickets, s.nextId, NewTicket(event, organizer, owner, now));
  }

  lemma MintOwners(s: State, event: Symbol, organizer: Address, owner: Address, now: nat)
    requires s.index.Consistent() && OwnersAgree(s) && s.nextId !in s.tickets
    ensures var u := Mint(s, event, organizer, owner, now);
      u.index.Consistent() && OwnersAgree(u) && |u.index.member| == |s.index.member| + 1
  {
    hide OwnerIndex.Consistent, EventIndex.Add;
    OwnerIndexes.AddKeeps(s.index, owner, s.nextId);
    SizeAdded(s.index.member, (owner, s.nextId), s.index.Count(owner));
  }

  lemma MintEvents(s: State, event: Symbol, organizer: Address, owner: Address, now: nat)
    requires EventsAgree(s) && IdsInOrder(s)
    ensures EventsAgree(Mint(s, event, organizer, owner, now))
  {
    hide EventIndex.Consistent, OwnerIndex.Add;
    EventTicketIndexes.AddKeeps(s.events, event, s.nextId);
  }

  lemma {:induction false} MintManyInv(s: State, event: Symbol, organizer: Address, owner: Address, count: nat, now: nat)
    requires Inv(s)
    ensures Inv(MintMany(s, event, organizer, owner, count, now))
    ensures MintMany(s, event, organizer, owner, count, now).nextId == s.nextId + count
  {
    hide Inv;
    if count > 0 {
      MintManyInv(s, event, organizer, owner, count - 1, now);
      MintInv(MintMany(s, event, organizer, owner, count - 1, now), event, organizer, owner, now);
    }
  }

  lemma ReassignInv(s: State, id: nat, to: Address)
    requires Inv(s) && id in s.tickets
    ensures Inv(Reassign(s, id, to))
  {
    hide OwnerIndex.Consistent, OwnerIndex.Remove, EventIndex.Consistent;
    var from, r := s.tickets[id].owner, s.index.Remove(s.tickets[id].owner, id);
    RemoveKeeps(s.index, from, id);
    SizeRemoved(s.index.member, r.member, (from, id));
    OwnerIndexes.AddKeeps(r, to, id);
    SizeAdded(r.member, (to, id), r.Count(to));
    var after := Reassign(s, id, to);
    assert after.tickets.Keys == s.tickets.Keys;
    assert |after.tickets| == |after.tickets.Keys| == |s.tickets|;
  }

  /** Rewriting a record without touching its owner keeps the invariant. */
  lemma RecordInv(s: State, id: nat, t: Ticket)
    requires Inv(s) && id in s.tickets && t.owner == s.tickets[id].owner && t.eventId == s.tickets[id].eventId
    ensures Inv(s.(tickets := s.tickets[id := t]))
  {
    hide OwnerIndex.Consistent, EventIndex.Consistent;
    var after := s.tickets[id := t];
    assert after.Keys == s.tickets.Keys;
    assert |after| == |after.Keys| == |s.tickets|;
  }

  lemma StepInv(s: State, op: Op)
    requires Inv(s)
    ensures Inv(After(s, op))
  {
    hide Inv, Reassign, MintMany;
    match op
    case DoMint(e, g, o, n) => MintInv(s, e, g, o, n);
    case DoBatchMint(e, g, o, c, n) => MintManyInv(s, e, g, o, c, n);
    case DoTransfer(f, t, id) => if id in s.tickets { ReassignInv(s, id, t); }
    case DoAdminTransfer(a, f, t, id) => if id in s.tickets { ReassignInv(s, id, t); }
    case DoUse(g, o, id) => if id in s.tickets { RecordInv(s, id, s.tickets[id].(isUsed := true, status := Used)); }
    case DoCancel(c, id) => if id in s.tickets { RecordInv(s, id, s.tickets[id].(status := Cancelled)); }
    case DoSetRecoveryKey(o, id, k) => OtherFields(s, s.recovery[id := k], s.payments);
    case DoRecover(id, o, b) =>
      if id in s.tickets {
        ReassignInv(s, id, o);
        OtherFields(Reassign(s, id, o), s.recovery - {id}, Reassign(s, id, o).payments);
      }
    case DoSetPayments(p) => OtherFields(s, s.recovery, Some(p));
  }

  lemma OtherFields(s: State, recovery: map<nat, nat>, payments: Option<Address>)
    requires Inv(s)
    ensures Inv(s.(recovery := recovery, payments := payments))
  {
    hide OwnerIndex.Consistent, EventIndex.Consistent;
  }

  lemma {:induction false} RunInv(ops: seq<Op>)
    ensures Inv(Run(INITIAL, ops))
  {
    hide Inv;
    if ops == [] {
      InitialInv();
    } else {
      RunInv(ops[..|ops| - 1]);
      StepInv(Run(INITIAL, ops[..|ops| - 1]), ops[|ops| - 1]);
    }
  }

  /**
   In every run, owner `o` lists ticket `t` exactly once if the record says so and
   not at all otherwise, its back-pointer names its slot, and the counts over all
   owners add up to the number of minted tickets.
   */
  lemma OwnerListings(ops: seq<Op>, o: Address, t: nat)
    ensures var s := Run(INITIAL, ops);
      && multiset(s.index.Listing(o))[t] == (if t in s.tickets && s.tickets[t].owner == o then 1 else 0)
      && ((o, t) in s.index.member ==> s.index.member[(o, t)] < |s.index.Listing(o)|
                                       && s.index.Listing(o)[s.index.member[(o, t)]] == t)
      && Sum(s.index.counts) == |s.tickets| == s.nextId - 1
  {
    hide Run, OwnerIndex.Listing;
    var s := Run(INITIAL, ops);
    RunInv(ops);
    ListedOnce(s.index, o, t);
  }

  /**
   In every run an event lists exactly its tickets, each once and in the order of their ids, and the flags say the
   same.
   */
  lemma EventListings(ops: seq<Op>, e: Symbol, t: nat)
    ensures var s := Run(INITIAL, ops);
      && (t in s.events.Listing(e) <==> t in s.tickets && s.tickets[t].eventId == e)
      && ((e, t) in s.events.flags <==> t in s.events.Listing(e))
      && forall i, j :: 0 <= i < j < |s.events.Listing(e)| ==> s.events.Listing(e)[i] < s.events.Listing(e)[j]
  {
    hide Run, EventIndex.Listing, OwnerIndex.Consistent;
    RunInv(ops);
    assert Ascending(Run(INITIAL, ops).events.Listing(e), Run(INITIAL, ops).nextId);
  }

  /** A ticket that was used or cancelled never changes again, and no ticket changes event or organizer. */
  lemma FinalTicketsFrozen(s: State, op: Op, t: nat)
    requires Inv(s) && t in s.tickets
    ensures t in After(s, op).tickets
    ensures s.tickets[t].status != Valid ==> After(s, op).tickets[t] == s.tickets[t]
    ensures After(s, op).tickets[t].eventId == s.tickets[t].eventId
    ensures After(s, op).tickets[t].organizer == s.tickets[t].organizer
  {
    hide OwnerIndex.Consistent, OwnersAgree, OwnerIndex.Remove, OwnerIndex.Add, EventsAgree, EventIndex.Add;
    if op.DoBatchMint? { MintManyKeeps(s, op.event, op.organizer, op.owner, op.count, op.now, t); }
  }

  lemma {:induction false} MintManyKeeps(s: State, event: Symbol, organizer: Address, owner: Address, count: nat,
                                         now: nat, t: nat)
    requires Inv(s) && t in s.tickets
    ensures var a := MintMany(s, event, organizer, owner, count, now);
      t in a.tickets && a.tickets[t] == s.tickets[t]
  {
    hide OwnerIndex.Consistent, OwnersAgree, EventsAgree;
    if count > 0 {
      MintManyKeeps(s, event, organizer, owner, count - 1, now, t);
      MintManyInv(s, event, organizer, owner, count - 1, now);
    }
  }

  /** In every later run it stays as it is. */
  ghost predicate Frozen(s: State, t: nat) {
    t in s.tickets && forall ops :: t in Run(s, ops).tickets && Run(s, ops).tickets[t] == s.tickets[t]
  }

  lemma FrozenForever(s: State, t: nat)
    requires Inv(s) && t in s.tickets && s.tickets[t].status != Valid
    ensures Frozen(s, t)
  {
    hide Inv, Run;
    forall ops ensures t in Run(s, ops).tickets && Run(s, ops).tickets[t] == s.tickets[t] { FrozenThrough(s, ops, t); }
  }

  lemma {:induction false} FrozenThrough(s: State, ops: seq<Op>, t: nat)
    requires Inv(s) && t in s.tickets && s.tickets[t].status != Valid
    ensures Inv(Run(s, ops)) && t in Run(s, ops).tickets && Run(s, ops).tickets[t] == s.tickets[t]
  {
    hide Inv, After;
    if ops != [] {
      FrozenThrough(s, ops[..|ops| - 1], t);
      StepInv(Run(s, ops[..|ops| - 1]), ops[|ops| - 1]);
      FinalTicketsFrozen(Run(s, ops[..|ops| - 1]), ops[|ops| - 1], t);
    }
  }

  // ---- Recovery keys ----

  /** Whoever holds the key of a valid ticket can move it to anybody, once. */
  ghost predicate Recoverable(s: State, id: nat) {
    id in s.tickets && forall to ::
      && Recover(s, id, to, true).Ok?
      && Recover(s, id, to, true).value.tickets[id] == s.tickets[id].(owner := to)
      && forall again :: Recover(Recover(s, id, to, true).value, id, again, true) == Err(RecoveryKeyNotFound)
  }

  lemma KeyRecovers(s: State, id: nat)
    requires id in s.tickets && id in s.recovery && !s.tickets[id].isUsed && s.tickets[id].status == Valid
    ensures Recoverable(s, id)
  {
    hide OwnerIndex.Remove, OwnerIndex.Add;
  }

  /**
   A transfer leaves the recovery key of the previous owner in place: afterwards the ticket can be recovered, to
   whomever the key signs for, exactly when a key was stored before; otherwise every attempt fails for lack of one.
   */
  lemma TransferKeepsKey(s: State, from: Address, to: Address, id: nat)
    requires Transfer(s, from, to, id).Ok?
    ensures var u := Transfer(s, from, to, id).value;
      && u.tickets[id].owner == to && u.recovery == s.recovery
      && ((exists back, signed :: Recover(u, id, back, signed).Ok?) <==> id in s.recovery)
      && (id in s.recovery ==> Recoverable(u, id) && Recover(u, id, from, true).value.tickets[id] == s.tickets[id])
      && (id !in s.recovery ==> forall back, signed :: Recover(u, id, back, signed) == Err(RecoveryKeyNotFound))
  {
    hide OwnerIndex.Remove, OwnerIndex.Add, Recoverable;
    var u := Transfer(s, from, to, id).value;
    if id in s.recovery {
      KeyRecovers(u, id);
      assert Recover(u, id, from, true).Ok?;
    }
  }

  /** Ticket 1 with the given owner, and whether key 3 is stored for it. */
  ghost predicate OneTicket(s: State, owner: Address, keyed: bool) {
    && s.tickets == map[1 := NewTicket(7, 5, owner, 0)]
    && s.recovery == if keyed then map[1 := 3] else map[]
  }

  lemma KeySet(s: State)
    requires OneTicket(s, 8, false)
    ensures OneTicket(After(s, DoSetRecoveryKey(8, 1, 3)), 8, true)
  {
  }

  lemma HandedOver(s: State)
    requires OneTicket(s, 8, true)
    ensures OneTicket(After(s, DoTransfer(8, 9, 1)), 9, true)
  {
    hide OwnerIndex.Remove, OwnerIndex.Add;
  }

  lemma TakenBack(s: State)
    requires OneTicket(s, 9, true)
    ensures OneTicket(After(s, DoRecover(1, 8, true)), 8, false)
  {
    hide OwnerIndex.Remove, OwnerIndex.Add;
    assert s.recovery - {1} == map[];
  }

  /** Minted to 8, keyed by 8, transferred to 9, and back with 8 through the key. */
  lemma KeyOutlivesTransfer()
    ensures OneTicket(Run(INITIAL, [DoMint(7, 5, 8, 0), DoSetRecoveryKey(8, 1, 3), DoTransfer(8, 9, 1)]), 9, true)
    ensures OneTicket(Run(INITIAL, [DoMint(7, 5, 8, 0), DoSetRecoveryKey(8, 1, 3), DoTransfer(8, 9, 1), DoRecover(1, 8, true)]),
                      8, false)
  {
    var ops := [DoMint(7, 5, 8, 0), DoSetRecoveryKey(8, 1, 3), DoTransfer(8, 9, 1), DoRecover(1, 8, true)];
    assert OneTicket(After(INITIAL, ops[0]), 8, false);
    hide OneTicket, After;
    assert Run(INITIAL, ops[..1]) == After(INITIAL, ops[0]) by { assert ops[..1][..0] == []; }
    KeySet(Run(INITIAL, ops[..1]));
    assert Run(INITIAL, ops[..2]) == After(Run(INITIAL, ops[..1]), ops[1]) by { assert ops[..2][..1] == ops[..1]; }
    HandedOver(Run(INITIAL, ops[..2]));
    assert Run(INITIAL, ops[..3]) == After(Run(INITIAL, ops[..2]), ops[2]) by { assert ops[..3][..2] == ops[..2]; }
    TakenBack(Run(INITIAL, ops[..3]));
    assert ops[..3] == [DoMint(7, 5, 8, 0), DoSetRecoveryKey(8, 1, 3), DoTransfer(8, 9, 1)];
  }
}

/** The contract object: its storage entries and entry points. */
module TicketContract {
  import opened Ledger
  import opened OwnerIndexes
  import opened EventTicketIndexes
  import opened TicketSpec

  class Contract {
    var tickets: map<nat, Ticket>
    var nextId: nat
    var recovery: map<nat, nat>
    var payments: Option<Address>
    const owners: OwnerTicketStore
    const eventTickets: EventTicketStore

    ghost function View(): State
      reads this, owners, eventTickets
    {
      State(tickets, nextId, owners.State(), eventTickets.State(), recovery, payments)
    }

    constructor ()
      ensures View() == INITIAL && fresh(owners) && fresh(eventTickets) && Inv(View())
    {
      tickets, nextId, recovery, payments := map[], 1, map[], None;
      owners := new OwnerTicketStore();
      eventTickets := new EventTicketStore();
      new;
      InitialInv();
    }

    method MintTicket(event: Symbol, organizer: Address, owner: Address, now: nat) returns (id: nat)
      modifies this, owners, eventTickets
      ensures View() == Mint(old(View()), event, organizer, owner, now) && id == old(nextId)
      ensures Inv(old(View())) ==> Inv(View())
    {
      hide Inv;
      Kept(View(), DoMint(event, organizer, owner, now));
      id := nextId;
      tickets := tickets[id := NewTicket(event, organizer, owner, now)];
      owners.Add(owner, id);
      eventTickets.Add(event, id);
      nextId := id + 1;
    }

    method BatchMintTicket(event: Symbol, organizer: Address, owner: Address, count: nat, now: nat)
      returns (r: Result<seq<nat>, TicketError>)
      modifies this, owners, eventTickets
      ensures var spec := BatchMint(old(View()), event, organizer, owner, count, now);
        && r.Ok? == spec.Ok?
        && View() == (if spec.Ok? then spec.value else old(View()))
        && (r.Ok? ==> |r.value| == count && forall i :: 0 <= i < count ==> r.value[i] == old(nextId) + i)
      ensures Inv(old(View())) ==> Inv(View())
    {
      hide Inv, OwnerIndex.Consistent, OwnerIndex.Add, OwnerIndex.Listing, EventIndex.Consistent, EventIndex.Add,
           EventIndex.Listing;
      Kept(View(), DoBatchMint(event, organizer, owner, count, now));
      if count == 0 || count > 100 {
        return Err(InvalidInput);
      }
      var ids := [];
      var next := nextId;
      for i := 0 to count
        invariant next == old(nextId) + i && |ids| == i
        invariant forall k :: 0 <= k < i ==> ids[k] == old(nextId) + k
        invariant View().(nextId := next) == MintMany(old(View()), event, organizer, owner, i, now)
        invariant nextId == old(nextId) && recovery == old(recovery) && payments == old(payments)
      {
        tickets := tickets[next := NewTicket(event, organizer, owner, now)];
        owners.Add(owner, next);
        eventTickets.Add(event, next);
        ids := ids + [next];
        next := next + 1;
      }
      nextId := next;
      return Ok(ids);
    }

    method MoveTicket(id: nat, to: Address)
      requires id in tickets
      modifies this, owners
      ensures View() == Reassign(old(View()), id, to)
    {
      var ticket := tickets[id];
      tickets := tickets[id := ticket.(owner := to)];
      owners.Remove(ticket.owner, id);
      owners.Add(to, id);
    }

    method TransferTicket(from: Address, to: Address, id: nat) returns (r: Result<(), TicketError>)
      modifies this, owners
      ensures Refines(Transfer(old(View()), from, to, id), r, old(View()), View())
      ensures Inv(old(View())) ==> Inv(View())
      ensures r.Ok? && id in old(recovery) ==> Recoverable(View(), id)
    {
      hide Inv, Frozen, Recoverable;
      Kept(View(), DoTransfer(from, to, id));
      if from == to { return Err(TransferToSelf); }
      if id !in tickets { return Err(TicketNotFound); }
      if tickets[id].owner != from { return Err(Unauthorized); }
      if !tickets[id].isTransferable || tickets[id].isUsed || tickets[id].status != Valid {
        return Err(TicketNotTransferable);
      }
      MoveTicket(id, to);
      if id in recovery { KeyRecovers(View(), id); }
      return Ok(());
    }

    method AdminTransferTicket(admin: Address, from: Address, to: Address, id: nat) returns (r: Result<(), TicketError>)
      modifies this, owners
      ensures Refines(AdminTransfer(old(View()), admin, from, to, id), r, old(View()), View())
      ensures Inv(old(View())) ==> Inv(View())
    {
      hide Inv, Frozen, Recoverable;
      Kept(View(), DoAdminTransfer(admin, from, to, id));
      if payments.None? || payments.value != admin { return Err(Unauthorized); }
      if id !in tickets { return Err(TicketNotFound); }
      if tickets[id].owner != from { return Err(Unauthorized); }
      if !tickets[id].isTransferable || tickets[id].isUsed || tickets[id].status != Valid {
        return Err(TicketNotTransferable);
      }
      MoveTicket(id, to);
      return Ok(());
    }

    method UseTicket(organizer: Address, owner: Address, id: nat) returns (r: Result<(), TicketError>)
      modifies this
      ensures Refines(Use(old(View()), organizer, owner, id), r, old(View()), View())
      ensures Inv(old(View())) ==> Inv(View())
      ensures Inv(old(View())) && r.Ok? ==> Frozen(View(), id)
    {
      hide Inv, Frozen, Recoverable;
      Kept(View(), DoUse(organizer, owner, id));
      if id !in tickets { return Err(TicketNotFound); }
      var ticket := tickets[id];
      if ticket.organizer != organizer { return Err(Unauthorized); }
      if ticket.owner != owner { return Err(Unauthorized); }
      if ticket.isUsed { return Err(TicketAlreadyUsed); }
      match ticket.status {
        case Valid =>
        case Cancelled => return Err(EventNotActive);
        case Used => return Err(TicketAlreadyUsed);
      }
      tickets := tickets[id := ticket.(isUsed := true, status := Used)];
      if Inv(View()) { FrozenForever(View(), id); }
      return Ok(());
    }

    method CancelTicket(caller: Address, id: nat) returns (r: Result<(), TicketError>)
      modifies this
      ensures Refines(Cancel(old(View()), caller, id), r, old(View()), View())
      ensures Inv(old(View())) ==> Inv(View())
      ensures Inv(old(View())) && r.Ok? ==> Frozen(View(), id)
    {
      hide Inv, Frozen, Recoverable;
      Kept(View(), DoCancel(caller, id));
      if id !in tickets { return Err(TicketNotFound); }
      if caller != tickets[id].owner { return Err(Unauthorized); }
      if tickets[id].isUsed || tickets[id].status != Valid { return Err(TicketAlreadyUsed); }
      tickets := tickets[id := tickets[id].(status := Cancelled)];
      if Inv(View()) { FrozenForever(View(), id); }
      return Ok(());
    }

    method PutRecoveryKey(owner: Address, id: nat, key: nat) returns (r: Result<(), TicketError>)
      modifies this
      ensures Refines(SetRecoveryKey(old(View()), owner, id, key), r, old(View()), View())
      ensures Inv(old(View())) ==> Inv(View())
      ensures r.Ok? ==> Recoverable(View(), id)
    {
      hide Inv, Frozen, Recoverable;
      Kept(View(), DoSetRecoveryKey(owner, id, key));
      if id !in tickets { return Err(TicketNotFound); }
      if tickets[id].owner != owner { return Err(Unauthorized); }
      if tickets[id].isUsed || tickets[id].status != Valid { return Err(TicketNotTransferable); }
      recovery := recovery[id := key];
      KeyRecovers(View(), id);
      return Ok(());
    }

    method RecoverTicket(id: nat, newOwner: Address, signed: bool) returns (r: Result<(), TicketError>)
      modifies this, owners
      ensures Refines(Recover(old(View()), id, newOwner, signed), r, old(View()), View())
      ensures Inv(old(View())) ==> Inv(View())
    {
      hide Inv, Frozen, Recoverable;
      Kept(View(), DoRecover(id, newOwner, signed));
      if id !in tickets { return Err(TicketNotFound); }
      if tickets[id].isUsed || tickets[id].status != Valid { return Err(TicketNotTransferable); }
      if id !in recovery { return Err(RecoveryKeyNotFound); }
      if !signed { return Err(SignatureInvalid); }
      MoveTicket(id, newOwner);
      recovery := recovery - {id};
      return Ok(());
    }
  }

  lemma Kept(s: State, op: Op)
    ensures Inv(s) ==> Inv(After(s, op))
  {
    hide Inv, After;
    if Inv(s) { StepInv(s, op); }
  }

  /** The method's result and new state are those of the specified outcome. */
  ghost predicate Refines(spec: Outcome, r: Result<(), TicketError>, before: State, after: State) {
    match spec
    case Ok(s) => r == Ok(()) && after == s
    case Err(e) => r == Err(e) && after == before
  }
}

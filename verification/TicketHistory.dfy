/** Who can change a ticket, and how often, over every run of the ticket contract. */
module TicketHistory {
  import opened Ledger
  import opened OwnerIndexes
  import opened EventTicketIndexes
  import opened TicketSpec

  /** Every ticket is transferable, and used exactly if its status says so. */
  ghost predicate Sound(s: State) {
    forall t :: t in s.tickets ==> s.tickets[t].isTransferable && (s.tickets[t].isUsed <==> s.tickets[t].status == Used)
  }

  lemma {:induction false} MintManySound(s: State, event: Symbol, organizer: Address, owner: Address, count: nat, now: nat)
    requires Sound(s)
    ensures Sound(MintMany(s, event, organizer, owner, count, now))
  {
    hide OwnerIndex.Add, EventIndex.Add;
    if count > 0 { MintManySound(s, event, organizer, owner, count - 1, now); }
  }

  lemma StepSound(s: State, op: Op)
    requires Sound(s)
    ensures Sound(After(s, op))
  {
    hide OwnerIndex.Add, OwnerIndex.Remove, EventIndex.Add, MintMany;
    if op.DoBatchMint? { MintManySound(s, op.event, op.organizer, op.owner, op.count, op.now); }
  }

  lemma {:induction false} RunSound(ops: seq<Op>)
    ensures Sound(Run(INITIAL, ops))
  {
    hide After;
    if ops != [] {
      RunSound(ops[..|ops| - 1]);
      StepSound(Run(INITIAL, ops[..|ops| - 1]), ops[|ops| - 1]);
    }
  }

  // ---- When the operations succeed ----

  predicate IsValid(s: State, id: nat) { id in s.tickets && s.tickets[id].status == Valid }

  /** In reachable states a ticket's validity is all that matters besides who asks. */
  lemma TransferIff(s: State, admin: Address, from: Address, to: Address, id: nat)
    requires Sound(s)
    ensures Transfer(s, from, to, id).Ok? <==> from != to && IsValid(s, id) && s.tickets[id].owner == from
    ensures AdminTransfer(s, admin, from, to, id).Ok? <==>
      s.payments == Some(admin) && IsValid(s, id) && s.tickets[id].owner == from
    ensures Transfer(s, from, to, id).Ok? ==>
      Transfer(s, from, to, id).value.tickets == s.tickets[id := s.tickets[id].(owner := to)]
    ensures AdminTransfer(s, admin, from, to, id).Ok? ==>
      AdminTransfer(s, admin, from, to, id).value.tickets == s.tickets[id := s.tickets[id].(owner := to)]
  {
    hide OwnerIndex.Remove, OwnerIndex.Add;
  }

  /** Check-in takes the event's organizer and the owner; cancelling and key setting take the owner; recovery key and signature. */
  lemma UseIff(s: State, organizer: Address, owner: Address, id: nat, key: nat, signed: bool)
    requires Sound(s)
    ensures Use(s, organizer, owner, id).Ok? <==>
      IsValid(s, id) && s.tickets[id].organizer == organizer && s.tickets[id].owner == owner
    ensures Cancel(s, owner, id).Ok? <==> IsValid(s, id) && s.tickets[id].owner == owner
    ensures SetRecoveryKey(s, owner, id, key).Ok? <==> IsValid(s, id) && s.tickets[id].owner == owner
    ensures Recover(s, id, owner, signed).Ok? <==> IsValid(s, id) && id in s.recovery && signed
    ensures SetRecoveryKey(s, owner, id, key).Ok? ==>
      SetRecoveryKey(s, owner, id, key).value == s.(recovery := s.recovery[id := key])
    ensures Use(s, organizer, owner, id).Ok? ==> !IsValid(Use(s, organizer, owner, id).value, id)
    ensures Cancel(s, owner, id).Ok? ==> !IsValid(Cancel(s, owner, id).value, id)
  {
    hide OwnerIndex.Remove, OwnerIndex.Add;
  }

  /** Minted tickets are valid, numbered on, and belong to the owner named; a batch has 1 to 100 of them. */
  lemma {:induction false} MintManyTickets(s: State, event: Symbol, organizer: Address, owner: Address, count: nat, now: nat, t: nat)
    ensures var u := MintMany(s, event, organizer, owner, count, now);
      && u.nextId == s.nextId + count && u.recovery == s.recovery && u.payments == s.payments
      && (s.nextId <= t < s.nextId + count ==>
            t in u.tickets && u.tickets[t] == Ticket(event, organizer, owner, now, Valid, true, false))
      && (!(s.nextId <= t < s.nextId + count) ==>
            (t in u.tickets <==> t in s.tickets) && (t in u.tickets ==> u.tickets[t] == s.tickets[t]))
  {
    hide OwnerIndex.Add, EventIndex.Add;
    if count > 0 { MintManyTickets(s, event, organizer, owner, count - 1, now, t); }
  }

  lemma MintIff(s: State, event: Symbol, organizer: Address, owner: Address, count: nat, now: nat, t: nat)
    ensures BatchMint(s, event, organizer, owner, count, now).Ok? <==> 1 <= count <= 100
    ensures 1 <= count <= 100 ==>
      var u := BatchMint(s, event, organizer, owner, count, now).value;
      && u.nextId == s.nextId + count
      && (s.nextId <= t < s.nextId + count ==>
            t in u.tickets && u.tickets[t] == Ticket(event, organizer, owner, now, Valid, true, false))
    ensures var u := Mint(s, event, organizer, owner, now);
      && u.nextId == s.nextId + 1
      && u.tickets == s.tickets[s.nextId := Ticket(event, organizer, owner, now, Valid, true, false)]
  {
    hide OwnerIndex.Add, EventIndex.Add, MintMany;
    MintManyTickets(s, event, organizer, owner, count, now, t);
  }

  // ---- Who changed it ----

  /**
   A ticket gets another owner only by the old owner's transfer to it, by a transfer of the payments contract, or by a
   recovery signed with the stored key; it is used only by organizer and owner together, and cancelled only by its owner.
   */
  lemma ChangesAuthorized(s: State, op: Op, t: nat)
    requires Inv(s) && t in s.tickets
    ensures t in After(s, op).tickets
    ensures var (x, y) := (s.tickets[t], After(s, op).tickets[t]);
      && (y.owner != x.owner ==>
            x.status == Valid && y.status == Valid
            && match op
               case DoTransfer(from, to, id) => id == t && from == x.owner && to == y.owner
               case DoAdminTransfer(admin, from, to, id) =>
                 id == t && s.payments == Some(admin) && from == x.owner && to == y.owner
               case DoRecover(id, to, signed) => id == t && signed && t in s.recovery && to == y.owner
               case _ => false)
      && (y.status == Used && x.status != Used ==> x.status == Valid && op == DoUse(x.organizer, x.owner, t))
      && (y.status == Cancelled && x.status != Cancelled ==> x.status == Valid && op == DoCancel(x.owner, t))
      && (y.status == Valid ==> x.status == Valid)
  {
    hide OwnerIndex.Consistent, OwnersAgree, OwnerIndex.Remove, OwnerIndex.Add, EventsAgree, EventIndex.Add, MintMany;
    if op.DoBatchMint? { MintManyKeeps(s, op.event, op.organizer, op.owner, op.count, op.now, t); }
  }

  // ---- How often ----

  /** A successful check-in or cancellation of the ticket. */
  function Ends(s: State, op: Op, t: nat): nat {
    if ((op.DoUse? && op.id == t) || (op.DoCancel? && op.id == t)) && Step(s, op).Ok? then 1 else 0
  }

  function EndCount(s: State, ops: seq<Op>, t: nat): nat {
    if ops == [] then 0 else EndCount(s, ops[..|ops| - 1], t) + Ends(Run(s, ops[..|ops| - 1]), ops[|ops| - 1], t)
  }

  lemma StepEnds(s: State, op: Op, t: nat)
    requires Inv(s)
    ensures Ends(s, op, t) == 1 ==> IsValid(s, t) && t in After(s, op).tickets && !IsValid(After(s, op), t)
    ensures Ends(s, op, t) == 0 && t in s.tickets ==> IsValid(After(s, op), t) == IsValid(s, t)
    ensures t in s.tickets ==> t in After(s, op).tickets
  {
    hide OwnerIndex.Consistent, OwnersAgree, OwnerIndex.Remove, OwnerIndex.Add, EventsAgree, EventIndex.Add, MintMany;
    if t in s.tickets { ChangesAuthorized(s, op, t); }
  }

  /** In every run a ticket is checked in or cancelled at most once in all, and it is valid until then. */
  lemma {:induction false} EndsOnce(s: State, ops: seq<Op>, t: nat)
    requires Inv(s) && IsValid(s, t)
    ensures Inv(Run(s, ops)) && t in Run(s, ops).tickets
    ensures EndCount(s, ops, t) == if IsValid(Run(s, ops), t) then 0 else 1
  {
    hide Inv, After, Ends;
    if ops != [] {
      var (u, op) := (Run(s, ops[..|ops| - 1]), ops[|ops| - 1]);
      EndsOnce(s, ops[..|ops| - 1], t);
      StepInv(u, op);
      StepEnds(u, op, t);
      OneEnd(u, op, t);
    }
  }

  lemma OneEnd(s: State, op: Op, t: nat)
    ensures Ends(s, op, t) <= 1
  {
    hide Step;
  }

  function Recovers(s: State, op: Op, t: nat): nat {
    if op.DoRecover? && op.id == t && Step(s, op).Ok? then 1 else 0
  }

  function KeySets(s: State, op: Op, t: nat): nat {
    if op.DoSetRecoveryKey? && op.id == t && Step(s, op).Ok? then 1 else 0
  }

  function RecoverCount(s: State, ops: seq<Op>, t: nat): nat {
    if ops == [] then 0 else RecoverCount(s, ops[..|ops| - 1], t) + Recovers(Run(s, ops[..|ops| - 1]), ops[|ops| - 1], t)
  }

  function KeyCount(s: State, ops: seq<Op>, t: nat): nat {
    if ops == [] then 0 else KeyCount(s, ops[..|ops| - 1], t) + KeySets(Run(s, ops[..|ops| - 1]), ops[|ops| - 1], t)
  }

  lemma {:induction false} MintManyRecovery(s: State, event: Symbol, organizer: Address, owner: Address, count: nat, now: nat)
    ensures MintMany(s, event, organizer, owner, count, now).recovery == s.recovery
  {
    hide OwnerIndex.Add, EventIndex.Add;
    if count > 0 { MintManyRecovery(s, event, organizer, owner, count - 1, now); }
  }

  lemma StepRecovers(s: State, op: Op, t: nat)
    ensures Recovers(s, op, t) + (if t in After(s, op).recovery then 1 else 0)
      <= KeySets(s, op, t) + if t in s.recovery then 1 else 0
  {
    hide OwnerIndex.Remove, OwnerIndex.Add, EventIndex.Add, MintMany;
    if op.DoBatchMint? { MintManyRecovery(s, op.event, op.organizer, op.owner, op.count, op.now); }
  }

  /** In every run each stored key recovers at most once: recoveries never outnumber the keys set by the owners. */
  lemma {:induction false} KeysRecoverOnce(s: State, ops: seq<Op>, t: nat)
    ensures RecoverCount(s, ops, t) + (if t in Run(s, ops).recovery then 1 else 0)
      <= KeyCount(s, ops, t) + if t in s.recovery then 1 else 0
  {
    hide After, Recovers, KeySets;
    if ops != [] {
      KeysRecoverOnce(s, ops[..|ops| - 1], t);
      StepRecovers(Run(s, ops[..|ops| - 1]), ops[|ops| - 1], t);
    }
  }
}

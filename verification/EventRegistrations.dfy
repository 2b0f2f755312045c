/** Registrations, free claims and one-time proofs of an event, over every run. */
module EventRegistrations {
  import opened Ledger
  import opened EventSpec
  import opened EventCapacity

  // ---- Registration ----

  predicate Removes(op: Op, a: Address) { op == DoRemoveRegistration(a) }

  predicate Removed(ops: seq<Op>, a: Address) { exists i :: 0 <= i < |ops| && Removes(ops[i], a) }

  /** A purchase for a named attendee: single or batch. */
  predicate Buys(s: State, op: Op, a: Address) {
    Step(s, op).Ok? && ((op.DoRegister? && op.attendee == a) || (op.DoBatchRegister? && op.attendee == a))
  }

  lemma PurchaseRegisters(s: State, a: Address, id: nat, count: nat, held: nat, x: bool)
    ensures Register(s, a, id, x).Ok? ==>
      a !in s.registered && Register(s, a, id, x).value.registered == s.registered + {a}
    ensures BatchRegister(s, a, id, count, held, x).Ok? ==>
      BatchRegister(s, a, id, count, held, x).value.registered == s.registered + {a}
  {
    hide FindTier, CheckFree;
  }

  lemma ReservationsKeepRegistered(s: State, a: Address, id: nat)
    ensures Reserve(s, a, id).Ok? ==> Reserve(s, a, id).value.registered == s.registered
    ensures ReleaseExpired(s, a).Ok? ==> ReleaseExpired(s, a).value.registered == s.registered
  {
    hide FindTier;
  }

  lemma OthersKeepRegistered(s: State, op: Op)
    requires Step(s, op).Ok?
    requires !op.DoRegister? && !op.DoBatchRegister? && !op.DoReserve? && !op.DoReleaseExpired?
    ensures After(s, op).registered == if op.DoRemoveRegistration? then s.registered - {op.attendee} else s.registered
  {
    hide FindTier, NextWindow;
  }

  /** The set of registered attendees changes by purchases and removals only. */
  lemma StepRegistered(s: State, op: Op, a: Address)
    ensures a in After(s, op).registered <==> Buys(s, op, a) || (a in s.registered && !Removes(op, a))
    ensures op.DoRegister? && op.attendee == a && Step(s, op).Ok? ==> a !in s.registered
  {
    hide Register, BatchRegister, Reserve, ReleaseExpired;
    if Step(s, op).Ok? {
      match op
      case DoRegister(b, id, x) => PurchaseRegisters(s, b, id, 0, 0, x);
      case DoBatchRegister(b, id, k, h, x) => PurchaseRegisters(s, b, id, k, h, x);
      case DoReserve(b, id) => ReservationsKeepRegistered(s, b, id);
      case DoReleaseExpired(b) => ReservationsKeepRegistered(s, b, 0);
      case _ => OthersKeepRegistered(s, op);
    }
  }

  lemma {:induction false} RegisteredStays(s: State, ops: seq<Op>, a: Address)
    requires a in s.registered && !Removed(ops, a)
    ensures a in Run(s, ops).registered
  {
    hide After;
    if ops != [] {
      var init := ops[..|ops| - 1];
      assert forall i :: 0 <= i < |init| ==> init[i] == ops[i];
      assert !Removes(ops[|ops| - 1], a);
      RegisteredStays(s, init, a);
      StepRegistered(Run(s, init), ops[|ops| - 1], a);
    }
  }

  /**
   After a purchase by an attendee, single or batch, and until its registration is removed: its reservations are refused
   as already registered while the event is active, and so are its single purchases once the checks before that pass.
   */
  lemma PurchasedOnce(s: State, op: Op, ops: seq<Op>, a: Address, id: nat, x: bool)
    requires Buys(s, op, a) && !Removed(ops, a)
    ensures var u := Run(After(s, op), ops);
      && a in u.registered
      && (u.event.status == Active ==> Reserve(u, a, id) == Err(AlreadyRegistered))
      && Register(u, a, id, x).Err?
      && (u.event.status == Active && u.standardPrivacy && CheckFree(u, a, IsFree(u, id), 1).Ok? ==>
            Register(u, a, id, x) == Err(AlreadyRegistered))
  {
    hide After, Run, Step, CheckFree, FindTier;
    StepRegistered(s, op, a);
    RegisteredStays(After(s, op), ops, a);
  }

  function Single(s: State, op: Op, a: Address): nat {
    if op.DoRegister? && op.attendee == a && Step(s, op).Ok? then 1 else 0
  }

  function Singles(s: State, ops: seq<Op>, a: Address): nat {
    if ops == [] then 0 else Singles(s, ops[..|ops| - 1], a) + Single(Run(s, ops[..|ops| - 1]), ops[|ops| - 1], a)
  }

  function Removals(ops: seq<Op>, a: Address): nat {
    if ops == [] then 0 else Removals(ops[..|ops| - 1], a) + if Removes(ops[|ops| - 1], a) then 1 else 0
  }

  /** In every run an attendee's single registrations are at most one more than the removals of its registration. */
  lemma {:induction false} SinglesBound(s: State, ops: seq<Op>, a: Address)
    ensures Singles(s, ops, a) + (if a in s.registered then 1 else 0)
      <= Removals(ops, a) + if a in Run(s, ops).registered then 1 else 0
    ensures Singles(s, ops, a) <= Removals(ops, a) + 1
  {
    hide After, Step;
    if ops != [] {
      SinglesBound(s, ops[..|ops| - 1], a);
      StepRegistered(Run(s, ops[..|ops| - 1]), ops[|ops| - 1], a);
    }
  }

  // ---- Free claims ----

  /** Seats of free tiers an attendee gets by an operation. */
  function FreeSeats(s: State, op: Op, a: Address): nat {
    if Buys(s, op, a) && IsFree(s, op.id) then if op.DoRegister? then 1 else op.count else 0
  }

  function TotalFree(s: State, ops: seq<Op>, a: Address): nat {
    if ops == [] then 0 else TotalFree(s, ops[..|ops| - 1], a) + FreeSeats(Run(s, ops[..|ops| - 1]), ops[|ops| - 1], a)
  }

  predicate Relimits(op: Op) { op.DoConfigure? && op.setting.FreeLimits? }

  /** Counters grow by the seats, limits stay. */
  ghost predicate FreeGrows(s: State, u: State, a: Address, seats: nat) {
    At(u.free.counts, a) == At(s.free.counts, a) + seats && u.free.max == s.free.max && u.free.cooldown == s.free.cooldown
  }

  lemma PurchaseFree(s: State, b: Address, id: nat, count: nat, held: nat, x: bool, a: Address)
    ensures Register(s, b, id, x).Ok? ==>
      && FreeGrows(s, Register(s, b, id, x).value, a, if a == b && IsFree(s, id) then 1 else 0)
      && (s.free.max > 0 && IsFree(s, id) ==> At(s.free.counts, b) + 1 <= s.free.max)
    ensures BatchRegister(s, b, id, count, held, x).Ok? ==>
      && FreeGrows(s, BatchRegister(s, b, id, count, held, x).value, a, if a == b && IsFree(s, id) then count else 0)
      && (s.free.max > 0 && IsFree(s, id) ==> At(s.free.counts, b) + count <= s.free.max)
  {
    hide FindTier, CheckReservation;
  }

  lemma OthersKeepFree(s: State, op: Op, a: Address)
    requires Step(s, op).Ok? && !op.DoRegister? && !op.DoBatchRegister? && !Relimits(op)
    ensures After(s, op).free == s.free
  {
    hide FindTier, NextWindow;
  }

  lemma StepFree(s: State, op: Op, a: Address)
    requires !Relimits(op)
    ensures FreeGrows(s, After(s, op), a, FreeSeats(s, op, a))
    ensures FreeSeats(s, op, a) > 0 && s.free.max > 0 ==> At(s.free.counts, a) + FreeSeats(s, op, a) <= s.free.max
  {
    hide Register, BatchRegister, FindTier;
    if Step(s, op).Ok? {
      match op
      case DoRegister(b, id, x) => PurchaseFree(s, b, id, 0, 0, x, a);
      case DoBatchRegister(b, id, k, h, x) => PurchaseFree(s, b, id, k, h, x, a);
      case _ => OthersKeepFree(s, op, a);
    }
  }

  /** Until the limits are changed, an attendee never gets more free seats than the maximum, and the counter is exact. */
  lemma {:induction false} FreeLimit(s: State, ops: seq<Op>, a: Address)
    requires forall i :: 0 <= i < |ops| ==> !Relimits(ops[i])
    requires s.free.max > 0 && At(s.free.counts, a) <= s.free.max
    ensures At(Run(s, ops).free.counts, a) == At(s.free.counts, a) + TotalFree(s, ops, a) <= s.free.max
    ensures Run(s, ops).free.max == s.free.max
  {
    hide After, FreeSeats;
    if ops != [] {
      var init := ops[..|ops| - 1];
      assert forall i :: 0 <= i < |init| ==> init[i] == ops[i];
      FreeLimit(s, init, a);
      StepFree(Run(s, init), ops[|ops| - 1], a);
    }
  }

  // ---- One-time proofs ----

  function Attends(s: State, op: Op, n: nat): nat {
    if op.DoVerifyAndAttend? && op.nullifier == n && Step(s, op).Ok? then 1 else 0
  }

  function Attendances(s: State, ops: seq<Op>, n: nat): nat {
    if ops == [] then 0 else Attendances(s, ops[..|ops| - 1], n) + Attends(Run(s, ops[..|ops| - 1]), ops[|ops| - 1], n)
  }

  lemma StepUsed(s: State, op: Op, n: nat)
    ensures n in After(s, op).zk.used <==> n in s.zk.used || Attends(s, op, n) == 1
    ensures Attends(s, op, n) == 1 ==> n !in s.zk.used
  {
    hide FindTier, NextWindow, CheckFree, CheckReservation;
  }

  /** In every run a nullifier of a verified attendance is accepted at most once, and stays used. */
  lemma {:induction false} NullifierOnce(s: State, ops: seq<Op>, n: nat)
    ensures Attendances(s, ops, n) + (if n in s.zk.used then 1 else 0) == if n in Run(s, ops).zk.used then 1 else 0
  {
    hide After, Step;
    if ops != [] {
      NullifierOnce(s, ops[..|ops| - 1], n);
      StepUsed(Run(s, ops[..|ops| - 1]), ops[|ops| - 1], n);
    }
  }

  // ---- Lifecycle ----

  /** Seats are sold only while the event is active, and a completed or cancelled event stays so. */
  lemma StepStatus(s: State, op: Op)
    ensures s.event.status != Active ==> After(s, op).event.soldCount == s.event.soldCount
    ensures s.event.status == Completed || s.event.status == Cancelled ==> After(s, op).event.status == s.event.status
    ensures After(s, op).event.status != s.event.status ==>
      match After(s, op).event.status
      case Upcoming => false
      case Active => s.event.status == Upcoming || s.event.status == Postponed
      case Completed => s.event.status == Active
      case Cancelled => s.event.status == Upcoming || s.event.status == Active || s.event.status == Postponed
      case Postponed => s.event.status == Active
  {
    hide FindTier, NextWindow, CheckFree, CheckReservation;
  }

  /** After completion or cancellation no seat is ever sold again. */
  lemma {:induction false} ClosedForever(s: State, ops: seq<Op>)
    requires s.event.status == Completed || s.event.status == Cancelled
    ensures Run(s, ops).event.status == s.event.status && Run(s, ops).event.soldCount == s.event.soldCount
  {
    hide After;
    if ops != [] {
      ClosedForever(s, ops[..|ops| - 1]);
      StepStatus(Run(s, ops[..|ops| - 1]), ops[|ops| - 1]);
    }
  }
}

/** Rate windows and nullifiers of anonymous claims, over every run. */
module AnonymousClaims {
  import opened Ledger
  import opened EventSpec

  /** The operation admits a new anonymous claim. */
  predicate Fresh(s: State, op: Op) {
    op.DoClaimAnonymous? && op.nullifier !in s.anon.nullifiers && Step(s, op).Ok?
  }

  /** Claims admitted during the run at ledgers from `lo` up to, but not including, `hi`. */
  function Admitted(s: State, ops: seq<Op>, lo: nat, hi: nat): nat {
    if ops == [] then 0
    else
      var before := Run(s, ops[..|ops| - 1]);
      Admitted(s, ops[..|ops| - 1], lo, hi)
        + if Fresh(before, ops[|ops| - 1]) && lo <= before.ledger < hi then 1 else 0
  }

  /** Claims admitted in window `w` of `size` ledgers. */
  function InWindow(s: State, ops: seq<Op>, size: nat, w: nat): nat {
    Admitted(s, ops, w * size, (w + 1) * size)
  }

  /** Seats sold by an operation other than an anonymous claim. */
  function OtherSeats(s: State, op: Op): nat {
    if Step(s, op).Err? || !(op.DoRegister? || op.DoBatchRegister? || op.DoVerifyAndAttend?) then 0
    else if op.DoBatchRegister? then op.count else 1
  }

  /** No operation changes the window settings. */
  predicate Settled(ops: seq<Op>) {
    forall i :: 0 <= i < |ops| ==> !SetsWindow(ops[i])
  }

  /** Same window, settings and nullifiers, no earlier clock, and `seats` more sold. */
  ghost predicate Sells(s: State, u: State, seats: nat) {
    u.anon.max == s.anon.max && u.anon.size == s.anon.size && u.ledger >= s.ledger && u.anon.window == s.anon.window
    && u.anon.nullifiers == s.anon.nullifiers && u.event.soldCount == s.event.soldCount + seats
  }

  lemma TiersKeep(s: State, c: Address, p: TierParams, id: nat, n: Option<bool>, price: Option<int>, k: Option<nat>)
    ensures AddTier(s, c, p).Ok? ==> Sells(s, AddTier(s, c, p).value, 0)
    ensures UpdateTier(s, c, id, n, price, k).Ok? ==> Sells(s, UpdateTier(s, c, id, n, price, k).value, 0)
  {
    hide FindTier;
  }

  lemma LapseKeeps(s: State, a: Address)
    requires a in s.reservations
    ensures Lapse(s, a).Ok? ==> Sells(s, Lapse(s, a).value, 0)
    ensures Lapse(s, a).Ok? ==> Lapse(s, a).value.timestamp == s.timestamp
  {
    hide FindTier, Unreserve;
  }

  lemma ReservationsKeep(s: State, a: Address, id: nat)
    ensures Reserve(s, a, id).Ok? ==> Sells(s, Reserve(s, a, id).value, 0)
    ensures ReleaseExpired(s, a).Ok? ==> Sells(s, ReleaseExpired(s, a).value, 0)
  {
    hide FindTier, Lapse;
    if a in s.reservations { LapseKeeps(s, a); }
  }

  lemma SellKeeps(s: State, a: Address, k: nat, count: nat)
    requires k < |s.event.tiers|
    ensures Sells(s, Sell(s, a, k, count), count)
  {
  }

  lemma PurchasesKeep(s: State, a: Address, id: nat, count: nat, held: nat, x: bool)
    ensures Register(s, a, id, x).Ok? ==> Sells(s, Register(s, a, id, x).value, 1)
    ensures BatchRegister(s, a, id, count, held, x).Ok? ==> Sells(s, BatchRegister(s, a, id, count, held, x).value, count)
  {
    hide FindTier, Sell, Unreserve, Sells, CheckFree, CheckReservation;
    if Find(s, id).Some? {
      SellKeeps(s, a, Find(s, id).value, 1);
      SellKeeps(s, a, Find(s, id).value, count);
    }
  }

  lemma ZkKeeps(s: State, id: nat, c: nat, n: nat, e: nat, x: bool)
    ensures VerifyAndAttend(s, id, c, n, e, x).Ok? ==> Sells(s, VerifyAndAttend(s, id, c, n, e, x).value, 1)
  {
    hide FindTier;
  }

  lemma StatusKeeps(s: State, status: EventStatus)
    ensures Sells(s, s.(event := s.event.(status := status)), 0)
  {
  }

  lemma LifecycleKeeps(s: State, c: Address, n: EventStatus, v: bool)
    ensures UpdateStatus(s, c, n).Ok? ==> Sells(s, UpdateStatus(s, c, n).value, 0)
    ensures CancelEvent(s, c).Ok? ==> Sells(s, CancelEvent(s, c).value, 0)
    ensures Postpone(s, c, v).Ok? ==> Sells(s, Postpone(s, c, v).value, 0)
    ensures Resume(s, c, v).Ok? ==> Sells(s, Resume(s, c, v).value, 0)
  {
    hide Sells;
    StatusKeeps(s, n);
    StatusKeeps(s, Cancelled);
    StatusKeeps(s, Postponed);
    StatusKeeps(s, Active);
  }

  lemma ConfigureKeeps(s: State, c: Address, x: Setting)
    requires Configure(s, c, x).Ok?
    ensures !x.AnonClaims? ==> Sells(s, Configure(s, c, x).value, 0)
    ensures Configure(s, c, x).value.anon.nullifiers == s.anon.nullifiers && Configure(s, c, x).value.event.soldCount == s.event.soldCount
  {
  }

  /** The operation changes the window settings. */
  predicate SetsWindow(op: Op) { op.DoConfigure? && op.setting.AnonClaims? }

  /** Only a fresh claim moves the window or adds a nullifier; every operation sells the seats it reports. */
  lemma OnlyFreshClaims(s: State, op: Op)
    requires !SetsWindow(op) && !Fresh(s, op)
    ensures Sells(s, After(s, op), OtherSeats(s, op))
  {
    hide Sells, AddTier, UpdateTier, Reserve, ReleaseExpired, Register, BatchRegister, VerifyAndAttend, ClaimAnonymous,
      UpdateStatus, CancelEvent, Postpone, Resume, Configure;
    Unchanged(s);
    match op
    case DoAddTier(c, p) => TiersKeep(s, c, p, 0, None, None, None);
    case DoUpdateTier(c, id, n, p, k) => TiersKeep(s, c, TierParams(true, 0, 0), id, n, p, k);
    case DoReserve(a, id) => ReservationsKeep(s, a, id);
    case DoReleaseExpired(a) => ReservationsKeep(s, a, 0);
    case DoRegister(a, id, x) => PurchasesKeep(s, a, id, 1, 0, x);
    case DoBatchRegister(a, id, k, h, x) => PurchasesKeep(s, a, id, k, h, x);
    case DoVerifyAndAttend(id, c, n, e, x) => ZkKeeps(s, id, c, n, e, x);
    case DoClaimAnonymous(_, _, _, _, _) => ReplayChangesNothing(s, op);
    case DoConfigure(c, x) => if Configure(s, c, x).Ok? { ConfigureKeeps(s, c, x); }
    case DoAdvance(l, t) => ClockKeeps(s, l, t);
    case DoRemoveRegistration(a) => RemovalKeeps(s, a);
    case DoUpdateStatus(c, n) => LifecycleKeeps(s, c, n, true);
    case DoCancel(c) => LifecycleKeeps(s, c, Active, true);
    case DoPostpone(c, v) => LifecycleKeeps(s, c, Active, v);
    case DoResume(c, v) => LifecycleKeeps(s, c, Active, v);
  }

  lemma Unchanged(s: State)
    ensures Sells(s, s, 0)
  {
  }

  lemma ClockKeeps(s: State, l: nat, t: nat)
    ensures Sells(s, s.(ledger := s.ledger + l, timestamp := s.timestamp + t), 0)
  {
  }

  lemma RemovalKeeps(s: State, a: Address)
    ensures Sells(s, s.(registered := s.registered - {a}), 0)
  {
  }

  /** Claiming again with a spent nullifier leaves the whole state as it was. */
  lemma ReplayChangesNothing(s: State, op: Op)
    requires op.DoClaimAnonymous? && !Fresh(s, op)
    ensures After(s, op) == s
  {
    hide FindTier;
  }

  /** What an admitted claim does. */
  lemma FreshClaim(s: State, op: Op)
    requires Fresh(s, op)
    ensures var u := After(s, op);
      && u.anon.max == s.anon.max && u.anon.size == s.anon.size && u.ledger == s.ledger
      && NextWindow(s) == Ok(u.anon.window)
      && u.anon.nullifiers == s.anon.nullifiers[op.nullifier := op.commitment]
      && u.event.soldCount == s.event.soldCount + 1
  {
    hide FindTier;
  }

  lemma {:induction false} SettingsFixed(s: State, ops: seq<Op>)
    requires Settled(ops)
    ensures Run(s, ops).anon.max == s.anon.max && Run(s, ops).anon.size == s.anon.size
  {
    hide Step, After;
    if ops != [] {
      var before, op := Run(s, ops[..|ops| - 1]), ops[|ops| - 1];
      SettingsFixed(s, ops[..|ops| - 1]);
      if Fresh(before, op) { FreshClaim(before, op); } else { OnlyFreshClaims(before, op); }
    }
  }

  // ---- The window bound ----

  /** Either nothing was admitted, or the stored window is the last one used and counts its claims. */
  ghost predicate WindowInv(s: State, ops: seq<Op>) {
    var u := Run(s, ops);
    || (forall w: nat :: InWindow(s, ops, s.anon.size, w) == 0)
    || (&& InWindow(s, ops, s.anon.size, u.anon.window.index) <= u.anon.window.count <= s.anon.max
        && u.anon.window.index * s.anon.size <= u.ledger
        && forall w: nat :: w > u.anon.window.index ==> InWindow(s, ops, s.anon.size, w) == 0)
  }

  lemma WindowOf(ledger: nat, size: nat, w: nat)
    requires size > 0
    ensures w * size <= ledger < (w + 1) * size <==> w == ledger / size
  {
    var q := ledger / size;
    assert ledger == q * size + ledger % size;
    if w < q { assert (w + 1) * size <= q * size; }
    if w > q { assert w * size >= (q + 1) * size; }
  }

  lemma InWindowStep(s: State, ops: seq<Op>, size: nat, w: nat)
    requires ops != [] && size > 0
    ensures var before := Run(s, ops[..|ops| - 1]);
      InWindow(s, ops, size, w) == InWindow(s, ops[..|ops| - 1], size, w)
        + if Fresh(before, ops[|ops| - 1]) && w == before.ledger / size then 1 else 0
  {
    hide Fresh;
    WindowOf(Run(s, ops[..|ops| - 1]).ledger, size, w);
  }

  /** While the settings stay fixed, every window admits at most the maximum. */
  lemma {:induction false} WindowBound(s: State, ops: seq<Op>)
    requires Settled(ops) && s.anon.max > 0 && s.anon.size > 0
    ensures WindowInv(s, ops)
    ensures forall w: nat :: InWindow(s, ops, s.anon.size, w) <= s.anon.max
  {
    hide Step, After, InWindow, Fresh, Run;
    if ops == [] {
      forall w: nat ensures InWindow(s, ops, s.anon.size, w) == 0 { NothingAdmitted(s, s.anon.size, w); }
    } else {
      var prefix, op := ops[..|ops| - 1], ops[|ops| - 1];
      var before, size := Run(s, prefix), s.anon.size;
      WindowBound(s, prefix);
      SettingsFixed(s, prefix);
      RunStep(s, ops);
      forall w: nat
        ensures InWindow(s, ops, size, w)
             == InWindow(s, prefix, size, w) + if Fresh(before, op) && w == before.ledger / size then 1 else 0
      {
        InWindowStep(s, ops, size, w);
      }
      if Fresh(before, op) {
        FreshClaim(before, op);
        WindowOf(before.ledger, size, before.ledger / size);
        WindowAdvances(before.anon.window.index, before.ledger, size);
      } else {
        OnlyFreshClaims(before, op);
      }
    }
  }

  lemma WindowAdvances(index: nat, ledger: nat, size: nat)
    requires size > 0
    ensures index * size <= ledger ==> index <= ledger / size
  {
    WindowOf(ledger, size, ledger / size);
    if index > ledger / size { assert index * size >= (ledger / size + 1) * size; }
  }

  lemma NothingAdmitted(s: State, size: nat, w: nat)
    ensures InWindow(s, [], size, w) == 0
  {
  }

  lemma RunStep(s: State, ops: seq<Op>)
    requires ops != []
    ensures Run(s, ops) == After(Run(s, ops[..|ops| - 1]), ops[|ops| - 1])
  {
  }

  /** Any span of one window's length meets at most two windows. */
  lemma {:induction false} SpanMeetsTwoWindows(s: State, ops: seq<Op>, size: nat, from: nat)
    requires size > 0
    ensures Admitted(s, ops, from, from + size)
         <= InWindow(s, ops, size, from / size) + InWindow(s, ops, size, from / size + 1)
  {
    hide Fresh, InWindow;
    var w := from / size;
    if ops == [] {
      NothingAdmitted(s, size, w);
      NothingAdmitted(s, size, w + 1);
    } else {
      SpanMeetsTwoWindows(s, ops[..|ops| - 1], size, from);
      InWindowStep(s, ops, size, w);
      InWindowStep(s, ops, size, w + 1);
      var ledger := Run(s, ops[..|ops| - 1]).ledger;
      WindowOf(from, size, w);
      WindowOf(ledger, size, w);
      WindowOf(ledger, size, w + 1);
      assert (w + 1 + 1) * size == (w + 1) * size + size;
    }
  }

  /** At most twice the maximum in any `anonWindow` consecutive ledgers. */
  lemma SlidingBound(s: State, ops: seq<Op>, from: nat)
    requires Settled(ops) && s.anon.max > 0 && s.anon.size > 0
    ensures Admitted(s, ops, from, from + s.anon.size) <= 2 * s.anon.max
  {
    hide Admitted, InWindow, WindowInv;
    WindowBound(s, ops);
    SpanMeetsTwoWindows(s, ops, s.anon.size, from);
  }

  // ---- Nullifiers ----

  /** A stored commitment never changes. */
  lemma {:induction false} CommitmentsPermanent(s: State, ops: seq<Op>, n: nat)
    requires n in s.anon.nullifiers
    ensures n in Run(s, ops).anon.nullifiers && Run(s, ops).anon.nullifiers[n] == s.anon.nullifiers[n]
  {
    hide Step, After;
    if ops != [] {
      CommitmentsPermanent(s, ops[..|ops| - 1], n);
      var before, op := Run(s, ops[..|ops| - 1]), ops[|ops| - 1];
      NullifierStep(before, op);
    }
  }

  function OtherSeatsIn(s: State, ops: seq<Op>): nat {
    if ops == [] then 0
    else OtherSeatsIn(s, ops[..|ops| - 1]) + OtherSeats(Run(s, ops[..|ops| - 1]), ops[|ops| - 1])
  }

  lemma NullifierStep(s: State, op: Op)
    ensures After(s, op).anon.nullifiers == if Fresh(s, op) then s.anon.nullifiers[op.nullifier := op.commitment] else s.anon.nullifiers
    ensures After(s, op).event.soldCount == s.event.soldCount + OtherSeats(s, op) + if Fresh(s, op) then 1 else 0
  {
    hide AddTier, UpdateTier, Reserve, ReleaseExpired, Register, BatchRegister, VerifyAndAttend, ClaimAnonymous,
      UpdateStatus, CancelEvent, Postpone, Resume, Configure;
    if Fresh(s, op) { FreshClaim(s, op); }
    else if SetsWindow(op) {
      if Configure(s, op.caller, op.setting).Ok? { ConfigureKeeps(s, op.caller, op.setting); }
    } else { OnlyFreshClaims(s, op); }
  }

  /** Every stored nullifier accounts for exactly one sold seat. */
  lemma {:induction false} NullifiersAreSeats(s: State, ops: seq<Op>)
    ensures Run(s, ops).event.soldCount - |Run(s, ops).anon.nullifiers|
         == s.event.soldCount - |s.anon.nullifiers| + OtherSeatsIn(s, ops)
  {
    hide Step, After, OtherSeats;
    if ops != [] {
      NullifiersAreSeats(s, ops[..|ops| - 1]);
      var before, op := Run(s, ops[..|ops| - 1]), ops[|ops| - 1];
      NullifierStep(before, op);
      if Fresh(before, op) {
        var after := before.anon.nullifiers[op.nullifier := op.commitment];
        assert after.Keys == before.anon.nullifiers.Keys + {op.nullifier};
        assert |after| == |after.Keys| == |before.anon.nullifiers| + 1;
      }
    }
  }
}

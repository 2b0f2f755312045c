/** Capacity, reservations and rate windows over every run of an event. */
module EventCapacity {
  import opened Ledger
  import opened EventSpec

  // ---- Counting reservations and adding up tiers ----

  ghost function Holders(m: map<Address, Reservation>, id: nat): set<Address> {
    set a | a in m && m[a].tierId == id
  }

  ghost function Reserved(m: map<Address, Reservation>, id: nat): nat { |Holders(m, id)| }

  lemma ReservedAdd(m: map<Address, Reservation>, a: Address, r: Reservation, id: nat)
    requires a !in m
    ensures Reserved(m[a := r], id) == Reserved(m, id) + if r.tierId == id then 1 else 0
  {
    var n := m[a := r];
    if r.tierId == id {
      assert Holders(n, id) == Holders(m, id) + {a};
    } else {
      assert Holders(n, id) == Holders(m, id);
    }
  }

  lemma ReservedRemove(m: map<Address, Reservation>, a: Address, id: nat)
    requires a in m
    ensures Reserved(m, id) == Reserved(m - {a}, id) + if m[a].tierId == id then 1 else 0
  {
    ReservedAdd(m - {a}, a, m[a], id);
    assert (m - {a})[a := m[a]] == m;
  }

  function TotalSold(tiers: seq<Tier>): nat {
    if tiers == [] then 0 else TotalSold(tiers[..|tiers| - 1]) + tiers[|tiers| - 1].sold
  }

  function TotalCapacity(tiers: seq<Tier>): nat {
    if tiers == [] then 0 else TotalCapacity(tiers[..|tiers| - 1]) + tiers[|tiers| - 1].capacity
  }

  lemma {:induction false} TotalsUpdate(tiers: seq<Tier>, k: nat, t: Tier)
    requires k < |tiers|
    ensures TotalSold(tiers[k := t]) == TotalSold(tiers) - tiers[k].sold + t.sold
    ensures TotalCapacity(tiers[k := t]) == TotalCapacity(tiers) - tiers[k].capacity + t.capacity
  {
    var n := |tiers| - 1;
    if k == n {
      assert tiers[k := t][..n] == tiers[..n];
    } else {
      TotalsUpdate(tiers[..n], k, t);
      assert tiers[k := t][..n] == tiers[..n][k := t];
    }
  }

  lemma TotalsAppend(tiers: seq<Tier>, t: Tier)
    ensures TotalSold(tiers + [t]) == TotalSold(tiers) + t.sold
    ensures TotalCapacity(tiers + [t]) == TotalCapacity(tiers) + t.capacity
  {
    assert (tiers + [t])[..|tiers|] == tiers;
  }

  // ---- The invariant ----

  ghost predicate TierInv(s: State, i: nat)
    requires i < |s.event.tiers|
  {
    && s.event.tiers[i].tierId == i
    && s.event.tiers[i].reserved == Reserved(s.reservations, i)
    && s.event.tiers[i].sold + s.event.tiers[i].reserved <= s.event.tiers[i].capacity
  }

  ghost predicate Inv(s: State) {
    && (forall i :: 0 <= i < |s.event.tiers| ==> TierInv(s, i))
    && s.event.soldCount == TotalSold(s.event.tiers)
    && s.event.maxSupply == TotalCapacity(s.event.tiers)
    && (forall a :: a in s.reservations ==> s.reservations[a].tierId < |s.event.tiers|)
    && s.registered !! s.reservations.Keys
    && (s.event.status == Upcoming ==> s.event.soldCount == 0 && s.reservations == map[])
  }

  lemma FindIsIndex(s: State, id: nat)
    requires Inv(s)
    ensures Find(s, id) == if id < |s.event.tiers| then Some(id) else None
  {
    if id < |s.event.tiers| { assert TierInv(s, id); }
    var r := Find(s, id);
    if r.Some? { assert TierInv(s, r.value); }
  }

  lemma {:induction false} SoldWithinCapacity(tiers: seq<Tier>)
    requires forall i :: 0 <= i < |tiers| ==> tiers[i].sold <= tiers[i].capacity
    ensures TotalSold(tiers) <= TotalCapacity(tiers)
    ensures forall i :: 0 <= i < |tiers| ==> TotalSold(tiers) + (tiers[i].capacity - tiers[i].sold) <= TotalCapacity(tiers)
  {
    if tiers != [] { SoldWithinCapacity(tiers[..|tiers| - 1]); }
  }

  /** Free seats of one tier are free seats of the event. */
  lemma SupplyLeft(s: State, k: nat)
    requires Inv(s) && k < |s.event.tiers|
    ensures s.event.soldCount + (s.event.tiers[k].capacity - s.event.tiers[k].sold) <= s.event.maxSupply
  {
    forall i | 0 <= i < |s.event.tiers| ensures s.event.tiers[i].sold <= s.event.tiers[i].capacity { assert TierInv(s, i); }
    SoldWithinCapacity(s.event.tiers);
  }

  // ---- Each operation keeps it ----

  lemma PushTierInv(s: State, p: TierParams)
    requires Inv(s) && s.event.status == Upcoming && PushTier(s, p).Ok?
    ensures Inv(PushTier(s, p).value) && PushTier(s, p).value.event.status == Upcoming
  {
    hide TotalSold, TotalCapacity;
    var u := PushTier(s, p).value;
    TotalsAppend(s.event.tiers, Tier(|s.event.tiers|, p.price, p.capacity, 0, 0));
    forall i | 0 <= i < |u.event.tiers| ensures TierInv(u, i) {
      if i < |s.event.tiers| { assert TierInv(s, i); } else { assert Holders(u.reservations, i) == {}; }
    }
  }

  lemma {:induction false} PushTiersInv(s: State, ps: seq<TierParams>)
    requires Inv(s) && s.event.status == Upcoming && PushTiers(s, ps).Ok?
    ensures Inv(PushTiers(s, ps).value) && PushTiers(s, ps).value.event.status == Upcoming
  {
    hide Inv, PushTier;
    if ps != [] {
      PushTiersInv(s, ps[..|ps| - 1]);
      PushTierInv(PushTiers(s, ps[..|ps| - 1]).value, ps[|ps| - 1]);
    }
  }

  lemma UpdateTierInv(s: State, caller: Address, id: nat, named: Option<bool>, price: Option<int>, capacity: Option<nat>)
    requires Inv(s) && UpdateTier(s, caller, id, named, price, capacity).Ok?
    ensures Inv(UpdateTier(s, caller, id, named, price, capacity).value)
  {
    hide TotalSold, TotalCapacity, FindTier;
    var u := UpdateTier(s, caller, id, named, price, capacity).value;
    FindIsIndex(s, id);
    TotalsUpdate(s.event.tiers, id, u.event.tiers[id]);
    forall i | 0 <= i < |u.event.tiers| ensures TierInv(u, i) {
      assert TierInv(s, i);
      assert Holders(s.reservations, i) == {};
    }
  }

  lemma LapseInv(s: State, attendee: Address)
    requires Inv(s) && attendee in s.reservations
    ensures Lapse(s, attendee).Ok? && Inv(Lapse(s, attendee).value)
    ensures attendee !in Lapse(s, attendee).value.reservations
  {
    hide TotalSold, TotalCapacity, Reserved, FindTier;
    var k := s.reservations[attendee].tierId;
    FindIsIndex(s, k);
    var u := Lapse(s, attendee).value;
    TotalsUpdate(s.event.tiers, k, u.event.tiers[k]);
    forall i | 0 <= i < |u.event.tiers| ensures TierInv(u, i) {
      assert TierInv(s, i);
      ReservedRemove(s.reservations, attendee, i);
    }
  }

  /** Taking a free seat of tier `k` for an attendee without a reservation. */
  lemma HoldInv(s: State, attendee: Address, k: nat, expiresAt: nat)
    requires Inv(s) && k < |s.event.tiers| && s.event.status != Upcoming
    requires attendee !in s.reservations && attendee !in s.registered
    requires s.event.tiers[k].sold + s.event.tiers[k].reserved < s.event.tiers[k].capacity
    ensures Inv(Hold(s, attendee, k, expiresAt))
  {
    hide TotalSold, TotalCapacity, Reserved;
    var u := Hold(s, attendee, k, expiresAt);
    assert TierInv(s, k);
    TotalsUpdate(s.event.tiers, k, u.event.tiers[k]);
    forall i | 0 <= i < |u.event.tiers| ensures TierInv(u, i) {
      assert TierInv(s, i);
      ReservedAdd(s.reservations, attendee, Reservation(k, expiresAt), i);
    }
  }

  lemma ReserveInv(s: State, attendee: Address, id: nat)
    requires Inv(s) && Reserve(s, attendee, id).Ok?
    ensures Inv(Reserve(s, attendee, id).value)
  {
    hide Inv, FindTier;
    assert s.event.status == Active;
    if !(attendee in s.reservations && s.reservations[attendee].expiresAt > s.timestamp) {
      if attendee in s.reservations { LapseInv(s, attendee); }
      var u := if attendee in s.reservations then Lapse(s, attendee).value else s;
      FindIsIndex(u, id);
      HoldInv(u, attendee, id, s.timestamp + RESERVATION_SECONDS);
    }
  }

  lemma SellInv(s: State, attendee: Address, k: nat, count: nat)
    requires Inv(s) && k < |s.event.tiers| && s.event.status != Upcoming
    requires attendee in s.reservations ==> s.reservations[attendee].tierId == k
    requires s.event.tiers[k].sold + s.event.tiers[k].reserved + count
          <= s.event.tiers[k].capacity + if attendee in s.reservations then 1 else 0
    ensures Inv(Sell(s, attendee, k, count))
  {
    hide TotalSold, TotalCapacity, Reserved;
    var u := Sell(s, attendee, k, count);
    assert TierInv(s, k);
    if attendee in s.reservations { ReservedRemove(s.reservations, attendee, k); }
    TotalsUpdate(s.event.tiers, k, u.event.tiers[k]);
    forall i | 0 <= i < |u.event.tiers| ensures TierInv(u, i) {
      assert TierInv(s, i);
      if attendee in s.reservations {
        ReservedRemove(s.reservations, attendee, i);
      } else {
        assert s.reservations - {attendee} == s.reservations;
      }
    }
  }

  lemma RegisterInv(s: State, attendee: Address, id: nat, external: bool)
    requires Inv(s) && Register(s, attendee, id, external).Ok?
    ensures Inv(Register(s, attendee, id, external).value)
  {
    hide FindTier, Sell, TotalSold, TotalCapacity;
    FindIsIndex(s, id);
    assert TierInv(s, id);
    SellInv(s, attendee, id, 1);
  }

  lemma BatchRegisterInv(s: State, attendee: Address, id: nat, count: nat, held: nat, external: bool)
    requires Inv(s) && BatchRegister(s, attendee, id, count, held, external).Ok?
    ensures Inv(BatchRegister(s, attendee, id, count, held, external).value)
  {
    hide FindTier, Sell, TotalSold, TotalCapacity, Reserved;
    FindIsIndex(s, id);
    assert TierInv(s, id);
    if attendee in s.reservations { ReservedRemove(s.reservations, attendee, id); }
    SellInv(s, attendee, id, count);
  }

  lemma SellOneInv(s: State, k: nat)
    requires Inv(s) && k < |s.event.tiers| && s.event.status != Upcoming
    requires s.event.tiers[k].sold + s.event.tiers[k].reserved < s.event.tiers[k].capacity
    ensures Inv(SellOne(s, k))
  {
    hide TotalSold, TotalCapacity, Reserved;
    var u := SellOne(s, k);
    TotalsUpdate(s.event.tiers, k, u.event.tiers[k]);
    forall i | 0 <= i < |u.event.tiers| ensures TierInv(u, i) { assert TierInv(s, i); }
  }

  /** Fields the invariant does not mention. */
  lemma OtherFields(s: State, u: State)
    requires Inv(s) && u.event.tiers == s.event.tiers && u.event.soldCount == s.event.soldCount && u.event.maxSupply == s.event.maxSupply
    requires u.reservations == s.reservations && u.registered <= s.registered
    requires u.event.status == Upcoming ==> s.event.status == Upcoming
    ensures Inv(u)
  {
    hide TotalSold, TotalCapacity, Reserved;
    forall i | 0 <= i < |u.event.tiers| ensures TierInv(u, i) { assert TierInv(s, i); }
  }

  lemma ClaimInv(s: State, op: Op)
    requires Inv(s) && (op.DoClaimAnonymous? || op.DoVerifyAndAttend?)
    ensures Inv(After(s, op))
  {
    hide Inv, FindTier, NextWindow;
    if Step(s, op).Ok? && After(s, op) != s {
      FindIsIndex(s, op.id);
      SellOneInv(s, op.id);
      OtherFields(SellOne(s, op.id), After(s, op));
    }
  }

  /** Operations that touch neither tiers nor reservations. */
  predicate Quiet(op: Op) {
    op.DoUpdateStatus? || op.DoCancel? || op.DoPostpone? || op.DoResume? || op.DoRemoveRegistration?
    || op.DoConfigure? || op.DoAdvance?
  }

  lemma LifecycleInv(s: State, caller: Address, next: EventStatus, valid: bool)
    requires Inv(s)
    ensures UpdateStatus(s, caller, next).Ok? ==> Inv(UpdateStatus(s, caller, next).value)
    ensures CancelEvent(s, caller).Ok? ==> Inv(CancelEvent(s, caller).value)
    ensures Postpone(s, caller, valid).Ok? ==> Inv(Postpone(s, caller, valid).value)
    ensures Resume(s, caller, valid).Ok? ==> Inv(Resume(s, caller, valid).value)
  {
    hide Inv;
    OtherFields(s, s.(event := s.event.(status := Completed)));
    OtherFields(s, s.(event := s.event.(status := Cancelled)));
    OtherFields(s, s.(event := s.event.(status := Postponed)));
    OtherFields(s, s.(event := s.event.(status := Active)));
  }

  lemma ConfigureInv(s: State, caller: Address, c: Setting)
    requires Inv(s) && Configure(s, caller, c).Ok?
    ensures Inv(Configure(s, caller, c).value)
  {
    hide Inv;
    OtherFields(s, Configure(s, caller, c).value);
  }

  lemma QuietInv(s: State, op: Op)
    requires Inv(s) && Quiet(op) && Step(s, op).Ok?
    ensures Inv(Step(s, op).value)
  {
    hide Inv, Reserve, Register, BatchRegister, ClaimAnonymous, VerifyAndAttend, AddTier, UpdateTier, ReleaseExpired,
      UpdateStatus, CancelEvent, Postpone, Resume, Configure;
    match op
    case DoUpdateStatus(c, n) => LifecycleInv(s, c, n, true);
    case DoCancel(c) => LifecycleInv(s, c, Active, true);
    case DoPostpone(c, v) => LifecycleInv(s, c, Active, v);
    case DoResume(c, v) => LifecycleInv(s, c, Active, v);
    case DoRemoveRegistration(a) => OtherFields(s, s.(registered := s.registered - {a}));
    case DoConfigure(c, x) => ConfigureInv(s, c, x);
    case DoAdvance(l, t) => OtherFields(s, s.(ledger := s.ledger + l, timestamp := s.timestamp + t));
  }

  lemma StepInv(s: State, op: Op)
    requires Inv(s)
    ensures Inv(After(s, op))
  {
    hide Inv, Reserve, Register, BatchRegister, ClaimAnonymous, VerifyAndAttend, PushTier, UpdateTier, Lapse,
      UpdateStatus, CancelEvent, Postpone, Resume, Configure;
    if Quiet(op) {
      if Step(s, op).Ok? { QuietInv(s, op); }
    } else if op.DoClaimAnonymous? || op.DoVerifyAndAttend? {
      ClaimInv(s, op);
    } else if Step(s, op).Ok? {
      match op
      case DoAddTier(c, p) => PushTierInv(s, p);
      case DoUpdateTier(c, id, n, p, k) => UpdateTierInv(s, c, id, n, p, k);
      case DoReserve(a, id) => ReserveInv(s, a, id);
      case DoReleaseExpired(a) => LapseInv(s, a);
      case DoRegister(a, id, x) => RegisterInv(s, a, id, x);
      case DoBatchRegister(a, id, k, h, x) => BatchRegisterInv(s, a, id, k, h, x);
    }
  }

  /** A state an event can reach: created, then any operations. */
  ghost predicate Reachable(s: State) {
    exists blank: State, ps: seq<TierParams>, ops: seq<Op> ::
      IsBlank(blank) && Create(blank, true, ps).Ok? && s == Run(Create(blank, true, ps).value, ops)
  }

  ghost predicate IsBlank(s: State) {
    exists o: Address, a: bool, v: bool, m: nat :: s == Blank(o, a, v, m)
  }

  lemma {:induction false} RunInv(s: State, ops: seq<Op>)
    requires Inv(s)
    ensures Inv(Run(s, ops))
  {
    hide Inv;
    if ops != [] {
      RunInv(s, ops[..|ops| - 1]);
      StepInv(Run(s, ops[..|ops| - 1]), ops[|ops| - 1]);
    }
  }

  /** In every reachable state the invariant holds. */
  lemma ReachableInv(s: State)
    requires Reachable(s)
    ensures Inv(s)
  {
    hide Inv;
    var blank: State, ps: seq<TierParams>, ops: seq<Op> :|
      IsBlank(blank) && Create(blank, true, ps).Ok? && s == Run(Create(blank, true, ps).value, ops);
    BlankInv(blank);
    PushTiersInv(blank, ps);
    RunInv(Create(blank, true, ps).value, ops);
  }

  lemma BlankInv(blank: State)
    requires IsBlank(blank)
    ensures Inv(blank) && blank.event.status == Upcoming
  {
  }

  /** A reservation that has not expired is a seat: its holder is never told the tier or the event is sold out. */
  lemma ReservationHonoured(s: State, attendee: Address, id: nat, held: nat, external: bool)
    requires Reachable(s) && attendee in s.reservations
    requires s.reservations[attendee].tierId == id && s.reservations[attendee].expiresAt >= s.timestamp
    ensures Register(s, attendee, id, external) != Err(EventSoldOut)
    ensures Register(s, attendee, id, external) != Err(TierSoldOut)
    ensures BatchRegister(s, attendee, id, 1, held, external) != Err(EventSoldOut)
    ensures BatchRegister(s, attendee, id, 1, held, external) != Err(TierSoldOut)
  {
    hide Reachable, Inv, Register, BatchRegister;
    ReachableInv(s);
    SeatHonoured(s, attendee, id, held, external);
  }

  lemma SeatHonoured(s: State, attendee: Address, id: nat, held: nat, external: bool)
    requires Inv(s) && attendee in s.reservations
    requires s.reservations[attendee].tierId == id && s.reservations[attendee].expiresAt >= s.timestamp
    ensures Register(s, attendee, id, external) != Err(EventSoldOut)
    ensures Register(s, attendee, id, external) != Err(TierSoldOut)
    ensures BatchRegister(s, attendee, id, 1, held, external) != Err(EventSoldOut)
    ensures BatchRegister(s, attendee, id, 1, held, external) != Err(TierSoldOut)
  {
    hide FindTier, Sell, TotalSold, TotalCapacity, Reserved;
    FindIsIndex(s, id);
    assert TierInv(s, id);
    ReservedRemove(s.reservations, attendee, id);
    SupplyLeft(s, id);
  }
}

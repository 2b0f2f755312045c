/** When the operations of an event succeed, exactly, and what they change. */
module EventRules {
  import opened Ledger
  import opened EventSpec
  import opened EventCapacity

  /** A free seat in tier `id`, counting held seats as taken. */
  predicate SeatFree(s: State, id: nat) {
    id < |s.event.tiers| && s.event.tiers[id].sold + s.event.tiers[id].reserved < s.event.tiers[id].capacity
  }

  /** The attendee holds an unexpired reservation of tier `id`. */
  predicate Holds(s: State, a: Address, id: nat) {
    a in s.reservations && s.reservations[a].tierId == id && s.timestamp <= s.reservations[a].expiresAt
  }

  /** Limits on free seats: the maximum per attendee, and the pause between two claims. */
  predicate FreeAllows(s: State, a: Address, count: nat) {
    && (s.free.max > 0 ==> At(s.free.counts, a) + count <= s.free.max)
    && (s.free.cooldown > 0 && At(s.free.last, a) > 0 ==> At(s.free.last, a) + s.free.cooldown <= s.timestamp)
  }

  lemma CheckFreeIff(s: State, a: Address, free: bool, count: nat)
    ensures CheckFree(s, a, free, count).Ok? <==> (free ==> FreeAllows(s, a, count))
  {
  }

  /** The other tiers and every other attendee's reservation stay. */
  ghost predicate OnlyTier(s: State, u: State, id: nat) {
    && |u.event.tiers| == |s.event.tiers|
    && forall i :: 0 <= i < |s.event.tiers| && i != id ==> u.event.tiers[i] == s.event.tiers[i]
  }

  /** The same tier with so many seats more sold and held. */
  predicate SeatsMove(t: Tier, u: Tier, sold: int, reserved: int) {
    u == t.(sold := u.sold, reserved := u.reserved) && u.sold == t.sold + sold && u.reserved == t.reserved + reserved
  }

  // ---- Purchases ----

  /**
   A single registration: the event active and public, the attendee new, a free seat or the attendee's own reservation
   of that tier, and no reservation of another tier or a late one.
   */
  lemma RegisterIff(s: State, a: Address, id: nat, external: bool)
    requires Inv(s)
    ensures Register(s, a, id, external).Ok? <==>
      && s.event.status == Active && s.standardPrivacy && external && a !in s.registered && id < |s.event.tiers|
      && (if a in s.reservations then Holds(s, a, id) else SeatFree(s, id))
      && (s.event.tiers[id].price == 0 ==> FreeAllows(s, a, 1))
  {
    hide TotalSold, TotalCapacity, FindTier, Sell, CheckFree;
    FindIsIndex(s, id);
    if id < |s.event.tiers| {
      CheckFreeIff(s, a, s.event.tiers[id].price == 0, 1);
      assert TierInv(s, id);
      SupplyLeft(s, id);
      if a in s.reservations { ReservedRemove(s.reservations, a, id); }
    }
  }

  /** The seats taken by a batch: those sold and held by others, and the batch, fit the tier. */
  lemma BatchIff(s: State, a: Address, id: nat, count: nat, held: nat, external: bool)
    requires Inv(s)
    ensures BatchRegister(s, a, id, count, held, external).Ok? <==>
      && 1 <= count <= 100 && s.event.status == Active && s.standardPrivacy && external && id < |s.event.tiers|
      && (a in s.reservations ==> Holds(s, a, id))
      && (s.event.maxTicketsPerUser > 0 ==> held + count <= s.event.maxTicketsPerUser)
      && s.event.tiers[id].sold + s.event.tiers[id].reserved + count
           <= s.event.tiers[id].capacity + (if a in s.reservations then 1 else 0)
      && (s.event.tiers[id].price == 0 ==> FreeAllows(s, a, count))
  {
    hide TotalSold, TotalCapacity, FindTier, Sell, CheckFree;
    FindIsIndex(s, id);
    if id < |s.event.tiers| {
      CheckFreeIff(s, a, s.event.tiers[id].price == 0, count);
      assert TierInv(s, id);
      SupplyLeft(s, id);
      if a in s.reservations { ReservedRemove(s.reservations, a, s.reservations[a].tierId); }
    }
  }

  /** A purchase moves `count` seats of the tier to sold, uses up the reservation, registers, and counts free seats. */
  ghost predicate Sold(s: State, u: State, a: Address, id: nat, count: nat)
    requires id < |s.event.tiers|
  {
    var t := s.event.tiers[id];
    && OnlyTier(s, u, id)
    && SeatsMove(t, u.event.tiers[id], count, if a in s.reservations then -1 else 0)
    && u.event == s.event.(tiers := u.event.tiers, soldCount := s.event.soldCount + count)
    && u.registered == s.registered + {a} && u.reservations == s.reservations - {a}
    && (forall b :: At(u.free.counts, b) == At(s.free.counts, b) + if b == a && t.price == 0 then count else 0)
    && (t.price == 0 ==> At(u.free.last, a) == s.timestamp)
  }

  lemma PurchaseEffects(s: State, a: Address, id: nat, count: nat, held: nat, external: bool)
    requires Inv(s)
    ensures Register(s, a, id, external).Ok? ==> id < |s.event.tiers| && Sold(s, Register(s, a, id, external).value, a, id, 1)
    ensures BatchRegister(s, a, id, count, held, external).Ok? ==>
      id < |s.event.tiers| && Sold(s, BatchRegister(s, a, id, count, held, external).value, a, id, count)
  {
    hide TotalSold, TotalCapacity, FindTier, CheckFree;
    FindIsIndex(s, id);
    if id < |s.event.tiers| {
      assert TierInv(s, id);
      if a in s.reservations { ReservedRemove(s.reservations, a, id); }
    }
  }

  // ---- Reservations ----

  /** Is the attendee's reservation still running? */
  predicate Running(s: State, a: Address) { a in s.reservations && s.timestamp < s.reservations[a].expiresAt }

  /** A seat is held for 900 seconds; a running reservation is kept as it is, and an expired one is given back first. */
  lemma ReserveIff(s: State, a: Address, id: nat)
    requires Inv(s)
    ensures Reserve(s, a, id).Ok? <==>
      && s.event.status == Active && a !in s.registered
      && (Running(s, a) || SeatFree(s, id)
          || (a in s.reservations && s.reservations[a].tierId == id && id < |s.event.tiers|))
    ensures Reserve(s, a, id).Ok? ==>
      var u := Reserve(s, a, id).value;
      && (Running(s, a) ==> u == s)
      && (!Running(s, a) ==>
            && u.reservations == s.reservations[a := Reservation(id, s.timestamp + 900)]
            && |u.event.tiers| == |s.event.tiers|
            && forall i :: 0 <= i < |s.event.tiers| ==>
                 SeatsMove(s.event.tiers[i], u.event.tiers[i], 0,
                           (if i == id then 1 else 0) - if a in s.reservations && s.reservations[a].tierId == i then 1 else 0))
  {
    hide TotalSold, TotalCapacity, FindTier;
    FindIsIndex(s, id);
    if a in s.reservations && !Running(s, a) {
      var k := s.reservations[a].tierId;
      LapseInv(s, a);
      FindIsIndex(s, k);
      FindIsIndex(Lapse(s, a).value, id);
      assert TierInv(s, k);
      ReservedRemove(s.reservations, a, k);
    }
  }

  /** Anyone may give back the seat of an expired reservation, from the second of its expiry on. */
  lemma ReleaseIff(s: State, a: Address)
    requires Inv(s)
    ensures ReleaseExpired(s, a).Ok? <==> a in s.reservations && s.reservations[a].expiresAt <= s.timestamp
    ensures ReleaseExpired(s, a).Ok? ==>
      var (u, k) := (ReleaseExpired(s, a).value, s.reservations[a].tierId);
      && k < |s.event.tiers| && OnlyTier(s, u, k) && u.reservations == s.reservations - {a}
      && SeatsMove(s.event.tiers[k], u.event.tiers[k], 0, -1)
  {
    hide TotalSold, TotalCapacity, FindTier;
    if a in s.reservations {
      var k := s.reservations[a].tierId;
      FindIsIndex(s, k);
      assert TierInv(s, k);
      ReservedRemove(s.reservations, a, k);
    }
  }

  // ---- Claims without an account ----

  /** The claims admitted in the current window. */
  function InThisWindow(s: State): nat
    requires s.anon.size > 0
  {
    if s.anon.window.index == s.ledger / s.anon.size then s.anon.window.count else 0
  }

  /** A fresh anonymous claim: of a free seat in a free tier, its proof expiring within 17280 ledgers, in a window not full. */
  lemma ClaimIff(s: State, id: nat, nullifier: nat, commitment: nat, expiry: nat, proven: bool)
    requires Inv(s)
    ensures ClaimAnonymous(s, id, nullifier, commitment, expiry, proven).Ok? <==>
      if nullifier in s.anon.nullifiers then s.anon.nullifiers[nullifier] == commitment
      else
        && s.event.status == Active && s.event.allowAnonymous && s.ledger <= expiry <= s.ledger + 17_280 && proven
        && SeatFree(s, id) && s.event.tiers[id].price == 0
        && (s.anon.max > 0 && s.anon.size > 0 ==> InThisWindow(s) < s.anon.max)
    ensures ClaimAnonymous(s, id, nullifier, commitment, expiry, proven).Ok? && nullifier !in s.anon.nullifiers ==>
      var u := ClaimAnonymous(s, id, nullifier, commitment, expiry, proven).value;
      && id < |s.event.tiers| && OnlyTier(s, u, id)
      && SeatsMove(s.event.tiers[id], u.event.tiers[id], 1, 0)
      && u.event.soldCount == s.event.soldCount + 1 && u.registered == s.registered && u.reservations == s.reservations
      && u.anon.nullifiers == s.anon.nullifiers[nullifier := commitment]
      && (s.anon.max > 0 && s.anon.size > 0 ==>
            u.anon.window == Window(s.ledger / s.anon.size, InThisWindow(s) + 1))
  {
    hide TotalSold, TotalCapacity, FindTier;
    FindIsIndex(s, id);
    if id < |s.event.tiers| {
      assert TierInv(s, id);
      SupplyLeft(s, id);
    }
  }

  /** A verified attendance: where required and enabled, of the required type, before its expiry, and once per nullifier. */
  lemma AttendIff(s: State, id: nat, claimType: nat, nullifier: nat, expiry: nat, external: bool)
    requires Inv(s)
    ensures VerifyAndAttend(s, id, claimType, nullifier, expiry, external).Ok? <==>
      && s.event.status == Active && s.standardPrivacy && s.event.requiresVerification && s.zk.config.enabled
      && s.ledger <= expiry && s.zk.config.required in {0, claimType} && nullifier !in s.zk.used
      && SeatFree(s, id) && external
    ensures VerifyAndAttend(s, id, claimType, nullifier, expiry, external).Ok? ==>
      var u := VerifyAndAttend(s, id, claimType, nullifier, expiry, external).value;
      && id < |s.event.tiers| && OnlyTier(s, u, id)
      && SeatsMove(s.event.tiers[id], u.event.tiers[id], 1, 0)
      && u.event.soldCount == s.event.soldCount + 1 && u.registered == s.registered && u.reservations == s.reservations
      && u.zk.used == s.zk.used + {nullifier}
  {
    hide TotalSold, TotalCapacity, FindTier;
    FindIsIndex(s, id);
    if id < |s.event.tiers| {
      assert TierInv(s, id);
      SupplyLeft(s, id);
    }
  }

  // ---- Organizer ----

  /** The organizer adds a tier of 1 to 99999 seats to an upcoming event, as long as the supply fits in 32 bits. */
  lemma AddTierIff(s: State, caller: Address, p: TierParams)
    ensures AddTier(s, caller, p).Ok? <==>
      && caller == s.event.organizer && s.event.status == Upcoming && p.named && 1 <= p.capacity <= 99_999 && p.price >= 0
      && s.event.maxSupply + p.capacity <= 0xFFFF_FFFF
    ensures AddTier(s, caller, p).Ok? ==>
      AddTier(s, caller, p).value.event == s.event.(
        maxSupply := s.event.maxSupply + p.capacity,
        tiers := s.event.tiers + [Tier(|s.event.tiers|, p.price, p.capacity, 0, 0)])
  {
  }

  /** The organizer edits price and capacity of a tier of an upcoming event; the supply follows the capacity. */
  lemma UpdateTierIff(s: State, caller: Address, id: nat, named: Option<bool>, price: Option<int>, capacity: Option<nat>)
    requires Inv(s)
    ensures UpdateTier(s, caller, id, named, price, capacity).Ok? <==>
      && caller == s.event.organizer && s.event.status == Upcoming && id < |s.event.tiers| && named != Some(false)
      && (price.Some? ==> price.value >= 0)
      && (capacity.Some? ==>
            1 <= capacity.value <= 99_999
            && s.event.maxSupply - s.event.tiers[id].capacity + capacity.value <= 0xFFFF_FFFF)
    ensures UpdateTier(s, caller, id, named, price, capacity).Ok? ==>
      var (u, t) := (UpdateTier(s, caller, id, named, price, capacity).value, s.event.tiers[id]);
      var c := if capacity.Some? then capacity.value else t.capacity;
      && u.event.tiers == s.event.tiers[id := t.(price := if price.Some? then price.value else t.price, capacity := c)]
      && u.event.maxSupply == s.event.maxSupply - t.capacity + c
  {
    hide TotalSold, TotalCapacity, FindTier;
    FindIsIndex(s, id);
    if id < |s.event.tiers| {
      SupplyLeft(s, id);
      PartOfTotal(s.event.tiers, id);
    }
  }

  lemma {:induction false} PartOfTotal(tiers: seq<Tier>, i: nat)
    requires i < |tiers|
    ensures tiers[i].sold <= TotalSold(tiers)
  {
    if i < |tiers| - 1 { PartOfTotal(tiers[..|tiers| - 1], i); }
  }

  /** The organizer's lifecycle operations, and nobody else's. */
  lemma LifecycleIff(s: State, caller: Address, next: EventStatus, valid: bool)
    ensures UpdateStatus(s, caller, next).Ok? <==>
      caller == s.event.organizer && (s.event.status, next) in {(Upcoming, Active), (Active, Completed)}
    ensures CancelEvent(s, caller).Ok? <==>
      caller == s.event.organizer && s.event.status in {Upcoming, Active, Postponed}
    ensures Postpone(s, caller, valid).Ok? <==> caller == s.event.organizer && s.event.status == Active && valid
    ensures Resume(s, caller, valid).Ok? <==> caller == s.event.organizer && s.event.status == Postponed && valid
    ensures UpdateStatus(s, caller, next).Ok? ==> UpdateStatus(s, caller, next).value.event == s.event.(status := next)
    ensures CancelEvent(s, caller).Ok? ==> CancelEvent(s, caller).value.event == s.event.(status := Cancelled)
    ensures Postpone(s, caller, valid).Ok? ==> Postpone(s, caller, valid).value.event == s.event.(status := Postponed)
    ensures Resume(s, caller, valid).Ok? ==> Resume(s, caller, valid).value.event == s.event.(status := Active)
  {
  }

  /** The organizer's settings; the flags of the event only before it starts. */
  lemma ConfigureIff(s: State, caller: Address, c: Setting)
    ensures Configure(s, caller, c).Ok? <==> caller == s.event.organizer && (c.Flags? ==> s.event.status == Upcoming)
    ensures Configure(s, caller, c).Ok? ==>
      var u := Configure(s, caller, c).value;
      match c
      case FreeLimits(m, d) => u == s.(free := FreeClaims(s.free.counts, s.free.last, m, d))
      case AnonClaims(m, w) => u == s.(anon := AnonState(m, w, s.anon.window, s.anon.nullifiers))
      case Zk(z) => u == s.(zk := ZkState(z, s.zk.used))
      case Privacy(b) => u == s.(standardPrivacy := b)
      case Flags(a, v, m) => u == s.(event := Event(s.event.organizer, s.event.tiers, s.event.status, s.event.soldCount,
                                                    s.event.maxSupply, a, v, m))
  {
  }

  // ---- Only the organizer manages the event ----

  /** The caller of a managing operation. */
  function Manager(op: Op): Option<Address> {
    match op
    case DoAddTier(c, _) => Some(c)
    case DoUpdateTier(c, _, _, _, _) => Some(c)
    case DoUpdateStatus(c, _) => Some(c)
    case DoCancel(c) => Some(c)
    case DoPostpone(c, _) => Some(c)
    case DoResume(c, _) => Some(c)
    case DoConfigure(c, _) => Some(c)
    case _ => None
  }

  /** Everything the organizer decides: lifecycle, supply, tiers with price and capacity, limits and settings. */
  ghost predicate SameTerms(s: State, u: State) {
    && u.event == s.event.(tiers := u.event.tiers, soldCount := u.event.soldCount)
    && |u.event.tiers| == |s.event.tiers|
    && (forall i :: 0 <= i < |s.event.tiers| ==>
          u.event.tiers[i] == s.event.tiers[i].(sold := u.event.tiers[i].sold, reserved := u.event.tiers[i].reserved))
    && u.standardPrivacy == s.standardPrivacy && u.free.max == s.free.max && u.free.cooldown == s.free.cooldown
    && u.anon.max == s.anon.max && u.anon.size == s.anon.size && u.zk.config == s.zk.config
  }

  lemma ManagedOnly(s: State, op: Op)
    requires Inv(s) && Manager(op).Some? && Manager(op).value != s.event.organizer
    ensures After(s, op) == s
  {
    hide Inv, AddTier, UpdateTier, UpdateStatus, CancelEvent, Postpone, Resume, Configure;
    match op
    case DoAddTier(c, p) => AddTierIff(s, c, p);
    case DoUpdateTier(c, id, n, p, k) => UpdateTierIff(s, c, id, n, p, k);
    case DoUpdateStatus(c, n) => LifecycleIff(s, c, n, true);
    case DoCancel(c) => LifecycleIff(s, c, Active, true);
    case DoPostpone(c, v) => LifecycleIff(s, c, Active, v);
    case DoResume(c, v) => LifecycleIff(s, c, Active, v);
    case DoConfigure(c, x) => ConfigureIff(s, c, x);
  }

  lemma SalesKeepTerms(s: State, op: Op)
    requires Manager(op).None?
    ensures SameTerms(s, After(s, op))
  {
    hide FindTier, CheckFree, CheckReservation;
  }

  /** In every run without an operation of its organizer, an event keeps its lifecycle state, tiers, prices, supply and settings. */
  lemma {:induction false} OthersCannotManage(s: State, ops: seq<Op>)
    requires Inv(s) && forall i :: 0 <= i < |ops| ==> Manager(ops[i]) != Some(s.event.organizer)
    ensures SameTerms(s, Run(s, ops)) && Inv(Run(s, ops))
  {
    hide Inv, After;
    if ops != [] {
      var (init, op) := (ops[..|ops| - 1], ops[|ops| - 1]);
      assert forall i :: 0 <= i < |init| ==> init[i] == ops[i];
      OthersCannotManage(s, init);
      StepInv(Run(s, init), op);
      if Manager(op).Some? { ManagedOnly(Run(s, init), op); } else { SalesKeepTerms(Run(s, init), op); }
    }
  }
}

/**
 The event contract's storage entries for one event and its entry points, updated in place.  Every entry point keeps
 the capacity invariant of the event.
 */
module EventContract {
  import opened Ledger
  import opened EventSpec
  import opened EventCapacity

  class Contract {
    var event: Event
    var standardPrivacy: bool
    var registered: set<Address>
    var reservations: map<Address, Reservation>
    var free: FreeClaims
    var anon: AnonState
    var zk: ZkState
    // The ledger.
    var ledger: nat
    var timestamp: nat

    /** The stored entries as a value. */
    function View(): State
      reads this
    {
      State(event, standardPrivacy, registered, reservations, free, anon, zk, ledger, timestamp)
    }

    constructor (organizer: Address, allowAnonymous: bool, requiresVerification: bool, maxTicketsPerUser: nat)
      ensures View() == Blank(organizer, allowAnonymous, requiresVerification, maxTicketsPerUser) && Inv(View())
    {
      event := Event(organizer, [], Upcoming, 0, 0, allowAnonymous, requiresVerification, maxTicketsPerUser);
      standardPrivacy, registered, reservations := true, {}, map[];
      free := FreeClaims(map[], map[], 0, 0);
      anon := AnonState(0, 0, Window(0, 0), map[]);
      zk := ZkState(ZkConfig(0, false), {});
      ledger, timestamp := 0, 0;
      new;
      assert View() == Blank(organizer, allowAnonymous, requiresVerification, maxTicketsPerUser);
      BlankInv(View());
    }

    /** The tier search loop. */
    method FindTierIndex(id: nat) returns (at: Option<nat>)
      ensures at == Find(View(), id)
    {
      var i := 0;
      while i < |event.tiers|
        invariant 0 <= i <= |event.tiers|
        invariant FindTier(event.tiers, id, i) == FindTier(event.tiers, id, 0)
      {
        if event.tiers[i].tierId == id {
          return Some(i);
        }
        i := i + 1;
      }
      return None;
    }

    method PushOneTier(p: TierParams) returns (r: Result<(), EventError>)
      modifies this`event
      ensures Refines(PushTier(old(View()), p), r, old(View()), View())
      ensures Inv(old(View())) && old(event).status == Upcoming && r.Ok? ==> TierAdded(old(View()), View(), p.capacity)
    {
      hide Inv, TierAdded;
      if !p.named { return Err(InvalidInput); }
      if p.capacity == 0 || p.capacity >= 100_000 { return Err(InvalidTicketCount); }
      if p.price < 0 { return Err(InvalidPrice); }
      var e := event;
      if e.maxSupply + p.capacity > U32_MAX { return Err(InvalidTicketCount); }
      e := e.(maxSupply := e.maxSupply + p.capacity);
      e := e.(tiers := e.tiers + [Tier(|e.tiers|, p.price, p.capacity, 0, 0)]);
      event := e;
      if Inv(old(View())) && event.status == Upcoming { PushedTier(old(View()), p); }
      return Ok(());
    }

    method AddTicketTier(caller: Address, p: TierParams) returns (r: Result<(), EventError>)
      modifies this`event
      ensures Refines(AddTier(old(View()), caller, p), r, old(View()), View())
      ensures Inv(old(View())) ==> Inv(View())
      ensures Inv(old(View())) && r.Ok? ==> TierAdded(old(View()), View(), p.capacity)
    {
      hide Inv, TierAdded;
      AddTierKept(View(), caller, p);
      hide PushTier;
      if event.organizer != caller { return Err(Unauthorized); }
      if event.status != Upcoming { return Err(EventNotUpdatable); }
      r := PushOneTier(p);
    }

    method UpdateTicketTier(caller: Address, id: nat, named: Option<bool>, price: Option<int>, capacity: Option<nat>)
      returns (r: Result<(), EventError>)
      modifies this`event
      ensures Refines(UpdateTier(old(View()), caller, id, named, price, capacity), r, old(View()), View())
      ensures Inv(old(View())) ==> Inv(View())
    {
      hide Inv, TierAdded;
      UpdateTierKept(View(), caller, id, named, price, capacity);
      hide FindTier;
      if event.organizer != caller { return Err(Unauthorized); }
      if event.status != Upcoming { return Err(EventNotUpdatable); }
      var at := FindTierIndex(id);
      if at.None? { return Err(TierNotFound); }
      var e := event;
      var tier := e.tiers[at.value];
      if named == Some(false) { return Err(InvalidInput); }
      if price.Some? {
        if price.value < 0 { return Err(InvalidPrice); }
        tier := tier.(price := price.value);
      }
      if capacity.Some? {
        var c := capacity.value;
        if c == 0 || c >= 100_000 { return Err(InvalidTicketCount); }
        if c < tier.sold { return Err(InvalidTicketCount); }
        if e.maxSupply < tier.capacity { return Err(InvalidTicketCount); }
        var newMaxSupply := e.maxSupply - tier.capacity + c;
        if newMaxSupply > U32_MAX || newMaxSupply < e.soldCount { return Err(InvalidTicketCount); }
        tier := tier.(capacity := c);
        e := e.(maxSupply := newMaxSupply);
      }
      event := e.(tiers := e.tiers[at.value := tier]);
      return Ok(());
    }

    method ReserveTicket(attendee: Address, id: nat) returns (r: Result<(), EventError>)
      modifies this`event, this`reservations
      ensures Refines(Reserve(old(View()), attendee, id), r, old(View()), View())
      ensures Inv(old(View())) ==> Inv(View())
    {
      hide Inv;
      hide FindTier;
      if event.status != Active { return Err(EventNotActive); }
      if attendee in registered { return Err(AlreadyRegistered); }
      var e := event;
      if attendee in reservations {
        if reservations[attendee].expiresAt > timestamp { return Ok(()); }
        var lapsed := FindTierIndex(reservations[attendee].tierId);
        if lapsed.None? { return Err(TierNotFound); }
        var tier := e.tiers[lapsed.value];
        if tier.reserved > 0 {
          tier := tier.(reserved := tier.reserved - 1);
        }
        e := e.(tiers := e.tiers[lapsed.value := tier]);
        SameIds(event.tiers, e.tiers, id, 0);
      }
      var at := FindTierIndex(id);
      if at.None? { return Err(TierNotFound); }
      var tier := e.tiers[at.value];
      if tier.sold + tier.reserved >= tier.capacity { return Err(TierSoldOut); }
      reservations := reservations[attendee := Reservation(id, timestamp + RESERVATION_SECONDS)];
      event := e.(tiers := e.tiers[at.value := tier.(reserved := tier.reserved + 1)]);
      assert reservations == (old(reservations) - {attendee})[attendee := Reservation(id, timestamp + RESERVATION_SECONDS)];
      ReserveKept(old(View()), attendee, id);
      return Ok(());
    }

    method ReleaseExpiredReservation(attendee: Address) returns (r: Result<(), EventError>)
      modifies this`event, this`reservations
      ensures Refines(ReleaseExpired(old(View()), attendee), r, old(View()), View())
      ensures Inv(old(View())) ==> Inv(View())
    {
      hide Inv, TierAdded;
      ReleaseKept(View(), attendee);
      hide FindTier;
      if attendee !in reservations { return Err(ReservationNotFound); }
      if reservations[attendee].expiresAt > timestamp { return Err(InvalidInput); }
      var at := FindTierIndex(reservations[attendee].tierId);
      if at.None? { return Err(TierNotFound); }
      var tier := event.tiers[at.value];
      if tier.reserved > 0 {
        tier := tier.(reserved := tier.reserved - 1);
      }
      event := event.(tiers := event.tiers[at.value := tier]);
      reservations := reservations - {attendee};
      return Ok(());
    }

    /** The state changes a purchase makes after payment and minting. */
    method RecordSale(attendee: Address, k: nat, count: nat)
      requires k < |event.tiers|
      modifies this`event, this`registered, this`reservations, this`free
      ensures View() == Sell(old(View()), attendee, k, count)
      ensures registered == old(registered) + {attendee} && attendee !in reservations
    {
      var e := event;
      var tier := e.tiers[k];
      registered := registered + {attendee};
      if attendee in reservations {
        if tier.reserved > 0 {
          tier := tier.(reserved := tier.reserved - 1);
        }
      }
      reservations := reservations - {attendee};
      if tier.price == 0 {
        var claimed := if attendee in free.counts then free.counts[attendee] else 0;
        free := free.(counts := free.counts[attendee := claimed + count]);
        free := free.(last := free.last[attendee := timestamp]);
      }
      e := e.(tiers := e.tiers[k := tier.(sold := tier.sold + count)]);
      e := e.(soldCount := e.soldCount + count);
      event := e;
    }

    method RegisterForEvent(attendee: Address, id: nat, external: bool) returns (r: Result<(), EventError>)
      modifies this
      ensures Refines(Register(old(View()), attendee, id, external), r, old(View()), View())
      ensures r.Ok? ==> attendee !in old(registered) && attendee in registered
      ensures Inv(old(View())) ==> Inv(View())
    {
      hide Inv, TierAdded;
      SalesKept(View(), attendee, id, 1, 0, external);
      hide FindTier, Sell;
      if event.status != Active { return Err(EventNotActive); }
      if !standardPrivacy { return Err(PaymentPrivacyUnsupported); }
      var at := FindTierIndex(id);
      var check := CheckFree(View(), attendee, at.Some? && event.tiers[at.value].price == 0, 1);
      if check.Err? { return Err(check.error); }
      if attendee in registered { return Err(AlreadyRegistered); }
      if attendee in reservations {
        if reservations[attendee].expiresAt < timestamp { return Err(ReservationExpired); }
        if reservations[attendee].tierId != id { return Err(InvalidInput); }
      }
      if at.None? { return Err(TierNotFound); }
      var tier := event.tiers[at.value];
      if event.soldCount >= event.maxSupply { return Err(EventSoldOut); }
      if attendee !in reservations && tier.sold + tier.reserved >= tier.capacity { return Err(TierSoldOut); }
      if !external { return Err(ExternalFailed); }
      RecordSale(attendee, at.value, 1);
      return Ok(());
    }

    method BatchRegisterForEvent(attendee: Address, id: nat, count: nat, held: nat, external: bool)
      returns (r: Result<(), EventError>)
      modifies this
      ensures Refines(BatchRegister(old(View()), attendee, id, count, held, external), r, old(View()), View())
      ensures r.Ok? ==> attendee in registered
      ensures Inv(old(View())) ==> Inv(View())
    {
      hide Inv, TierAdded;
      SalesKept(View(), attendee, id, count, held, external);
      hide FindTier, Sell;
      if count == 0 || count > 100 { return Err(InvalidInput); }
      if event.status != Active { return Err(EventNotActive); }
      if !standardPrivacy { return Err(PaymentPrivacyUnsupported); }
      var at := FindTierIndex(id);
      if at.None? { return Err(TierNotFound); }
      var tier := event.tiers[at.value];
      var hasReservation := attendee in reservations;
      if hasReservation {
        if reservations[attendee].expiresAt < timestamp { return Err(ReservationExpired); }
        if reservations[attendee].tierId != id { return Err(InvalidInput); }
      }
      if event.maxTicketsPerUser > 0 && held + count > event.maxTicketsPerUser { return Err(InvalidInput); }
      if event.soldCount + count > event.maxSupply { return Err(EventSoldOut); }
      var reserved := if hasReservation && tier.reserved > 0 then tier.reserved - 1 else tier.reserved;
      if tier.sold + reserved + count > tier.capacity { return Err(TierSoldOut); }
      var check := CheckFree(View(), attendee, tier.price == 0, count);
      if check.Err? { return Err(check.error); }
      if !external { return Err(ExternalFailed); }
      RecordSale(attendee, at.value, count);
      return Ok(());
    }

    method ClaimAnonymousTicket(id: nat, nullifier: nat, commitment: nat, expiry: nat, proven: bool)
      returns (r: Result<(), EventError>)
      modifies this`event, this`anon
      ensures Refines(ClaimAnonymous(old(View()), id, nullifier, commitment, expiry, proven), r, old(View()), View())
      ensures Inv(old(View())) ==> Inv(View())
    {
      hide Inv, TierAdded;
      ClaimKept(View(), id, nullifier, commitment, expiry, proven);
      hide FindTier;
      if nullifier in anon.nullifiers {
        if anon.nullifiers[nullifier] == commitment { return Ok(()); } else { return Err(AnonymousNullifierReused); }
      }
      if event.status != Active { return Err(EventNotActive); }
      if !event.allowAnonymous { return Err(AnonymousClaimsNotEnabled); }
      if expiry < ledger { return Err(AnonymousProofExpired); }
      if expiry > ledger + MAX_ANONYMOUS_PROOF_TTL_LEDGERS { return Err(AnonymousProofExpiryTooFar); }
      var at := FindTierIndex(id);
      if at.None? { return Err(TierNotFound); }
      var e := event;
      var tier := e.tiers[at.value];
      if tier.price != 0 { return Err(InvalidInput); }
      if e.soldCount >= e.maxSupply { return Err(EventSoldOut); }
      if tier.sold + tier.reserved >= tier.capacity { return Err(TierSoldOut); }
      var state := anon.window;
      if anon.max > 0 && anon.size > 0 {
        var current := ledger / anon.size;
        if state.index != current {
          state := Window(current, 0);
        }
        if state.count >= anon.max { return Err(AnonClaimWindowFull); }
        state := state.(count := state.count + 1);
      }
      if !proven { return Err(AnonymousProofInvalid); }
      anon := anon.(window := state);
      anon := anon.(nullifiers := anon.nullifiers[nullifier := commitment]);
      e := e.(tiers := e.tiers[at.value := tier.(sold := tier.sold + 1)]);
      e := e.(soldCount := e.soldCount + 1);
      event := e;
      return Ok(());
    }

    method VerifyAndAttendEvent(id: nat, claimType: nat, nullifier: nat, expiry: nat, external: bool)
      returns (r: Result<(), EventError>)
      modifies this`event, this`zk
      ensures Refines(VerifyAndAttend(old(View()), id, claimType, nullifier, expiry, external), r, old(View()), View())
      ensures Inv(old(View())) ==> Inv(View())
    {
      hide Inv, TierAdded;
      AttendanceKept(View(), id, claimType, nullifier, expiry, external);
      hide FindTier;
      if event.status != Active { return Err(EventNotActive); }
      if !standardPrivacy { return Err(PaymentPrivacyUnsupported); }
      if !event.requiresVerification { return Err(ZkVerificationRequired); }
      if !zk.config.enabled { return Err(ZkVerificationRequired); }
      if expiry < ledger { return Err(ZkProofExpired); }
      if zk.config.required != 0 && claimType != zk.config.required { return Err(ZkClaimTypeMismatch); }
      if nullifier in zk.used { return Err(ZkNullifierReused); }
      var at := FindTierIndex(id);
      if at.None? { return Err(TierNotFound); }
      var e := event;
      var tier := e.tiers[at.value];
      if e.soldCount >= e.maxSupply { return Err(EventSoldOut); }
      if tier.sold + tier.reserved >= tier.capacity { return Err(TierSoldOut); }
      if !external { return Err(ExternalFailed); }
      zk := zk.(used := zk.used + {nullifier});
      e := e.(tiers := e.tiers[at.value := tier.(sold := tier.sold + 1)]);
      e := e.(soldCount := e.soldCount + 1);
      event := e;
      return Ok(());
    }
  }

  ghost predicate Refines(spec: Outcome, r: Result<(), EventError>, before: State, after: State) {
    match spec
    case Ok(s) => r == Ok(()) && after == s
    case Err(e) => r == Err(e) && after == before
  }

  function Applied(spec: Outcome, s: State): State { if spec.Ok? then spec.value else s }

  lemma StepKept(s: State, op: Op, spec: Outcome)
    requires spec == Step(s, op)
    ensures Inv(s) ==> Inv(Applied(spec, s))
  {
    hide Inv, Step;
    if Inv(s) { StepInv(s, op); }
  }

  lemma AddTierKept(s: State, caller: Address, p: TierParams)
    ensures Inv(s) ==> Inv(Applied(AddTier(s, caller, p), s))
  {
    hide Inv, AddTier;
    StepKept(s, DoAddTier(caller, p), AddTier(s, caller, p));
  }

  lemma UpdateTierKept(s: State, caller: Address, id: nat, named: Option<bool>, price: Option<int>, capacity: Option<nat>)
    ensures Inv(s) ==> Inv(Applied(UpdateTier(s, caller, id, named, price, capacity), s))
  {
    hide Inv, UpdateTier;
    StepKept(s, DoUpdateTier(caller, id, named, price, capacity), UpdateTier(s, caller, id, named, price, capacity));
  }

  lemma ReserveKept(s: State, attendee: Address, id: nat)
    ensures Inv(s) ==> Inv(Applied(Reserve(s, attendee, id), s))
  {
    hide Inv, Reserve;
    StepKept(s, DoReserve(attendee, id), Reserve(s, attendee, id));
  }

  lemma ReleaseKept(s: State, attendee: Address)
    ensures Inv(s) ==> Inv(Applied(ReleaseExpired(s, attendee), s))
  {
    hide Inv, ReleaseExpired;
    StepKept(s, DoReleaseExpired(attendee), ReleaseExpired(s, attendee));
  }

  lemma SalesKept(s: State, attendee: Address, id: nat, count: nat, held: nat, external: bool)
    ensures Inv(s) ==> Inv(Applied(Register(s, attendee, id, external), s))
                       && Inv(Applied(BatchRegister(s, attendee, id, count, held, external), s))
  {
    hide Inv, Register, BatchRegister;
    StepKept(s, DoRegister(attendee, id, external), Register(s, attendee, id, external));
    StepKept(s, DoBatchRegister(attendee, id, count, held, external), BatchRegister(s, attendee, id, count, held, external));
  }

  lemma ClaimKept(s: State, id: nat, nullifier: nat, commitment: nat, expiry: nat, proven: bool)
    ensures Inv(s) ==> Inv(Applied(ClaimAnonymous(s, id, nullifier, commitment, expiry, proven), s))
  {
    hide Inv, ClaimAnonymous;
    StepKept(s, DoClaimAnonymous(id, nullifier, commitment, expiry, proven),
             ClaimAnonymous(s, id, nullifier, commitment, expiry, proven));
  }

  lemma AttendanceKept(s: State, id: nat, claimType: nat, nullifier: nat, expiry: nat, external: bool)
    ensures Inv(s) ==> Inv(Applied(VerifyAndAttend(s, id, claimType, nullifier, expiry, external), s))
  {
    hide Inv, VerifyAndAttend;
    StepKept(s, DoVerifyAndAttend(id, claimType, nullifier, expiry, external),
             VerifyAndAttend(s, id, claimType, nullifier, expiry, external));
  }

  // ---- What callers rely on ----

  /** One more tier, found under its own id, with all its seats free; the others are found as before. */
  ghost predicate TierAdded(s: State, u: State, capacity: nat) {
    var n := |s.event.tiers|;
    && Inv(u) && |u.event.tiers| == n + 1 && u.event.maxSupply == s.event.maxSupply + capacity
    && Find(u, n) == Some(n) && u.event.tiers[n].capacity == capacity && u.event.tiers[n].sold == u.event.tiers[n].reserved == 0
    && forall id: nat :: id < n ==> Find(s, id) == Find(u, id) == Some(id) && u.event.tiers[id] == s.event.tiers[id]
  }

  lemma PushedTier(s: State, p: TierParams)
    requires Inv(s) && s.event.status == Upcoming && PushTier(s, p).Ok?
    ensures TierAdded(s, PushTier(s, p).value, p.capacity)
  {
    hide Inv, FindTier;
    var u := PushTier(s, p).value;
    PushTierInv(s, p);
    FindIsIndex(u, |s.event.tiers|);
    forall id: nat | id < |s.event.tiers| ensures Find(s, id) == Find(u, id) == Some(id) {
      FindIsIndex(s, id);
      FindIsIndex(u, id);
    }
  }

  predicate Available(r: Outcome) { r != Err(EventSoldOut) && r != Err(TierSoldOut) }

  /** The holder is not told that the tier or the event is sold out, now or until the reservation expires. */
  ghost predicate Honoured(s: State, attendee: Address) {
    && attendee in s.reservations && s.reservations[attendee].expiresAt >= s.timestamp
    && (forall external :: Available(Register(s, attendee, s.reservations[attendee].tierId, external)))
    && (forall held, external :: Available(BatchRegister(s, attendee, s.reservations[attendee].tierId, 1, held, external)))
  }

  lemma SeatHeld(s: State, attendee: Address)
    requires Inv(s) && attendee in s.reservations && s.reservations[attendee].expiresAt >= s.timestamp
    ensures Honoured(s, attendee)
  {
    hide Inv, Register, BatchRegister;
    var id := s.reservations[attendee].tierId;
    forall external ensures Available(Register(s, attendee, id, external)) { SeatHonoured(s, attendee, id, 0, external); }
    forall held, external ensures Available(BatchRegister(s, attendee, id, 1, held, external)) {
      SeatHonoured(s, attendee, id, held, external);
    }
  }

  /** A successful reservation is a seat. */
  lemma ReserveHonoured(s: State, attendee: Address, id: nat)
    ensures Inv(s) && Reserve(s, attendee, id).Ok? ==> Honoured(Reserve(s, attendee, id).value, attendee)
  {
    hide Inv, Honoured, FindTier;
    if Inv(s) && Reserve(s, attendee, id).Ok? {
      var u := Reserve(s, attendee, id).value;
      ReserveKept(s, attendee, id);
      assert attendee in u.reservations && u.reservations[attendee].expiresAt >= u.timestamp;
      SeatHeld(u, attendee);
    }
  }

  /** The search depends only on the ids. */
  lemma {:induction false} SameIds(a: seq<Tier>, b: seq<Tier>, id: nat, from: nat)
    requires |a| == |b| && from <= |a| && forall i :: 0 <= i < |a| ==> a[i].tierId == b[i].tierId
    ensures FindTier(a, id, from) == FindTier(b, id, from)
    decreases |a| - from
  {
    if from < |a| { SameIds(a, b, id, from + 1); }
  }
}

/**
 contracts/event/src/lib.rs for one event: tiers, reservations, registrations and
 anonymous claims as steps of a state machine.

 Calls into other contracts are summarised by the flag `external`, proof checks by
 `proven`; a failed operation changes nothing.  The clock only moves forward.
 */
module EventSpec {
  import opened Ledger

  datatype EventStatus = Upcoming | Active | Completed | Cancelled | Postponed

  datatype Tier = Tier(tierId: nat, price: int, capacity: nat, sold: nat, reserved: nat)

  datatype Reservation = Reservation(tierId: nat, expiresAt: nat)

  datatype Window = Window(index: nat, count: nat)

  datatype EventError =
    | EventNotActive | EventNotUpdatable | InvalidInput | InvalidTicketCount | InvalidPrice | InvalidStatusTransition
    | Unauthorized | TierNotFound | TierSoldOut | EventSoldOut | AlreadyRegistered | ReservationNotFound
    | ReservationExpired | ClaimLimitExceeded | ClaimCooldownActive | PaymentPrivacyUnsupported | ExternalFailed
    | AnonymousNullifierReused | AnonymousClaimsNotEnabled | AnonymousProofExpired | AnonymousProofExpiryTooFar
    | AnonClaimWindowFull | AnonymousProofInvalid | ZkVerificationRequired | ZkProofExpired | ZkClaimTypeMismatch
    | ZkNullifierReused

  const U32_MAX: nat := 0xFFFF_FFFF
  const RESERVATION_SECONDS: nat := 900
  const MAX_ANONYMOUS_PROOF_TTL_LEDGERS: nat := 17_280

  /** The zk claim type 0 is `Any`. */
  datatype ZkConfig = ZkConfig(required: nat, enabled: bool)

  /** The stored `Event` record, as far as tickets are concerned. */
  datatype Event = Event(
    organizer: Address, tiers: seq<Tier>, status: EventStatus, soldCount: nat, maxSupply: nat,
    allowAnonymous: bool, requiresVerification: bool, maxTicketsPerUser: nat)

  datatype FreeClaims = FreeClaims(counts: map<Address, nat>, last: map<Address, nat>, max: nat, cooldown: nat)

  datatype AnonState = AnonState(max: nat, size: nat, window: Window, nullifiers: map<nat, nat>)

  datatype ZkState = ZkState(config: ZkConfig, used: set<nat>)

  datatype State = State(
    event: Event, standardPrivacy: bool, registered: set<Address>, reservations: map<Address, Reservation>,
    free: FreeClaims, anon: AnonState, zk: ZkState, ledger: nat, timestamp: nat)

  type Outcome = Result<State, EventError>

  // ---- Tiers ----

  /** The first tier with an id, as the search loops find it. */
  function FindTier(tiers: seq<Tier>, id: nat, from: nat): (r: Option<nat>)
    requires from <= |tiers|
    ensures r.Some? ==> from <= r.value < |tiers| && tiers[r.value].tierId == id
    ensures r.None? ==> forall i :: from <= i < |tiers| ==> tiers[i].tierId != id
    decreases |tiers| - from
  {
    if from == |tiers| then None
    else if tiers[from].tierId == id then Some(from)
    else FindTier(tiers, id, from + 1)
  }

  function Find(s: State, id: nat): (r: Option<nat>)
    ensures r.Some? ==> r.value < |s.event.tiers| && s.event.tiers[r.value].tierId == id
  {
    FindTier(s.event.tiers, id, 0)
  }

  function Unreserve(t: Tier): Tier { if t.reserved > 0 then t.(reserved := t.reserved - 1) else t }

  /** The event record with tier `k` overwritten. */
  function WithTier(s: State, k: nat, t: Tier): State
    requires k < |s.event.tiers|
  {
    s.(event := s.event.(tiers := s.event.tiers[k := t]))
  }

  /** Tier `k` overwritten and `count` seats more in the total. */
  function SellSeats(s: State, k: nat, t: Tier, count: nat): State
    requires k < |s.event.tiers|
  {
    s.(event := s.event.(tiers := s.event.tiers[k := t], soldCount := s.event.soldCount + count))
  }

  /** A seat of tier `k` held for an attendee. */
  function Hold(s: State, attendee: Address, k: nat, expiresAt: nat): State
    requires k < |s.event.tiers|
  {
    var t := s.event.tiers[k];
    WithTier(s, k, t.(reserved := t.reserved + 1)).(
      reservations := s.reservations[attendee := Reservation(t.tierId, expiresAt)])
  }

  function At(m: map<Address, nat>, a: Address): nat { if a in m then m[a] else 0 }

  // ---- Creation and tier edits ----

  datatype TierParams = TierParams(named: bool, price: int, capacity: nat)

  function CheckTier(p: TierParams): Result<(), EventError> {
    if !p.named then Err(InvalidInput)
    else if p.capacity == 0 || p.capacity >= 100_000 then Err(InvalidTicketCount)
    else if p.price < 0 then Err(InvalidPrice)
    else Ok(())
  }

  /** Append a tier to an upcoming event, growing the supply without overflowing 32 bits. */
  function PushTier(s: State, p: TierParams): Outcome {
    var c := CheckTier(p);
    if c.Err? then Err(c.error)
    else if s.event.maxSupply + p.capacity > U32_MAX then Err(InvalidTicketCount)
    else Ok(s.(event := s.event.(
           maxSupply := s.event.maxSupply + p.capacity,
           tiers := s.event.tiers + [Tier(|s.event.tiers|, p.price, p.capacity, 0, 0)])))
  }

  function PushTiers(s: State, ps: seq<TierParams>): Outcome {
    if ps == [] then Ok(s)
    else
      var r := PushTiers(s, ps[..|ps| - 1]);
      if r.Err? then r else PushTier(r.value, ps[|ps| - 1])
  }

  function Blank(organizer: Address, allowAnonymous: bool, requiresVerification: bool, maxTicketsPerUser: nat): State {
    State(Event(organizer, [], Upcoming, 0, 0, allowAnonymous, requiresVerification, maxTicketsPerUser), true,
          {}, map[], FreeClaims(map[], map[], 0, 0), AnonState(0, 0, Window(0, 0), map[]),
          ZkState(ZkConfig(0, false), {}), 0, 0)
  }

  /** The tier part of `create_event`; the other checks are the flag `valid`. */
  function Create(blank: State, valid: bool, ps: seq<TierParams>): Outcome {
    if !valid || ps == [] then Err(InvalidInput) else PushTiers(blank, ps)
  }

  function AddTier(s: State, caller: Address, p: TierParams): Outcome {
    if s.event.organizer != caller then Err(Unauthorized)
    else if s.event.status != Upcoming then Err(EventNotUpdatable)
    else PushTier(s, p)
  }

  function UpdateTier(s: State, caller: Address, id: nat, named: Option<bool>, price: Option<int>,
                      capacity: Option<nat>): Outcome
  {
    if s.event.organizer != caller then Err(Unauthorized)
    else if s.event.status != Upcoming then Err(EventNotUpdatable)
    else
      var at := Find(s, id);
      if at.None? then Err(TierNotFound)
      else
        var t := s.event.tiers[at.value];
        if named == Some(false) then Err(InvalidInput)
        else if price.Some? && price.value < 0 then Err(InvalidPrice)
        else
          var priced := if price.Some? then t.(price := price.value) else t;
          if capacity.None? then Ok(WithTier(s, at.value, priced))
          else
            var c := capacity.value;
            if c == 0 || c >= 100_000 || c < t.sold then Err(InvalidTicketCount)
            else if s.event.maxSupply < t.capacity || s.event.maxSupply - t.capacity + c > U32_MAX then Err(InvalidTicketCount)
            else if s.event.maxSupply - t.capacity + c < s.event.soldCount then Err(InvalidTicketCount)
            else Ok(WithTier(s.(event := s.event.(maxSupply := s.event.maxSupply - t.capacity + c)), at.value,
                              priced.(capacity := c)))
  }

  // ---- Lifecycle ----

  function UpdateStatus(s: State, caller: Address, next: EventStatus): Outcome {
    if s.event.organizer != caller then Err(Unauthorized)
    else if (s.event.status == Upcoming && next == Active) || (s.event.status == Active && next == Completed)
    then Ok(s.(event := s.event.(status := next)))
    else Err(InvalidStatusTransition)
  }

  function CancelEvent(s: State, caller: Address): Outcome {
    if s.event.organizer != caller then Err(Unauthorized)
    else if s.event.status == Completed || s.event.status == Cancelled then Err(InvalidStatusTransition)
    else Ok(s.(event := s.event.(status := Cancelled)))
  }

  /** `postpone_event`; the window and date checks are the flag `valid`. */
  function Postpone(s: State, caller: Address, valid: bool): Outcome {
    if s.event.organizer != caller then Err(Unauthorized)
    else if s.event.status != Active then Err(InvalidStatusTransition)
    else if !valid then Err(InvalidInput)
    else Ok(s.(event := s.event.(status := Postponed)))
  }

  function Resume(s: State, caller: Address, valid: bool): Outcome {
    if s.event.organizer != caller then Err(Unauthorized)
    else if s.event.status != Postponed then Err(InvalidStatusTransition)
    else if !valid then Err(InvalidInput)
    else Ok(s.(event := s.event.(status := Active)))
  }

  // ---- Reservations ----

  /** Give back the seat of an expired reservation. */
  function Lapse(s: State, attendee: Address): Outcome
    requires attendee in s.reservations
  {
    var at := Find(s, s.reservations[attendee].tierId);
    if at.None? then Err(TierNotFound)
    else Ok(WithTier(s, at.value, Unreserve(s.event.tiers[at.value])).(reservations := s.reservations - {attendee}))
  }

  function Reserve(s: State, attendee: Address, id: nat): Outcome {
    if s.event.status != Active then Err(EventNotActive)
    else if attendee in s.registered then Err(AlreadyRegistered)
    else if attendee in s.reservations && s.reservations[attendee].expiresAt > s.timestamp then Ok(s)
    else
      var lapsed := if attendee in s.reservations then Lapse(s, attendee) else Ok(s);
      if lapsed.Err? then lapsed
      else
        var u := lapsed.value;
        var at := Find(u, id);
        if at.None? then Err(TierNotFound)
        else
          var t := u.event.tiers[at.value];
          if t.sold + t.reserved >= t.capacity then Err(TierSoldOut)
          else Ok(Hold(u, attendee, at.value, s.timestamp + RESERVATION_SECONDS))
  }

  function ReleaseExpired(s: State, attendee: Address): Outcome {
    if attendee !in s.reservations then Err(ReservationNotFound)
    else if s.reservations[attendee].expiresAt > s.timestamp then Err(InvalidInput)
    else Lapse(s, attendee)
  }

  // ---- Purchases ----

  /** The reservation a purchase would consume must be unexpired and for the same tier. */
  function CheckReservation(s: State, attendee: Address, id: nat): Result<(), EventError> {
    if attendee !in s.reservations then Ok(())
    else if s.reservations[attendee].expiresAt < s.timestamp then Err(ReservationExpired)
    else if s.reservations[attendee].tierId != id then Err(InvalidInput)
    else Ok(())
  }

  /** The limits on free claims, checked when the tier is free. */
  function CheckFree(s: State, attendee: Address, free: bool, count: nat): Result<(), EventError> {
    if !free then Ok(())
    else if s.free.max > 0 && At(s.free.counts, attendee) + count > s.free.max then Err(ClaimLimitExceeded)
    else if s.free.cooldown > 0 && At(s.free.last, attendee) > 0
            && s.timestamp < At(s.free.last, attendee) + s.free.cooldown then Err(ClaimCooldownActive)
    else Ok(())
  }

  /** Sell `count` seats of tier `k`, consuming the buyer's reservation. */
  function Sell(s: State, attendee: Address, k: nat, count: nat): State
    requires k < |s.event.tiers|
  {
    var t := if attendee in s.reservations then Unreserve(s.event.tiers[k]) else s.event.tiers[k];
    SellSeats(s, k, t.(sold := t.sold + count), count).(
      registered := s.registered + {attendee}, reservations := s.reservations - {attendee},
      free := if t.price != 0 then s.free
              else s.free.(counts := s.free.counts[attendee := At(s.free.counts, attendee) + count],
                           last := s.free.last[attendee := s.timestamp]))
  }

  function IsFree(s: State, id: nat): bool {
    Find(s, id).Some? && s.event.tiers[Find(s, id).value].price == 0
  }

  function Register(s: State, attendee: Address, id: nat, external: bool): Outcome {
    if s.event.status != Active then Err(EventNotActive)
    else if !s.standardPrivacy then Err(PaymentPrivacyUnsupported)
    else
      var f := CheckFree(s, attendee, IsFree(s, id), 1);
      if f.Err? then Err(f.error)
      else if attendee in s.registered then Err(AlreadyRegistered)
      else
        var r := CheckReservation(s, attendee, id);
        if r.Err? then Err(r.error)
        else
          var at := Find(s, id);
          if at.None? then Err(TierNotFound)
          else
            var t := s.event.tiers[at.value];
            if s.event.soldCount >= s.event.maxSupply then Err(EventSoldOut)
            else if attendee !in s.reservations && t.sold + t.reserved >= t.capacity then Err(TierSoldOut)
            else if !external then Err(ExternalFailed)
            else Ok(Sell(s, attendee, at.value, 1))
  }

  /** `held` is the number of tickets of the event the attendee already owns. */
  function BatchRegister(s: State, attendee: Address, id: nat, count: nat, held: nat, external: bool): Outcome {
    if count == 0 || count > 100 then Err(InvalidInput)
    else if s.event.status != Active then Err(EventNotActive)
    else if !s.standardPrivacy then Err(PaymentPrivacyUnsupported)
    else
      var at := Find(s, id);
      if at.None? then Err(TierNotFound)
      else
        var t := s.event.tiers[at.value];
        var r := CheckReservation(s, attendee, id);
        if r.Err? then Err(r.error)
        else if s.event.maxTicketsPerUser > 0 && held + count > s.event.maxTicketsPerUser then Err(InvalidInput)
        else if s.event.soldCount + count > s.event.maxSupply then Err(EventSoldOut)
        else
          var reserved := if attendee in s.reservations then Unreserve(t).reserved else t.reserved;
          if t.sold + reserved + count > t.capacity then Err(TierSoldOut)
          else
            var f := CheckFree(s, attendee, t.price == 0, count);
            if f.Err? then Err(f.error)
            else if !external then Err(ExternalFailed)
            else Ok(Sell(s, attendee, at.value, count))
  }

  // ---- Claims without an account ----

  /** The rate window after one more claim, or an error when it is full. */
  function NextWindow(s: State): Result<Window, EventError> {
    if s.anon.max > 0 && s.anon.size > 0 then
      var current := s.ledger / s.anon.size;
      var w := if s.anon.window.index != current then Window(current, 0) else s.anon.window;
      if w.count >= s.anon.max then Err(AnonClaimWindowFull) else Ok(w.(count := w.count + 1))
    else Ok(s.anon.window)
  }

  /** One more seat of tier `k`, without registration. */
  function SellOne(s: State, k: nat): State
    requires k < |s.event.tiers|
  {
    SellSeats(s, k, s.event.tiers[k].(sold := s.event.tiers[k].sold + 1), 1)
  }

  function ClaimAnonymous(s: State, id: nat, nullifier: nat, commitment: nat, expiry: nat, proven: bool): Outcome {
    if nullifier in s.anon.nullifiers then
      if s.anon.nullifiers[nullifier] == commitment then Ok(s) else Err(AnonymousNullifierReused)
    else if s.event.status != Active then Err(EventNotActive)
    else if !s.event.allowAnonymous then Err(AnonymousClaimsNotEnabled)
    else if expiry < s.ledger then Err(AnonymousProofExpired)
    else if expiry > s.ledger + MAX_ANONYMOUS_PROOF_TTL_LEDGERS then Err(AnonymousProofExpiryTooFar)
    else
      var at := Find(s, id);
      if at.None? then Err(TierNotFound)
      else
        var t := s.event.tiers[at.value];
        if t.price != 0 then Err(InvalidInput)
        else if s.event.soldCount >= s.event.maxSupply then Err(EventSoldOut)
        else if t.sold + t.reserved >= t.capacity then Err(TierSoldOut)
        else
          var w := NextWindow(s);
          if w.Err? then Err(w.error)
          else if !proven then Err(AnonymousProofInvalid)
          else Ok(SellOne(s, at.value).(
            anon := s.anon.(window := w.value, nullifiers := s.anon.nullifiers[nullifier := commitment])))
  }

  function VerifyAndAttend(s: State, id: nat, claimType: nat, nullifier: nat, expiry: nat, external: bool): Outcome {
    if s.event.status != Active then Err(EventNotActive)
    else if !s.standardPrivacy then Err(PaymentPrivacyUnsupported)
    else if !s.event.requiresVerification || !s.zk.config.enabled then Err(ZkVerificationRequired)
    else if expiry < s.ledger then Err(ZkProofExpired)
    else if s.zk.config.required != 0 && claimType != s.zk.config.required then Err(ZkClaimTypeMismatch)
    else if nullifier in s.zk.used then Err(ZkNullifierReused)
    else
      var at := Find(s, id);
      if at.None? then Err(TierNotFound)
      else
        var t := s.event.tiers[at.value];
        if s.event.soldCount >= s.event.maxSupply then Err(EventSoldOut)
        else if t.sold + t.reserved >= t.capacity then Err(TierSoldOut)
        else if !external then Err(ExternalFailed)
        else Ok(SellOne(s, at.value).(zk := s.zk.(used := s.zk.used + {nullifier})))
  }

  // ---- Settings ----

  datatype Setting =
    | FreeLimits(max: nat, cooldown: nat)
    | AnonClaims(max: nat, window: nat)
    | Zk(config: ZkConfig)
    | Privacy(standard: bool)
    | Flags(allowAnonymous: bool, requiresVerification: bool, maxTicketsPerUser: nat)

  function Configure(s: State, caller: Address, c: Setting): Outcome {
    if s.event.organizer != caller then Err(Unauthorized)
    else
      match c
      case FreeLimits(m, d) => Ok(s.(free := s.free.(max := m, cooldown := d)))
      case AnonClaims(m, w) => Ok(s.(anon := s.anon.(max := m, size := w)))
      case Zk(z) => Ok(s.(zk := s.zk.(config := z)))
      case Privacy(b) => Ok(s.(standardPrivacy := b))
      case Flags(a, v, m) =>
        if s.event.status != Upcoming then Err(EventNotUpdatable)
        else Ok(s.(event := s.event.(allowAnonymous := a, requiresVerification := v, maxTicketsPerUser := m)))
  }

  datatype Op =
    | DoAddTier(caller: Address, params: TierParams)
    | DoUpdateTier(caller: Address, id: nat, named: Option<bool>, price: Option<int>, capacity: Option<nat>)
    | DoUpdateStatus(caller: Address, next: EventStatus)
    | DoCancel(caller: Address)
    | DoPostpone(caller: Address, valid: bool)
    | DoResume(caller: Address, valid: bool)
    | DoReserve(attendee: Address, id: nat)
    | DoReleaseExpired(attendee: Address)
    | DoRegister(attendee: Address, id: nat, external: bool)
    | DoBatchRegister(attendee: Address, id: nat, count: nat, held: nat, external: bool)
    | DoClaimAnonymous(id: nat, nullifier: nat, commitment: nat, expiry: nat, proven: bool)
    | DoVerifyAndAttend(id: nat, claimType: nat, nullifier: nat, expiry: nat, external: bool)
    | DoRemoveRegistration(attendee: Address)
    | DoConfigure(caller: Address, setting: Setting)
    | DoAdvance(ledgers: nat, seconds: nat)

  function Step(s: State, op: Op): Outcome {
    match op
    case DoAddTier(c, p) => AddTier(s, c, p)
    case DoUpdateTier(c, id, n, p, k) => UpdateTier(s, c, id, n, p, k)
    case DoUpdateStatus(c, n) => UpdateStatus(s, c, n)
    case DoCancel(c) => CancelEvent(s, c)
    case DoPostpone(c, v) => Postpone(s, c, v)
    case DoResume(c, v) => Resume(s, c, v)
    case DoReserve(a, id) => Reserve(s, a, id)
    case DoReleaseExpired(a) => ReleaseExpired(s, a)
    case DoRegister(a, id, x) => Register(s, a, id, x)
    case DoBatchRegister(a, id, k, h, x) => BatchRegister(s, a, id, k, h, x)
    case DoClaimAnonymous(id, n, c, e, p) => ClaimAnonymous(s, id, n, c, e, p)
    case DoVerifyAndAttend(id, c, n, e, x) => VerifyAndAttend(s, id, c, n, e, x)
    case DoRemoveRegistration(a) => Ok(s.(registered := s.registered - {a}))
    case DoConfigure(c, x) => Configure(s, c, x)
    case DoAdvance(l, t) => Ok(s.(ledger := s.ledger + l, timestamp := s.timestamp + t))
  }

  function After(s: State, op: Op): State {
    var r := Step(s, op);
    if r.Ok? then r.value else s
  }

  function Run(s: State, ops: seq<Op>): State {
    if ops == [] then s else After(Run(s, ops[..|ops| - 1]), ops[|ops| - 1])
  }
}

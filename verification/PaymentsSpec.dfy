/**
 contracts/payments/src/lib.rs and storage.rs: the escrow as a state machine.

 A caller named in an operation is authenticated.  A failed operation, whether it
 returns an error or is stopped by the host (`HostError`), changes nothing.  The type
 `Address` stands for every address other than the contract's own.
 */
module PaymentsSpec {
  import opened Ledger
  import opened MapSums
  import opened OwnerIndexes
  import opened RevenueSplits

  const MIN_DISPUTE_WINDOW_LEDGERS: nat := 100
  const ATTENDEE_DISPUTE_WINDOW_LEDGERS: nat := 17_280 * 7
  const DISPUTE_TIMEOUT_LEDGERS: nat := 17_280 * 14

  /** A proportion in basis points. */
  type Bps = n: nat | n <= TOTAL_BASIS_POINTS

  datatype EventStatus = Upcoming | Active | Completed | Cancelled | Postponed

  datatype PaymentStatus = Held | Released | Refunded | Disputed

  datatype PaymentPrivacy = Anonymous | Private | Standard

  datatype PaymentError =
    | PaymentNotFound | TicketNotFound | Unauthorized | PaymentAlreadyProcessed | InvalidAmount
    | PaymentAlreadyRefunded | NoRevenue | AnonymousPaymentsDisabled | VerificationRequired
    | UnauthorizedWithdrawal | InvalidOrganizer | InvalidPayoutToken | EventNotActive | EventNotCompleted
    | RefundNotAllowed | EscrowNotExpired | EscrowAlreadyReleased | EscrowNotConfigured | InvalidFeeBps
    | NoPlatformRevenue | DuplicateRequest | MaxTicketsReached | EventSoldOut | NonceRequired | ContractPaused
    | TransferFailed | PostponementWindowClosed | EventNotPostponed | InvalidSplitConfig | SplitsNotConfigured
    | NotASplitRecipient | SplitAlreadyWithdrawn | RecipientFlagged | RecipientNotFlagged
    | MissingNullifierCommitment | MissingStealthDeliveryKey | PrivacyLevelMismatch | DisputeWindowClosed
    | DisputeAlreadyExists | DisputeNotFound | DisputeExpired | InvalidDisputeReason | ActiveDisputes
    | RevenueInvariantViolated | HostError

  // ---- Records ----

  datatype Payment = Payment(
    event: Symbol, payer: Option<Address>, commitment: Option<nat>, amount: int, token: Address,
    status: PaymentStatus, privacy: PaymentPrivacy, refunded: int)

  datatype Ticket = Ticket(event: Symbol, owner: Option<Address>, payment: nat, privacy: PaymentPrivacy)

  /** Payments and tickets are numbered from 1. */
  datatype Records = Records(payments: map<nat, Payment>, tickets: map<nat, Ticket>, lastPayment: nat, lastTicket: nat)

  datatype Config = Config(
    organizer: Address, payoutToken: Address, maxPerUser: nat, maxSupply: nat, sold: nat, start: nat, end: nat,
    delay: nat, extension: nat, cancelLedger: Option<nat>, ratio: Option<Bps>, withdrawn: bool, royaltyBps: nat,
    maxResalePrice: Option<int>, freeTransfer: bool)

  datatype EscrowMeta = EscrowMeta(organizer: Address, endTime: nat, released: bool)

  datatype PrivacyRules = PrivacyRules(allowAnonymous: bool, requiresVerification: bool)

  datatype Events = Events(
    config: map<Symbol, Config>, status: map<Symbol, EventStatus>, privacy: map<Symbol, PrivacyRules>,
    meta: map<Symbol, EscrowMeta>, deadline: map<Symbol, nat>, tokens: map<Symbol, seq<Address>>)

  datatype Globals = Globals(
    admin: Address, eventContract: Address, acceptedToken: Address, supported: set<Address>, feeBps: Bps,
    wallet: Address, paused: bool)

  datatype Dispute = Dispute(event: Symbol, payment: nat, reason: nat, raisedAt: nat)

  datatype Disputes = Disputes(records: map<nat, Dispute>, lists: map<Symbol, seq<nat>>)

  datatype Settlement = Settlement(token: Address, net: int)

  datatype SplitState = SplitState(
    splits: map<Symbol, seq<Split>>, settled: map<Symbol, Settlement>, paid: map<Symbol, map<Address, int>>,
    flagged: set<(Symbol, Address)>)

  datatype Listing = Listing(price: int, seller: Address)

  datatype Identities = Identities(
    nonces: set<(Address, nat)>, nonceHashes: set<(nat, nat)>, nullifiers: set<nat>,
    userTickets: map<(Symbol, Address), nat>, userTicketHashes: map<(Symbol, nat), nat>)

  // ---- Money ----

  /** The counters of one event in one token. */
  datatype Book = Book(volume: int, refunds: int, withdrawn: int, revenue: int)

  /** Token balances of the contract and of everybody else, the books, and the platform fees per event. */
  datatype Money = Money(
    balance: map<Address, int>, wallets: map<(Address, Address), int>, books: map<(Symbol, Address), Book>,
    platform: map<Symbol, int>)
  {
    function BookOf(e: Symbol, t: Address): Book {
      if (e, t) in books then books[(e, t)] else Book(0, 0, 0, 0)
    }

    function WithBook(e: Symbol, t: Address, b: Book): Money { this.(books := books[(e, t) := b]) }

    function Revenue(e: Symbol, t: Address): int { BookOf(e, t).revenue }

    function WithRevenue(e: Symbol, t: Address, r: int): Money { WithBook(e, t, BookOf(e, t).(revenue := r)) }

    /** Token transfers fail on a negative amount or an insufficient balance. */
    predicate CanSend(t: Address, a: int) { 0 <= a <= At(balance, t) }

    predicate CanReceive(t: Address, from: Address, a: int) { 0 <= a <= At(wallets, (t, from)) }

    function Send(t: Address, to: Address, a: int): Money {
      this.(balance := balance[t := At(balance, t) - a], wallets := wallets[(t, to) := At(wallets, (t, to)) + a])
    }

    function Receive(t: Address, from: Address, a: int): Money {
      this.(balance := balance[t := At(balance, t) + a], wallets := wallets[(t, from) := At(wallets, (t, from)) - a])
    }

    /** A ticket payment. */
    function Deposit(e: Symbol, t: Address, from: Address, a: int): Money {
      var b := BookOf(e, t);
      Receive(t, from, a).WithBook(e, t, b.(volume := b.volume + a, revenue := b.revenue + a))
    }

    /** Money returned to a payer with a known address, taken out of the revenue or, for a disputed payment, not. */
    function Refund(e: Symbol, t: Address, to: Option<Address>, a: int, fromRevenue: bool): Money {
      var b := BookOf(e, t);
      (if to.Some? then Send(t, to.value, a) else this).WithBook(e, t, b.(refunds := b.refunds + a,
                                       revenue := if fromRevenue then b.revenue - a else b.revenue))
    }

    /** Money paid out of the escrow, leaving `revenue` on the books. */
    function Payout(e: Symbol, t: Address, to: Address, a: int, revenue: int): Money {
      var b := BookOf(e, t);
      Send(t, to, a).WithBook(e, t, b.(withdrawn := b.withdrawn + a, revenue := revenue))
    }

    function Collect(e: Symbol, fee: int): Money {
      if fee > 0 then this.(platform := platform[e := At(platform, e) + fee]) else this
    }
  }

  datatype State = State(
    globals: Globals, money: Money, records: Records, events: Events, disputes: Disputes, split: SplitState,
    listings: map<nat, Listing>, owners: OwnerIndex, ids: Identities, ledger: nat, timestamp: nat)
  {
    function ListOf(e: Symbol): seq<nat> { if e in disputes.lists then disputes.lists[e] else [] }

    function TokensOf(e: Symbol): seq<Address> { if e in events.tokens then events.tokens[e] else [] }

    function StatusOf(e: Symbol): Option<EventStatus> { if e in events.status then Some(events.status[e]) else None }

    function RatioOf(e: Symbol): Option<Bps> { if e in events.config then events.config[e].ratio else None }

    function SplitsOf(e: Symbol): seq<Split> { if e in split.splits then split.splits[e] else [] }

    function PaidOf(e: Symbol): map<Address, int> { if e in split.paid then split.paid[e] else map[] }

    function WithPayment(id: nat, p: Payment): State {
      this.(records := records.(payments := records.payments[id := p]))
    }

    function WithConfig(e: Symbol, c: Config): State { this.(events := events.(config := events.config[e := c])) }

    function WithStatus(e: Symbol, x: EventStatus): State { this.(events := events.(status := events.status[e := x])) }

    function WithList(e: Symbol, l: seq<nat>): State { this.(disputes := disputes.(lists := disputes.lists[e := l])) }
  }

  type Outcome = Result<State, PaymentError>

  function SatAdd(a: nat, b: nat): nat { if a + b > U32_MAX then U32_MAX else a + b }

  function Initial(admin: Address, token: Address, feeBps: Bps, wallet: Address, eventContract: Address,
                   wallets: map<(Address, Address), int>): State
  {
    State(Globals(admin, eventContract, token, {}, feeBps, wallet, false), Money(map[], wallets, map[], map[]),
          Records(map[], map[], 0, 0), Events(map[], map[], map[], map[], map[], map[]), Disputes(map[], map[]),
          SplitState(map[], map[], map[], {}), map[], EMPTY, Identities({}, {}, {}, map[], map[]), 0, 0)
  }

  // ---- Payments ----

  /** `walletHash` is the hash of the payer's address. */
  datatype PaymentParams = PaymentParams(
    nonce: nat, payer: Address, walletHash: nat, event: Symbol, amount: int, token: Address,
    isAnonymous: bool, isVerified: bool, privacy: PaymentPrivacy, commitment: Option<nat>, stealth: Option<nat>)

  function NonceUsed(ids: Identities, p: PaymentParams): bool {
    match p.privacy
    case Standard => (p.payer, p.nonce) in ids.nonces
    case Private => (p.walletHash, p.nonce) in ids.nonceHashes
    case Anonymous => p.commitment.Some? && (p.commitment.value, p.nonce) in ids.nonceHashes
  }

  function TicketsHeld(ids: Identities, p: PaymentParams): nat {
    match p.privacy
    case Standard => if (p.event, p.payer) in ids.userTickets then ids.userTickets[(p.event, p.payer)] else 0
    case Private => if (p.event, p.walletHash) in ids.userTicketHashes then ids.userTicketHashes[(p.event, p.walletHash)] else 0
    case Anonymous => 0
  }

  function CheckPrivacy(s: State, p: PaymentParams): Result<(), PaymentError> {
    var rules := if p.event in s.events.privacy then s.events.privacy[p.event] else PrivacyRules(true, false);
    if p.isAnonymous && !rules.allowAnonymous then Err(AnonymousPaymentsDisabled)
    else if rules.requiresVerification && !p.isVerified then Err(VerificationRequired)
    else Ok(())
  }

  function CheckSupply(s: State, p: PaymentParams): Result<(), PaymentError> {
    if p.event !in s.events.config then Ok(())
    else
      var c := s.events.config[p.event];
      if c.maxSupply > 0 && c.sold >= c.maxSupply then Err(EventSoldOut)
      else if c.maxPerUser > 0 && TicketsHeld(s.ids, p) >= c.maxPerUser then Err(MaxTicketsReached)
      else Ok(())
  }

  /** Exactly one identity is recorded, according to the privacy level. */
  function BuildPayment(p: PaymentParams): Result<Payment, PaymentError> {
    match p.privacy
    case Anonymous =>
      if p.stealth.Some? then Err(PrivacyLevelMismatch)
      else if p.commitment.None? then Err(MissingNullifierCommitment)
      else Ok(Payment(p.event, None, p.commitment, p.amount, p.token, Held, Anonymous, 0))
    case Private =>
      if p.commitment.Some? then Err(PrivacyLevelMismatch)
      else if p.stealth.None? then Err(MissingStealthDeliveryKey)
      else Ok(Payment(p.event, None, None, p.amount, p.token, Held, Private, 0))
    case Standard =>
      if p.commitment.Some? || p.stealth.Some? then Err(PrivacyLevelMismatch)
      else Ok(Payment(p.event, Some(p.payer), None, p.amount, p.token, Held, Standard, 0))
  }

  /** Everything that can stop a payment before money moves. */
  function CheckPayment(s: State, p: PaymentParams): Result<(), PaymentError> {
    if s.globals.paused then Err(ContractPaused)
    else if p.nonce == 0 then Err(NonceRequired)
    else if NonceUsed(s.ids, p) then Err(DuplicateRequest)
    else if p.amount <= 0 then Err(InvalidAmount)
    else
      var privacy := CheckPrivacy(s, p);
      if privacy.Err? then privacy
      else
        var supply := CheckSupply(s, p);
        if supply.Err? then supply
        else if s.StatusOf(p.event) in {Some(Completed), Some(Cancelled), Some(Postponed)} then Err(EventNotActive)
        else if p.token != s.globals.acceptedToken && p.token !in s.globals.supported then Err(InvalidPayoutToken)
        else if !s.money.CanReceive(p.token, p.payer, p.amount) then Err(TransferFailed)
        else Ok(())
  }

  /** Nonces, nullifiers and per-user counters after a payment. */
  function Remember(ids: Identities, p: PaymentParams): Identities {
    match p.privacy
    case Standard =>
      ids.(nonces := ids.nonces + {(p.payer, p.nonce)},
           userTickets := ids.userTickets[(p.event, p.payer) := TicketsHeld(ids, p) + 1])
    case Private =>
      ids.(nonceHashes := ids.nonceHashes + {(p.walletHash, p.nonce)},
           userTicketHashes := ids.userTicketHashes[(p.event, p.walletHash) := TicketsHeld(ids, p) + 1])
    case Anonymous =>
      if p.commitment.None? then ids
      else ids.(nonceHashes := ids.nonceHashes + {(p.commitment.value, p.nonce)},
                nullifiers := ids.nullifiers + {p.commitment.value})
  }

  function AddToken(x: Events, e: Symbol, t: Address): Events {
    var tokens := if e in x.tokens then x.tokens[e] else [];
    if t in tokens then x else x.(tokens := x.tokens[e := tokens + [t]])
  }

  /** Record a payment and its ticket, and take the money. */
  function Issue(s: State, p: PaymentParams, pay: Payment): State {
    var r := s.records;
    s.(money := s.money.Deposit(p.event, p.token, p.payer, p.amount),
       records := Records(r.payments[r.lastPayment + 1 := pay],
                          r.tickets[r.lastTicket + 1 := Ticket(pay.event, pay.payer, r.lastPayment + 1, pay.privacy)],
                          r.lastPayment + 1, r.lastTicket + 1),
       owners := if pay.privacy == Standard then s.owners.Add(p.payer, r.lastTicket + 1) else s.owners,
       events := AddToken(s.events, p.event, p.token),
       ids := Remember(s.ids, p))
  }

  /** `create_payment`. */
  function Pay(s: State, p: PaymentParams): Outcome {
    var check := CheckPayment(s, p);
    if check.Err? then Err(check.error)
    else
      var pay := BuildPayment(p);
      if pay.Err? then Err(pay.error)
      else if pay.value.commitment.Some? && pay.value.commitment.value in s.ids.nullifiers then Err(DuplicateRequest)
      else if s.records.lastPayment + 1 in s.records.payments then Err(PaymentAlreadyProcessed)
      else if s.records.lastTicket + 1 in s.records.tickets then Err(DuplicateRequest)
      else
        var u := Issue(s, p, pay.value);
        if p.event !in u.events.config then Ok(u)
        else if u.events.config[p.event].sold + 1 > U32_MAX then Err(EventSoldOut)
        else Ok(u.WithConfig(p.event, u.events.config[p.event].(sold := u.events.config[p.event].sold + 1)))
  }

  // ---- Refunds ----

  /** Pay `a` of payment `id` back to `to` out of the revenue. */
  function RefundPayment(s: State, id: nat, to: Option<Address>, a: int, status: PaymentStatus): State
    requires id in s.records.payments
  {
    var p := s.records.payments[id];
    s.(money := s.money.Refund(p.event, p.token, to, a, true)).WithPayment(
      id, p.(refunded := p.refunded + a, status := status))
  }

  function RefundBps(s: State, e: Symbol): Bps {
    TOTAL_BASIS_POINTS - if s.RatioOf(e).Some? then s.RatioOf(e).value else 0
  }

  /** What is still refundable of a payment: all of it, or its part of a cancelled event. */
  function MaxRefund(s: State, p: Payment): int {
    if s.StatusOf(p.event) == Some(Cancelled) then Portion(p.amount, RefundBps(s, p.event)) - p.refunded
    else p.amount - p.refunded
  }

  /** Refunds stop once the escrow has been paid out in full. */
  predicate PaidOut(s: State, e: Symbol) {
    || (e in s.events.config && s.events.config[e].withdrawn
        && (s.events.config[e].ratio.None? || s.events.config[e].ratio.value == TOTAL_BASIS_POINTS))
    || (e in s.events.meta && s.events.meta[e].released)
  }

  /** `refund`, by the administrator. */
  function AdminRefund(s: State, admin: Address, id: nat, amount: Option<int>): Outcome {
    if s.globals.paused then Err(ContractPaused)
    else if admin != s.globals.admin then Err(Unauthorized)
    else if id !in s.records.payments then Err(PaymentNotFound)
    else
      var p := s.records.payments[id];
      if p.privacy != Standard then Err(RefundNotAllowed)
      else if p.status == Refunded then Err(PaymentAlreadyRefunded)
      else if p.status != Held then Err(PaymentAlreadyProcessed)
      else if PaidOut(s, p.event) then Err(PaymentAlreadyProcessed)
      else
        var a := if amount.Some? then amount.value else MaxRefund(s, p);
        if a <= 0 || a > MaxRefund(s, p) then Err(InvalidAmount)
        else if p.payer.Some? && !s.money.CanSend(p.token, a) then Err(HostError)
        else Ok(RefundPayment(s, id, p.payer, a, if p.refunded + a == p.amount then Refunded else Held))
  }

  /** `claim_refund`, by the payer of a cancelled event. */
  function ClaimRefund(s: State, payer: Address, id: nat): Outcome {
    if id !in s.records.payments then Err(PaymentNotFound)
    else
      var p := s.records.payments[id];
      if p.payer.None? then Err(RefundNotAllowed)
      else if p.payer.value != payer then Err(Unauthorized)
      else if p.status != Held then Err(PaymentAlreadyProcessed)
      else if s.StatusOf(p.event) != Some(Cancelled) then Err(EventNotActive)
      else if RefundBps(s, p.event) == 0 then Err(NoRevenue)
      else
        var a := Portion(p.amount, RefundBps(s, p.event)) - p.refunded;
        if a <= 0 then Err(InvalidAmount)
        else if !s.money.CanSend(p.token, a) then Err(HostError)
        else Ok(RefundPayment(s, id, p.payer, a, Refunded))
  }

  /** `request_postponement_refund`, by the ticket owner through the event contract. */
  function PostponementRefund(s: State, caller: Address, tid: nat): Outcome {
    if s.globals.paused then Err(ContractPaused)
    else if tid !in s.records.tickets then Err(TicketNotFound)
    else
      var ticket := s.records.tickets[tid];
      if ticket.owner.None? then Err(RefundNotAllowed)
      else if ticket.owner.value != caller then Err(Unauthorized)
      else if ticket.payment !in s.records.payments then Err(PaymentNotFound)
      else
        var p := s.records.payments[ticket.payment];
        if p.payer.None? then Err(RefundNotAllowed)
        else if p.status == Refunded then Err(PaymentAlreadyRefunded)
        else if p.status != Held then Err(PaymentAlreadyProcessed)
        else if s.StatusOf(p.event) != Some(Postponed) then Err(EventNotPostponed)
        else if p.event !in s.events.deadline then Err(EventNotPostponed)
        else if s.ledger > s.events.deadline[p.event] then Err(PostponementWindowClosed)
        else if p.amount - p.refunded <= 0 then Err(InvalidAmount)
        else if !s.money.CanSend(p.token, p.amount - p.refunded) then Err(HostError)
        else Ok(RefundPayment(s, ticket.payment, p.payer, p.amount - p.refunded, Refunded))
  }

  // ---- Disputes ----

  function Without(l: seq<nat>, tid: nat): seq<nat> {
    if l == [] then []
    else Without(l[..|l| - 1], tid) + if l[|l| - 1] == tid then [] else [l[|l| - 1]]
  }

  /** A dispute record removed and its ticket taken off the event's list. */
  function Close(s: State, tid: nat, e: Symbol): State {
    s.(disputes := Disputes(s.disputes.records - {tid}, s.disputes.lists[e := Without(s.ListOf(e), tid)]))
  }

  /** A disputed payment held again, its amount back in the revenue of event `e`. */
  function Restore(s: State, e: Symbol, id: nat): State
    requires id in s.records.payments
  {
    var p := s.records.payments[id];
    s.(money := s.money.WithRevenue(e, p.token, s.money.Revenue(e, p.token) + p.amount)).WithPayment(
      id, p.(status := Held))
  }

  /** `raise_dispute`; the owner's signature or the privacy proof is the flag `authorized`. */
  function RaiseDispute(s: State, tid: nat, reason: nat, authorized: bool): Outcome {
    if s.globals.paused then Err(ContractPaused)
    else if reason > 2 then Err(InvalidDisputeReason)
    else if tid !in s.records.tickets then Err(TicketNotFound)
    else
      var ticket := s.records.tickets[tid];
      if !authorized then Err(Unauthorized)
      else if ticket.event !in s.events.config then Err(InvalidOrganizer)
      else
        var end := s.events.config[ticket.event].end;
        if s.ledger < end then Err(DisputeWindowClosed)
        else if s.ledger >= SatAdd(end, ATTENDEE_DISPUTE_WINDOW_LEDGERS) then Err(DisputeWindowClosed)
        else if tid in s.disputes.records then Err(DisputeAlreadyExists)
        else if ticket.payment !in s.records.payments then Err(PaymentNotFound)
        else if s.records.payments[ticket.payment].status != Held then Err(PaymentAlreadyProcessed)
        else Ok(OpenDispute(s, tid, reason))
  }

  /** The whole amount leaves the revenue, whatever was refunded before. */
  function OpenDispute(s: State, tid: nat, reason: nat): State
    requires tid in s.records.tickets && s.records.tickets[tid].payment in s.records.payments
  {
    var ticket := s.records.tickets[tid];
    var p := s.records.payments[ticket.payment];
    s.(money := s.money.WithRevenue(ticket.event, p.token, s.money.Revenue(ticket.event, p.token) - p.amount),
       disputes := Disputes(s.disputes.records[tid := Dispute(ticket.event, ticket.payment, reason, s.ledger)],
                            s.disputes.lists[ticket.event := s.ListOf(ticket.event) + [tid]])
      ).WithPayment(ticket.payment, p.(status := Disputed))
  }

  predicate Expired(s: State, tid: nat) {
    tid in s.disputes.records && s.ledger >= SatAdd(s.disputes.records[tid].raisedAt, DISPUTE_TIMEOUT_LEDGERS)
  }

  /** `approve_refund`: the rest of the payment goes back to the payer. */
  function ApproveRefund(s: State, tid: nat): Outcome {
    if s.globals.paused then Err(ContractPaused)
    else if tid !in s.disputes.records then Err(DisputeNotFound)
    else if Expired(s, tid) then Err(DisputeExpired)
    else
      var d := s.disputes.records[tid];
      if d.payment !in s.records.payments then Err(PaymentNotFound)
      else
        var p := s.records.payments[d.payment];
        if p.status != Disputed then Err(PaymentAlreadyProcessed)
        else if p.payer.None? then Err(RefundNotAllowed)
        else if !s.money.CanSend(p.token, p.amount - p.refunded) then Err(HostError)
        else Ok(Close(RefundDisputed(s, d.event, d.payment, p.payer), tid, d.event))
  }

  function RefundDisputed(s: State, e: Symbol, id: nat, to: Option<Address>): State
    requires id in s.records.payments
  {
    var p := s.records.payments[id];
    s.(money := s.money.Refund(e, p.token, to, p.amount - p.refunded, false)).WithPayment(
      id, p.(refunded := p.refunded + (p.amount - p.refunded), status := Refunded))
  }

  function RejectDispute(s: State, tid: nat): Outcome {
    if s.globals.paused then Err(ContractPaused)
    else if tid !in s.disputes.records then Err(DisputeNotFound)
    else
      var d := s.disputes.records[tid];
      if d.payment !in s.records.payments then Err(PaymentNotFound)
      else if s.records.payments[d.payment].status != Disputed then Err(PaymentAlreadyProcessed)
      else Ok(Close(Restore(s, d.event, d.payment), tid, d.event))
  }

  /** One round of the timeout loop. */
  function ExpireOne(s: State, e: Symbol, tid: nat): State {
    if !Expired(s, tid) then s
    else
      var id := s.disputes.records[tid].payment;
      var u := if id in s.records.payments && s.records.payments[id].status == Disputed then Restore(s, e, id) else s;
      u.(disputes := u.disputes.(records := u.disputes.records - {tid}))
  }

  function ExpireList(s: State, e: Symbol, l: seq<nat>): State {
    if l == [] then s else ExpireOne(ExpireList(s, e, l[..|l| - 1]), e, l[|l| - 1])
  }

  /** The tickets whose disputes stay open. */
  function Remaining(s: State, l: seq<nat>): seq<nat> {
    if l == [] then []
    else
      var tid := l[|l| - 1];
      Remaining(s, l[..|l| - 1]) + if tid in s.disputes.records && !Expired(s, tid) then [tid] else []
  }

  predicate AnyExpired(s: State, l: seq<nat>) { exists i :: 0 <= i < |l| && Expired(s, l[i]) }

  /** `process_timed_out_disputes`. */
  function Timeouts(s: State, e: Symbol): State {
    if AnyExpired(s, s.ListOf(e)) then ExpireList(s, e, s.ListOf(e)).WithList(e, Remaining(s, s.ListOf(e))) else s
  }

  // ---- Payouts ----

  /** What the books say the contract holds for an event in a token. */
  function Expected(b: Book): int { b.volume - b.refunds - b.withdrawn }

  predicate BalancesCover(m: Money, e: Symbol, tokens: seq<Address>) {
    forall i :: 0 <= i < |tokens| ==> At(m.balance, tokens[i]) >= Expected(m.BookOf(e, tokens[i]))
  }

  /** `validate_revenue_invariant`. */
  function Validate(s: State, e: Symbol): Outcome {
    var u := Timeouts(s, e);
    if BalancesCover(u.money, e, u.TokensOf(e)) then Ok(u) else Err(RevenueInvariantViolated)
  }

  /** The proportion of the escrow that may be paid out now. */
  function PayoutRatio(s: State, e: Symbol): Result<Bps, PaymentError>
    requires e in s.events.config
  {
    var c := s.events.config[e];
    if s.StatusOf(e) == Some(Completed) then
      if s.ledger < c.end + c.delay + c.extension then Err(EscrowNotExpired) else Ok(TOTAL_BASIS_POINTS)
    else if s.StatusOf(e) == Some(Cancelled) then
      if c.cancelLedger.None? then Err(EventNotCompleted)
      else if s.ledger < c.cancelLedger.value + MIN_DISPUTE_WINDOW_LEDGERS then Err(EscrowNotExpired)
      else if c.ratio.None? then Err(EventNotCompleted)
      else if c.ratio.value == 0 then Err(NoRevenue)
      else Ok(c.ratio.value)
    else Err(EventNotCompleted)
  }

  /** The disputed payments of an event in one token. */
  function DisputedVolume(s: State, t: Address, l: seq<nat>): int {
    if l == [] then 0
    else
      var tid := l[|l| - 1];
      DisputedVolume(s, t, l[..|l| - 1]) +
      if tid in s.disputes.records && s.disputes.records[tid].payment in s.records.payments
         && s.records.payments[s.disputes.records[tid].payment].token == t
      then s.records.payments[s.disputes.records[tid].payment].amount else 0
  }

  /** `collect_cancellation_organizer_pool`. */
  function CancellationPool(s: State, e: Symbol, t: Address, ratio: Bps): int {
    Portion(s.money.BookOf(e, t).volume - DisputedVolume(s, t, s.ListOf(e)), ratio)
  }

  /** The gross amount of a settlement. */
  function Gross(s: State, e: Symbol, t: Address, ratio: Bps): int {
    if s.StatusOf(e) == Some(Cancelled) then CancellationPool(s, e, t, ratio) else Portion(s.money.Revenue(e, t), ratio)
  }

  /** The revenue left on the books by a settlement. */
  function RevenueLeft(s: State, e: Symbol, t: Address, ratio: Bps, gross: int): int {
    if ratio == TOTAL_BASIS_POINTS then 0 else s.money.Revenue(e, t) - gross
  }

  /** `withdraw`, by the organizer. */
  function Withdraw(s: State, organizer: Address, e: Symbol): Outcome {
    if s.globals.paused then Err(ContractPaused)
    else if e in s.split.splits then Err(InvalidSplitConfig)
    else if e !in s.events.config then Err(InvalidOrganizer)
    else if organizer != s.events.config[e].organizer then Err(UnauthorizedWithdrawal)
    else if s.events.config[e].withdrawn then Err(NoRevenue)
    else
      var ratio := PayoutRatio(s, e);
      if ratio.Err? then Err(ratio.error)
      else
        var v := Validate(s, e);
        if v.Err? then v
        else if v.value.ListOf(e) != [] then Err(ActiveDisputes)
        else WithdrawNow(v.value, e, ratio.value)
  }

  function WithdrawNow(s: State, e: Symbol, ratio: Bps): Outcome {
    if e !in s.events.config then Err(InvalidPayoutToken)
    else
      var c := s.events.config[e];
      var gross := Gross(s, e, c.payoutToken, ratio);
      if s.money.Revenue(e, c.payoutToken) <= 0 || gross <= 0 then Err(NoRevenue)
      else
        var fee := PlatformFee(gross, s.globals.feeBps);
        if !s.money.CanSend(c.payoutToken, gross - fee) then Err(HostError)
        else Ok(s.(money := s.money.Payout(e, c.payoutToken, c.organizer, gross - fee,
                                           RevenueLeft(s, e, c.payoutToken, ratio, gross)).Collect(e, fee)
                  ).WithConfig(e, c.(withdrawn := true)))
  }

  /** `withdraw_revenue`, by the administrator. */
  function WithdrawRevenue(s: State, e: Symbol, to: Address): Outcome {
    if s.globals.paused then Err(ContractPaused)
    else if e in s.split.splits then Err(InvalidSplitConfig)
    else if s.StatusOf(e) == Some(Postponed) then Err(EventNotActive)
    else if e in s.events.config && s.events.config[e].withdrawn then Err(PaymentAlreadyProcessed)
    else
      var v := Validate(s, e);
      if v.Err? then v
      else
        WithdrawRevenueNow(v.value, e, to)
  }

  function WithdrawRevenueNow(s: State, e: Symbol, to: Address): Outcome {
    var t := s.globals.acceptedToken;
    var revenue := s.money.Revenue(e, t);
    if revenue <= 0 then Err(InvalidAmount)
    else
      var fee := PlatformFee(revenue, s.globals.feeBps);
      if !s.money.CanSend(t, revenue - fee) then Err(HostError)
      else
        var u := s.(money := s.money.Payout(e, t, to, revenue - fee, 0).Collect(e, fee));
        Ok(if e in u.events.config then u.WithConfig(e, u.events.config[e].(withdrawn := true)) else u)
  }

  /** The money after a draining loop, and whether anything was drained. */
  datatype Drained = Drained(money: Money, any: bool)

  /** Pay the revenue of each token out in full. */
  function Drain(m: Money, e: Symbol, to: Address, tokens: seq<Address>): Result<Drained, PaymentError> {
    if tokens == [] then Ok(Drained(m, false))
    else
      var r := Drain(m, e, to, tokens[..|tokens| - 1]);
      if r.Err? then r else DrainToken(r.value, e, to, tokens[|tokens| - 1])
  }

  function DrainToken(d: Drained, e: Symbol, to: Address, t: Address): Result<Drained, PaymentError> {
    var revenue := d.money.Revenue(e, t);
    if revenue <= 0 then Ok(d)
    else if !d.money.CanSend(t, revenue) then Err(HostError)
    else Ok(Drained(d.money.Payout(e, t, to, revenue, 0), true))
  }

  function ReleaseIfExpired(s: State, e: Symbol): Outcome {
    if s.globals.paused then Err(ContractPaused)
    else if e in s.split.splits then Err(InvalidSplitConfig)
    else if e !in s.events.meta then Err(EscrowNotConfigured)
    else if s.events.meta[e].released then Err(EscrowAlreadyReleased)
    else if s.StatusOf(e) == Some(Postponed) then Err(EventNotActive)
    else if s.timestamp < s.events.meta[e].endTime then Err(EscrowNotExpired)
    else if e in s.events.config && s.ledger < s.events.config[e].end then Err(EscrowNotExpired)
    else
      var v := Validate(s, e);
      if v.Err? then v
      else
        var d := Drain(v.value.money, e, s.events.meta[e].organizer, v.value.TokensOf(e));
        if d.Err? then Err(d.error)
        else
          var u := v.value;
          Ok(u.(money := d.value.money, events := u.events.(meta := u.events.meta[e := s.events.meta[e].(released := true)])))
  }

  function WithdrawToken(s: State, organizer: Address, e: Symbol, t: Address): Outcome {
    if s.globals.paused then Err(ContractPaused)
    else if e in s.split.splits then Err(InvalidSplitConfig)
    else if s.StatusOf(e) != Some(Completed) then Err(EventNotCompleted)
    else
      var v := Validate(s, e);
      if v.Err? then v
      else
        var m := v.value.money;
        if m.Revenue(e, t) <= 0 then Err(NoRevenue)
        else if !m.CanSend(t, m.Revenue(e, t)) then Err(HostError)
        else Ok(v.value.(money := m.Payout(e, t, organizer, m.Revenue(e, t), 0)))
  }

  function WithdrawAllTokens(s: State, organizer: Address, e: Symbol): Outcome {
    if s.globals.paused then Err(ContractPaused)
    else if e in s.split.splits then Err(InvalidSplitConfig)
    else if s.StatusOf(e) != Some(Completed) then Err(EventNotCompleted)
    else
      var v := Validate(s, e);
      if v.Err? then v
      else
        var d := Drain(v.value.money, e, organizer, v.value.TokensOf(e));
        if d.Err? then Err(d.error)
        else if !d.value.any then Err(NoRevenue)
        else Ok(v.value.(money := d.value.money))
  }

  function WithdrawPlatformRevenue(s: State, e: Symbol): Outcome {
    var (fees, t) := (At(s.money.platform, e), s.globals.acceptedToken);
    if s.globals.paused then Err(ContractPaused)
    else if fees <= 0 then Err(NoPlatformRevenue)
    else if !s.money.CanSend(t, fees) then Err(HostError)
    else
      var m := s.money.Payout(e, t, s.globals.wallet, fees, s.money.Revenue(e, t));
      Ok(s.(money := m.(platform := m.platform[e := 0])))
  }

  // ---- Split settlement ----

  /** `sync_revenue_splits`. */
  function SyncSplits(s: State, caller: Address, e: Symbol, splits: seq<Split>): Outcome {
    if s.globals.paused then Err(ContractPaused)
    else if caller != s.globals.eventContract then Err(Unauthorized)
    else if e in s.split.splits then Err(InvalidSplitConfig)
    else if |splits| == 0 || |splits| > MAX_REVENUE_SPLIT_RECIPIENTS then Err(InvalidSplitConfig)
    else if e !in s.events.config then Err(InvalidOrganizer)
    else if !WellFormed(splits, s.events.config[e].organizer) then Err(InvalidSplitConfig)
    else Ok(s.(split := s.split.(splits := s.split.splits[e := splits])))
  }

  /** The share of a recipient in a settled event. */
  function ShareOf(s: State, e: Symbol, who: Address, net: int): int {
    if s.SplitsOf(e) == [] then 0 else RecipientShare(s.SplitsOf(e), who, s.SplitsOf(e)[0].recipient, net)
  }

  /** `ensure_split_settled`: freeze the net amount once. */
  function EnsureSettled(s: State, e: Symbol): (r: Outcome)
    ensures r.Ok? ==> e in r.value.split.settled
  {
    if e in s.split.settled then Ok(s)
    else if e !in s.events.config then Err(InvalidOrganizer)
    else
      var ratio := PayoutRatio(s, e);
      if ratio.Err? then Err(ratio.error)
      else
        var v := Validate(s, e);
        if v.Err? then v
        else if v.value.ListOf(e) != [] then Err(ActiveDisputes)
        else SettleNow(v.value, e, ratio.value)
  }

  function SettleNow(s: State, e: Symbol, ratio: Bps): Outcome {
    if e !in s.events.config then Err(InvalidPayoutToken)
    else
      var t := s.events.config[e].payoutToken;
      if s.StatusOf(e) != Some(Cancelled) && s.money.Revenue(e, t) <= 0 then Err(NoRevenue)
      else
        var gross := Gross(s, e, t, ratio);
        var fee := PlatformFee(gross, s.globals.feeBps);
        if gross <= 0 || gross - fee <= 0 then Err(NoRevenue)
        else Ok(s.(money := s.money.WithRevenue(e, t, RevenueLeft(s, e, t, ratio, gross)).Collect(e, fee),
                   split := s.split.(settled := s.split.settled[e := Settlement(t, gross - fee)])))
  }

  /** Pay the share of `who` to `to` and mark `who` as paid. */
  function PayShare(s: State, e: Symbol, who: Address, to: Address): Outcome
    requires e in s.split.settled
  {
    var (t, share) := (s.split.settled[e].token, ShareOf(s, e, who, s.split.settled[e].net));
    if share <= 0 then Err(NoRevenue)
    else if !s.money.CanSend(t, share) then Err(HostError)
    else Ok(s.(money := s.money.Payout(e, t, to, share, s.money.Revenue(e, t)),
               split := s.split.(paid := s.split.paid[e := s.PaidOf(e)[who := share]])))
  }

  predicate WasPaid(s: State, e: Symbol, who: Address) { At(s.PaidOf(e), who) > 0 }

  function WithdrawSplit(s: State, who: Address, e: Symbol): Outcome {
    if s.globals.paused then Err(ContractPaused)
    else if s.SplitsOf(e) == [] then Err(SplitsNotConfigured)
    else if BpsOf(s.SplitsOf(e), who).None? then Err(NotASplitRecipient)
    else if (e, who) in s.split.flagged then Err(RecipientFlagged)
    else if WasPaid(s, e, who) then Err(SplitAlreadyWithdrawn)
    else
      var v := EnsureSettled(s, e);
      if v.Err? then v
      else PayShare(v.value, e, who, who)
  }

  function FlagCohost(s: State, caller: Address, e: Symbol, who: Address): Outcome {
    if s.globals.paused then Err(ContractPaused)
    else if s.SplitsOf(e) == [] then Err(SplitsNotConfigured)
    else if caller != s.SplitsOf(e)[0].recipient then Err(Unauthorized)
    else if who == s.SplitsOf(e)[0].recipient then Err(Unauthorized)
    else if BpsOf(s.SplitsOf(e), who).None? then Err(NotASplitRecipient)
    else if WasPaid(s, e, who) then Err(SplitAlreadyWithdrawn)
    else Ok(s.(split := s.split.(flagged := s.split.flagged + {(e, who)})))
  }

  /** `resolve_flagged_share`: release the flag, or pay the share to the primary organizer. */
  function ResolveFlagged(s: State, e: Symbol, who: Address, release: bool): Outcome {
    if s.globals.paused then Err(ContractPaused)
    else if s.SplitsOf(e) == [] then Err(SplitsNotConfigured)
    else if BpsOf(s.SplitsOf(e), who).None? then Err(NotASplitRecipient)
    else if (e, who) !in s.split.flagged then Err(RecipientNotFlagged)
    else if release then Ok(Unflag(s, e, who))
    else if WasPaid(s, e, who) then Err(SplitAlreadyWithdrawn)
    else
      var v := EnsureSettled(s, e);
      if v.Err? then v
      else
        var p := PayShare(v.value, e, who, s.SplitsOf(e)[0].recipient);
        if p.Err? then p else Ok(Unflag(p.value, e, who))
  }

  function Unflag(s: State, e: Symbol, who: Address): State {
    s.(split := s.split.(flagged := s.split.flagged - {(e, who)}))
  }

  // ---- Resale ----

  function ListTicket(s: State, seller: Address, tid: nat, price: int): Outcome {
    if s.globals.paused then Err(ContractPaused)
    else if tid !in s.records.tickets then Err(TicketNotFound)
    else
      var ticket := s.records.tickets[tid];
      if ticket.owner != Some(seller) then Err(Unauthorized)
      else if ticket.event !in s.events.config then Err(InvalidOrganizer)
      else if ticket.payment !in s.records.payments then Err(PaymentNotFound)
      else
        var (c, paid) := (s.events.config[ticket.event], s.records.payments[ticket.payment].amount);
        if paid == 0 && (price > 0 || !c.freeTransfer) then Err(InvalidAmount)
        else if c.maxResalePrice.Some? && price > c.maxResalePrice.value then Err(InvalidAmount)
        else Ok(s.(listings := s.listings[tid := Listing(price, seller)]))
  }

  function Delist(s: State, seller: Address, tid: nat): Outcome {
    if s.globals.paused then Err(ContractPaused)
    else if tid !in s.listings then Err(TicketNotFound)
    else if s.listings[tid].seller != seller then Err(Unauthorized)
    else Ok(s.(listings := s.listings - {tid}))
  }

  /** What the seller receives: the price less fee and royalty, if positive. */
  function Proceeds(s: State, e: Symbol, price: int): int
    requires e in s.events.config
  {
    var left := price - PlatformFee(price, s.globals.feeBps) - Portion(price, s.events.config[e].royaltyBps);
    if left > 0 then left else 0
  }

  /** Take the price, pay the seller, book the fee and the royalty. */
  function Trade(s: State, e: Symbol, seller: Address, buyer: Address, price: int): Result<Money, PaymentError>
    requires e in s.events.config
  {
    var (t, proceeds, royalty) :=
      (s.events.config[e].payoutToken, Proceeds(s, e, price), Portion(price, s.events.config[e].royaltyBps));
    if price <= 0 then Ok(s.money)
    else if !s.money.CanReceive(t, buyer, price) then Err(HostError)
    else
      var got := s.money.Receive(t, buyer, price);
      if proceeds > 0 && !got.CanSend(t, proceeds) then Err(HostError)
      else
        var sold := (if proceeds > 0 then got.Send(t, seller, proceeds) else got).Collect(e, PlatformFee(price, s.globals.feeBps));
        Ok(if royalty > 0 then sold.WithRevenue(e, t, sold.Revenue(e, t) + royalty) else sold)
  }

  /** A ticket recorded for and listed under a new owner, its listing for sale gone. */
  function MoveTicket(s: State, tid: nat, seller: Address, buyer: Address): State
    requires tid in s.records.tickets
  {
    s.(records := s.records.(tickets := s.records.tickets[tid := s.records.tickets[tid].(owner := Some(buyer))]),
       owners := s.owners.RemoveCounted(seller, tid).Add(buyer, tid),
       listings := s.listings - {tid})
  }

  /**
   `buy_resale_ticket`; `external` says that the ticket contract accepts the transfer.
   A stale listing is an error, so the removal that precedes it is rolled back.
   */
  function BuyResale(s: State, buyer: Address, tid: nat, external: bool): Outcome {
    if s.globals.paused then Err(ContractPaused)
    else if tid !in s.listings then Err(TicketNotFound)
    else if tid !in s.records.tickets then Err(TicketNotFound)
    else
      var (ticket, listing) := (s.records.tickets[tid], s.listings[tid]);
      if ticket.owner != Some(listing.seller) then Err(Unauthorized)
      else if ticket.event !in s.events.config then Err(InvalidOrganizer)
      else
        var m := Trade(s, ticket.event, listing.seller, buyer, listing.price);
        if m.Err? then Err(m.error)
        else if !external then Err(HostError)
        else Ok(MoveTicket(s.(money := m.value), tid, listing.seller, buyer))
  }

  // ---- Events and settings ----

  /** The values of `sync_event_config`. */
  function SyncConfig(s: State, caller: Address, e: Symbol, c: Config): Outcome {
    if s.globals.paused then Err(ContractPaused)
    else if caller != s.globals.eventContract then Err(Unauthorized)
    else if c.payoutToken != s.globals.acceptedToken then Err(InvalidPayoutToken)
    else if e !in s.events.config then
      Ok(s.WithConfig(e, c.(sold := 0, extension := 0, cancelLedger := None, ratio := None, withdrawn := false)))
    else
      var x := s.events.config[e];
      if x.organizer != c.organizer then Err(InvalidOrganizer)
      else if x.payoutToken != c.payoutToken then Err(InvalidPayoutToken)
      else Ok(s.WithConfig(e, c.(sold := x.sold, extension := x.extension, cancelLedger := x.cancelLedger,
                                 ratio := x.ratio, withdrawn := x.withdrawn)))
  }

  function SyncPrivacy(s: State, caller: Address, e: Symbol, rules: PrivacyRules): Outcome {
    if s.globals.paused then Err(ContractPaused)
    else if caller != s.globals.eventContract then Err(Unauthorized)
    else Ok(s.(events := s.events.(privacy := s.events.privacy[e := rules])))
  }

  function SetStatus(s: State, admin: Address, e: Symbol, status: EventStatus): Outcome {
    if s.globals.paused then Err(ContractPaused)
    else if admin != s.globals.admin then Err(Unauthorized)
    else Ok(s.WithStatus(e, status))
  }

  /** The organizer's part of a cancelled event: the elapsed fraction of its duration. */
  function CancelRatio(c: Config, ledger: nat): Bps {
    if ledger < c.start then 0
    else if ledger >= c.end then TOTAL_BASIS_POINTS
    else RatioBound(ledger - c.start, c.end - c.start)
  }

  function RatioBound(elapsed: nat, total: nat): Bps
    requires elapsed < total
  {
    assert elapsed * 10_000 / total <= 10_000 by { DivBound(elapsed, total); }
    elapsed * 10_000 / total
  }

  lemma DivBound(elapsed: nat, total: nat)
    requires elapsed < total
    ensures elapsed * 10_000 / total <= 10_000
  {
    var q := elapsed * 10_000 / total;
    assert (10_000 - q) * total == 10_000 * total - q * total > 0;
    PositiveFactor(10_000 - q, total);
  }

  lemma PositiveFactor(a: int, b: nat)
    requires a * b > 0
    ensures a > 0
  {
  }

  function CancelEvent(s: State, e: Symbol, organizer: Address): Outcome {
    if e !in s.events.config then Err(InvalidOrganizer)
    else
      var c := s.events.config[e];
      if c.organizer != organizer then Err(Unauthorized)
      else Ok(s.WithConfig(e, c.(cancelLedger := Some(s.ledger), ratio := Some(CancelRatio(c, s.ledger)))
                          ).WithStatus(e, Cancelled))
  }

  function PostponeEvent(s: State, e: Symbol, organizer: Address, deadline: nat): Outcome {
    if s.globals.paused then Err(ContractPaused)
    else if e !in s.events.config then Err(InvalidOrganizer)
    else if s.events.config[e].organizer != organizer then Err(Unauthorized)
    else Ok(s.(events := s.events.(status := s.events.status[e := Postponed],
                                   deadline := s.events.deadline[e := deadline])))
  }

  function ResumeEvent(s: State, e: Symbol, organizer: Address): Outcome {
    if s.globals.paused then Err(ContractPaused)
    else if e !in s.events.config then Err(InvalidOrganizer)
    else if s.events.config[e].organizer != organizer then Err(Unauthorized)
    else if s.StatusOf(e) != Some(Postponed) then Err(EventNotPostponed)
    else Ok(s.(events := s.events.(status := s.events.status[e := Active], deadline := s.events.deadline - {e})))
  }

  function SetEndTime(s: State, admin: Address, e: Symbol, organizer: Address, endTime: nat): Outcome {
    if s.globals.paused then Err(ContractPaused)
    else if admin != s.globals.admin then Err(Unauthorized)
    else Ok(s.(events := s.events.(meta := s.events.meta[e := EscrowMeta(organizer, endTime, false)])))
  }

  function ExtendDelay(s: State, admin: Address, e: Symbol, more: nat): Outcome {
    if admin != s.globals.admin then Err(Unauthorized)
    else if e !in s.events.config then Err(InvalidOrganizer)
    else Ok(s.WithConfig(e, s.events.config[e].(extension := s.events.config[e].extension + more)))
  }

  function SetPaused(s: State, admin: Address, paused: bool): Outcome {
    if admin != s.globals.admin then Err(Unauthorized) else Ok(s.(globals := s.globals.(paused := paused)))
  }

  function SetPlatformFee(s: State, feeBps: nat, wallet: Address): Outcome {
    if s.globals.paused then Err(ContractPaused)
    else if feeBps > TOTAL_BASIS_POINTS then Err(InvalidFeeBps)
    else Ok(s.(globals := s.globals.(feeBps := feeBps, wallet := wallet)))
  }

  function AddSupportedToken(s: State, admin: Address, t: Address): Outcome {
    if admin != s.globals.admin then Err(Unauthorized)
    else Ok(s.(globals := s.globals.(supported := s.globals.supported + {t})))
  }

  // ---- Steps ----

  /** Operations that move no money and touch no payment. */
  datatype Setup =
    | DoSyncConfig(caller: Address, event: Symbol, config: Config)
    | DoSyncPrivacy(caller: Address, event: Symbol, rules: PrivacyRules)
    | DoSetStatus(admin: Address, event: Symbol, status: EventStatus)
    | DoCancelEvent(event: Symbol, organizer: Address)
    | DoPostpone(event: Symbol, organizer: Address, deadline: nat)
    | DoResume(event: Symbol, organizer: Address)
    | DoSetEndTime(admin: Address, event: Symbol, organizer: Address, endTime: nat)
    | DoExtendDelay(admin: Address, event: Symbol, more: nat)
    | DoSetPaused(admin: Address, paused: bool)
    | DoSetPlatformFee(feeBps: nat, wallet: Address)
    | DoAddSupportedToken(admin: Address, token: Address)
    | DoListTicket(seller: Address, ticket: nat, price: int)
    | DoDelist(seller: Address, ticket: nat)

  datatype Op =
    | DoSetup(setup: Setup)
    | DoPay(params: PaymentParams)
    | DoRefund(admin: Address, payment: nat, amount: Option<int>)
    | DoClaimRefund(payer: Address, payment: nat)
    | DoPostponementRefund(caller: Address, ticket: nat)
    | DoRaise(ticket: nat, reason: nat, authorized: bool)
    | DoApprove(ticket: nat)
    | DoReject(ticket: nat)
    | DoTimeouts(event: Symbol)
    | DoWithdraw(organizer: Address, event: Symbol)
    | DoWithdrawRevenue(event: Symbol, to: Address)
    | DoRelease(event: Symbol)
    | DoWithdrawToken(organizer: Address, event: Symbol, token: Address)
    | DoWithdrawAll(organizer: Address, event: Symbol)
    | DoWithdrawPlatform(event: Symbol)
    | DoSyncSplits(caller: Address, event: Symbol, splits: seq<Split>)
    | DoWithdrawSplit(recipient: Address, event: Symbol)
    | DoFlag(caller: Address, event: Symbol, recipient: Address)
    | DoResolve(event: Symbol, recipient: Address, release: bool)
    | DoBuy(buyer: Address, ticket: nat, external: bool)
    | DoAdvance(ledgers: nat, seconds: nat)

  function SetupStep(s: State, x: Setup): Outcome {
    match x
    case DoSyncConfig(caller, e, c) => SyncConfig(s, caller, e, c)
    case DoSyncPrivacy(caller, e, p) => SyncPrivacy(s, caller, e, p)
    case DoSetStatus(a, e, x) => SetStatus(s, a, e, x)
    case DoCancelEvent(e, o) => CancelEvent(s, e, o)
    case DoPostpone(e, o, d) => PostponeEvent(s, e, o, d)
    case DoResume(e, o) => ResumeEvent(s, e, o)
    case DoSetEndTime(a, e, o, t) => SetEndTime(s, a, e, o, t)
    case DoExtendDelay(a, e, n) => ExtendDelay(s, a, e, n)
    case DoSetPaused(a, b) => SetPaused(s, a, b)
    case DoSetPlatformFee(f, w) => SetPlatformFee(s, f, w)
    case DoAddSupportedToken(a, t) => AddSupportedToken(s, a, t)
    case DoListTicket(o, tid, p) => ListTicket(s, o, tid, p)
    case DoDelist(o, tid) => Delist(s, o, tid)
  }

  function Step(s: State, op: Op): Outcome {
    match op
    case DoSetup(x) => SetupStep(s, x)
    case DoPay(p) => Pay(s, p)
    case DoRefund(a, id, x) => AdminRefund(s, a, id, x)
    case DoClaimRefund(p, id) => ClaimRefund(s, p, id)
    case DoPostponementRefund(c, tid) => PostponementRefund(s, c, tid)
    case DoRaise(tid, r, b) => RaiseDispute(s, tid, r, b)
    case DoApprove(tid) => ApproveRefund(s, tid)
    case DoReject(tid) => RejectDispute(s, tid)
    case DoTimeouts(e) => Ok(Timeouts(s, e))
    case DoWithdraw(o, e) => Withdraw(s, o, e)
    case DoWithdrawRevenue(e, to) => WithdrawRevenue(s, e, to)
    case DoRelease(e) => ReleaseIfExpired(s, e)
    case DoWithdrawToken(o, e, t) => WithdrawToken(s, o, e, t)
    case DoWithdrawAll(o, e) => WithdrawAllTokens(s, o, e)
    case DoWithdrawPlatform(e) => WithdrawPlatformRevenue(s, e)
    case DoSyncSplits(c, e, x) => SyncSplits(s, c, e, x)
    case DoWithdrawSplit(r, e) => WithdrawSplit(s, r, e)
    case DoFlag(c, e, r) => FlagCohost(s, c, e, r)
    case DoResolve(e, r, b) => ResolveFlagged(s, e, r, b)
    case DoBuy(b, tid, x) => BuyResale(s, b, tid, x)
    case DoAdvance(l, t) => Ok(s.(ledger := s.ledger + l, timestamp := s.timestamp + t))
  }

  function After(s: State, op: Op): State {
    var r := Step(s, op);
    if r.Ok? then r.value else s
  }

  function Run(s: State, ops: seq<Op>): State {
    if ops == [] then s else After(Run(s, ops[..|ops| - 1]), ops[|ops| - 1])
  }
}

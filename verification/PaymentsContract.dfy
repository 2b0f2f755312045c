/**
 The payments contract's storage entries and entry points, updated in place.  Every entry point does what the
 specified step does, keeps the invariant of the escrow, leaves the surplus of every token alone but for what a resale
 retains, and creates and destroys no tokens.
 */
module PaymentsContract {
  import opened Ledger
  import opened MapSums
  import opened OwnerIndexes
  import opened RevenueSplits
  import opened PaymentsSpec
  import opened EscrowLedger
  import opened EscrowInvariants
  import opened EscrowCancellation

  class Contract {
    var globals: Globals
    var money: Money
    var records: Records
    var events: Events
    var disputes: Disputes
    var split: SplitState
    var listings: map<nat, Listing>
    var ids: Identities
    var ledger: nat
    var timestamp: nat
    const owners: OwnerTicketStore

    /** The stored entries as a value. */
    function View(): State
      reads this, owners
    {
      State(globals, money, records, events, disputes, split, listings,
            OwnerIndex(owners.member, owners.slots, owners.counts), ids, ledger, timestamp)
    }

    constructor (admin: Address, token: Address, feeBps: Bps, wallet: Address, eventContract: Address,
                 wallets: map<(Address, Address), int>)
      ensures View() == Initial(admin, token, feeBps, wallet, eventContract, wallets) && fresh(owners)
      ensures Deployed(View()) && Inv(View())
    {
      hide Inv;
      globals := Globals(admin, eventContract, token, {}, feeBps, wallet, false);
      money := Money(map[], wallets, map[], map[]);
      records, events := Records(map[], map[], 0, 0), Events(map[], map[], map[], map[], map[], map[]);
      disputes, split, listings := Disputes(map[], map[]), SplitState(map[], map[], map[], {}), map[];
      ids, ledger, timestamp := Identities({}, {}, {}, map[], map[]), 0, 0;
      owners := new OwnerTicketStore();
      new;
      assert View() == Initial(admin, token, feeBps, wallet, eventContract, wallets);
      DeployedInv(View(), 0);
    }

    /** The host undoes what a failed call has written. */
    method Rollback(s: State)
      requires s.owners == View().owners
      modifies this
      ensures View() == s
    {
      globals, money, records, events, disputes := s.globals, s.money, s.records, s.events, s.disputes;
      split, listings, ids, ledger, timestamp := s.split, s.listings, s.ids, s.ledger, s.timestamp;
    }

    // ---- Counters ----

    method SetTokenRevenue(e: Symbol, t: Address, amount: int)
      modifies this`money
      ensures money == old(money).WithRevenue(e, t, amount)
    {
      var b := if (e, t) in money.books then money.books[(e, t)] else Book(0, 0, 0, 0);
      money := money.(books := money.books[(e, t) := b.(revenue := amount)]);
    }

    method AddTokenRefunds(e: Symbol, t: Address, amount: int)
      modifies this`money
      ensures money == old(money).WithBook(e, t, old(money).BookOf(e, t).(refunds := old(money).BookOf(e, t).refunds + amount))
    {
      var b := if (e, t) in money.books then money.books[(e, t)] else Book(0, 0, 0, 0);
      money := money.(books := money.books[(e, t) := b.(refunds := b.refunds + amount)]);
    }

    method AddTokenWithdrawn(e: Symbol, t: Address, amount: int)
      modifies this`money
      ensures money == old(money).WithBook(e, t, old(money).BookOf(e, t).(withdrawn := old(money).BookOf(e, t).withdrawn + amount))
    {
      var b := if (e, t) in money.books then money.books[(e, t)] else Book(0, 0, 0, 0);
      money := money.(books := money.books[(e, t) := b.(withdrawn := b.withdrawn + amount)]);
    }

    method AddTokenVolume(e: Symbol, t: Address, amount: int)
      modifies this`money
      ensures money == old(money).WithBook(e, t, old(money).BookOf(e, t).(volume := old(money).BookOf(e, t).volume + amount))
    {
      var b := if (e, t) in money.books then money.books[(e, t)] else Book(0, 0, 0, 0);
      money := money.(books := money.books[(e, t) := b.(volume := b.volume + amount)]);
    }

    method AddPlatformRevenue(e: Symbol, fee: int)
      modifies this`money
      ensures money == old(money).(platform := old(money).platform[e := At(old(money).platform, e) + fee])
    {
      money := money.(platform := money.platform[e := At(money.platform, e) + fee]);
    }

    // ---- Disputes ----

    /** The timeout loop: expired disputes are removed and their payments held again. */
    method ProcessTimedOutDisputes(e: Symbol)
      modifies this`money, this`records, this`disputes
      ensures View() == Timeouts(old(View()), e)
      ensures Sound(old(View()), View(), DoTimeouts(e))
    {
      hide Step, Sound;
      TimeoutsSound(View(), e);
      hide ExpireOne, Expired;
      ghost var s := View();
      var l := if e in disputes.lists then disputes.lists[e] else [];
      var remaining: seq<nat> := [];
      var modified := false;
      for i := 0 to |l|
        invariant View() == ExpireList(s, e, l[..i])
        invariant remaining == Remaining(s, l[..i])
        invariant modified == AnyExpired(s, l[..i])
      {
        assert l[..i + 1][..i] == l[..i] && l[..i + 1] == l[..i] + [l[i]];
        ExpiredSoFar(s, e, l[..i], l[i]);
        AnyExpiredNext(s, l[..i], l[i], l[..i + 1]);
        var expired, open := TimeoutRound(e, l[i]);
        if expired { modified := true; }
        if open { remaining := remaining + [l[i]]; }
      }
      assert l[..|l|] == l;
      if modified {
        disputes := disputes.(lists := disputes.lists[e := remaining]);
      } else {
        NothingExpired(s, e, l);
      }
    }

    /** One round: is the ticket's dispute expired, and does it stay open? */
    method TimeoutRound(e: Symbol, tid: nat) returns (expired: bool, open: bool)
      modifies this`money, this`records, this`disputes
      ensures View() == ExpireOne(old(View()), e, tid)
      ensures expired == Expired(old(View()), tid)
      ensures open == (tid in old(disputes).records && !Expired(old(View()), tid))
    {
      hide Restore;
      if tid !in disputes.records { return false, false; }
      if ledger < SatAdd(disputes.records[tid].raisedAt, DISPUTE_TIMEOUT_LEDGERS) { return false, true; }
      var id := disputes.records[tid].payment;
      if id in records.payments && records.payments[id].status == Disputed {
        RestorePayment(e, id);
        RestoreKeeps(old(View()), e, id);
      }
      disputes := disputes.(records := disputes.records - {tid});
      return true, false;
    }

    method RestorePayment(e: Symbol, id: nat)
      requires id in records.payments
      modifies this`money, this`records
      ensures View() == Restore(old(View()), e, id)
    {
      var p := records.payments[id];
      records := records.(payments := records.payments[id := p.(status := Held)]);
      var revenue := money.Revenue(e, p.token);
      SetTokenRevenue(e, p.token, revenue + p.amount);
    }

    /** The balance of every token of the event must cover its books. */
    method ValidateRevenueInvariant(e: Symbol) returns (ok: bool)
      modifies this`money, this`records, this`disputes
      ensures View() == Timeouts(old(View()), e)
      ensures ok == BalancesCover(money, e, View().TokensOf(e))
    {
      hide Timeouts, BalancesCover;
      ProcessTimedOutDisputes(e);
      ok := CheckBalances(e, if e in events.tokens then events.tokens[e] else []);
    }

    method CheckBalances(e: Symbol, tokens: seq<Address>) returns (ok: bool)
      ensures ok == BalancesCover(money, e, tokens)
    {
      for i := 0 to |tokens|
        invariant forall k :: 0 <= k < i ==> At(money.balance, tokens[k]) >= Expected(money.BookOf(e, tokens[k]))
      {
        var b := money.BookOf(e, tokens[i]);
        var expected := b.volume - b.refunds - b.withdrawn;
        if At(money.balance, tokens[i]) < expected { return false; }
      }
      return true;
    }

    // ---- Tokens ----

    method TransferOut(t: Address, to: Address, a: int) returns (ok: bool)
      modifies this`money
      ensures ok == old(money).CanSend(t, a)
      ensures money == if ok then old(money).Send(t, to, a) else old(money)
    {
      ok := 0 <= a <= At(money.balance, t);
      if ok {
        money := money.(balance := money.balance[t := At(money.balance, t) - a]);
        money := money.(wallets := money.wallets[(t, to) := At(money.wallets, (t, to)) + a]);
      }
    }

    method TransferIn(t: Address, from: Address, a: int) returns (ok: bool)
      modifies this`money
      ensures ok == old(money).CanReceive(t, from, a)
      ensures money == if ok then old(money).Receive(t, from, a) else old(money)
    {
      ok := 0 <= a <= At(money.wallets, (t, from));
      if ok {
        money := money.(wallets := money.wallets[(t, from) := At(money.wallets, (t, from)) - a]);
        money := money.(balance := money.balance[t := At(money.balance, t) + a]);
      }
    }

    /** Pay `a` out of the event's escrow, leaving `revenue` on the books. */
    method PayOut(e: Symbol, t: Address, to: Address, a: int, revenue: int) returns (ok: bool)
      modifies this`money
      ensures ok == old(money).CanSend(t, a)
      ensures money == if ok then old(money).Payout(e, t, to, a, revenue) else old(money)
    {
      ok := TransferOut(t, to, a);
      if ok {
        ghost var m := money;
        SetTokenRevenue(e, t, revenue);
        AddTokenWithdrawn(e, t, a);
        WriteTwice(m, e, t, m.BookOf(e, t).(revenue := revenue), money.BookOf(e, t));
      }
    }

    // ---- Payments ----

    /** Revenue and volume of a payment. */
    method BookPayment(e: Symbol, t: Address, a: int)
      modifies this`money
      ensures var b := old(money).BookOf(e, t);
        money == old(money).WithBook(e, t, b.(volume := b.volume + a, revenue := b.revenue + a))
    {
      ghost var m := money;
      SetTokenRevenue(e, t, money.Revenue(e, t) + a);
      AddTokenVolume(e, t, a);
      WriteTwice(m, e, t, m.BookOf(e, t).(revenue := m.Revenue(e, t) + a), money.BookOf(e, t));
    }

    method AddEventToken(e: Symbol, t: Address)
      modifies this`events
      ensures events == AddToken(old(events), e, t)
    {
      var tokens := if e in events.tokens then events.tokens[e] else [];
      if t !in tokens {
        events := events.(tokens := events.tokens[e := tokens + [t]]);
      }
    }

    /** Nonces, nullifiers and ticket counters of a payment. */
    method RememberPayment(p: PaymentParams)
      modifies this`ids
      ensures ids == Remember(old(ids), p)
    {
      var held := TicketsHeld(ids, p);
      match p.privacy {
        case Standard =>
          ids := ids.(nonces := ids.nonces + {(p.payer, p.nonce)});
          ids := ids.(userTickets := ids.userTickets[(p.event, p.payer) := held + 1]);
        case Private =>
          ids := ids.(nonceHashes := ids.nonceHashes + {(p.walletHash, p.nonce)});
          ids := ids.(userTicketHashes := ids.userTicketHashes[(p.event, p.walletHash) := held + 1]);
        case Anonymous =>
          if p.commitment.Some? {
            ids := ids.(nullifiers := ids.nullifiers + {p.commitment.value});
            ids := ids.(nonceHashes := ids.nonceHashes + {(p.commitment.value, p.nonce)});
          }
      }
    }

    /** The writes of an accepted payment whose money has arrived. */
    method IssueTicket(p: PaymentParams, pay: Payment, ghost s: State)
      requires View() == s.(money := s.money.Receive(p.token, p.payer, p.amount))
      modifies this, owners
      ensures View() == Issue(s, p, pay)
    {
      hide Remember, AddToken, Money.Receive;
      ReceiveBooks(s.money, p.token, p.payer, p.amount, p.event);
      var (id, tid) := (records.lastPayment + 1, records.lastTicket + 1);
      records := records.(lastPayment := id, payments := records.payments[id := pay]);
      BookPayment(p.event, p.token, p.amount);
      AddEventToken(p.event, p.token);
      records := records.(lastTicket := tid, tickets := records.tickets[tid := Ticket(pay.event, pay.payer, id, pay.privacy)]);
      if pay.privacy == Standard {
        owners.Add(p.payer, tid);
      }
      RememberPayment(p);
    }

    /** `create_payment`; the overflow of the sold counter is checked before the writes. */
    method CreatePayment(p: PaymentParams) returns (r: Result<nat, PaymentError>)
      modifies this, owners
      ensures var spec := Pay(old(View()), p);
        if spec.Ok? then r == Ok(spec.value.records.lastPayment) && View() == spec.value
        else r == Err(spec.error) && View() == old(View())
      ensures Sound(old(View()), View(), DoPay(p))
    {
      hide CheckPayment, BuildPayment, Issue, Step, Sound;
      PaySound(View(), p);
      var before := View();
      var check := CheckPayment(View(), p);
      if check.Err? { return Err(check.error); }
      CanReceiveIt(before, p);
      var paid := TransferIn(p.token, p.payer, p.amount);
      var built := BuildPayment(p);
      if built.Err? { Rollback(before); return Err(built.error); }
      var pay := built.value;
      IssueKeepsConfig(before, p, pay);
      var id := records.lastPayment + 1;
      if pay.commitment.Some? && pay.commitment.value in ids.nullifiers { Rollback(before); return Err(DuplicateRequest); }
      if id in records.payments { Rollback(before); return Err(PaymentAlreadyProcessed); }
      if records.lastTicket + 1 in records.tickets { Rollback(before); return Err(DuplicateRequest); }
      if p.event in events.config && events.config[p.event].sold + 1 > U32_MAX { Rollback(before); return Err(EventSoldOut); }
      IssueTicket(p, pay, before);
      if p.event in events.config {
        var c := events.config[p.event];
        events := events.(config := events.config[p.event := c.(sold := c.sold + 1)]);
      }
      return Ok(id);
    }

    // ---- Refunds ----

    /** Revenue and refund counters of a refund out of the revenue. */
    method BookRefund(e: Symbol, t: Address, a: int)
      modifies this`money
      ensures var b := old(money).BookOf(e, t);
        money == old(money).WithBook(e, t, b.(refunds := b.refunds + a, revenue := b.revenue - a))
    {
      ghost var m := money;
      SetTokenRevenue(e, t, money.Revenue(e, t) - a);
      AddTokenRefunds(e, t, a);
      WriteTwice(m, e, t, m.BookOf(e, t).(revenue := m.Revenue(e, t) - a), money.BookOf(e, t));
    }

    /** Send `a` of a payment back to its payer and record it; fails if the tokens cannot be sent. */
    method PayBack(id: nat, a: int, status: PaymentStatus) returns (ok: bool)
      requires id in records.payments
      modifies this`money, this`records
      ensures var p := old(records).payments[id];
        && ok == (p.payer.None? || old(money).CanSend(p.token, a))
        && View() == if ok then RefundPayment(old(View()), id, p.payer, a, status) else old(View())
    {
      var p := records.payments[id];
      if p.payer.Some? {
        var sent := TransferOut(p.token, p.payer.value, a);
        if !sent { return false; }
      }
      records := records.(payments := records.payments[id := p.(refunded := p.refunded + a, status := status)]);
      BookRefund(p.event, p.token, a);
      return true;
    }

    /** Has the escrow been paid out in full? */
    method IsPaidOut(e: Symbol) returns (b: bool)
      ensures b == PaidOut(View(), e)
    {
      if e in events.config {
        var c := events.config[e];
        if c.withdrawn && (if c.ratio.Some? then c.ratio.value else 10_000) == 10_000 { return true; }
      }
      return e in events.meta && events.meta[e].released;
    }

    method MaxRefundOf(p: Payment) returns (m: int)
      ensures m == MaxRefund(View(), p)
    {
      hide Portion;
      if p.event in events.status && events.status[p.event] == Cancelled {
        var ratio := if p.event in events.config && events.config[p.event].ratio.Some? then events.config[p.event].ratio.value else 0;
        m := Portion(p.amount, 10_000 - ratio) - p.refunded;
      } else {
        m := p.amount - p.refunded;
      }
    }

    method RefundPaymentByAdmin(admin: Address, id: nat, amount: Option<int>) returns (r: Result<(), PaymentError>)
      modifies this
      ensures Refines(AdminRefund(old(View()), admin, id, amount), r, old(View()), View())
      ensures Sound(old(View()), View(), DoRefund(admin, id, amount))
    {
      hide Step, Sound;
      RefundsSound(View(), admin, id, amount, 0);
      hide RefundPayment, MaxRefund, PaidOut, Money.CanSend;
      if globals.paused { return Err(ContractPaused); }
      if admin != globals.admin { return Err(Unauthorized); }
      if id !in records.payments { return Err(PaymentNotFound); }
      var p := records.payments[id];
      if p.privacy != Standard { return Err(RefundNotAllowed); }
      if p.status == Refunded { return Err(PaymentAlreadyRefunded); }
      if p.status != Held { return Err(PaymentAlreadyProcessed); }
      var closed := IsPaidOut(p.event);
      if closed { return Err(PaymentAlreadyProcessed); }
      var maxRefund := MaxRefundOf(p);
      var a := if amount.Some? then amount.value else maxRefund;
      if a <= 0 || a > maxRefund { return Err(InvalidAmount); }
      var paid := PayBack(id, a, if p.refunded + a == p.amount then Refunded else Held);
      return if paid then Ok(()) else Err(HostError);
    }

    method ClaimRefundOf(payer: Address, id: nat) returns (r: Result<(), PaymentError>)
      modifies this
      ensures Refines(ClaimRefund(old(View()), payer, id), r, old(View()), View())
      ensures Sound(old(View()), View(), DoClaimRefund(payer, id))
    {
      hide Step, Sound;
      RefundsSound(View(), payer, id, None, 0);
      hide RefundPayment, Portion, Money.CanSend;
      if id !in records.payments { return Err(PaymentNotFound); }
      var p := records.payments[id];
      if p.payer.None? { return Err(RefundNotAllowed); }
      if p.payer.value != payer { return Err(Unauthorized); }
      if p.status != Held { return Err(PaymentAlreadyProcessed); }
      if p.event !in events.status || events.status[p.event] != Cancelled { return Err(EventNotActive); }
      var ratio := if p.event in events.config && events.config[p.event].ratio.Some? then events.config[p.event].ratio.value else 0;
      var refundRatio := 10_000 - ratio;
      if refundRatio == 0 { return Err(NoRevenue); }
      var remaining := Portion(p.amount, refundRatio) - p.refunded;
      if remaining <= 0 { return Err(InvalidAmount); }
      var paid := PayBack(id, remaining, Refunded);
      return if paid then Ok(()) else Err(HostError);
    }

    method RequestPostponementRefund(caller: Address, tid: nat) returns (r: Result<(), PaymentError>)
      modifies this
      ensures Refines(PostponementRefund(old(View()), caller, tid), r, old(View()), View())
      ensures Sound(old(View()), View(), DoPostponementRefund(caller, tid))
    {
      hide Step, Sound;
      RefundsSound(View(), caller, 0, None, tid);
      hide RefundPayment, Money.CanSend;
      if globals.paused { return Err(ContractPaused); }
      if tid !in records.tickets { return Err(TicketNotFound); }
      var ticket := records.tickets[tid];
      if ticket.owner.None? { return Err(RefundNotAllowed); }
      if ticket.owner.value != caller { return Err(Unauthorized); }
      if ticket.payment !in records.payments { return Err(PaymentNotFound); }
      var p := records.payments[ticket.payment];
      if p.payer.None? { return Err(RefundNotAllowed); }
      if p.status == Refunded { return Err(PaymentAlreadyRefunded); }
      if p.status != Held { return Err(PaymentAlreadyProcessed); }
      if p.event !in events.status || events.status[p.event] != Postponed { return Err(EventNotPostponed); }
      if p.event !in events.deadline { return Err(EventNotPostponed); }
      if ledger > events.deadline[p.event] { return Err(PostponementWindowClosed); }
      if p.amount - p.refunded <= 0 { return Err(InvalidAmount); }
      var paid := PayBack(ticket.payment, p.amount - p.refunded, Refunded);
      return if paid then Ok(()) else Err(HostError);
    }

    // ---- Raising and resolving disputes ----

    method RaiseDisputeOn(tid: nat, reason: nat, authorized: bool) returns (r: Result<(), PaymentError>)
      modifies this
      ensures Refines(RaiseDispute(old(View()), tid, reason, authorized), r, old(View()), View())
      ensures Sound(old(View()), View(), DoRaise(tid, reason, authorized))
    {
      hide Step, Sound;
      DisputesSound(View(), tid, reason, authorized);
      if globals.paused { return Err(ContractPaused); }
      if reason > 2 { return Err(InvalidDisputeReason); }
      if tid !in records.tickets { return Err(TicketNotFound); }
      var ticket := records.tickets[tid];
      if !authorized { return Err(Unauthorized); }
      if ticket.event !in events.config { return Err(InvalidOrganizer); }
      var end := events.config[ticket.event].end;
      if ledger < end { return Err(DisputeWindowClosed); }
      if ledger >= SatAdd(end, ATTENDEE_DISPUTE_WINDOW_LEDGERS) { return Err(DisputeWindowClosed); }
      if tid in disputes.records { return Err(DisputeAlreadyExists); }
      if ticket.payment !in records.payments { return Err(PaymentNotFound); }
      var p := records.payments[ticket.payment];
      if p.status != Held { return Err(PaymentAlreadyProcessed); }
      records := records.(payments := records.payments[ticket.payment := p.(status := Disputed)]);
      SetTokenRevenue(ticket.event, p.token, money.Revenue(ticket.event, p.token) - p.amount);
      disputes := disputes.(records := disputes.records[tid := Dispute(ticket.event, ticket.payment, reason, ledger)]);
      var list := if ticket.event in disputes.lists then disputes.lists[ticket.event] else [];
      disputes := disputes.(lists := disputes.lists[ticket.event := list + [tid]]);
      return Ok(());
    }

    /** Take a ticket off the dispute list and delete its record. */
    method CloseDispute(tid: nat, e: Symbol)
      modifies this`disputes
      ensures View() == Close(old(View()), tid, e)
    {
      disputes := disputes.(records := disputes.records - {tid});
      var list := if e in disputes.lists then disputes.lists[e] else [];
      var kept: seq<nat> := [];
      for i := 0 to |list|
        invariant kept == Without(list[..i], tid) && disputes == old(disputes).(records := old(disputes).records - {tid})
      {
        assert list[..i + 1][..i] == list[..i];
        if list[i] != tid { kept := kept + [list[i]]; }
      }
      assert list[..|list|] == list;
      disputes := disputes.(lists := disputes.lists[e := kept]);
    }

    method ApproveRefundOf(tid: nat) returns (r: Result<(), PaymentError>)
      modifies this
      ensures Refines(ApproveRefund(old(View()), tid), r, old(View()), View())
      ensures Sound(old(View()), View(), DoApprove(tid))
    {
      hide Step, Sound;
      DisputesSound(View(), tid, 0, false);
      hide Close;
      if globals.paused { return Err(ContractPaused); }
      if tid !in disputes.records { return Err(DisputeNotFound); }
      var d := disputes.records[tid];
      if ledger >= SatAdd(d.raisedAt, DISPUTE_TIMEOUT_LEDGERS) { return Err(DisputeExpired); }
      if d.payment !in records.payments { return Err(PaymentNotFound); }
      var p := records.payments[d.payment];
      if p.status != Disputed { return Err(PaymentAlreadyProcessed); }
      var remaining := p.amount - p.refunded;
      if p.payer.None? { return Err(RefundNotAllowed); }
      var sent := TransferOut(p.token, p.payer.value, remaining);
      if !sent { return Err(HostError); }
      records := records.(payments := records.payments[d.payment := p.(refunded := p.refunded + remaining, status := Refunded)]);
      AddTokenRefunds(d.event, p.token, remaining);
      assert View() == RefundDisputed(old(View()), d.event, d.payment, p.payer);
      CloseDispute(tid, d.event);
      return Ok(());
    }

    method RejectDisputeOn(tid: nat) returns (r: Result<(), PaymentError>)
      modifies this
      ensures Refines(RejectDispute(old(View()), tid), r, old(View()), View())
      ensures Sound(old(View()), View(), DoReject(tid))
    {
      hide Step, Sound;
      DisputesSound(View(), tid, 0, false);
      hide Close, Restore;
      if globals.paused { return Err(ContractPaused); }
      if tid !in disputes.records { return Err(DisputeNotFound); }
      var d := disputes.records[tid];
      if d.payment !in records.payments { return Err(PaymentNotFound); }
      if records.payments[d.payment].status != Disputed { return Err(PaymentAlreadyProcessed); }
      RestorePayment(d.event, d.payment);
      CloseDispute(tid, d.event);
      return Ok(());
    }

    // ---- Payouts ----

    /** The status and timing rules of a settlement. */
    method CheckPayoutRatio(e: Symbol) returns (r: Result<Bps, PaymentError>)
      requires e in events.config
      ensures r == PayoutRatio(View(), e)
      ensures r.Ok? ==> 1 <= r.value <= TOTAL_BASIS_POINTS
      ensures r.Ok? <==> WaitedAfterEnd(View(), e) || (WaitedAfterCancellation(View(), e) && View().RatioOf(e) != Some(0))
      ensures r.Ok? && View().StatusOf(e) == Some(Completed) ==> r.value == TOTAL_BASIS_POINTS
      ensures r.Ok? && View().StatusOf(e) == Some(Cancelled) ==> View().RatioOf(e) == Some(r.value)
    {
      var c := events.config[e];
      if e !in events.status { return Err(EventNotCompleted); }
      match events.status[e] {
        case Completed =>
          var unlock := c.end + c.delay + c.extension;
          if ledger < unlock { return Err(EscrowNotExpired); }
          return Ok(TOTAL_BASIS_POINTS);
        case Cancelled =>
          if c.cancelLedger.None? { return Err(EventNotCompleted); }
          if ledger < c.cancelLedger.value + MIN_DISPUTE_WINDOW_LEDGERS { return Err(EscrowNotExpired); }
          if c.ratio.None? { return Err(EventNotCompleted); }
          if c.ratio.value == 0 { return Err(NoRevenue); }
          return Ok(c.ratio.value);
        case _ => return Err(EventNotCompleted);
      }
    }

    /** The organizer's pool of a cancelled event, without the disputed payments. */
    method CollectCancellationOrganizerPool(e: Symbol, t: Address, ratio: Bps) returns (pool: int)
      ensures pool == CancellationPool(View(), e, t, ratio)
    {
      var volume := money.BookOf(e, t).volume;
      var disputed := 0;
      var list := if e in disputes.lists then disputes.lists[e] else [];
      for i := 0 to |list|
        invariant disputed == DisputedVolume(View(), t, list[..i])
      {
        assert list[..i + 1][..i] == list[..i];
        if list[i] in disputes.records {
          var id := disputes.records[list[i]].payment;
          if id in records.payments && records.payments[id].token == t {
            disputed := disputed + records.payments[id].amount;
          }
        }
      }
      assert list[..|list|] == list;
      return Portion(volume - disputed, ratio);
    }

    method GrossAmount(e: Symbol, t: Address, ratio: Bps) returns (gross: int)
      ensures gross == Gross(View(), e, t, ratio)
    {
      hide CancellationPool, Portion;
      if e in events.status && events.status[e] == Cancelled {
        gross := CollectCancellationOrganizerPool(e, t, ratio);
      } else {
        gross := Portion(money.Revenue(e, t), ratio);
      }
    }

    method WithdrawByOrganizer(organizer: Address, e: Symbol) returns (r: Result<(), PaymentError>)
      modifies this
      ensures Refines(Withdraw(old(View()), organizer, e), r, old(View()), View())
      ensures Sound(old(View()), View(), DoWithdraw(organizer, e))
    {
      hide Step, Sound;
      PayoutsSound(View(), organizer, e, 0);
      hide PayoutRatio, Timeouts, BalancesCover, WithdrawNow;
      var before := View();
      if globals.paused { return Err(ContractPaused); }
      if e in split.splits { return Err(InvalidSplitConfig); }
      if e !in events.config { return Err(InvalidOrganizer); }
      if organizer != events.config[e].organizer { return Err(UnauthorizedWithdrawal); }
      if events.config[e].withdrawn { return Err(NoRevenue); }
      var ratio := CheckPayoutRatio(e);
      if ratio.Err? { return Err(ratio.error); }
      var covered := ValidateRevenueInvariant(e);
      if !covered { Rollback(before); return Err(RevenueInvariantViolated); }
      if e in disputes.lists && disputes.lists[e] != [] { Rollback(before); return Err(ActiveDisputes); }
      r := WithdrawSettled(e, ratio.value);
      if r.Err? { Rollback(before); }
    }

    /** The payment of a withdrawal, after the checks. */
    method WithdrawSettled(e: Symbol, ratio: Bps) returns (r: Result<(), PaymentError>)
      modifies this`money, this`events
      ensures Refines(WithdrawNow(old(View()), e, ratio), r, old(View()), View())
    {
      hide Gross, PlatformFee, Money.Payout, Money.CanSend;
      if e !in events.config { return Err(InvalidPayoutToken); }
      var c := events.config[e];
      if money.Revenue(e, c.payoutToken) <= 0 { return Err(NoRevenue); }
      var gross := GrossAmount(e, c.payoutToken, ratio);
      if gross <= 0 { return Err(NoRevenue); }
      var fee := PlatformFee(gross, globals.feeBps);
      var left := if ratio == 10_000 then 0 else money.Revenue(e, c.payoutToken) - gross;
      var paid := PayOut(e, c.payoutToken, c.organizer, gross - fee, left);
      if !paid { return Err(HostError); }
      if fee > 0 { AddPlatformRevenue(e, fee); }
      events := events.(config := events.config[e := c.(withdrawn := true)]);
      return Ok(());
    }

    method WithdrawRevenueByAdmin(e: Symbol, to: Address) returns (r: Result<(), PaymentError>)
      modifies this
      ensures Refines(WithdrawRevenue(old(View()), e, to), r, old(View()), View())
      ensures Sound(old(View()), View(), DoWithdrawRevenue(e, to))
    {
      hide Step, Sound;
      PayoutsSound(View(), to, e, 0);
      hide Timeouts, BalancesCover, WithdrawRevenueNow;
      var before := View();
      if globals.paused { return Err(ContractPaused); }
      if e in split.splits { return Err(InvalidSplitConfig); }
      if e in events.status && events.status[e] == Postponed { return Err(EventNotActive); }
      if e in events.config && events.config[e].withdrawn { return Err(PaymentAlreadyProcessed); }
      var covered := ValidateRevenueInvariant(e);
      if !covered { Rollback(before); return Err(RevenueInvariantViolated); }
      r := PayAcceptedToken(e, to);
      if r.Err? { Rollback(before); }
    }

    /** Pay the event's revenue in the accepted token, less the fee, and latch the event. */
    method PayAcceptedToken(e: Symbol, to: Address) returns (r: Result<(), PaymentError>)
      modifies this`money, this`events
      ensures Refines(WithdrawRevenueNow(old(View()), e, to), r, old(View()), View())
    {
      hide PlatformFee, Money.Payout, Money.CanSend, Money.Revenue;
      var t := globals.acceptedToken;
      var revenue := money.Revenue(e, t);
      if revenue <= 0 { return Err(InvalidAmount); }
      var fee := PlatformFee(revenue, globals.feeBps);
      var paid := PayOut(e, t, to, revenue - fee, 0);
      if !paid { return Err(HostError); }
      if fee > 0 { AddPlatformRevenue(e, fee); }
      if e in events.config {
        events := events.(config := events.config[e := events.config[e].(withdrawn := true)]);
      }
      return Ok(());
    }

    /** The draining loop over the event's tokens. */
    method DrainTokens(e: Symbol, to: Address, tokens: seq<Address>) returns (r: Result<bool, PaymentError>)
      modifies this`money
      ensures var spec := Drain(old(money), e, to, tokens);
        if spec.Ok? then r == Ok(spec.value.any) && money == spec.value.money else r == Err(spec.error)
    {
      hide Money.Payout, Money.CanSend, Money.Revenue;
      var any := false;
      for i := 0 to |tokens|
        invariant Drain(old(money), e, to, tokens[..i]) == Ok(Drained(money, any))
      {
        assert tokens[..i + 1][..i] == tokens[..i];
        var revenue := money.Revenue(e, tokens[i]);
        if revenue > 0 {
          var paid := PayOut(e, tokens[i], to, revenue, 0);
          if !paid {
            DrainFails(old(money), e, to, tokens, i + 1);
            return Err(HostError);
          }
          any := true;
        }
      }
      assert tokens[..|tokens|] == tokens;
      return Ok(any);
    }

    method ReleaseExpired(e: Symbol) returns (r: Result<(), PaymentError>)
      modifies this
      ensures Refines(ReleaseIfExpired(old(View()), e), r, old(View()), View())
      ensures Sound(old(View()), View(), DoRelease(e))
    {
      hide Step, Sound;
      ReleaseSound(View(), e);
      hide Timeouts, BalancesCover, Drain;
      var before := View();
      if globals.paused { return Err(ContractPaused); }
      if e in split.splits { return Err(InvalidSplitConfig); }
      if e !in events.meta { return Err(EscrowNotConfigured); }
      var meta := events.meta[e];
      if meta.released { return Err(EscrowAlreadyReleased); }
      if e in events.status && events.status[e] == Postponed { return Err(EventNotActive); }
      if timestamp < meta.endTime { return Err(EscrowNotExpired); }
      if e in events.config && ledger < events.config[e].end { return Err(EscrowNotExpired); }
      var covered := ValidateRevenueInvariant(e);
      if !covered { Rollback(before); return Err(RevenueInvariantViolated); }
      var drained := DrainTokens(e, meta.organizer, if e in events.tokens then events.tokens[e] else []);
      if drained.Err? { Rollback(before); return Err(drained.error); }
      events := events.(meta := events.meta[e := meta.(released := true)]);
      return Ok(());
    }

    method WithdrawOneToken(organizer: Address, e: Symbol, t: Address) returns (r: Result<(), PaymentError>)
      modifies this
      ensures Refines(WithdrawToken(old(View()), organizer, e, t), r, old(View()), View())
      ensures Sound(old(View()), View(), DoWithdrawToken(organizer, e, t))
    {
      hide Step, Sound;
      PayoutsSound(View(), organizer, e, t);
      hide Timeouts, BalancesCover, Money.Payout, Money.CanSend;
      var before := View();
      if globals.paused { return Err(ContractPaused); }
      if e in split.splits { return Err(InvalidSplitConfig); }
      if e !in events.status || events.status[e] != Completed { return Err(EventNotCompleted); }
      var covered := ValidateRevenueInvariant(e);
      if !covered { Rollback(before); return Err(RevenueInvariantViolated); }
      var revenue := money.Revenue(e, t);
      if revenue <= 0 { Rollback(before); return Err(NoRevenue); }
      var paid := PayOut(e, t, organizer, revenue, 0);
      if !paid { Rollback(before); return Err(HostError); }
      return Ok(());
    }

    method WithdrawAll(organizer: Address, e: Symbol) returns (r: Result<(), PaymentError>)
      modifies this
      ensures Refines(WithdrawAllTokens(old(View()), organizer, e), r, old(View()), View())
      ensures Sound(old(View()), View(), DoWithdrawAll(organizer, e))
    {
      hide Step, Sound;
      PayoutsSound(View(), organizer, e, 0);
      hide Timeouts, BalancesCover, Drain;
      var before := View();
      if globals.paused { return Err(ContractPaused); }
      if e in split.splits { return Err(InvalidSplitConfig); }
      if e !in events.status || events.status[e] != Completed { return Err(EventNotCompleted); }
      var covered := ValidateRevenueInvariant(e);
      if !covered { Rollback(before); return Err(RevenueInvariantViolated); }
      var drained := DrainTokens(e, organizer, if e in events.tokens then events.tokens[e] else []);
      if drained.Err? { Rollback(before); return Err(drained.error); }
      if !drained.value { Rollback(before); return Err(NoRevenue); }
      return Ok(());
    }

    method WithdrawPlatformFees(e: Symbol) returns (r: Result<(), PaymentError>)
      modifies this
      ensures Refines(WithdrawPlatformRevenue(old(View()), e), r, old(View()), View())
      ensures Sound(old(View()), View(), DoWithdrawPlatform(e))
    {
      hide Step, Sound;
      PayoutsSound(View(), 0, e, 0);
      if globals.paused { return Err(ContractPaused); }
      var fees := At(money.platform, e);
      if fees <= 0 { return Err(NoPlatformRevenue); }
      var t := globals.acceptedToken;
      var paid := PayOut(e, t, globals.wallet, fees, money.Revenue(e, t));
      if !paid { return Err(HostError); }
      money := money.(platform := money.platform[e := 0]);
      return Ok(());
    }

    // ---- Splits ----

    method SyncRevenueSplits(caller: Address, e: Symbol, splits: seq<Split>) returns (r: Result<(), PaymentError>)
      modifies this
      ensures Refines(SyncSplits(old(View()), caller, e, splits), r, old(View()), View())
      ensures Sound(old(View()), View(), DoSyncSplits(caller, e, splits))
    {
      hide Step, Sound;
      SplitsSound(View(), caller, e, splits, 0, false);
      if globals.paused { return Err(ContractPaused); }
      if caller != globals.eventContract { return Err(Unauthorized); }
      if e in split.splits { return Err(InvalidSplitConfig); }
      if |splits| == 0 || |splits| > MAX_REVENUE_SPLIT_RECIPIENTS { return Err(InvalidSplitConfig); }
      if e !in events.config { return Err(InvalidOrganizer); }
      var check := ValidateRevenueSplits(splits, events.config[e].organizer);
      if check.Err? { return Err(InvalidSplitConfig); }
      split := split.(splits := split.splits[e := splits]);
      return Ok(());
    }

    method EnsureSplitSettled(e: Symbol) returns (r: Result<(), PaymentError>)
      modifies this
      ensures Refines(EnsureSettled(old(View()), e), r, old(View()), View())
    {
      hide PayoutRatio, Timeouts, BalancesCover, SettleNow;
      if e in split.settled { return Ok(()); }
      var before := View();
      if e !in events.config { return Err(InvalidOrganizer); }
      var ratio := CheckPayoutRatio(e);
      if ratio.Err? { return Err(ratio.error); }
      var covered := ValidateRevenueInvariant(e);
      if !covered { Rollback(before); return Err(RevenueInvariantViolated); }
      if e in disputes.lists && disputes.lists[e] != [] { Rollback(before); return Err(ActiveDisputes); }
      r := FreezeNet(e, ratio.value);
      if r.Err? { Rollback(before); }
    }

    /** Deduct the fee and freeze the distributable net amount. */
    method FreezeNet(e: Symbol, ratio: Bps) returns (r: Result<(), PaymentError>)
      modifies this`money, this`split
      ensures Refines(SettleNow(old(View()), e, ratio), r, old(View()), View())
    {
      hide Gross, PlatformFee, Money.WithRevenue, Money.Revenue;
      if e !in events.config { return Err(InvalidPayoutToken); }
      var t := events.config[e].payoutToken;
      if !(e in events.status && events.status[e] == Cancelled) && money.Revenue(e, t) <= 0 { return Err(NoRevenue); }
      var gross := GrossAmount(e, t, ratio);
      if gross <= 0 { return Err(NoRevenue); }
      var fee := PlatformFee(gross, globals.feeBps);
      var net := gross - fee;
      if net <= 0 { return Err(NoRevenue); }
      SetTokenRevenue(e, t, if ratio == 10_000 then 0 else money.Revenue(e, t) - gross);
      if fee > 0 { AddPlatformRevenue(e, fee); }
      split := split.(settled := split.settled[e := Settlement(t, net)]);
      return Ok(());
    }

    /** Transfer a frozen share and mark its recipient as paid. */
    method PayFrozenShare(e: Symbol, who: Address, to: Address) returns (r: Result<(), PaymentError>)
      requires e in split.settled
      modifies this`money, this`split
      ensures Refines(PayShare(old(View()), e, who, to), r, old(View()), View())
    {
      hide RecipientShare, Money.Payout, Money.CanSend;
      var settlement := split.settled[e];
      var splits := if e in split.splits then split.splits[e] else [];
      var share := 0;
      if splits != [] {
        share := CalculateRecipientShare(splits, who, splits[0].recipient, settlement.net);
      }
      if share <= 0 { return Err(NoRevenue); }
      var paid := PayOut(e, settlement.token, to, share, money.Revenue(e, settlement.token));
      if !paid { return Err(HostError); }
      var amounts := if e in split.paid then split.paid[e] else map[];
      split := split.(paid := split.paid[e := amounts[who := share]]);
      return Ok(());
    }

    method WithdrawSplitShare(who: Address, e: Symbol) returns (r: Result<(), PaymentError>)
      modifies this
      ensures Refines(WithdrawSplit(old(View()), who, e), r, old(View()), View())
      ensures Sound(old(View()), View(), DoWithdrawSplit(who, e))
    {
      hide Step, Sound;
      SplitsSound(View(), 0, e, [], who, false);
      hide EnsureSettled, PayShare, BpsOf;
      var before := View();
      if globals.paused { return Err(ContractPaused); }
      var splits := if e in split.splits then split.splits[e] else [];
      if splits == [] { return Err(SplitsNotConfigured); }
      var bps := FindRecipientBasisPoints(splits, who);
      if bps.None? { return Err(NotASplitRecipient); }
      if (e, who) in split.flagged { return Err(RecipientFlagged); }
      if At(if e in split.paid then split.paid[e] else map[], who) > 0 { return Err(SplitAlreadyWithdrawn); }
      r := EnsureSplitSettled(e);
      if r.Ok? {
        r := PayFrozenShare(e, who, who);
      }
      if r.Err? { Rollback(before); }
    }

    method FlagCohostWallet(caller: Address, e: Symbol, who: Address) returns (r: Result<(), PaymentError>)
      modifies this
      ensures Refines(FlagCohost(old(View()), caller, e, who), r, old(View()), View())
      ensures Sound(old(View()), View(), DoFlag(caller, e, who))
      ensures r.Ok? ==> WithdrawSplit(View(), who, e) == Err(RecipientFlagged)
      ensures r.Ok? ==> ResolveFlagged(View(), e, who, true) == Ok(Unflag(old(View()), e, who))
      ensures r.Ok? && (e, who) !in old(split).flagged ==> ResolveFlagged(View(), e, who, true) == Ok(old(View()))
    {
      hide Step, Sound, BpsOf, WithdrawSplit, ResolveFlagged;
      SplitsSound(View(), caller, e, [], who, false);
      if globals.paused { return Err(ContractPaused); }
      var splits := if e in split.splits then split.splits[e] else [];
      if splits == [] { return Err(SplitsNotConfigured); }
      var primary := splits[0].recipient;
      if caller != primary { return Err(Unauthorized); }
      if who == primary { return Err(Unauthorized); }
      var bps := FindRecipientBasisPoints(splits, who);
      if bps.None? { return Err(NotASplitRecipient); }
      if At(if e in split.paid then split.paid[e] else map[], who) > 0 { return Err(SplitAlreadyWithdrawn); }
      split := split.(flagged := split.flagged + {(e, who)});
      FlagBlocks(old(View()), e, who);
      return Ok(());
    }

    method ResolveFlaggedShare(e: Symbol, who: Address, release: bool) returns (r: Result<(), PaymentError>)
      modifies this
      ensures Refines(ResolveFlagged(old(View()), e, who, release), r, old(View()), View())
      ensures Sound(old(View()), View(), DoResolve(e, who, release))
    {
      hide Step, Sound;
      SplitsSound(View(), 0, e, [], who, release);
      hide EnsureSettled, PayShare, BpsOf;
      var before := View();
      if globals.paused { return Err(ContractPaused); }
      var splits := if e in split.splits then split.splits[e] else [];
      if splits == [] { return Err(SplitsNotConfigured); }
      var bps := FindRecipientBasisPoints(splits, who);
      if bps.None? { return Err(NotASplitRecipient); }
      if (e, who) !in split.flagged { return Err(RecipientNotFlagged); }
      if !release {
        if At(if e in split.paid then split.paid[e] else map[], who) > 0 { return Err(SplitAlreadyWithdrawn); }
        r := EnsureSplitSettled(e);
        if r.Ok? {
          r := PayFrozenShare(e, who, splits[0].recipient);
        }
        if r.Err? {
          Rollback(before);
          return;
        }
      }
      split := split.(flagged := split.flagged - {(e, who)});
      return Ok(());
    }

    // ---- Resale ----

    method ListTicketForResale(seller: Address, tid: nat, price: int) returns (r: Result<(), PaymentError>)
      modifies this
      ensures Refines(ListTicket(old(View()), seller, tid, price), r, old(View()), View())
      ensures Sound(old(View()), View(), DoSetup(DoListTicket(seller, tid, price)))
      ensures r.Ok? ==> Delist(View(), seller, tid) == Ok(old(View()).(listings := old(listings) - {tid}))
      ensures r.Ok? && tid !in old(listings) ==> Delist(View(), seller, tid) == Ok(old(View()))
    {
      hide Step, Sound;
      ListingsSound(View(), seller, tid, price);
      if globals.paused { return Err(ContractPaused); }
      if tid !in records.tickets { return Err(TicketNotFound); }
      var ticket := records.tickets[tid];
      if ticket.owner != Some(seller) { return Err(Unauthorized); }
      if ticket.event !in events.config { return Err(InvalidOrganizer); }
      var c := events.config[ticket.event];
      if ticket.payment !in records.payments { return Err(PaymentNotFound); }
      var paid := records.payments[ticket.payment].amount;
      if paid == 0 && price > 0 && !c.freeTransfer { return Err(InvalidAmount); }
      if !c.freeTransfer && paid == 0 { return Err(InvalidAmount); }
      if paid == 0 && price > 0 { return Err(InvalidAmount); }
      if c.maxResalePrice.Some? && price > c.maxResalePrice.value { return Err(InvalidAmount); }
      listings := listings[tid := Listing(price, seller)];
      assert listings - {tid} == old(listings) - {tid};
      assert tid !in old(listings) ==> old(listings) - {tid} == old(listings);
      return Ok(());
    }

    method DelistTicket(seller: Address, tid: nat) returns (r: Result<(), PaymentError>)
      modifies this
      ensures Refines(Delist(old(View()), seller, tid), r, old(View()), View())
      ensures Sound(old(View()), View(), DoSetup(DoDelist(seller, tid)))
      ensures r.Ok? ==> forall buyer, external :: BuyResale(View(), buyer, tid, external) == Err(TicketNotFound)
    {
      hide Step, Sound;
      ListingsSound(View(), seller, tid, 0);
      if globals.paused { return Err(ContractPaused); }
      if tid !in listings { return Err(TicketNotFound); }
      if listings[tid].seller != seller { return Err(Unauthorized); }
      listings := listings - {tid};
      return Ok(());
    }

    /** The money of a resale. */
    method TradeTicket(e: Symbol, seller: Address, buyer: Address, price: int) returns (ok: bool)
      requires e in events.config
      modifies this`money
      ensures var spec := Trade(old(View()), e, seller, buyer, price);
        ok == spec.Ok? && (ok ==> money == spec.value) && (spec.Err? ==> spec.error == HostError)
    {
      hide PlatformFee, Portion, Money.Send, Money.Receive, Money.CanSend, Money.CanReceive;
      if price <= 0 { return true; }
      var c := events.config[e];
      var fee := PlatformFee(price, globals.feeBps);
      var royalty := Portion(price, c.royaltyBps);
      var proceeds := price - fee - royalty;
      ok := TransferIn(c.payoutToken, buyer, price);
      if !ok { return; }
      if proceeds > 0 {
        ok := TransferOut(c.payoutToken, seller, proceeds);
        if !ok { return; }
      }
      if fee > 0 { AddPlatformRevenue(e, fee); }
      if royalty > 0 { SetTokenRevenue(e, c.payoutToken, money.Revenue(e, c.payoutToken) + royalty); }
    }

    method BuyResaleTicket(buyer: Address, tid: nat, external: bool) returns (r: Result<(), PaymentError>)
      modifies this, owners
      ensures Refines(BuyResale(old(View()), buyer, tid, external), r, old(View()), View())
      ensures Sound(old(View()), View(), DoBuy(buyer, tid, external))
    {
      hide Step, Sound;
      BuySound(View(), buyer, tid, external);
      hide Trade, OwnerIndex.Add, OwnerIndex.RemoveCounted;
      var before := View();
      if globals.paused { return Err(ContractPaused); }
      if tid !in listings { return Err(TicketNotFound); }
      var listing := listings[tid];
      if tid !in records.tickets { return Err(TicketNotFound); }
      var ticket := records.tickets[tid];
      if ticket.owner != Some(listing.seller) {
        listings := listings - {tid};
        Rollback(before);
        return Err(Unauthorized);
      }
      if ticket.event !in events.config { return Err(InvalidOrganizer); }
      var traded := TradeTicket(ticket.event, listing.seller, buyer, listing.price);
      if !traded || !external { Rollback(before); return Err(HostError); }
      records := records.(tickets := records.tickets[tid := ticket.(owner := Some(buyer))]);
      owners.RemoveCounted(listing.seller, tid);
      owners.Add(buyer, tid);
      listings := listings - {tid};
      return Ok(());
    }

    // ---- Cancellation ----

    method CancelEventFor(e: Symbol, organizer: Address) returns (r: Result<(), PaymentError>)
      modifies this
      ensures Refines(CancelEvent(old(View()), e, organizer), r, old(View()), View())
      ensures Sound(old(View()), View(), DoSetup(DoCancelEvent(e, organizer)))
      ensures r.Ok? && Inv(old(View())) && !Settled(old(View()), e) && NoRefunds(old(View()), e) ==>
        && e in old(events).config && !Settled(View(), e)
        && Era(View(), e, CancelRatio(old(events).config[e], ledger), old(events).config[e].payoutToken)
    {
      hide Step, Sound, Inv, Era, Settled, NoRefunds;
      CancelSound(View(), e, organizer);
      if e !in events.config { return Err(InvalidOrganizer); }
      var c := events.config[e];
      if c.organizer != organizer { return Err(Unauthorized); }
      var ratio: Bps := 0;
      if ledger < c.start {
        ratio := 0;
      } else if ledger >= c.end {
        ratio := TOTAL_BASIS_POINTS;
      } else {
        var elapsed, total := ledger - c.start, c.end - c.start;
        ratio := RatioBound(elapsed, total);
      }
      events := events.(config := events.config[e := c.(cancelLedger := Some(ledger), ratio := Some(ratio))]);
      events := events.(status := events.status[e := Cancelled]);
      StartsEra(old(View()), e, organizer);
      return Ok(());
    }
  }

  /** What every step of the escrow keeps: its invariant, and the surplus of each token up to what a resale retains. */
  ghost predicate Sound(s: State, u: State, op: Op) {
    Inv(s) ==> Inv(u) && forall t ::
      Surplus(u.money, t) == Surplus(s.money, t) + Kept(s, op, t) && Total(u.money, t) == Total(s.money, t)
  }

  lemma StepSound(s: State, op: Op, spec: Outcome)
    requires spec == Step(s, op)
    ensures Sound(s, if spec.Ok? then spec.value else s, op)
  {
    hide Inv, Step, Surplus, Total, Kept;
    if Inv(s) {
      forall t ensures Surplus(After(s, op).money, t) == Surplus(s.money, t) + Kept(s, op, t)
                && Total(After(s, op).money, t) == Total(s.money, t)
      {
        StepKeeps(s, op, t);
      }
      StepKeeps(s, op, 0);
    }
  }

  function Applied(spec: Outcome, s: State): State { if spec.Ok? then spec.value else s }

  lemma PaySound(s: State, p: PaymentParams)
    ensures Sound(s, Applied(Pay(s, p), s), DoPay(p))
  {
    hide Pay, Sound;
    StepSound(s, DoPay(p), Pay(s, p));
  }

  lemma TimeoutsSound(s: State, e: Symbol)
    ensures Sound(s, Timeouts(s, e), DoTimeouts(e))
  {
    hide Timeouts, Sound;
    StepSound(s, DoTimeouts(e), Ok(Timeouts(s, e)));
  }

  lemma RefundsSound(s: State, who: Address, id: nat, amount: Option<int>, tid: nat)
    ensures Sound(s, Applied(AdminRefund(s, who, id, amount), s), DoRefund(who, id, amount))
    ensures Sound(s, Applied(ClaimRefund(s, who, id), s), DoClaimRefund(who, id))
    ensures Sound(s, Applied(PostponementRefund(s, who, tid), s), DoPostponementRefund(who, tid))
  {
    hide AdminRefund, ClaimRefund, PostponementRefund, Sound;
    StepSound(s, DoRefund(who, id, amount), AdminRefund(s, who, id, amount));
    StepSound(s, DoClaimRefund(who, id), ClaimRefund(s, who, id));
    StepSound(s, DoPostponementRefund(who, tid), PostponementRefund(s, who, tid));
  }

  lemma DisputesSound(s: State, tid: nat, reason: nat, authorized: bool)
    ensures Sound(s, Applied(RaiseDispute(s, tid, reason, authorized), s), DoRaise(tid, reason, authorized))
    ensures Sound(s, Applied(ApproveRefund(s, tid), s), DoApprove(tid))
    ensures Sound(s, Applied(RejectDispute(s, tid), s), DoReject(tid))
  {
    hide RaiseDispute, ApproveRefund, RejectDispute, Sound;
    StepSound(s, DoRaise(tid, reason, authorized), RaiseDispute(s, tid, reason, authorized));
    StepSound(s, DoApprove(tid), ApproveRefund(s, tid));
    StepSound(s, DoReject(tid), RejectDispute(s, tid));
  }

  lemma PayoutsSound(s: State, o: Address, e: Symbol, t: Address)
    ensures Sound(s, Applied(Withdraw(s, o, e), s), DoWithdraw(o, e))
    ensures Sound(s, Applied(WithdrawRevenue(s, e, o), s), DoWithdrawRevenue(e, o))
    ensures Sound(s, Applied(WithdrawToken(s, o, e, t), s), DoWithdrawToken(o, e, t))
    ensures Sound(s, Applied(WithdrawAllTokens(s, o, e), s), DoWithdrawAll(o, e))
    ensures Sound(s, Applied(WithdrawPlatformRevenue(s, e), s), DoWithdrawPlatform(e))
  {
    hide Withdraw, WithdrawRevenue, WithdrawToken, WithdrawAllTokens, WithdrawPlatformRevenue, Sound;
    StepSound(s, DoWithdraw(o, e), Withdraw(s, o, e));
    StepSound(s, DoWithdrawRevenue(e, o), WithdrawRevenue(s, e, o));
    StepSound(s, DoWithdrawToken(o, e, t), WithdrawToken(s, o, e, t));
    StepSound(s, DoWithdrawAll(o, e), WithdrawAllTokens(s, o, e));
    StepSound(s, DoWithdrawPlatform(e), WithdrawPlatformRevenue(s, e));
  }

  lemma ReleaseSound(s: State, e: Symbol)
    ensures Sound(s, Applied(ReleaseIfExpired(s, e), s), DoRelease(e))
  {
    hide ReleaseIfExpired, Sound;
    StepSound(s, DoRelease(e), ReleaseIfExpired(s, e));
  }

  lemma SplitsSound(s: State, c: Address, e: Symbol, l: seq<Split>, who: Address, release: bool)
    ensures Sound(s, Applied(SyncSplits(s, c, e, l), s), DoSyncSplits(c, e, l))
    ensures Sound(s, Applied(WithdrawSplit(s, who, e), s), DoWithdrawSplit(who, e))
    ensures Sound(s, Applied(FlagCohost(s, c, e, who), s), DoFlag(c, e, who))
    ensures Sound(s, Applied(ResolveFlagged(s, e, who, release), s), DoResolve(e, who, release))
  {
    hide SyncSplits, WithdrawSplit, FlagCohost, ResolveFlagged, Sound;
    StepSound(s, DoSyncSplits(c, e, l), SyncSplits(s, c, e, l));
    StepSound(s, DoWithdrawSplit(who, e), WithdrawSplit(s, who, e));
    StepSound(s, DoFlag(c, e, who), FlagCohost(s, c, e, who));
    StepSound(s, DoResolve(e, who, release), ResolveFlagged(s, e, who, release));
  }

  lemma ListingsSound(s: State, seller: Address, tid: nat, price: int)
    ensures Sound(s, Applied(ListTicket(s, seller, tid, price), s), DoSetup(DoListTicket(seller, tid, price)))
    ensures Sound(s, Applied(Delist(s, seller, tid), s), DoSetup(DoDelist(seller, tid)))
  {
    hide ListTicket, Delist, Sound;
    StepSound(s, DoSetup(DoListTicket(seller, tid, price)), ListTicket(s, seller, tid, price));
    StepSound(s, DoSetup(DoDelist(seller, tid)), Delist(s, seller, tid));
  }

  lemma BuySound(s: State, buyer: Address, tid: nat, external: bool)
    ensures Sound(s, Applied(BuyResale(s, buyer, tid, external), s), DoBuy(buyer, tid, external))
  {
    hide BuyResale, Sound;
    StepSound(s, DoBuy(buyer, tid, external), BuyResale(s, buyer, tid, external));
  }

  lemma CancelSound(s: State, e: Symbol, o: Address)
    ensures Sound(s, Applied(CancelEvent(s, e, o), s), DoSetup(DoCancelEvent(e, o)))
  {
    hide CancelEvent, Sound;
    StepSound(s, DoSetup(DoCancelEvent(e, o)), CancelEvent(s, e, o));
  }

  // ---- What callers rely on ----

  predicate WaitedAfterEnd(s: State, e: Symbol)
    requires e in s.events.config
  {
    var c := s.events.config[e];
    s.StatusOf(e) == Some(Completed) && s.ledger >= c.end + c.delay + c.extension
  }

  predicate WaitedAfterCancellation(s: State, e: Symbol)
    requires e in s.events.config
  {
    var c := s.events.config[e];
    s.StatusOf(e) == Some(Cancelled) && c.ratio.Some? && c.cancelLedger.Some?
    && s.ledger >= c.cancelLedger.value + MIN_DISPUTE_WINDOW_LEDGERS
  }

  lemma FlagBlocks(s: State, e: Symbol, who: Address)
    requires !s.globals.paused && s.SplitsOf(e) != [] && BpsOf(s.SplitsOf(e), who).Some?
    ensures var u := s.(split := s.split.(flagged := s.split.flagged + {(e, who)}));
      && WithdrawSplit(u, who, e) == Err(RecipientFlagged)
      && ResolveFlagged(u, e, who, true) == Ok(Unflag(s, e, who))
      && ((e, who) !in s.split.flagged ==> ResolveFlagged(u, e, who, true) == Ok(s))
  {
    hide BpsOf, EnsureSettled, PayShare;
    var x := s.split.flagged;
    assert x + {(e, who)} - {(e, who)} == x - {(e, who)};
    assert (e, who) !in x ==> x - {(e, who)} == x;
  }

  /** No payment of the event was refunded. */
  ghost predicate NoRefunds(s: State, e: Symbol) {
    forall i :: i in s.records.payments && s.records.payments[i].event == e ==> s.records.payments[i].refunded == 0
  }

  lemma StartsEra(s: State, e: Symbol, o: Address)
    requires CancelEvent(s, e, o).Ok?
    ensures e in s.events.config
    ensures Inv(s) && !Settled(s, e) && NoRefunds(s, e) ==>
      && !Settled(CancelEvent(s, e, o).value, e)
      && Era(CancelEvent(s, e, o).value, e, CancelRatio(s.events.config[e], s.ledger), s.events.config[e].payoutToken)
  {
    hide Inv, CancelRatio;
    if Inv(s) && !Settled(s, e) && NoRefunds(s, e) { CancelStartsEra(s, e, o); }
  }

  /** The method's result and new state are those of the specified outcome. */
  ghost predicate Refines(spec: Outcome, r: Result<(), PaymentError>, before: State, after: State) {
    match spec
    case Ok(s) => r == Ok(()) && after == s
    case Err(e) => r == Err(e) && after == before
  }

  /** A failed prefix fails the whole loop. */
  lemma {:induction false} DrainFails(m: Money, e: Symbol, to: Address, tokens: seq<Address>, n: nat)
    requires n <= |tokens| && Drain(m, e, to, tokens[..n]) == Err(HostError)
    ensures Drain(m, e, to, tokens) == Err(HostError)
    decreases |tokens| - n
  {
    hide Money.Payout, Money.CanSend, Money.Revenue;
    if n < |tokens| {
      assert tokens[..n + 1][..n] == tokens[..n];
      DrainFails(m, e, to, tokens, n + 1);
    } else {
      assert tokens[..n] == tokens;
    }
  }

  lemma ReceiveBooks(m: Money, t: Address, from: Address, a: int, e: Symbol)
    ensures m.Receive(t, from, a).BookOf(e, t) == m.BookOf(e, t)
  {
  }

  lemma IssueKeepsConfig(s: State, p: PaymentParams, pay: Payment)
    ensures Issue(s, p, pay).events.config == s.events.config
    ensures Issue(s, p, pay).records.lastPayment == s.records.lastPayment + 1
  {
    hide Money.Deposit, Remember, OwnerIndex.Add;
  }

  lemma CanReceiveIt(s: State, p: PaymentParams)
    requires CheckPayment(s, p).Ok?
    ensures s.money.CanReceive(p.token, p.payer, p.amount)
  {
    hide CheckPrivacy, CheckSupply, NonceUsed;
  }

  /** Two writes to one book are the last one. */
  lemma WriteTwice(m: Money, e: Symbol, t: Address, b: Book, c: Book)
    ensures m.WithBook(e, t, b).WithBook(e, t, c) == m.WithBook(e, t, c)
  {
    assert m.books[(e, t) := b][(e, t) := c] == m.books[(e, t) := c];
  }

  // ---- Timeout bookkeeping ----

  lemma RestoreKeeps(s: State, e: Symbol, id: nat)
    requires id in s.records.payments
    ensures Restore(s, e, id).disputes == s.disputes
  {
    hide Money.WithRevenue, Money.Revenue;
  }

  /** In the loop a dispute is still recorded unless it expired in an earlier round. */
  lemma {:induction false} ExpiredSoFar(s: State, e: Symbol, l: seq<nat>, tid: nat)
    ensures var u := ExpireList(s, e, l);
      && u.ledger == s.ledger
      && (tid in u.disputes.records <==> tid in s.disputes.records && !(tid in l && Expired(s, tid)))
      && (tid in u.disputes.records ==> u.disputes.records[tid] == s.disputes.records[tid])
      && (Expired(u, tid) <==> Expired(s, tid) && tid !in l)
  {
    hide Money.WithRevenue, Money.Revenue;
    if l != [] {
      ExpiredSoFar(s, e, l[..|l| - 1], tid);
      ExpiredSoFar(s, e, l[..|l| - 1], l[|l| - 1]);
      assert l == l[..|l| - 1] + [l[|l| - 1]];
    }
  }

  lemma AnyExpiredNext(s: State, l: seq<nat>, tid: nat, next: seq<nat>)
    requires next == l + [tid]
    ensures AnyExpired(s, next) == (AnyExpired(s, l) || Expired(s, tid))
    ensures tid in l && Expired(s, tid) ==> AnyExpired(s, l)
  {
    hide Expired;
    if AnyExpired(s, l) {
      var i :| 0 <= i < |l| && Expired(s, l[i]);
      assert next[i] == l[i];
    }
    assert next[|l|] == tid;
  }

  lemma {:induction false} NothingExpired(s: State, e: Symbol, l: seq<nat>)
    requires !AnyExpired(s, l)
    ensures ExpireList(s, e, l) == s
  {
    hide Expired;
    if l != [] {
      var init := l[..|l| - 1];
      assert l == init + [l[|l| - 1]];
      AnyExpiredNext(s, init, l[|l| - 1], l);
      NothingExpired(s, e, init);
    }
  }
}

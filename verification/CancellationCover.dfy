/** A cancelled event's open refundable parts against what was paid out: what the balance covers, and when it stops covering. */
module CancellationCover {
  import opened Ledger
  import opened MapSums
  import opened OwnerIndexes
  import opened RevenueSplits
  import opened PaymentsSpec
  import opened EscrowLedger
  import opened EscrowInvariants
  import opened EscrowDisputes
  import opened EscrowSplits
  import opened EscrowCancellation
  import opened EscrowAccounts
  import opened EventBooks

  // ---- How a payment of the cancelled event develops ----

  /** Only a held standard payment is refunded, up to its refundable part, and it is closed only with that part. */
  predicate Progress(p: Payment, q: Payment, r: Bps) {
    || (q.refunded == p.refunded && (q.status == p.status || (Open(p) && Open(q))))
    || (p.status == Held && p.privacy == Standard && p.refunded <= q.refunded <= Portion(p.amount, 10_000 - r)
        && (q.status == Held || (q.status == Refunded && q.refunded == Portion(p.amount, 10_000 - r))))
  }

  ghost predicate Progresses(s: State, u: State, e: Symbol, r: Bps) {
    && SameSales(s, u, e)
    && (forall i :: i in s.records.payments && i in u.records.payments && s.records.payments[i].event == e ==>
          Progress(s.records.payments[i], u.records.payments[i], r))
  }

  /** No open payment of the event was refunded beyond its refundable part. */
  ghost predicate PartsOpen(s: State, e: Symbol, r: Bps) {
    forall i :: i in s.records.payments && s.records.payments[i].event == e && s.records.payments[i].privacy == Standard
                && Open(s.records.payments[i]) ==>
      s.records.payments[i].refunded <= Portion(s.records.payments[i].amount, 10_000 - r)
  }

  /** The cancelled event, whatever was refunded of payments now closed. */
  ghost predicate OpenEra(s: State, e: Symbol, r: Bps, t: Address) { Ongoing(s, e, r, t) && PartsOpen(s, e, r) }

  lemma EraIsOpen(s: State, e: Symbol, r: Bps, t: Address)
    requires InEra(s, e, r, t)
    ensures OpenEra(s, e, r, t)
  {
    hide Inv, CancelledAt, Portion;
  }

  lemma PartOpen(s: State, id: nat, e: Symbol, r: Bps)
    requires PartsOpen(s, e, r) && id in s.records.payments && s.records.payments[id].event == e
    requires s.records.payments[id].privacy == Standard && Open(s.records.payments[id])
    ensures s.records.payments[id].refunded <= Portion(s.records.payments[id].amount, 10_000 - r)
  {
  }

  lemma SameProgress(s: State, u: State, e: Symbol, r: Bps)
    requires SameRefunds(s, u, e)
    ensures Progresses(s, u, e, r)
  {
    hide Portion;
  }

  lemma RewrittenProgress(s: State, u: State, id: nat, q: Payment, e: Symbol, r: Bps)
    requires id in s.records.payments && u.records.payments == s.records.payments[id := q]
    requires SamePayment(s.records.payments[id], q) && (q.event == e ==> Progress(s.records.payments[id], q, r))
    ensures Progresses(s, u, e, r)
  {
    hide Portion;
  }

  lemma PayProgress(s: State, p: PaymentParams, e: Symbol, r: Bps, t: Address)
    requires Ongoing(s, e, r, t)
    ensures Progresses(s, After(s, DoPay(p)), e, r)
  {
    hide BooksOk, DisputesOk, SplitsOk, OwnersOk, RecordsOk, CheckPrivacy, CheckSupply, NonceUsed, Remember, AddToken,
         Money.Deposit, Money.CanReceive, OwnerIndex.Add, Portion;
    NextNumber(s.records);
  }

  lemma RefundProgress(s: State, op: Op, e: Symbol, r: Bps, t: Address)
    requires OpenEra(s, e, r, t) && (op.DoRefund? || op.DoClaimRefund? || op.DoPostponementRefund?)
    ensures Progresses(s, After(s, op), e, r)
  {
    hide BooksOk, DisputesOk, SplitsOk, OwnersOk, RecordsOk, Money.Refund, Money.CanSend, Portion, PaidOut, SameSales, Progresses;
    if Step(s, op).Ok? {
      var u := After(s, op);
      var id := if op.DoPostponementRefund? then s.records.tickets[op.ticket].payment else op.payment;
      var p := s.records.payments[id];
      RefundedInRange(s.records, id);
      PortionBounds(p.amount, 10_000 - r);
      hide Progress;
      if p.event == e { RefundIsProgress(s, op, id, e, r, t); }
      RewrittenProgress(s, u, id, u.records.payments[id], e, r);
    } else {
      RefundsSelf(s, e);
      SameProgress(s, s, e, r);
    }
  }

  lemma RefundIsProgress(s: State, op: Op, id: nat, e: Symbol, r: Bps, t: Address)
    requires OpenEra(s, e, r, t) && (op.DoRefund? || op.DoClaimRefund? || op.DoPostponementRefund?) && Step(s, op).Ok?
    requires op.DoPostponementRefund? ==> op.ticket in s.records.tickets && id == s.records.tickets[op.ticket].payment
    requires !op.DoPostponementRefund? ==> id == op.payment
    requires id in s.records.payments && s.records.payments[id].event == e
    ensures id in After(s, op).records.payments && Progress(s.records.payments[id], After(s, op).records.payments[id], r)
  {
    hide BooksOk, DisputesOk, SplitsOk, OwnersOk, RecordsOk, Money.Refund, Money.CanSend, Portion, PaidOut, SameSales;
    RefundedInRange(s.records, id);
    PortionBounds(s.records.payments[id].amount, 10_000 - r);
    if s.records.payments[id].privacy == Standard && s.records.payments[id].status == Held { PartOpen(s, id, e, r); }
    hide PartsOpen;
  }

  lemma DisputeProgress(s: State, op: Op, e: Symbol, r: Bps, t: Address)
    requires Ongoing(s, e, r, t) && Allowed(s, op, e) && (op.DoRaise? || op.DoApprove? || op.DoReject?)
    ensures Progresses(s, After(s, op), e, r)
  {
    hide BooksOk, SplitsOk, OwnersOk, RecordsOk, ListOk, Money.WithRevenue, Money.Revenue, Money.Refund, Money.CanSend,
         Portion, Without, Expired, SameSales, Progresses;
    if Step(s, op).Ok? {
      var u := After(s, op);
      var id := if op.DoRaise? then s.records.tickets[op.ticket].payment else s.disputes.records[op.ticket].payment;
      RewrittenProgress(s, u, id, u.records.payments[id], e, r);
    } else {
      RefundsSelf(s, e);
      SameProgress(s, s, e, r);
    }
  }

  /** Every allowed operation. */
  lemma StepProgress(s: State, op: Op, e: Symbol, r: Bps, t: Address)
    requires OpenEra(s, e, r, t) && Allowed(s, op, e)
    ensures Progresses(s, After(s, op), e, r)
  {
    hide Ongoing, PartsOpen, After, SameRefunds, Progresses, Allowed;
    if op.DoPay? {
      PayProgress(s, op.params, e, r, t);
    } else if op.DoRefund? || op.DoClaimRefund? || op.DoPostponementRefund? {
      RefundProgress(s, op, e, r, t);
    } else if op.DoRaise? || op.DoApprove? || op.DoReject? {
      DisputeProgress(s, op, e, r, t);
    } else {
      if op.DoTimeouts? {
        TimeoutsRefunds(s, op.event, e);
        TimeoutsIs(s, op.event);
      } else {
        OtherPaymentsStep(s, op, e, r, t);
      }
      SameProgress(s, After(s, op), e, r);
    }
  }

  // ---- What is refunded or can still be ----

  /** What a payment has taken or can still take back: all of its refundable part while it is open, then what was refunded. */
  ghost const TAKEN: Bps -> Payment -> int := (r: Bps) => (p: Payment) =>
    if p.privacy == Standard && Open(p) then Portion(p.amount, 10_000 - r) else p.refunded

  ghost function Taken(s: State, e: Symbol, r: Bps, t: Address): int { Tally(s.records.payments, e, t, TAKEN(r)) }

  /** A payment is closed only with its refundable part. */
  ghost predicate Finished(s: State, e: Symbol, r: Bps) {
    forall i :: i in s.records.payments && s.records.payments[i].event == e && s.records.payments[i].status == Refunded ==>
      s.records.payments[i].refunded == Portion(s.records.payments[i].amount, 10_000 - r)
  }

  lemma ProgressFinished(s: State, u: State, e: Symbol, r: Bps)
    requires Progresses(s, u, e, r) && Finished(s, e, r)
    ensures Finished(u, e, r)
  {
    hide Portion;
  }

  lemma ProgressOne(p: Payment, q: Payment, r: Bps)
    requires Progress(p, q, r) && SamePayment(p, q)
    ensures TAKEN(r)(q) <= TAKEN(r)(p)
  {
    hide Portion;
  }

  /** Nothing new can be taken. */
  lemma ProgressTaken(s: State, u: State, e: Symbol, r: Bps, t: Address)
    requires Progresses(s, u, e, r)
    ensures Taken(u, e, r, t) <= Taken(s, e, r, t)
  {
    hide Sum, Portion, Progress;
    var (m, n) := (Part(u.records.payments, e, t, TAKEN(r)), Part(s.records.payments, e, t, TAKEN(r)));
    forall i | i in m ensures i in n && m[i] <= n[i] { ProgressOne(s.records.payments[i], u.records.payments[i], r); }
    assert m.Keys == n.Keys;
    SumMono(m, n);
  }

  lemma ProgressOpen(s: State, u: State, e: Symbol, r: Bps)
    requires PartsOpen(s, e, r) && Progresses(s, u, e, r)
    ensures PartsOpen(u, e, r)
  {
    hide Portion;
  }

  lemma RefundedTaken(s: State, e: Symbol, r: Bps, t: Address)
    requires PartsOpen(s, e, r)
    ensures Tally(s.records.payments, e, t, REFUNDED) <= Taken(s, e, r, t)
  {
    hide Sum, Portion;
    SumMono(Part(s.records.payments, e, t, REFUNDED), Part(s.records.payments, e, t, TAKEN(r)));
  }

  /** What was refunded is taken, and what is taken is refundable. */
  lemma TakenBetween(s: State, e: Symbol, r: Bps, t: Address)
    requires Inv(s) && Capped(s, e, r)
    ensures Tally(s.records.payments, e, t, REFUNDED) <= Taken(s, e, r, t) <= Refundable(s.records.payments, e, t, r)
  {
    hide Inv, Sum, Portion;
    SumMono(Part(s.records.payments, e, t, REFUNDED), Part(s.records.payments, e, t, TAKEN(r)));
    SumMono(Part(s.records.payments, e, t, TAKEN(r)), Part(s.records.payments, e, t, CAP(r)));
  }

  // ---- Paid out or owed ----

  /** The platform fee of a resale of the event's tickets. */
  function ResaleFee(s: State, op: Op, e: Symbol, t: Address): int {
    if !op.DoBuy? || Step(s, op).Err? || op.ticket !in s.listings || op.ticket !in s.records.tickets then 0
    else
      var price := s.listings[op.ticket].price;
      if price <= 0 || s.records.tickets[op.ticket].event != e || e !in s.events.config
         || s.events.config[e].payoutToken != t then 0
      else PlatformFee(price, s.globals.feeBps)
  }

  lemma {:induction false} DrainBooks(m: Money, f: Symbol, to: Address, tokens: seq<Address>, e: Symbol, t: Address)
    requires Drain(m, f, to, tokens).Ok?
    ensures var n := Drain(m, f, to, tokens).value.money;
      n.platform == m.platform && (f != e ==> n.BookOf(e, t) == m.BookOf(e, t))
  {
    hide Money.CanSend;
    if tokens != [] { DrainBooks(m, f, to, tokens[..|tokens| - 1], e, t); }
  }

  /** Platform fees stay non-negative; outside event `f` they and the withdrawals stay as they are. */
  ghost predicate BooksApart(s: State, u: State, f: Symbol, e: Symbol, t: Address) {
    && (At(s.money.platform, e) >= 0 ==> At(u.money.platform, e) >= 0)
    && u.globals.acceptedToken == s.globals.acceptedToken
    && (f != e ==> At(u.money.platform, e) == At(s.money.platform, e)
                   && u.money.BookOf(e, t).withdrawn == s.money.BookOf(e, t).withdrawn)
  }

  lemma PaidApart(s: State, v: State, u: State, f: Symbol, x: Address, to: Address, a: int, left: int, fee: int, e: Symbol, t: Address)
    requires v.money.platform == s.money.platform && v.money.BookOf(e, t).withdrawn == s.money.BookOf(e, t).withdrawn
    requires u.globals.acceptedToken == s.globals.acceptedToken && u.money == v.money.Payout(f, x, to, a, left).Collect(f, fee)
    ensures BooksApart(s, u, f, e, t)
  {
  }

  lemma WithdrawApart(s: State, o: Address, f: Symbol, e: Symbol, t: Address)
    requires Withdraw(s, o, f).Ok?
    ensures BooksApart(s, Withdraw(s, o, f).value, f, e, t)
  {
    hide Validate, PayoutRatio, Gross, RevenueLeft, PlatformFee, Money.CanSend, BooksApart, Money.Payout, Money.Collect;
    var v := Validate(s, f).value;
    ValidateBooks(s, f);
    ValidateBalance(s, f);
    var (c, ratio) := (v.events.config[f], PayoutRatio(s, f).value);
    var gross := Gross(v, f, c.payoutToken, ratio);
    var fee := PlatformFee(gross, v.globals.feeBps);
    PaidApart(s, v, Withdraw(s, o, f).value, f, c.payoutToken, c.organizer, gross - fee,
              RevenueLeft(v, f, c.payoutToken, ratio, gross), fee, e, t);
  }

  lemma WithdrawRevenueApart(s: State, to: Address, f: Symbol, e: Symbol, t: Address)
    requires WithdrawRevenue(s, f, to).Ok?
    ensures BooksApart(s, WithdrawRevenue(s, f, to).value, f, e, t)
  {
    hide Validate, PlatformFee, Money.CanSend, BooksApart, Money.Payout, Money.Collect, Money.Revenue;
    var v := Validate(s, f).value;
    ValidateBooks(s, f);
    ValidateBalance(s, f);
    var revenue := v.money.Revenue(f, v.globals.acceptedToken);
    var fee := PlatformFee(revenue, v.globals.feeBps);
    PaidApart(s, v, WithdrawRevenue(s, f, to).value, f, v.globals.acceptedToken, to, revenue - fee, 0, fee, e, t);
  }

  lemma DrainsApart(s: State, o: Address, f: Symbol, x: Address, e: Symbol, t: Address)
    ensures ReleaseIfExpired(s, f).Ok? ==> BooksApart(s, ReleaseIfExpired(s, f).value, f, e, t)
    ensures WithdrawAllTokens(s, o, f).Ok? ==> BooksApart(s, WithdrawAllTokens(s, o, f).value, f, e, t)
    ensures WithdrawToken(s, o, f, x).Ok? ==> BooksApart(s, WithdrawToken(s, o, f, x).value, f, e, t)
  {
    hide Validate, Drain, Money.CanSend;
    if Validate(s, f).Ok? {
      var v := Validate(s, f).value;
      ValidateBooks(s, f);
      ValidateBalance(s, f);
      if ReleaseIfExpired(s, f).Ok? { DrainBooks(v.money, f, s.events.meta[f].organizer, v.TokensOf(f), e, t); }
      if WithdrawAllTokens(s, o, f).Ok? { DrainBooks(v.money, f, o, v.TokensOf(f), e, t); }
    }
  }

  lemma SettlingApart(s: State, f: Symbol, e: Symbol, t: Address)
    requires EnsureSettled(s, f).Ok?
    ensures BooksApart(s, EnsureSettled(s, f).value, f, e, t)
    ensures EnsureSettled(s, f).value.money.BookOf(e, t).withdrawn == s.money.BookOf(e, t).withdrawn
    ensures f in s.split.settled ==> EnsureSettled(s, f).value == s
  {
    hide Validate, PayoutRatio, Gross, RevenueLeft, PlatformFee;
    if f !in s.split.settled {
      ValidateBooks(s, f);
      ValidateBalance(s, f);
    }
  }

  lemma ShareApart(s: State, f: Symbol, who: Address, to: Address, e: Symbol, t: Address)
    requires f in s.split.settled && PayShare(s, f, who, to).Ok?
    ensures BooksApart(s, PayShare(s, f, who, to).value, f, e, t)
  {
    hide ShareOf, Money.CanSend;
  }

  lemma BuyFees(s: State, b: Address, tid: nat, x: bool, e: Symbol, t: Address)
    requires BuyResale(s, b, tid, x).Ok?
    ensures var u := BuyResale(s, b, tid, x).value;
      && u.money.BookOf(e, t).withdrawn == s.money.BookOf(e, t).withdrawn && u.globals == s.globals
      && At(u.money.platform, e) == At(s.money.platform, e)
           + (if s.records.tickets[tid].event == e && s.listings[tid].price > 0
              then PlatformFee(s.listings[tid].price, s.globals.feeBps) else 0)
      && At(u.money.platform, e) >= At(s.money.platform, e)
  {
    hide Proceeds, PlatformFee, Money.CanSend, Money.CanReceive, OwnerIndex.Add, OwnerIndex.RemoveCounted, Portion;
    if s.listings[tid].price > 0 { FeeWithinGross(s.listings[tid].price, s.globals.feeBps); }
  }

  lemma ApartThen(s: State, u: State, v: State, f: Symbol, e: Symbol, t: Address)
    requires BooksApart(s, u, f, e, t) && BooksApart(u, v, f, e, t)
    ensures BooksApart(s, v, f, e, t)
  {
  }

  lemma SplitApart(s: State, op: Op, e: Symbol, t: Address)
    requires (op.DoWithdrawSplit? || op.DoResolve?) && Step(s, op).Ok?
    ensures BooksApart(s, After(s, op), op.event, e, t)
  {
    hide EnsureSettled, PayShare, BpsOf, BooksApart;
    var f := op.event;
    if op.DoResolve? && op.release {
      SameApart(s, After(s, op), f, e, t);
    } else {
      var u := EnsureSettled(s, f).value;
      var to := if op.DoWithdrawSplit? then op.recipient else s.SplitsOf(f)[0].recipient;
      SettlingApart(s, f, e, t);
      ShareApart(u, f, op.recipient, to, e, t);
      var v := PayShare(u, f, op.recipient, to).value;
      ApartThen(s, u, v, f, e, t);
      SameApart(v, After(s, op), f, e, t);
      ApartThen(s, v, After(s, op), f, e, t);
    }
  }

  lemma SameApart(s: State, u: State, f: Symbol, e: Symbol, t: Address)
    requires u.money == s.money && u.globals == s.globals
    ensures BooksApart(s, u, f, e, t)
  {
  }

  lemma PayoutsApart(s: State, op: Op, e: Symbol, t: Address)
    requires !PayoutFree(op) && !op.DoBuy? && Step(s, op).Ok?
    ensures BooksApart(s, After(s, op), op.event, e, t)
  {
    hide BooksApart, Withdraw, WithdrawRevenue, ReleaseIfExpired, WithdrawToken, WithdrawAllTokens, WithdrawSplit, ResolveFlagged;
    match op
    case DoWithdraw(o, f) => WithdrawApart(s, o, f, e, t);
    case DoWithdrawRevenue(f, to) => WithdrawRevenueApart(s, to, f, e, t);
    case DoRelease(f) => DrainsApart(s, 0, f, 0, e, t);
    case DoWithdrawToken(o, f, x) => DrainsApart(s, o, f, x, e, t);
    case DoWithdrawAll(o, f) => DrainsApart(s, o, f, 0, e, t);
    case _ => SplitApart(s, op, e, t);
  }

  // ---- Platform fees are never negative ----

  lemma TimeoutsFees(s: State, f: Symbol)
    ensures Timeouts(s, f).money.platform == s.money.platform
  {
    hide ExpireList, AnyExpired, Remaining;
    ExpireListBooks(s, f, s.ListOf(f));
  }

  lemma QuietFees(s: State, op: Op, e: Symbol)
    requires PayoutFree(op) && Step(s, op).Ok? && At(s.money.platform, e) >= 0
    ensures At(After(s, op).money.platform, e) >= 0
  {
    hide SetupStep, Pay, AdminRefund, ClaimRefund, PostponementRefund, RaiseDispute, ApproveRefund, RejectDispute, Timeouts,
         WithdrawPlatformRevenue, SyncSplits, FlagCohost, ResolveFlagged;
    match op
    case DoSetup(x) => SetupPayments(s, x);
    case DoTimeouts(f) => TimeoutsFees(s, f);
    case DoWithdrawPlatform(f) => PlatformFees(s, f, e);
    case DoPay(p) => PayKeepsBooks(s, p, e, 0);
    case DoRefund(a, id, x) => RefundsKeepBooks(s, a, id, x, e, 0);
    case DoClaimRefund(p, id) => RefundsKeepBooks(s, p, id, None, e, 0);
    case DoPostponementRefund(c, id) => RefundsKeepBooks(s, c, id, None, e, 0);
    case DoRaise(id, r, b) => DisputesKeepBooks(s, id, r, b, e, 0);
    case DoApprove(id) => DisputesKeepBooks(s, id, 0, false, e, 0);
    case DoReject(id) => DisputesKeepBooks(s, id, 0, false, e, 0);
    case DoAdvance(l, d) =>
    case _ => QuietSplitMoney(s, op);
  }

  lemma QuietSplitMoney(s: State, op: Op)
    requires op.DoSyncSplits? || op.DoFlag? || (op.DoResolve? && op.release)
    ensures After(s, op).money == s.money
  {
    hide WellFormed, BpsOf;
  }

  lemma PlatformFees(s: State, f: Symbol, e: Symbol)
    requires WithdrawPlatformRevenue(s, f).Ok? && At(s.money.platform, e) >= 0
    ensures At(WithdrawPlatformRevenue(s, f).value.money.platform, e) >= 0
  {
    hide Money.CanSend;
  }

  lemma {:induction false} FeesNonNegative(s: State, ops: seq<Op>, e: Symbol)
    requires Deployed(s)
    ensures At(Run(s, ops).money.platform, e) >= 0
  {
    hide Deployed, Step, PayoutFree;
    if ops == [] {
      assert At(s.money.platform, e) == 0 by { NoFees(s, e); }
    } else {
      var (u, op) := (Run(s, ops[..|ops| - 1]), ops[|ops| - 1]);
      FeesNonNegative(s, ops[..|ops| - 1], e);
      if Step(u, op).Ok? { FeesStep(u, op, e); }
    }
  }

  lemma NoFees(s: State, e: Symbol)
    requires Deployed(s)
    ensures At(s.money.platform, e) == 0
  {
  }

  lemma FeesStep(s: State, op: Op, e: Symbol)
    requires Step(s, op).Ok? && At(s.money.platform, e) >= 0
    ensures At(After(s, op).money.platform, e) >= 0
  {
    if PayoutFree(op) {
      hide Step, PayoutFree, After;
      QuietFees(s, op, e);
    } else if op.DoBuy? {
      hide BuyResale;
      BuyFees(s, op.buyer, op.ticket, op.external, e, 0);
    } else {
      hide Step, PayoutFree, After;
      PayoutsApart(s, op, e, 0);
    }
  }

  // ---- Commitments of the cancelled event ----

  lemma CommittedIs(s: State, u: State, e: Symbol, t: Address)
    requires u.split.settled == s.split.settled && PaidTotal(u, e) == PaidTotal(s, e)
    requires u.globals.acceptedToken == s.globals.acceptedToken == t
    ensures Committed(u, e, t) - Committed(s, e, t)
      == u.money.BookOf(e, t).withdrawn - s.money.BookOf(e, t).withdrawn + At(u.money.platform, e) - At(s.money.platform, e)
  {
    hide PaidTotal, Money.BookOf;
  }

  /** Operations other than split settlement, which change nothing about splits. */
  lemma PayoutCommitted(s: State, op: Op, e: Symbol, r: Bps, t: Address)
    requires OpenEra(s, e, r, t) && Allowed(s, op, e) && t == s.globals.acceptedToken && Step(s, op).Ok?
    requires !PayoutFree(op) && !op.DoBuy? && !op.DoWithdrawSplit? && !op.DoResolve?
    ensures Committed(After(s, op), e, t) == Committed(s, e, t) + Settlements(s, op, e, t)
  {
    hide Inv, PartsOpen, PaidTotal, Money.BookOf, After, Committed;
    PayoutsApart(s, op, e, t);
    OthersKeepSplit(s, op);
    assert PaidTotal(After(s, op), e) == PaidTotal(s, e) by { SamePaid(s, After(s, op), e); }
    CommittedIs(s, After(s, op), e, t);
    hide Step;
    if op.event == e && !op.DoWithdraw? { CancelledDrainsNothing(s, op, e, r, t); }
  }

  lemma SamePaid(s: State, u: State, e: Symbol)
    requires u.split == s.split
    ensures PaidTotal(u, e) == PaidTotal(s, e)
  {
  }

  lemma CancelledDrainsNothing(s: State, op: Op, e: Symbol, r: Bps, t: Address)
    requires CancelledAt(s, e, r, t) && Allowed(s, op, e)
    requires op.DoWithdrawRevenue? || op.DoRelease? || op.DoWithdrawToken? || op.DoWithdrawAll?
    ensures op.event == e ==> Step(s, op).Err?
  {
    hide Validate, Drain;
  }

  /** Freezing the split commits the net amount and the fee. */
  lemma SettlingCommitted(s: State, f: Symbol, e: Symbol, t: Address)
    requires Inv(s) && TokensOk(s) && EnsureSettled(s, f).Ok? && f in s.split.splits && t == s.globals.acceptedToken
    ensures var u := EnsureSettled(s, f).value;
      Committed(u, e, t) == Committed(s, e, t) + if f == e && e !in s.split.settled
        then u.split.settled[e].net + At(u.money.platform, e) - At(s.money.platform, e) else 0
  {
    hide RecordsOk, BooksOk, DisputesOk, OwnersOk, SettledOk, SplitOk, EnsureSettled, PaidSum, Money.BookOf;
    var u := EnsureSettled(s, f).value;
    SettlingApart(s, f, e, t);
    SettledBalance(s, f);
    SettleMoves(s, f);
    SettledToken(s, f);
    PaidSumEmpty(s.SplitsOf(e));
  }

  lemma SettledToken(s: State, f: Symbol)
    requires TokensOk(s) && EnsureSettled(s, f).Ok?
    ensures EnsureSettled(s, f).value.split.settled[f].token == s.globals.acceptedToken
  {
    hide EnsureSettled, SameTokens;
    EnsureTokens(s, f);
    TokensKept(s, EnsureSettled(s, f).value);
    AcceptedKept(s, EnsureSettled(s, f).value);
  }

  lemma AcceptedKept(s: State, u: State)
    requires SameTokens(s, u)
    ensures u.globals.acceptedToken == s.globals.acceptedToken
  {
  }

  /** A share moves from owed to paid out. */
  lemma ShareCommitted(s: State, f: Symbol, who: Address, to: Address, e: Symbol, t: Address)
    requires Inv(s) && f in s.split.settled && PayShare(s, f, who, to).Ok?
    requires BpsOf(s.SplitsOf(f), who).Some? && !WasPaid(s, f, who)
    ensures Committed(PayShare(s, f, who, to).value, e, t) == Committed(s, e, t)
  {
    hide Inv, PaidSum, BpsOf, ShareOf;
    SharePaid(s, f, who, to);
  }

  lemma SplitCommitted(s: State, op: Op, e: Symbol, r: Bps, t: Address)
    requires OpenEra(s, e, r, t) && TokensOk(s) && t == s.globals.acceptedToken && Step(s, op).Ok?
    requires op.DoWithdrawSplit? || (op.DoResolve? && !op.release)
    ensures Committed(After(s, op), e, t) == Committed(s, e, t) + Settlements(s, op, e, t)
  {
    hide Inv, PartsOpen, CancelledAt, TokensOk, Committed, EnsureSettled, PayShare, BpsOf, ShareOf;
    var f := op.event;
    var u := EnsureSettled(s, f).value;
    var to := if op.DoWithdrawSplit? then op.recipient else s.SplitsOf(f)[0].recipient;
    SettleMoves(s, f);
    SettledBalance(s, f);
    SettlingCommitted(s, f, e, t);
    ShareCommitted(u, f, op.recipient, to, e, t);
    var v := PayShare(u, f, op.recipient, to).value;
    SharePlatform(u, f, op.recipient, to);
    if op.DoResolve? { UnflagCommitted(v, v.split.flagged - {(f, op.recipient)}, e, t); }
  }

  lemma UnflagCommitted(s: State, flagged: set<(Symbol, Address)>, e: Symbol, t: Address)
    ensures Committed(s.(split := s.split.(flagged := flagged)), e, t) == Committed(s, e, t)
  {
    hide PaidSum;
  }

  lemma BuyCommitted(s: State, op: Op, e: Symbol, t: Address)
    requires op.DoBuy? && Step(s, op).Ok? && TokensOk(s) && t == s.globals.acceptedToken
    ensures Committed(After(s, op), e, t) == Committed(s, e, t) + ResaleFee(s, op, e, t)
  {
    hide PaidTotal, Money.BookOf, PlatformFee, Trade, MoveTicket;
    OthersKeepSplit(s, op);
    SamePaid(s, After(s, op), e);
    BuyFees(s, op.buyer, op.ticket, op.external, e, t);
    hide BuyResale, Committed;
    CommittedIs(s, After(s, op), e, t);
  }

  /** What is paid out or owed grows by the settlement and by resale fees, and by nothing else. */
  lemma CommittedStep(s: State, op: Op, e: Symbol, r: Bps, t: Address)
    requires OpenEra(s, e, r, t) && TokensOk(s) && t == s.globals.acceptedToken && Allowed(s, op, e)
    ensures Committed(After(s, op), e, t) == Committed(s, e, t) + Settlements(s, op, e, t) + ResaleFee(s, op, e, t)
  {
    hide Inv, PartsOpen, CancelledAt, TokensOk, Committed, Step, After, Allowed;
    if Step(s, op).Err? {
      assert After(s, op) == s by { FailedStep(s, op); }
    } else if PayoutFree(op) {
      QuietOut(s, op, e, t);
      QuietSettlesNothing(s, op, e);
    } else if op.DoBuy? {
      BuyCommitted(s, op, e, t);
      OthersSettleNothing(s, op, e);
    } else if op.DoWithdrawSplit? || op.DoResolve? {
      SplitCommitted(s, op, e, r, t);
    } else {
      PayoutCommitted(s, op, e, r, t);
    }
  }

  lemma FailedStep(s: State, op: Op)
    requires Step(s, op).Err?
    ensures After(s, op) == s
  {
  }

  lemma QuietSettlesNothing(s: State, op: Op, e: Symbol)
    requires Inv(s) && PayoutFree(op) && Allowed(s, op, e)
    ensures e in After(s, op).split.settled <==> e in s.split.settled
  {
    if op.DoResolve? {
      hide Inv, BpsOf;
    } else {
      hide Inv, After, Allowed;
      OthersSettleNothing(s, op, e);
    }
  }

  // ---- Covered or not ----

  /** Refunds, open refundable parts and everything paid out or owed fit into the volume. */
  ghost predicate Covered(s: State, e: Symbol, r: Bps, t: Address) {
    Taken(s, e, r, t) + Committed(s, e, t) <= s.money.BookOf(e, t).volume
  }

  /** An operation that neither settles the event nor pays anybody out. */
  ghost predicate AllLater(s: State, ops: seq<Op>, e: Symbol) {
    AllAllowed(s, ops, e) && forall k :: 0 <= k < |ops| ==> PayoutFree(ops[k])
  }

  lemma OpenEraStep(s: State, op: Op, e: Symbol, r: Bps, t: Address)
    requires OpenEra(s, e, r, t) && Allowed(s, op, e)
    ensures OpenEra(After(s, op), e, r, t)
  {
    hide Inv, PartsOpen, After, Allowed, Progresses, Surplus, Total;
    StepKeeps(s, op, t);
    StepProgress(s, op, e, r, t);
    ProgressOpen(s, After(s, op), e, r);
    EventStep(s, op, e, r, t);
  }

  lemma VolumeStep(s: State, u: State, e: Symbol, t: Address)
    requires Inv(s) && Inv(u) && SameSales(s, u, e)
    ensures u.money.BookOf(e, t).volume == s.money.BookOf(e, t).volume
  {
    hide Inv, SameSales, Tally, Money.BookOf;
    BooksAre(s, e, t);
    BooksAre(u, e, t);
    SameSalesTally(s, u, e, t);
  }

  lemma AllowedBefore(s: State, ops: seq<Op>, e: Symbol)
    requires AllAllowed(s, ops, e) && ops != []
    ensures AllAllowed(s, ops[..|ops| - 1], e) && Allowed(Run(s, ops[..|ops| - 1]), ops[|ops| - 1], e)
  {
    hide Allowed, Run;
    var init := ops[..|ops| - 1];
    forall k | 0 <= k < |init| ensures Allowed(Run(s, init[..k]), init[k], e) {
      assert init[..k] == ops[..k] && Allowed(Run(s, ops[..k]), ops[k], e);
    }
    assert Allowed(Run(s, ops[..|ops| - 1]), ops[|ops| - 1], e);
  }

  lemma {:induction false} LaterRun(s: State, ops: seq<Op>, e: Symbol, r: Bps, t: Address)
    requires OpenEra(s, e, r, t) && AllLater(s, ops, e)
    ensures var u := Run(s, ops);
      && OpenEra(u, e, r, t) && Taken(u, e, r, t) <= Taken(s, e, r, t) && Committed(u, e, t) == Committed(s, e, t)
      && u.money.BookOf(e, t).volume == s.money.BookOf(e, t).volume
  {
    hide Inv, CancelledAt, PartsOpen, After, Taken, Committed, AllAllowed, Allowed, Money.BookOf, Progress, PayoutFree;
    if ops != [] {
      var init := ops[..|ops| - 1];
      AllowedBefore(s, ops, e);
      LaterRun(s, init, e, r, t);
      var (v, op) := (Run(s, init), ops[|ops| - 1]);
      OpenEraStep(v, op, e, r, t);
      StepProgress(v, op, e, r, t);
      ProgressTaken(v, After(v, op), e, r, t);
      QuietOut(v, op, e, t);
      VolumeStep(v, After(v, op), e, t);
    }
  }

  // ---- Everybody claims ----

  /** The held payments whose refundable part is not yet refunded. */
  ghost function Claimable(s: State, e: Symbol, r: Bps, t: Address): set<nat> {
    set i | i in s.records.payments && s.records.payments[i].event == e && s.records.payments[i].token == t
            && s.records.payments[i].privacy == Standard && s.records.payments[i].status == Held
            && s.records.payments[i].refunded < Portion(s.records.payments[i].amount, 10_000 - r)
  }

  ghost const PART: Bps -> Payment -> int := (r: Bps) => (p: Payment) => TAKEN(r)(p) - p.refunded

  /** What can still be claimed. */
  ghost function OpenParts(s: State, e: Symbol, r: Bps, t: Address): int { Tally(s.records.payments, e, t, PART(r)) }

  lemma OpenPartsAre(s: State, e: Symbol, r: Bps, t: Address)
    requires Inv(s)
    ensures OpenParts(s, e, r, t) == Taken(s, e, r, t) - s.money.BookOf(e, t).refunds
  {
    hide Inv, Tally, Money.BookOf;
    BooksAre(s, e, t);
    TallyDifference(s.records.payments, e, t, PART(r), TAKEN(r), REFUNDED);
  }

  lemma OpenPartsBound(s: State, id: nat, e: Symbol, r: Bps, t: Address)
    requires PartsOpen(s, e, r) && id in s.records.payments && s.records.payments[id].event == e && s.records.payments[id].token == t
    ensures OpenParts(s, e, r, t) >= PART(r)(s.records.payments[id]) >= 0
  {
    hide Sum, Portion;
    SumBounds(Part(s.records.payments, e, t, PART(r)), id);
  }

  lemma NothingClaimable(s: State, e: Symbol, r: Bps, t: Address)
    requires Inv(s) && PartsOpen(s, e, r) && s.ListOf(e) == [] && Claimable(s, e, r, t) == {}
    ensures OpenParts(s, e, r, t) == 0
  {
    hide RecordsOk, BooksOk, SplitsOk, OwnersOk, Sum, Portion;
    var m := Part(s.records.payments, e, t, PART(r));
    assert ListOk(s.disputes, e);
    forall i | i in m ensures m[i] == 0 {
      assert i !in Claimable(s, e, r, t);
      assert i in s.disputes.records ==> i in s.ListOf(e);
    }
    SumZero(m);
  }

  lemma {:induction false} SumZero(m: map<nat, int>)
    requires forall i :: i in m ==> m[i] == 0
    ensures Sum(m) == 0
    decreases |m|
  {
    if m != map[] {
      var k :| k in m && Sum(m) == m[k] + Sum(m - {k});
      assert |m - {k}| < |m| by { assert (m - {k}).Keys == m.Keys - {k}; }
      SumZero(m - {k});
    }
  }

  /** A payment closed with its refundable part. */
  ghost predicate Closes(s: State, u: State, id: nat, e: Symbol, r: Bps, t: Address) {
    && id in Claimable(s, e, r, t)
    && var p := s.records.payments[id];
      u.records.payments == s.records.payments[id := p.(refunded := Portion(p.amount, 10_000 - r), status := Refunded)]
  }

  lemma ClosesOne(s: State, u: State, id: nat, e: Symbol, r: Bps, t: Address)
    requires Closes(s, u, id, e, r, t)
    ensures Claimable(u, e, r, t) == Claimable(s, e, r, t) - {id}
  {
    hide Portion;
  }

  lemma PartClosed(p: Payment, r: Bps)
    requires p.privacy == Standard && p.status == Held
    ensures var q := p.(refunded := Portion(p.amount, 10_000 - r), status := Refunded);
      TAKEN(r)(q) == TAKEN(r)(p) && PART(r)(q) == 0
  {
    hide Portion;
  }

  lemma ClosesTally(s: State, u: State, id: nat, e: Symbol, r: Bps, t: Address, f: Payment -> int)
    requires Closes(s, u, id, e, r, t)
    ensures Tally(u.records.payments, e, t, f)
      == Tally(s.records.payments, e, t, f) - f(s.records.payments[id]) + f(u.records.payments[id])
  {
    hide Tally, Portion;
    TallyChange(s.records.payments, id, u.records.payments[id], e, t, f);
  }

  lemma ClosesParts(s: State, u: State, id: nat, e: Symbol, r: Bps, t: Address)
    requires Closes(s, u, id, e, r, t)
    ensures Taken(u, e, r, t) == Taken(s, e, r, t)
    ensures OpenParts(u, e, r, t) == OpenParts(s, e, r, t) - PART(r)(s.records.payments[id])
  {
    hide Tally, Portion;
    PartClosed(s.records.payments[id], r);
    ClosesTally(s, u, id, e, r, t, TAKEN(r));
    ClosesTally(s, u, id, e, r, t, PART(r));
  }

  lemma SameTaken(s: State, u: State, e: Symbol, r: Bps, t: Address)
    requires SameRefunds(s, u, e)
    ensures Taken(u, e, r, t) == Taken(s, e, r, t)
  {
    hide Sum, Portion;
    assert Part(u.records.payments, e, t, TAKEN(r)) == Part(s.records.payments, e, t, TAKEN(r));
  }

  lemma RefundedSame(s: State, u: State, e: Symbol, t: Address)
    requires SameRefunds(s, u, e)
    ensures Tally(u.records.payments, e, t, REFUNDED) == Tally(s.records.payments, e, t, REFUNDED)
  {
    hide Sum;
    assert Part(u.records.payments, e, t, REFUNDED) == Part(s.records.payments, e, t, REFUNDED);
  }

  lemma OpenPartsSame(s: State, u: State, e: Symbol, r: Bps, t: Address)
    requires SameRefunds(s, u, e)
    ensures OpenParts(u, e, r, t) == OpenParts(s, e, r, t)
  {
    hide Tally, SameRefunds;
    SameTaken(s, u, e, r, t);
    RefundedSame(s, u, e, t);
    TallyDifference(s.records.payments, e, t, PART(r), TAKEN(r), REFUNDED);
    TallyDifference(u.records.payments, e, t, PART(r), TAKEN(r), REFUNDED);
  }

  /** One claim. */
  lemma ClaimOne(s: State, id: nat, e: Symbol, r: Bps, t: Address)
    requires OpenEra(s, e, r, t) && s.ListOf(e) == [] && id in Claimable(s, e, r, t)
    requires OpenParts(s, e, r, t) <= At(s.money.balance, t)
    ensures id in s.records.payments && s.records.payments[id].payer.Some?
    ensures var u := After(s, DoClaimRefund(s.records.payments[id].payer.value, id));
      && u.ListOf(e) == [] && Claimable(u, e, r, t) == Claimable(s, e, r, t) - {id}
      && Taken(u, e, r, t) == Taken(s, e, r, t) && OpenParts(u, e, r, t) <= At(u.money.balance, t)
  {
    hide BooksOk, DisputesOk, SplitsOk, OwnersOk, RecordsOk, PartsOpen, CancelledAt, Taken, OpenParts, Portion, Money.Refund, ClaimRefund;
    var p := s.records.payments[id];
    RefundedInRange(s.records, id);
    OpenPartsBound(s, id, e, r, t);
    var a := Portion(p.amount, 10_000 - r) - p.refunded;
    ClaimGoesThrough(s, id, e, r, t);
    var u := RefundPayment(s, id, p.payer, a, Refunded);
    assert After(s, DoClaimRefund(p.payer.value, id)) == u;
    ClosesOne(s, u, id, e, r, t);
    ClosesParts(s, u, id, e, r, t);
    RefundBalance(s.money, e, t, p.payer, a);
  }

  lemma RefundBalance(m: Money, e: Symbol, t: Address, to: Option<Address>, a: int)
    requires to.Some?
    ensures At(m.Refund(e, t, to, a, true).balance, t) == At(m.balance, t) - a
  {
  }

  lemma ClaimGoesThrough(s: State, id: nat, e: Symbol, r: Bps, t: Address)
    requires CancelledAt(s, e, r, t) && id in Claimable(s, e, r, t) && s.records.payments[id].payer.Some?
    requires var p := s.records.payments[id];
      0 <= p.refunded && Portion(p.amount, 10_000 - r) - p.refunded <= At(s.money.balance, t)
    ensures var p := s.records.payments[id];
      ClaimRefund(s, p.payer.value, id)
        == Ok(RefundPayment(s, id, p.payer, Portion(p.amount, 10_000 - r) - p.refunded, Refunded))
    ensures PayoutFree(DoClaimRefund(s.records.payments[id].payer.value, id))
  {
    hide RefundPayment, Portion;
    PortionNothing(s.records.payments[id].amount);
  }

  lemma PortionNothing(a: int)
    ensures Portion(a, 0) == 0
  {
  }

  /** All payers claim, one after another. */
  lemma {:induction false} ClaimAll(s: State, e: Symbol, r: Bps, t: Address) returns (ops: seq<Op>)
    requires OpenEra(s, e, r, t) && s.ListOf(e) == [] && OpenParts(s, e, r, t) <= At(s.money.balance, t)
    ensures AllLater(s, ops, e) && OpenParts(Run(s, ops), e, r, t) == 0 && Taken(Run(s, ops), e, r, t) == Taken(s, e, r, t)
    decreases |Claimable(s, e, r, t)|
  {
    hide Inv, CancelledAt, PartsOpen, After, Taken, OpenParts, Claimable;
    if Claimable(s, e, r, t) == {} {
      NothingClaimable(s, e, r, t);
      ops := [];
    } else {
      var id :| id in Claimable(s, e, r, t);
      ClaimOne(s, id, e, r, t);
      var op := DoClaimRefund(s.records.payments[id].payer.value, id);
      OpenEraStep(s, op, e, r, t);
      assert |Claimable(s, e, r, t) - {id}| < |Claimable(s, e, r, t)|;
      var more := ClaimAll(After(s, op), e, r, t);
      ops := [op] + more;
      LaterThen(s, op, more, e);
    }
  }

  lemma LaterThen(s: State, op: Op, more: seq<Op>, e: Symbol)
    requires Allowed(s, op, e) && PayoutFree(op) && AllLater(After(s, op), more, e)
    ensures AllLater(s, [op] + more, e) && Run(s, [op] + more) == Run(After(s, op), more)
  {
    hide Allowed, PayoutFree, After, Run;
    var ops := [op] + more;
    RunOne(s, op);
    RunThen(s, [op], more);
    forall k | 0 <= k < |ops| ensures Allowed(Run(s, ops[..k]), ops[k], e) && PayoutFree(ops[k]) {
      if k == 0 {
        assert ops[..0] == [] && Run(s, []) == s by { RunNone(s); }
      } else {
        assert ops[..k] == [op] + more[..k - 1];
        RunThen(s, [op], more[..k - 1]);
        assert Allowed(Run(After(s, op), more[..k - 1]), more[k - 1], e);
      }
    }
  }

  lemma RunNone(s: State)
    ensures Run(s, []) == s
  {
  }

  /** Whatever is refunded later, refunds and everything paid out or owed stay within the volume. */
  ghost predicate StaysCovered(s: State, e: Symbol, t: Address) {
    forall ops :: AllLater(s, ops, e) ==>
      var b := Run(s, ops).money.BookOf(e, t);
      b.refunds + Committed(Run(s, ops), e, t) <= b.volume
  }

  /** This is decided by the stored amounts of the moment, open disputes or not. */
  lemma StaysCoveredIff(s: State, e: Symbol, r: Bps, t: Address)
    requires OpenEra(s, e, r, t) && OpenParts(s, e, r, t) <= At(s.money.balance, t)
    ensures StaysCovered(s, e, t) <==> Covered(s, e, r, t)
  {
    hide Inv, CancelledAt, PartsOpen, Run, Taken, OpenParts, Committed, AllLater, Money.BookOf;
    if Covered(s, e, r, t) {
      CoveredStays(s, e, r, t);
    } else {
      var first := ClearDisputes(s, e, r, t);
      var more := ClaimAll(Run(s, first), e, r, t);
      LaterBoth(s, first, more, e);
      var ops := first + more;
      LaterRun(s, ops, e, r, t);
      OpenPartsAre(Run(s, ops), e, r, t);
      assert AllLater(s, ops, e);
      var b := Run(s, ops).money.BookOf(e, t);
      assert b.refunds + Committed(Run(s, ops), e, t) > b.volume;
    }
  }

  lemma {:induction false} LaterBoth(s: State, first: seq<Op>, more: seq<Op>, e: Symbol)
    requires AllLater(s, first, e) && AllLater(Run(s, first), more, e)
    ensures AllLater(s, first + more, e) && Run(s, first + more) == Run(Run(s, first), more)
  {
    hide Allowed, PayoutFree, Run;
    RunThen(s, first, more);
    var ops := first + more;
    forall k | 0 <= k < |ops| ensures Allowed(Run(s, ops[..k]), ops[k], e) && PayoutFree(ops[k]) {
      if k < |first| {
        assert ops[..k] == first[..k] && ops[k] == first[k];
      } else {
        var j := k - |first|;
        assert ops[..k] == first + more[..j] && ops[k] == more[j];
        RunThen(s, first, more[..j]);
        assert Allowed(Run(Run(s, first), more[..j]), more[j], e);
      }
    }
  }

  // ---- Disputes run out ----

  /** After enough ledgers a timeout pass closes all of the event's disputes and holds their payments again. */
  lemma ClearDisputes(s: State, e: Symbol, r: Bps, t: Address) returns (ops: seq<Op>)
    requires OpenEra(s, e, r, t)
    ensures AllLater(s, ops, e) && OpenEra(Run(s, ops), e, r, t) && Run(s, ops).ListOf(e) == []
    ensures Taken(Run(s, ops), e, r, t) == Taken(s, e, r, t) && OpenParts(Run(s, ops), e, r, t) == OpenParts(s, e, r, t)
    ensures At(Run(s, ops).money.balance, t) == At(s.money.balance, t)
  {
    hide Inv, CancelledAt, PartsOpen, After, Run, Taken, OpenParts, Timeouts, SameRefunds;
    var (wait, pass) := (DoAdvance(U32_MAX, 0), DoTimeouts(e));
    ops := [wait] + [pass];
    var u := After(s, wait);
    OpenEraStep(s, wait, e, r, t);
    OpenEraStep(u, pass, e, r, t);
    RunTwo(s, wait, pass);
    TimeoutsIs(u, e);
    Waited(s);
    assert OpenEra(u, e, r, t);
    EverythingExpires(u, e);
    TimeoutsRefunds(u, e, e);
    SameTaken(u, Timeouts(u, e), e, r, t);
    OpenPartsSame(u, Timeouts(u, e), e, r, t);
    SameTaken(s, u, e, r, t) by { RefundsSame(s, u, e); }
    OpenPartsSame(s, u, e, r, t) by { RefundsSame(s, u, e); }
    TimeoutsNet(u, e, e, t);
    LaterThen(u, pass, [], e) by { NothingLater(After(u, pass), e); }
    LaterThen(s, wait, [pass], e) by { assert [pass] + [] == [pass]; }
  }

  lemma NothingLater(s: State, e: Symbol)
    ensures AllLater(s, [], e)
  {
  }

  lemma Waited(s: State)
    ensures var u := After(s, DoAdvance(U32_MAX, 0));
      && u.records == s.records && u.money == s.money && u.ledger >= U32_MAX
      && PayoutFree(DoAdvance(U32_MAX, 0)) && PayoutFree(DoTimeouts(0))
  {
  }

  lemma TimeoutsNet(s: State, f: Symbol, e: Symbol, t: Address)
    ensures Timeouts(s, f).money.balance == s.money.balance && Net(Timeouts(s, f), e, t) == Net(s, e, t)
  {
    hide ExpireList, AnyExpired, Remaining, Money.BookOf, StillOpen;
    ExpireListLeaves(s, f, s.ListOf(f), e, t);
  }

  lemma EverythingExpires(s: State, e: Symbol)
    requires Inv(s) && s.ledger >= U32_MAX
    ensures Timeouts(s, e).ListOf(e) == []
  {
    hide RecordsOk, BooksOk, SplitsOk, OwnersOk, NoDuplicates, ExpireList, Remaining;
    var l := s.ListOf(e);
    assert ListOk(s.disputes, e);
    if l != [] {
      assert l[0] in l && Expired(s, l[0]);
      var rest := Remaining(s, l);
      if rest != [] {
        RemainingIs(s, l, rest[0]);
        assert false;
      }
    }
  }

  lemma CoveredStays(s: State, e: Symbol, r: Bps, t: Address)
    requires OpenEra(s, e, r, t) && Covered(s, e, r, t)
    ensures StaysCovered(s, e, t)
  {
    hide Inv, CancelledAt, PartsOpen, Run, Taken, Committed, AllLater, Money.BookOf;
    forall ops | AllLater(s, ops, e)
      ensures var b := Run(s, ops).money.BookOf(e, t); b.refunds + Committed(Run(s, ops), e, t) <= b.volume
    {
      var u := Run(s, ops);
      LaterRun(s, ops, e, r, t);
      BooksAre(u, e, t);
      RefundedTaken(u, e, r, t);
    }
  }

  // ---- From the cancellation on ----

  /** Resale fees of the event during a run. */
  function TotalResaleFees(s: State, ops: seq<Op>, e: Symbol, t: Address): int {
    if ops == [] then 0
    else TotalResaleFees(s, ops[..|ops| - 1], e, t) + ResaleFee(Run(s, ops[..|ops| - 1]), ops[|ops| - 1], e, t)
  }

  lemma FeeIsKept(s: State, op: Op, e: Symbol, t: Address)
    ensures 0 <= ResaleFee(s, op, e, t) <= Kept(s, op, t)
  {
    hide Step, PlatformFee;
    KeptNonNegative(s, op, t);
    if ResaleFee(s, op, e, t) != 0 {
      var price := s.listings[op.ticket].price;
      FeeWithinGross(price, s.globals.feeBps);
      RoyaltyNonNegative(price, s.events.config[e].royaltyBps);
    }
  }

  /** The payout token of a configured event is the accepted one. */
  lemma PayoutAccepted(s: State, e: Symbol, r: Bps, t: Address)
    requires OpenEra(s, e, r, t) && TokensOk(s)
    ensures t == s.globals.acceptedToken
  {
    hide Inv, PartsOpen;
  }

  /** What the run commits, and what it keeps of resales. */
  lemma {:induction false} EraAccount(s: State, ops: seq<Op>, e: Symbol, r: Bps, t: Address)
    requires OpenEra(s, e, r, t) && AllAllowed(s, ops, e) && TokensOk(s)
    ensures var u := Run(s, ops);
      && OpenEra(u, e, r, t) && TokensOk(u)
      && Committed(u, e, t) == Committed(s, e, t) + TotalSettled(s, ops, e, t) + TotalResaleFees(s, ops, e, t)
      && Surplus(u.money, t) >= Surplus(s.money, t) + TotalResaleFees(s, ops, e, t)
  {
    hide OpenEra, TokensOk, After, Committed, AllAllowed, Allowed, Settlements, ResaleFee, Kept, Surplus, Total;
    if ops != [] {
      var init := ops[..|ops| - 1];
      AllowedBefore(s, ops, e);
      EraAccount(s, init, e, r, t);
      var (v, op) := (Run(s, init), ops[|ops| - 1]);
      OpenEraStep(v, op, e, r, t);
      StepTokens(v, op);
      PayoutAccepted(v, e, r, t);
      CommittedStep(v, op, e, r, t);
      StepKeeps(v, op, t) by { OpenEraInv(v, e, r, t); }
      FeeIsKept(v, op, e, t);
    }
  }

  lemma OpenEraInv(s: State, e: Symbol, r: Bps, t: Address)
    requires OpenEra(s, e, r, t)
    ensures Inv(s) && PartsOpen(s, e, r) && CancelledAt(s, e, r, t)
  {
  }

  lemma {:induction false} EraFinished(s: State, ops: seq<Op>, e: Symbol, r: Bps, t: Address)
    requires OpenEra(s, e, r, t) && AllAllowed(s, ops, e) && Finished(s, e, r)
    ensures OpenEra(Run(s, ops), e, r, t) && Finished(Run(s, ops), e, r)
  {
    hide OpenEra, After, AllAllowed, Allowed, Finished, Progresses;
    if ops != [] {
      AllowedBefore(s, ops, e);
      EraFinished(s, ops[..|ops| - 1], e, r, t);
      var (v, op) := (Run(s, ops[..|ops| - 1]), ops[|ops| - 1]);
      OpenEraStep(v, op, e, r, t);
      StepProgress(v, op, e, r, t);
      ProgressFinished(v, After(v, op), e, r);
    }
  }

  /** The event's payments in the token are all refunded, or have nothing to refund. */
  ghost predicate AllRefunded(s: State, e: Symbol, r: Bps, t: Address) {
    forall i :: i in s.records.payments && s.records.payments[i].event == e && s.records.payments[i].token == t ==>
      s.records.payments[i].status == Refunded || Portion(s.records.payments[i].amount, 10_000 - r) == 0
  }

  lemma RefundedMeansClaimed(s: State, e: Symbol, r: Bps, t: Address)
    requires Inv(s) && Capped(s, e, r) && Finished(s, e, r) && AllRefunded(s, e, r, t)
    ensures AllClaimed(s, e, r, t)
  {
    hide BooksOk, SplitsOk, OwnersOk, DisputesOk, RecordsOk, Portion;
    forall i | i in s.records.payments && s.records.payments[i].event == e && s.records.payments[i].token == t
      ensures s.records.payments[i].refunded == Portion(s.records.payments[i].amount, 10_000 - r)
    {
      RefundedInRange(s.records, i);
      CappedAt(s, i, e, r);
    }
  }

  /**
   Once every payer of the cancelled event has been refunded and the event is settled, at most one unit per
   payment is left over; no payment of the event was closed before the cancellation.
   */
  lemma CancellationDust(s: State, ops: seq<Op>, e: Symbol, r: Bps, t: Address)
    requires Era(s, e, r, t) && !Settled(s, e) && AllAllowed(s, ops, e)
    requires forall i :: i in s.records.payments && s.records.payments[i].event == e ==> s.records.payments[i].status != Refunded
    requires AllRefunded(Run(s, ops), e, r, t) && Settled(Run(s, ops), e)
    ensures var b := Run(s, ops).money.BookOf(e, t);
      0 <= b.volume - b.refunds - TotalSettled(s, ops, e, t) <= |Part(Run(s, ops).records.payments, e, t, AMOUNT)|
  {
    hide Inv, CancelledAt, Capped, Settled, AllAllowed, Run, TotalSettled, AllRefunded, AllClaimed, Portion, Money.BookOf, Sum;
    EraIsOpen(s, e, r, t);
    EraRun(s, ops, e, r, t);
    EraFinished(s, ops, e, r, t);
    RefundedMeansClaimed(Run(s, ops), e, r, t);
    ClaimedDust(s, ops, e, r, t);
  }
}

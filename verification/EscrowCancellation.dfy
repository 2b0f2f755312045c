/** A cancelled event pays out at most what was paid in, in any order. */
module EscrowCancellation {
  import opened Ledger
  import opened MapSums
  import opened OwnerIndexes
  import opened RevenueSplits
  import opened PaymentsSpec
  import opened EscrowLedger
  import opened EscrowInvariants
  import opened EscrowDisputes
  import opened EscrowSplits

  // ---- Rounding ----

  lemma {:induction false} SumMono(m: map<nat, int>, n: map<nat, int>)
    requires m.Keys == n.Keys && forall i :: i in m ==> m[i] <= n[i]
    ensures Sum(m) <= Sum(n)
    decreases |m|
  {
    if m != map[] {
      var k :| k in m;
      SumTake(m, k);
      SumTake(n, k);
      assert |m - {k}| < |m| by { assert (m - {k}).Keys == m.Keys - {k}; }
      SumMono(m - {k}, n - {k});
    } else {
      assert n.Keys == {} && n == map[];
    }
  }

  ghost function Portions(m: map<nat, int>, bps: Bps): map<nat, int> { map i | i in m :: Portion(m[i], bps) }

  lemma PortionsAt(m: map<nat, int>, bps: Bps)
    ensures Portions(m, bps).Keys == m.Keys && forall i :: i in m ==> Portions(m, bps)[i] == Portion(m[i], bps)
  {
  }

  lemma PortionsWithout(m: map<nat, int>, k: nat, bps: Bps)
    ensures Portions(m, bps) - {k} == Portions(m - {k}, bps)
  {
    hide Portion;
  }

  /** Rounding each entry down loses less than one unit per entry. */
  lemma {:induction false} SumPortions(m: map<nat, int>, bps: Bps)
    requires forall i :: i in m ==> m[i] >= 0
    ensures Within(Sum(Portions(m, bps)), Sum(m), bps, |m|)
    decreases |m|
  {
    hide Portion, Within;
    if m != map[] {
      var k :| k in m;
      PortionsAt(m, bps);
      SumTake(m, k);
      SumTake(Portions(m, bps), k);
      SizeRemoved(m, m - {k}, k);
      PortionsWithout(m, k, bps);
      SumPortions(m - {k}, bps);
      PortionBounds(m[k], bps);
      WithinAdd(Sum(Portions(m - {k}, bps)), Sum(m - {k}), |m| - 1, Portion(m[k], bps), m[k], bps);
    } else {
      PortionsAt(m, bps);
      assert Portions(m, bps) == map[];
      WithinNothing(bps);
    }
  }

  /** `part` is the proportion of `whole`, short by less than `n` units. */
  predicate Within(part: int, whole: int, bps: Bps, n: nat) {
    part * 10_000 <= whole * bps <= part * 10_000 + 9_999 * n
  }

  lemma WithinNothing(bps: Bps)
    ensures Within(0, 0, bps, 0)
  {
  }

  lemma WithinAdd(part: int, whole: int, n: nat, p: int, w: int, bps: Bps)
    requires Within(part, whole, bps, n) && Within(p, w, bps, 1)
    ensures Within(p + part, w + whole, bps, n + 1)
  {
    Distribute2(w, whole, bps);
  }

  lemma PortionBounds(a: nat, bps: Bps)
    ensures Within(Portion(a, bps), a, bps, 1)
    ensures 0 <= Portion(a, bps) <= a
  {
    Distribute(a, 0, bps);
    FeeWithinGross(a, bps);
  }

  lemma Distribute2(a: int, b: int, c: int)
    ensures (a + b) * c == a * c + b * c
  {
  }

  /** The refundable parts and the organizer's part fit into the whole, with at most `n` units left over. */
  lemma PartsFit(m: map<nat, int>, r: Bps)
    requires forall i :: i in m ==> m[i] >= 0
    ensures var taken := Sum(Portions(m, 10_000 - r)) + Portion(Sum(m), r);
      Sum(m) - |m| <= taken <= Sum(m)
  {
    hide Portion;
    SumPortions(m, 10_000 - r);
    SumNonNegative(m);
    PortionBounds(Sum(m), r);
    Distribute(Sum(m), 10_000 - r, r);
  }

  // ---- The cancelled event ----

  /** Event `e` is cancelled with the organizer's ratio `r` and the payout token `t`. */
  ghost predicate CancelledAt(s: State, e: Symbol, r: Bps, t: Address) {
    && s.StatusOf(e) == Some(Cancelled) && e in s.events.config
    && s.events.config[e].ratio == Some(r) && s.events.config[e].payoutToken == t
    && s.events.config[e].cancelLedger.Some?
  }

  /** No payment of the event was refunded beyond its refundable part. */
  ghost predicate Capped(s: State, e: Symbol, r: Bps) {
    forall i :: i in s.records.payments && s.records.payments[i].event == e ==>
      s.records.payments[i].refunded <= Portion(s.records.payments[i].amount, 10_000 - r)
  }

  /** The same sales of the event. */
  ghost predicate SameSales(s: State, u: State, e: Symbol) {
    && (forall i :: i in s.records.payments && s.records.payments[i].event == e ==> i in u.records.payments)
    && (forall i :: i in u.records.payments && u.records.payments[i].event == e ==> i in s.records.payments)
    && (forall i :: i in s.records.payments && i in u.records.payments ==>
          SamePayment(s.records.payments[i], u.records.payments[i]))
  }

  predicate Settled(s: State, e: Symbol) {
    (e in s.events.config && s.events.config[e].withdrawn) || e in s.split.settled
  }

  ghost predicate Ongoing(s: State, e: Symbol, r: Bps, t: Address) { Inv(s) && CancelledAt(s, e, r, t) }

  ghost predicate InEra(s: State, e: Symbol, r: Bps, t: Address) { Ongoing(s, e, r, t) && Capped(s, e, r) }

  /** The cancelled event before or after its settlement, which is a withdrawal or a split but not both. */
  ghost predicate Era(s: State, e: Symbol, r: Bps, t: Address) {
    InEra(s, e, r, t) && !(s.events.config[e].withdrawn && e in s.split.splits)
  }

  /**
   Operations considered after the cancellation: everything except another change of the event's
   status or split, an approved dispute of the event, and the administrator's payouts for it.
   */
  predicate Allowed(s: State, op: Op, e: Symbol) {
    match op
    case DoSetup(DoSetStatus(_, f, _)) => f != e
    case DoSetup(DoCancelEvent(f, _)) => f != e
    case DoSetup(DoPostpone(f, _, _)) => f != e
    case DoSyncSplits(_, f, _) => f != e
    case DoApprove(tid) => tid in s.disputes.records ==> s.disputes.records[tid].event != e
    case DoWithdrawRevenue(f, _) => f != e
    case DoRelease(f) => f != e
    case _ => true
  }

  /** What an operation settles for the event: the platform fee and the organizer's or recipients' net amount. */
  function Settlements(s: State, op: Op, e: Symbol, t: Address): int {
    var u := After(s, op);
    var fee := At(u.money.platform, e) - At(s.money.platform, e);
    if op.DoWithdraw? && op.event == e then u.money.BookOf(e, t).withdrawn - s.money.BookOf(e, t).withdrawn + fee
    else if e in u.split.settled && e !in s.split.settled then u.split.settled[e].net + fee
    else 0
  }

  /** One step of the era: the event stays cancelled, and it is settled at most once, for the organizer's part. */
  ghost predicate EraStep(s: State, op: Op, u: State, e: Symbol, r: Bps, t: Address) {
    && Era(u, e, r, t) && SameSales(s, u, e)
    && (Settled(s, e) ==> Settled(u, e))
    && Settlements(s, op, e, t)
       == if Settled(u, e) && !Settled(s, e) then Portion(Tally(s.records.payments, e, t, AMOUNT), r) else 0
  }

  // ---- Payments ----

  predicate Open(p: Payment) { p.status == Held || p.status == Disputed }

  /** No payment of the event gets a new amount or refund, and none is closed or opened again. */
  ghost predicate SameRefunds(s: State, u: State, e: Symbol) {
    && SameSales(s, u, e)
    && (forall i :: i in u.records.payments && i in s.records.payments && s.records.payments[i].event == e ==>
          && u.records.payments[i].refunded == s.records.payments[i].refunded
          && (u.records.payments[i].status == s.records.payments[i].status
              || (Open(u.records.payments[i]) && Open(s.records.payments[i]))))
  }

  lemma SameRefundsCapped(s: State, u: State, e: Symbol, r: Bps)
    requires Capped(s, e, r) && SameRefunds(s, u, e)
    ensures Capped(u, e, r) && SameSales(s, u, e)
  {
    hide Portion;
  }

  lemma SameSalesTally(s: State, u: State, e: Symbol, t: Address)
    requires SameSales(s, u, e)
    ensures Tally(u.records.payments, e, t, AMOUNT) == Tally(s.records.payments, e, t, AMOUNT)
  {
    hide Sum;
    assert Part(u.records.payments, e, t, AMOUNT) == Part(s.records.payments, e, t, AMOUNT);
  }

  lemma {:induction false} ExpireListRefunds(s: State, f: Symbol, l: seq<nat>, e: Symbol)
    ensures SameRefunds(s, ExpireList(s, f, l), e)
    ensures ExpireList(s, f, l).records.payments.Keys == s.records.payments.Keys
  {
    hide Money.WithRevenue, Money.Revenue, Expired;
    if l != [] { ExpireListRefunds(s, f, l[..|l| - 1], e); }
  }

  lemma TimeoutsRefunds(s: State, f: Symbol, e: Symbol)
    ensures SameRefunds(s, Timeouts(s, f), e)
  {
    hide ExpireList, AnyExpired, Remaining;
    ExpireListRefunds(s, f, s.ListOf(f), e);
  }

  /** One payment rewritten within its refundable part. */
  lemma Rewritten(s: State, u: State, id: nat, q: Payment, e: Symbol, r: Bps)
    requires Capped(s, e, r) && id in s.records.payments && SamePayment(s.records.payments[id], q)
    requires u.records.payments == s.records.payments[id := q]
    requires q.event == e ==> q.refunded <= Portion(q.amount, 10_000 - r)
    ensures Capped(u, e, r) && SameSales(s, u, e)
  {
    hide Portion;
  }

  lemma PayStep(s: State, p: PaymentParams, e: Symbol, r: Bps, t: Address)
    requires InEra(s, e, r, t)
    ensures Capped(After(s, DoPay(p)), e, r) && SameSales(s, After(s, DoPay(p)), e)
  {
    hide BooksOk, DisputesOk, SplitsOk, OwnersOk, RecordsOk, CheckPrivacy, CheckSupply, NonceUsed, Remember, AddToken,
         Money.Deposit, Money.CanReceive, OwnerIndex.Add, Portion;
    NextNumber(s.records);
  }

  lemma RefundStep(s: State, op: Op, e: Symbol, r: Bps, t: Address)
    requires InEra(s, e, r, t) && (op.DoRefund? || op.DoClaimRefund? || op.DoPostponementRefund?)
    ensures Capped(After(s, op), e, r) && SameSales(s, After(s, op), e)
  {
    hide Inv, Money.Refund, Money.CanSend, Portion, PaidOut, Capped, SameSales;
    if Step(s, op).Ok? {
      var u := After(s, op);
      var id := if op.DoPostponementRefund? then s.records.tickets[op.ticket].payment else op.payment;
      Rewritten(s, u, id, u.records.payments[id], e, r);
    } else {
      RefundsSelf(s, e);
      SameRefundsCapped(s, s, e, r);
    }
  }

  lemma DisputesStep(s: State, op: Op, e: Symbol, r: Bps, t: Address)
    requires InEra(s, e, r, t) && Allowed(s, op, e) && (op.DoRaise? || op.DoApprove? || op.DoReject?)
    ensures Capped(After(s, op), e, r) && SameSales(s, After(s, op), e)
  {
    hide BooksOk, SplitsOk, OwnersOk, RecordsOk, ListOk, Money.WithRevenue, Money.Revenue, Money.Refund, Money.CanSend,
         Portion, Without, Expired, Capped, SameSales;
    RefundsSelf(s, e);
    SameRefundsCapped(s, s, e, r);
    if Step(s, op).Ok? {
      var u := After(s, op);
      var id := if op.DoRaise? then s.records.tickets[op.ticket].payment else s.disputes.records[op.ticket].payment;
      CappedAt(s, id, e, r);
      Rewritten(s, u, id, u.records.payments[id], e, r);
    }
  }

  lemma CappedAt(s: State, id: nat, e: Symbol, r: Bps)
    requires Capped(s, e, r) && id in s.records.payments
    ensures s.records.payments[id].event == e ==>
      s.records.payments[id].refunded <= Portion(s.records.payments[id].amount, 10_000 - r)
  {
  }

  lemma TimeoutsStep(s: State, f: Symbol, e: Symbol, r: Bps, t: Address)
    requires InEra(s, e, r, t)
    ensures Capped(Timeouts(s, f), e, r) && SameSales(s, Timeouts(s, f), e)
  {
    hide Inv, Capped, Timeouts, SameRefunds, SameSales;
    TimeoutsRefunds(s, f, e);
    SameRefundsCapped(s, Timeouts(s, f), e, r);
  }

  /** Payouts, splits, resales and settings touch no payment except through timeouts. */
  lemma OtherPaymentsStep(s: State, op: Op, e: Symbol, r: Bps, t: Address)
    requires Ongoing(s, e, r, t) && Allowed(s, op, e)
    requires !(op.DoPay? || op.DoRefund? || op.DoClaimRefund? || op.DoPostponementRefund?)
    requires !(op.DoRaise? || op.DoApprove? || op.DoReject? || op.DoTimeouts?)
    ensures SameRefunds(s, After(s, op), e)
  {
    hide Inv, CancelledAt, Capped, SameRefunds, SetupStep, Pay, AdminRefund, ClaimRefund, PostponementRefund, RaiseDispute,
         ApproveRefund, RejectDispute, Timeouts, Withdraw, WithdrawRevenue, ReleaseIfExpired, WithdrawToken,
         WithdrawAllTokens, WithdrawPlatformRevenue, WithdrawSplit, ResolveFlagged, BuyResale, WellFormed;
    RefundsSelf(s, e);
    if Step(s, op).Ok? {
      match op
      case DoSetup(x) => SetupPayments(s, x); RefundsSame(s, After(s, op), e);
      case DoWithdraw(o, f) => PayoutPayments(s, o, f, 0, e);
      case DoWithdrawRevenue(f, to) => PayoutPayments(s, to, f, 0, e);
      case DoRelease(f) => PayoutPayments(s, 0, f, 0, e);
      case DoWithdrawToken(o, f, u) => PayoutPayments(s, o, f, u, e);
      case DoWithdrawAll(o, f) => PayoutPayments(s, o, f, 0, e);
      case DoWithdrawPlatform(f) => PlatformPayments(s, f); RefundsSame(s, After(s, op), e);
      case DoSyncSplits(c, f, l) => RefundsSame(s, After(s, op), e);
      case DoWithdrawSplit(w, f) => SplitPayments(s, w, f, true, e);
      case DoFlag(c, f, w) => RefundsSame(s, After(s, op), e);
      case DoResolve(f, w, b) => SplitPayments(s, w, f, b, e);
      case DoBuy(b, tid, x) => BuyPayments(s, b, tid, x); RefundsSame(s, After(s, op), e);
      case DoAdvance(l, d) => RefundsSame(s, After(s, op), e);
      case _ =>
    }
  }

  lemma RefundsSelf(s: State, e: Symbol)
    ensures SameRefunds(s, s, e)
  {
  }

  lemma RefundsSame(s: State, u: State, e: Symbol)
    requires u.records.payments == s.records.payments
    ensures SameRefunds(s, u, e)
  {
  }

  lemma RefundsThen(s: State, u: State, v: State, e: Symbol)
    requires SameRefunds(s, u, e) && v.records.payments == u.records.payments
    ensures SameRefunds(s, v, e)
  {
  }

  lemma SetupPayments(s: State, x: Setup)
    requires SetupStep(s, x).Ok?
    ensures SetupStep(s, x).value.records == s.records && SetupStep(s, x).value.money == s.money
  {
    hide CancelRatio;
  }

  lemma PlatformPayments(s: State, f: Symbol)
    requires WithdrawPlatformRevenue(s, f).Ok?
    ensures WithdrawPlatformRevenue(s, f).value.records == s.records && WithdrawPlatformRevenue(s, f).value.events == s.events
  {
    hide Money.Payout, Money.CanSend;
  }

  lemma BuyPayments(s: State, b: Address, tid: nat, x: bool)
    requires BuyResale(s, b, tid, x).Ok?
    ensures BuyResale(s, b, tid, x).value.records.payments == s.records.payments
    ensures BuyResale(s, b, tid, x).value.events == s.events
  {
    hide Trade, OwnerIndex.Add, OwnerIndex.RemoveCounted;
  }

  lemma ValidateRefunds(s: State, f: Symbol, e: Symbol)
    requires Validate(s, f).Ok?
    ensures SameRefunds(s, Validate(s, f).value, e)
  {
    hide Timeouts, BalancesCover;
    TimeoutsRefunds(s, f, e);
  }

  /** A payout keeps the payments of the validated state. */
  lemma PayoutPayments(s: State, o: Address, f: Symbol, u: Address, e: Symbol)
    ensures Withdraw(s, o, f).Ok? ==> SameRefunds(s, Withdraw(s, o, f).value, e)
    ensures WithdrawRevenue(s, f, o).Ok? ==> SameRefunds(s, WithdrawRevenue(s, f, o).value, e)
    ensures ReleaseIfExpired(s, f).Ok? ==> SameRefunds(s, ReleaseIfExpired(s, f).value, e)
    ensures WithdrawToken(s, o, f, u).Ok? ==> SameRefunds(s, WithdrawToken(s, o, f, u).value, e)
    ensures WithdrawAllTokens(s, o, f).Ok? ==> SameRefunds(s, WithdrawAllTokens(s, o, f).value, e)
  {
    hide Validate, PayoutRatio, Gross, RevenueLeft, PlatformFee, Drain, Money.Payout, Money.Collect, Money.CanSend,
         Money.Revenue, SameRefunds;
    if Validate(s, f).Ok? {
      var v := Validate(s, f).value;
      ValidateRefunds(s, f, e);
      if Withdraw(s, o, f).Ok? { RefundsThen(s, v, Withdraw(s, o, f).value, e); }
      if WithdrawRevenue(s, f, o).Ok? { RefundsThen(s, v, WithdrawRevenue(s, f, o).value, e); }
      if ReleaseIfExpired(s, f).Ok? { RefundsThen(s, v, ReleaseIfExpired(s, f).value, e); }
      if WithdrawToken(s, o, f, u).Ok? { RefundsThen(s, v, WithdrawToken(s, o, f, u).value, e); }
      if WithdrawAllTokens(s, o, f).Ok? { RefundsThen(s, v, WithdrawAllTokens(s, o, f).value, e); }
    }
  }

  lemma SettledPayments(s: State, f: Symbol, e: Symbol)
    requires EnsureSettled(s, f).Ok?
    ensures SameRefunds(s, EnsureSettled(s, f).value, e) && EnsureSettled(s, f).value.events == s.events
  {
    hide Validate, PayoutRatio, Gross, RevenueLeft, PlatformFee, Money.WithRevenue, Money.Collect, Money.Revenue, SameRefunds;
    RefundsSelf(s, e);
    if f !in s.split.settled {
      ValidateRefunds(s, f, e);
      ValidateBalance(s, f);
      RefundsThen(s, Validate(s, f).value, EnsureSettled(s, f).value, e);
    }
  }

  lemma SplitPayments(s: State, w: Address, f: Symbol, release: bool, e: Symbol)
    ensures WithdrawSplit(s, w, f).Ok? ==>
      SameRefunds(s, WithdrawSplit(s, w, f).value, e) && WithdrawSplit(s, w, f).value.events == s.events
    ensures ResolveFlagged(s, f, w, release).Ok? ==>
      SameRefunds(s, ResolveFlagged(s, f, w, release).value, e) && ResolveFlagged(s, f, w, release).value.events == s.events
  {
    hide EnsureSettled, ShareOf, BpsOf, Money.Payout, Money.CanSend, Money.Revenue, SameRefunds;
    RefundsSelf(s, e);
    if EnsureSettled(s, f).Ok? {
      var v := EnsureSettled(s, f).value;
      SettledPayments(s, f, e);
      if WithdrawSplit(s, w, f).Ok? { RefundsThen(s, v, WithdrawSplit(s, w, f).value, e); }
      if ResolveFlagged(s, f, w, release).Ok? && !release { RefundsThen(s, v, ResolveFlagged(s, f, w, release).value, e); }
    }
    if ResolveFlagged(s, f, w, release).Ok? && release { RefundsSame(s, ResolveFlagged(s, f, w, release).value, e); }
  }

  // ---- The event's status and settings ----

  /** The event's status, cancellation and payout token, and with `latch` its withdrawn flag, are as before. */
  ghost predicate SameEvent(s: State, u: State, e: Symbol, latch: bool) {
    && u.StatusOf(e) == s.StatusOf(e) && e in s.events.config && e in u.events.config
    && (var (c, d) := (s.events.config[e], u.events.config[e]);
        && d.ratio == c.ratio && d.payoutToken == c.payoutToken && d.cancelLedger == c.cancelLedger
        && (latch ==> d.withdrawn == c.withdrawn))
  }

  /** A configuration rewritten without touching the cancellation. */
  lemma ConfigWritten(s: State, f: Symbol, c: Config, e: Symbol, latch: bool)
    requires e in s.events.config
    requires f == e ==> c.ratio == s.events.config[e].ratio && c.payoutToken == s.events.config[e].payoutToken
    requires f == e ==> c.cancelLedger == s.events.config[e].cancelLedger
    requires f == e && latch ==> c.withdrawn == s.events.config[e].withdrawn
    ensures SameEvent(s, s.WithConfig(f, c), e, latch)
  {
  }

  lemma SyncEvent(s: State, caller: Address, f: Symbol, c: Config, admin: Address, more: nat, e: Symbol)
    requires e in s.events.config
    ensures SyncConfig(s, caller, f, c).Ok? ==> SameEvent(s, SyncConfig(s, caller, f, c).value, e, true)
    ensures ExtendDelay(s, admin, f, more).Ok? ==> SameEvent(s, ExtendDelay(s, admin, f, more).value, e, true)
  {
    hide SameEvent, State.WithConfig;
    if SyncConfig(s, caller, f, c).Ok? {
      var x := if f in s.events.config then s.events.config[f] else c.(sold := 0, extension := 0, cancelLedger := None, ratio := None, withdrawn := false);
      ConfigWritten(s, f, c.(sold := x.sold, extension := x.extension, cancelLedger := x.cancelLedger,
                             ratio := x.ratio, withdrawn := x.withdrawn), e, true);
    }
    if ExtendDelay(s, admin, f, more).Ok? {
      ConfigWritten(s, f, s.events.config[f].(extension := s.events.config[f].extension + more), e, true);
    }
  }

  lemma StatusEvent(s: State, f: Symbol, x: EventStatus, deadline: map<Symbol, nat>, e: Symbol)
    requires e in s.events.config && f != e
    ensures SameEvent(s, s.(events := s.events.(status := s.events.status[f := x], deadline := deadline)), e, true)
  {
  }

  lemma CancelOther(s: State, f: Symbol, o: Address, e: Symbol)
    requires e in s.events.config && f != e && CancelEvent(s, f, o).Ok?
    ensures SameEvent(s, CancelEvent(s, f, o).value, e, true)
  {
    hide CancelRatio;
  }

  lemma EventUntouched(s: State, u: State, e: Symbol)
    requires e in s.events.config && u.events.config == s.events.config && u.events.status == s.events.status
    ensures SameEvent(s, u, e, true)
  {
  }

  lemma SetupEvent(s: State, x: Setup, e: Symbol)
    requires e in s.events.config && SetupStep(s, x).Ok? && s.StatusOf(e) == Some(Cancelled) && Allowed(s, DoSetup(x), e)
    ensures SameEvent(s, SetupStep(s, x).value, e, true)
  {
    hide SameEvent, SyncConfig, ExtendDelay, CancelEvent;
    match x
    case DoSyncConfig(caller, f, c) => SyncEvent(s, caller, f, c, 0, 0, e);
    case DoExtendDelay(a, f, n) => SyncEvent(s, 0, f, s.events.config[e], a, n, e);
    case DoSetStatus(a, f, y) => StatusEvent(s, f, y, s.events.deadline, e);
    case DoCancelEvent(f, o) => CancelOther(s, f, o, e);
    case DoPostpone(f, o, d) => StatusEvent(s, f, Postponed, s.events.deadline[f := d], e);
    case DoResume(f, o) => StatusEvent(s, f, Active, s.events.deadline - {f}, e);
    case _ => EventUntouched(s, SetupStep(s, x).value, e);
  }

  lemma PayEvent(s: State, p: PaymentParams, e: Symbol)
    requires e in s.events.config && Pay(s, p).Ok?
    ensures SameEvent(s, Pay(s, p).value, e, true)
  {
    hide CheckPayment, BuildPayment, SameEvent, State.WithConfig, Issue;
    var u := Issue(s, p, BuildPayment(p).value);
    IssueEvents(s, p, BuildPayment(p).value);
    EventUntouched(s, u, e);
    if p.event in u.events.config {
      ConfigWritten(u, p.event, u.events.config[p.event].(sold := u.events.config[p.event].sold + 1), e, true);
      EventThen(s, u, Pay(s, p).value, e, true);
    }
  }

  lemma IssueEvents(s: State, p: PaymentParams, pay: Payment)
    ensures var u := Issue(s, p, pay).events; u.config == s.events.config && u.status == s.events.status
  {
    hide Money.Deposit, Remember, OwnerIndex.Add;
  }

  lemma EventThen(s: State, u: State, v: State, e: Symbol, latch: bool)
    requires SameEvent(s, u, e, latch) && SameEvent(u, v, e, latch)
    ensures SameEvent(s, v, e, latch)
  {
  }

  lemma RefundEvents(s: State, a: Address, id: nat, x: Option<int>, r: nat, b: bool)
    ensures AdminRefund(s, a, id, x).Ok? ==> AdminRefund(s, a, id, x).value.events == s.events
    ensures ClaimRefund(s, a, id).Ok? ==> ClaimRefund(s, a, id).value.events == s.events
    ensures PostponementRefund(s, a, id).Ok? ==> PostponementRefund(s, a, id).value.events == s.events
    ensures RaiseDispute(s, id, r, b).Ok? ==> RaiseDispute(s, id, r, b).value.events == s.events
    ensures ApproveRefund(s, id).Ok? ==> ApproveRefund(s, id).value.events == s.events
    ensures RejectDispute(s, id).Ok? ==> RejectDispute(s, id).value.events == s.events
  {
    hide Money.Refund, Money.WithRevenue, Money.Revenue, Money.CanSend, Portion, PaidOut, MaxRefund, Without, Expired;
  }

  lemma WithdrawEvent(s: State, o: Address, f: Symbol, e: Symbol)
    requires e in s.events.config && Withdraw(s, o, f).Ok?
    ensures SameEvent(s, Withdraw(s, o, f).value, e, f != e)
    ensures f in Withdraw(s, o, f).value.events.config && Withdraw(s, o, f).value.events.config[f].withdrawn
  {
    hide Validate, PayoutRatio, Gross, RevenueLeft, PlatformFee, Money.Payout, Money.Collect, Money.CanSend, Money.Revenue,
         SameEvent;
    var v := Validate(s, f).value;
    ValidateBalance(s, f);
    EventUntouched(s, v, e);
    ConfigWritten(v, f, v.events.config[f].(withdrawn := true), e, f != e);
    WrittenThen(s, v, Withdraw(s, o, f).value, f, v.events.config[f].(withdrawn := true), e, f != e);
  }

  lemma WrittenThen(s: State, v: State, u: State, f: Symbol, c: Config, e: Symbol, latch: bool)
    requires SameEvent(s, v, e, true) && SameEvent(v, v.WithConfig(f, c), e, latch)
    requires u.events == v.WithConfig(f, c).events
    ensures SameEvent(s, u, e, latch)
  {
  }

  lemma WithdrawRevenueEvent(s: State, f: Symbol, to: Address, e: Symbol)
    requires e in s.events.config && f != e && WithdrawRevenue(s, f, to).Ok?
    ensures SameEvent(s, WithdrawRevenue(s, f, to).value, e, true)
  {
    hide Validate, PlatformFee, Money.Payout, Money.Collect, Money.CanSend, Money.Revenue, SameEvent;
    var v := Validate(s, f).value;
    ValidateBalance(s, f);
    EventUntouched(s, v, e);
    if f in v.events.config {
      ConfigWritten(v, f, v.events.config[f].(withdrawn := true), e, true);
      WrittenThen(s, v, WithdrawRevenue(s, f, to).value, f, v.events.config[f].(withdrawn := true), e, true);
    } else {
      EventUntouched(s, WithdrawRevenue(s, f, to).value, e);
    }
  }

  lemma PayoutEvents(s: State, o: Address, f: Symbol, u: Address, e: Symbol)
    requires e in s.events.config
    ensures ReleaseIfExpired(s, f).Ok? ==> SameEvent(s, ReleaseIfExpired(s, f).value, e, true)
    ensures WithdrawToken(s, o, f, u).Ok? ==> SameEvent(s, WithdrawToken(s, o, f, u).value, e, true)
    ensures WithdrawAllTokens(s, o, f).Ok? ==> SameEvent(s, WithdrawAllTokens(s, o, f).value, e, true)
  {
    hide Validate, Drain, Money.Payout, Money.CanSend, Money.Revenue, SameEvent;
    if Validate(s, f).Ok? { ValidateBalance(s, f); }
    if ReleaseIfExpired(s, f).Ok? { EventUntouched(s, ReleaseIfExpired(s, f).value, e); }
    if WithdrawToken(s, o, f, u).Ok? { EventUntouched(s, WithdrawToken(s, o, f, u).value, e); }
    if WithdrawAllTokens(s, o, f).Ok? { EventUntouched(s, WithdrawAllTokens(s, o, f).value, e); }
  }

  lemma EventStep(s: State, op: Op, e: Symbol, r: Bps, t: Address)
    requires Ongoing(s, e, r, t) && Allowed(s, op, e)
    ensures SameEvent(s, After(s, op), e, !(op.DoWithdraw? && op.event == e))
    ensures op.DoWithdraw? && op.event == e && Step(s, op).Ok? ==> After(s, op).events.config[e].withdrawn
  {
    hide Inv, Capped, SetupStep, Pay, AdminRefund, ClaimRefund, PostponementRefund, RaiseDispute,
         ApproveRefund, RejectDispute, Timeouts, Withdraw, WithdrawRevenue, ReleaseIfExpired, WithdrawToken,
         WithdrawAllTokens, WithdrawPlatformRevenue, WithdrawSplit, ResolveFlagged, BuyResale, WellFormed, SameRefunds, BpsOf;
    if Step(s, op).Ok? {
      match op
      case DoSetup(x) => SetupEvent(s, x, e);
      case DoPay(p) => PayEvent(s, p, e);
      case DoRefund(a, id, x) => RefundEvents(s, a, id, x, 0, false);
      case DoClaimRefund(p, id) => RefundEvents(s, p, id, None, 0, false);
      case DoPostponementRefund(c, tid) => RefundEvents(s, c, tid, None, 0, false);
      case DoRaise(tid, x, b) => RefundEvents(s, 0, tid, None, x, b);
      case DoApprove(tid) => RefundEvents(s, 0, tid, None, 0, false);
      case DoReject(tid) => RefundEvents(s, 0, tid, None, 0, false);
      case DoTimeouts(f) => TimeoutsFrame(s, f);
      case DoWithdraw(o, f) => WithdrawEvent(s, o, f, e);
      case DoWithdrawRevenue(f, to) => WithdrawRevenueEvent(s, f, to, e);
      case DoRelease(f) => PayoutEvents(s, 0, f, 0, e);
      case DoWithdrawToken(o, f, u) => PayoutEvents(s, o, f, u, e);
      case DoWithdrawAll(o, f) => PayoutEvents(s, o, f, 0, e);
      case DoWithdrawPlatform(f) => PlatformPayments(s, f);
      case DoWithdrawSplit(w, f) => SplitPayments(s, w, f, true, e);
      case DoResolve(f, w, b) => SplitPayments(s, w, f, b, e);
      case DoBuy(b, tid, x) => BuyPayments(s, b, tid, x);
      case _ =>
    }
  }

  // ---- The settlement ----

  /** Without disputes nothing is taken off the volume. */
  lemma UndisputedPool(s: State, e: Symbol, t: Address, r: Bps)
    requires Inv(s) && s.ListOf(e) == []
    ensures CancellationPool(s, e, t, r) == Portion(Tally(s.records.payments, e, t, AMOUNT), r)
  {
    hide RecordsOk, DisputesOk, SplitsOk, OwnersOk, Portion, Tally;
    assert BookOk(s.records.payments, s.money, e, t);
  }

  lemma WithdrawGross(s: State, e: Symbol, r: Bps, t: Address)
    requires Inv(s) && CancelledAt(s, e, r, t) && s.ListOf(e) == [] && WithdrawNow(s, e, r).Ok?
    ensures var u := WithdrawNow(s, e, r).value;
      && u.money.BookOf(e, t).withdrawn - s.money.BookOf(e, t).withdrawn
         + (At(u.money.platform, e) - At(s.money.platform, e))
         == Portion(Tally(s.records.payments, e, t, AMOUNT), r)
      && u.records == s.records
  {
    hide Inv, Portion, Tally, RevenueLeft, PlatformFee, CancellationPool;
    UndisputedPool(s, e, t, r);
    var gross := Gross(s, e, t, r);
    FeeWithinGross(gross, s.globals.feeBps);
  }

  lemma SettleGross(s: State, e: Symbol, r: Bps, t: Address)
    requires Inv(s) && CancelledAt(s, e, r, t) && s.ListOf(e) == [] && SettleNow(s, e, r).Ok?
    ensures var u := SettleNow(s, e, r).value;
      u.split.settled[e].net + (At(u.money.platform, e) - At(s.money.platform, e))
      == Portion(Tally(s.records.payments, e, t, AMOUNT), r)
  {
    hide Inv, Portion, Tally, SettleNow, CancellationPool;
    UndisputedPool(s, e, t, r);
    SettlementGross(s, e, r);
  }

  lemma {:induction false} ExpireListBooks(s: State, f: Symbol, l: seq<nat>)
    ensures ExpireList(s, f, l).money.platform == s.money.platform
    ensures ExpireList(s, f, l).money.wallets == s.money.wallets
    ensures forall e, t :: ExpireList(s, f, l).money.BookOf(e, t).withdrawn == s.money.BookOf(e, t).withdrawn
  {
    hide Expired;
    if l != [] { ExpireListBooks(s, f, l[..|l| - 1]); }
  }

  lemma ValidateBooks(s: State, f: Symbol)
    requires Validate(s, f).Ok?
    ensures Validate(s, f).value.money.platform == s.money.platform
    ensures Validate(s, f).value.money.wallets == s.money.wallets
    ensures forall e, t :: Validate(s, f).value.money.BookOf(e, t).withdrawn == s.money.BookOf(e, t).withdrawn
  {
    hide ExpireList, AnyExpired, Remaining, BalancesCover;
    ExpireListBooks(s, f, s.ListOf(f));
  }

  /** The organizer's withdrawal settles exactly the organizer's part of the volume. */
  lemma WithdrawSettles(s: State, o: Address, e: Symbol, r: Bps, t: Address)
    requires Era(s, e, r, t) && Withdraw(s, o, e).Ok?
    ensures Settlements(s, DoWithdraw(o, e), e, t) == Portion(Tally(s.records.payments, e, t, AMOUNT), r)
    ensures !Settled(s, e) || e in s.split.settled
  {
    hide Inv, Capped, Validate, WithdrawNow, Portion, Tally;
    var v := Validate(s, e).value;
    ValidateMoves(s, e);
    ValidateBooks(s, e);
    ValidateRefunds(s, e, e);
    SameSalesTally(s, v, e, t);
    WithdrawGross(v, e, r, t);
  }

  /** A split settlement freezes, with its fee, exactly the organizer's part of the volume. */
  lemma EnsureSettles(s: State, e: Symbol, r: Bps, t: Address)
    requires Ongoing(s, e, r, t) && e !in s.split.settled && EnsureSettled(s, e).Ok?
    ensures var u := EnsureSettled(s, e).value;
      u.split.settled[e].net + (At(u.money.platform, e) - At(s.money.platform, e))
      == Portion(Tally(s.records.payments, e, t, AMOUNT), r)
  {
    hide Inv, Capped, Validate, SettleNow, Portion, Tally;
    var v := Validate(s, e).value;
    ValidateMoves(s, e);
    ValidateBooks(s, e);
    ValidateRefunds(s, e, e);
    SameSalesTally(s, v, e, t);
    SettleGross(v, e, r, t);
  }

  /** Paying a share touches neither the frozen amount nor the fees. */
  lemma SharePlatform(s: State, e: Symbol, who: Address, to: Address)
    requires e in s.split.settled && PayShare(s, e, who, to).Ok?
    ensures var u := PayShare(s, e, who, to).value;
      u.split.settled == s.split.settled && u.split.splits == s.split.splits && u.money.platform == s.money.platform
  {
    hide ShareOf;
  }

  lemma SplitSettles(s: State, op: Op, e: Symbol, r: Bps, t: Address)
    requires Ongoing(s, e, r, t) && (op.DoWithdrawSplit? || op.DoResolve?)
    ensures var u := After(s, op);
      && (e in s.split.settled ==> e in u.split.settled) && u.split.splits == s.split.splits
      && (e in u.split.settled && e !in s.split.settled ==>
            && e in s.split.splits
            && u.split.settled[e].net + (At(u.money.platform, e) - At(s.money.platform, e))
               == Portion(Tally(s.records.payments, e, t, AMOUNT), r))
  {
    hide Inv, Capped, EnsureSettled, PayShare, BpsOf, ShareOf, Portion, Tally, CancelledAt;
    if Step(s, op).Ok? && !(op.DoResolve? && op.release) {
      var f := op.event;
      SettledBalance(s, f);
      var v := EnsureSettled(s, f).value;
      if op.DoWithdrawSplit? {
        SharePlatform(v, f, op.recipient, op.recipient);
      } else {
        SharePlatform(v, f, op.recipient, s.SplitsOf(f)[0].recipient);
      }
      if f == e && e !in s.split.settled { EnsureSettles(s, e, r, t); }
    }
  }

  /** Other operations settle nothing. */
  lemma OthersSettleNothing(s: State, op: Op, e: Symbol)
    requires Inv(s) && Allowed(s, op, e) && !(op.DoWithdrawSplit? || op.DoResolve?)
    ensures var u := After(s, op);
      && (e in u.split.settled <==> e in s.split.settled) && (e in u.split.splits <==> e in s.split.splits)
  {
    if SplitOp(op) {
      hide WellFormed, BpsOf, Inv;
    } else {
      hide After, Inv;
      OthersKeepSplit(s, op);
    }
  }

  lemma TimeoutsIs(s: State, f: Symbol)
    ensures After(s, DoTimeouts(f)) == Timeouts(s, f)
  {
    hide Timeouts;
  }

  lemma SalesStep(s: State, op: Op, e: Symbol, r: Bps, t: Address)
    requires InEra(s, e, r, t) && Allowed(s, op, e)
    ensures Capped(After(s, op), e, r) && SameSales(s, After(s, op), e)
  {
    hide Inv, CancelledAt, Capped, After, SameRefunds, SameSales;
    if op.DoPay? {
      PayStep(s, op.params, e, r, t);
    } else if op.DoRefund? || op.DoClaimRefund? || op.DoPostponementRefund? {
      RefundStep(s, op, e, r, t);
    } else if op.DoRaise? || op.DoApprove? || op.DoReject? {
      DisputesStep(s, op, e, r, t);
    } else if op.DoTimeouts? {
      TimeoutsStep(s, op.event, e, r, t);
      TimeoutsIs(s, op.event);
    } else {
      OtherPaymentsStep(s, op, e, r, t);
      SameRefundsCapped(s, After(s, op), e, r);
    }
  }

  lemma EraStepHolds(s: State, op: Op, e: Symbol, r: Bps, t: Address)
    requires Era(s, e, r, t) && Allowed(s, op, e)
    ensures EraStep(s, op, After(s, op), e, r, t)
  {
    hide Inv, Capped, SameSales, Step, Tally, Portion, Allowed;
    StepKeeps(s, op, t);
    SalesStep(s, op, e, r, t);
    EventStep(s, op, e, r, t);
    if op.DoWithdraw? && op.event == e {
      OthersSettleNothing(s, op, e);
      WithdrawStep(s, op, e, r, t);
    } else if op.DoWithdrawSplit? || op.DoResolve? {
      SplitSettles(s, op, e, r, t);
    } else {
      OthersSettleNothing(s, op, e);
    }
  }

  lemma SettledHasSplit(s: State, e: Symbol)
    requires Inv(s)
    ensures e in s.split.settled ==> e in s.split.splits
  {
    hide RecordsOk, BooksOk, DisputesOk, OwnersOk, WellFormed;
    assert e in s.split.settled ==> SettledOk(s.split, e);
  }

  lemma WithdrawStep(s: State, op: Op, e: Symbol, r: Bps, t: Address)
    requires Era(s, e, r, t) && op.DoWithdraw? && op.event == e
    ensures Step(s, op).Ok? ==> Settlements(s, op, e, t) == Portion(Tally(s.records.payments, e, t, AMOUNT), r)
    ensures Step(s, op).Ok? ==> !Settled(s, e) && e !in s.split.splits
    ensures Step(s, op).Err? ==> After(s, op) == s && Settlements(s, op, e, t) == 0
  {
    hide Inv, Capped, Tally, Portion, Validate, WithdrawNow, PayoutRatio;
    SettledHasSplit(s, e);
    if Step(s, op).Ok? { WithdrawSettles(s, op.organizer, e, r, t); }
  }

  // ---- Every run ----

  /** What the run settled for the event, fee included. */
  function TotalSettled(s: State, ops: seq<Op>, e: Symbol, t: Address): int {
    if ops == [] then 0
    else TotalSettled(s, ops[..|ops| - 1], e, t) + Settlements(Run(s, ops[..|ops| - 1]), ops[|ops| - 1], e, t)
  }

  /** Each operation is allowed in the state it meets. */
  ghost predicate AllAllowed(s: State, ops: seq<Op>, e: Symbol) {
    forall k :: 0 <= k < |ops| ==> Allowed(Run(s, ops[..k]), ops[k], e)
  }

  lemma {:induction false} EraRun(s: State, ops: seq<Op>, e: Symbol, r: Bps, t: Address)
    requires Era(s, e, r, t) && !Settled(s, e) && AllAllowed(s, ops, e)
    ensures Era(Run(s, ops), e, r, t)
    ensures Tally(Run(s, ops).records.payments, e, t, AMOUNT) == Tally(s.records.payments, e, t, AMOUNT)
    ensures TotalSettled(s, ops, e, t)
      == if Settled(Run(s, ops), e) then Portion(Tally(s.records.payments, e, t, AMOUNT), r) else 0
  {
    hide Era, After, Tally, Portion, Settled, Allowed, SameSales, Settlements;
    if ops != [] {
      var init := ops[..|ops| - 1];
      forall k | 0 <= k < |init| ensures Allowed(Run(s, init[..k]), init[k], e) {
        assert init[..k] == ops[..k] && Allowed(Run(s, ops[..k]), ops[k], e);
      }
      EraRun(s, init, e, r, t);
      assert Allowed(Run(s, ops[..|ops| - 1]), ops[|ops| - 1], e);
      EraStepHolds(Run(s, init), ops[|ops| - 1], e, r, t);
      SameSalesTally(Run(s, init), Run(s, ops), e, t);
    }
  }

  // ---- The main results ----

  ghost const CAP: Bps -> Payment -> int := (r: Bps) => (p: Payment) => Portion(p.amount, 10_000 - r)

  /** The refundable parts of the event's payments. */
  ghost function Refundable(pays: map<nat, Payment>, e: Symbol, t: Address, r: Bps): int { Tally(pays, e, t, CAP(r)) }

  lemma RefundsWithinCap(s: State, e: Symbol, r: Bps, t: Address)
    requires Inv(s) && Capped(s, e, r)
    ensures Tally(s.records.payments, e, t, REFUNDED) <= Refundable(s.records.payments, e, t, r)
  {
    hide Inv, Sum, Portion;
    SumMono(Part(s.records.payments, e, t, REFUNDED), Part(s.records.payments, e, t, CAP(r)));
  }

  lemma RefundableFits(s: State, e: Symbol, r: Bps, t: Address)
    requires Inv(s)
    ensures var (m, v) := (Part(s.records.payments, e, t, AMOUNT), Tally(s.records.payments, e, t, AMOUNT));
      v - |m| <= Refundable(s.records.payments, e, t, r) + Portion(v, r) <= v
  {
    hide BooksOk, DisputesOk, SplitsOk, OwnersOk, RecordsOk, Sum, Portion;
    var m := Part(s.records.payments, e, t, AMOUNT);
    forall i | i in m ensures m[i] >= 0 { RefundedInRange(s.records, i); }
    PartsFit(m, r);
    assert Part(s.records.payments, e, t, CAP(r)) == Portions(m, 10_000 - r);
  }

  /**
   From a cancellation without earlier refunds or settlement, through any interleaving of claims,
   administrator's refunds, disputes that are not approved, and the one settlement: refunds and
   settlement together never exceed the event's volume in the payout token.
   */
  lemma CancellationSolvent(s: State, ops: seq<Op>, e: Symbol, r: Bps, t: Address)
    requires Era(s, e, r, t) && !Settled(s, e) && AllAllowed(s, ops, e)
    ensures var b := Run(s, ops).money.BookOf(e, t);
      b.volume == s.money.BookOf(e, t).volume && b.refunds + TotalSettled(s, ops, e, t) <= b.volume
  {
    hide Inv, Capped, Tally, Run, Portion, Settled, AllAllowed, TotalSettled, Refundable, Money.BookOf;
    var u := Run(s, ops);
    EraRun(s, ops, e, r, t);
    BooksAre(s, e, t);
    BooksAre(u, e, t);
    RefundsWithinCap(u, e, r, t);
    RefundableFits(u, e, r, t);
    PoolNonNegative(u, e, t, r);
  }

  lemma BooksAre(s: State, e: Symbol, t: Address)
    requires Inv(s)
    ensures s.money.BookOf(e, t).volume == Tally(s.records.payments, e, t, AMOUNT)
    ensures s.money.BookOf(e, t).refunds == Tally(s.records.payments, e, t, REFUNDED)
  {
    hide RecordsOk, DisputesOk, SplitsOk, OwnersOk, Tally;
    assert BookOk(s.records.payments, s.money, e, t);
  }

  lemma PoolNonNegative(s: State, e: Symbol, t: Address, r: Bps)
    requires Inv(s)
    ensures Portion(Tally(s.records.payments, e, t, AMOUNT), r) >= 0
  {
    hide BooksOk, DisputesOk, SplitsOk, OwnersOk, RecordsOk, Sum, Portion;
    var m := Part(s.records.payments, e, t, AMOUNT);
    forall i | i in m ensures m[i] >= 0 { RefundedInRange(s.records, i); }
    SumNonNegative(m);
    PortionBounds(Sum(m), r);
  }

  /** Every payment of the event in the token got its refundable part. */
  ghost predicate AllClaimed(s: State, e: Symbol, r: Bps, t: Address) {
    forall i :: i in s.records.payments && s.records.payments[i].event == e && s.records.payments[i].token == t ==>
      s.records.payments[i].refunded == Portion(s.records.payments[i].amount, 10_000 - r)
  }

  /** Once all parts are claimed and the event is settled, at most one unit per payment is left over. */
  lemma ClaimedDust(s: State, ops: seq<Op>, e: Symbol, r: Bps, t: Address)
    requires Era(s, e, r, t) && !Settled(s, e) && AllAllowed(s, ops, e)
    requires AllClaimed(Run(s, ops), e, r, t) && Settled(Run(s, ops), e)
    ensures var b := Run(s, ops).money.BookOf(e, t);
      0 <= b.volume - b.refunds - TotalSettled(s, ops, e, t) <= |Part(Run(s, ops).records.payments, e, t, AMOUNT)|
  {
    hide Inv, Capped, Tally, Run, Portion, Settled, AllAllowed, TotalSettled, Refundable, Money.BookOf, AllClaimed;
    var u := Run(s, ops);
    EraRun(s, ops, e, r, t);
    BooksAre(u, e, t);
    ClaimedTally(u, e, r, t);
    RefundableFits(u, e, r, t);
  }

  lemma ClaimedTally(s: State, e: Symbol, r: Bps, t: Address)
    requires AllClaimed(s, e, r, t)
    ensures Tally(s.records.payments, e, t, REFUNDED) == Refundable(s.records.payments, e, t, r)
  {
    hide Sum, Portion;
    assert Part(s.records.payments, e, t, REFUNDED) == Part(s.records.payments, e, t, CAP(r));
  }

  // ---- Entitlements do not depend on the order ----

  /** A payer's claim brings the refund to the same amount whatever happened before, and is refused only for lack of funds. */
  lemma ClaimEntitlement(s: State, payer: Address, id: nat, e: Symbol, r: Bps, t: Address)
    requires Era(s, e, r, t) && id in s.records.payments && s.records.payments[id].event == e
    requires s.records.payments[id].payer == Some(payer) && s.records.payments[id].status == Held
    ensures var (p, cap) := (s.records.payments[id], Portion(s.records.payments[id].amount, 10_000 - r));
      && (ClaimRefund(s, payer, id).Ok? <==> p.refunded < cap && s.money.CanSend(p.token, cap - p.refunded))
      && (ClaimRefund(s, payer, id).Ok? ==>
            var u := ClaimRefund(s, payer, id).value;
            && u.records.payments[id] == p.(refunded := cap, status := Refunded)
            && At(u.money.wallets, (p.token, payer)) == At(s.money.wallets, (p.token, payer)) + cap - p.refunded)
  {
    hide BooksOk, DisputesOk, SplitsOk, OwnersOk, RecordsOk, Portion;
    RefundedInRange(s.records, id);
    PortionBounds(s.records.payments[id].amount, RefundBps(s, e));
  }

  /** Some revenue is left as long as the organizer's part is positive and unsettled. */
  lemma RevenueLeftForPool(s: State, e: Symbol, r: Bps, t: Address)
    requires Era(s, e, r, t) && s.ListOf(e) == []
    requires s.money.Revenue(e, t) >= Tally(s.records.payments, e, t, CONTRIBUTION)
    ensures s.money.Revenue(e, t) >= Portion(Tally(s.records.payments, e, t, AMOUNT), r)
  {
    hide BooksOk, SplitsOk, OwnersOk, RecordsOk, Tally, Portion, NoDuplicates, Money.Revenue;
    assert ListOk(s.disputes, e);
    RestSum(s, e, t);
    RefundsWithinCap(s, e, r, t);
    RefundableFits(s, e, r, t);
  }

  /** Without open disputes the contributions are the amounts less the refunds. */
  lemma RestSum(s: State, e: Symbol, t: Address)
    requires DisputesOk(s.records, s.disputes) && s.ListOf(e) == []
    ensures Tally(s.records.payments, e, t, CONTRIBUTION)
      == Tally(s.records.payments, e, t, AMOUNT) - Tally(s.records.payments, e, t, REFUNDED)
  {
    hide Sum, NoDuplicates;
    var pays := s.records.payments;
    assert ListOk(s.disputes, e);
    var (c, a, f) := (Part(pays, e, t, CONTRIBUTION), Part(pays, e, t, AMOUNT), Part(pays, e, t, REFUNDED));
    forall i | i in c ensures c[i] == a[i] - f[i] { assert i !in s.disputes.records; }
    SumDifference(c, a, f);
  }

  // ---- The revenue of the unsettled event ----

  /** The revenue is at least what the payments contribute; royalties may add to it. */
  ghost predicate RevenueCovers(s: State, e: Symbol, t: Address) {
    s.money.Revenue(e, t) >= Tally(s.records.payments, e, t, CONTRIBUTION)
  }

  lemma {:induction false} DrainElsewhere(m: Money, f: Symbol, to: Address, tokens: seq<Address>, e: Symbol, t: Address)
    requires f != e && Drain(m, f, to, tokens).Ok?
    ensures Drain(m, f, to, tokens).value.money.Revenue(e, t) == m.Revenue(e, t)
  {
    hide Money.CanSend;
    if tokens != [] { DrainElsewhere(m, f, to, tokens[..|tokens| - 1], e, t); }
  }

  /** Payments as after the timeouts, and the event's revenue not lower than then. */
  ghost predicate NotBelow(v: State, u: State, e: Symbol, t: Address) {
    u.records.payments == v.records.payments && u.money.Revenue(e, t) >= v.money.Revenue(e, t)
  }

  lemma NotBelowCovers(s: State, v: State, u: State, e: Symbol, t: Address)
    requires RevenueCovers(s, e, t) && Tracks(s, v) && NotBelow(v, u, e, t)
    ensures RevenueCovers(u, e, t)
  {
    hide Tally, Money.Revenue;
    TracksFollows(s, v, e, t);
  }

  lemma ValidateTracks(s: State, f: Symbol)
    requires Inv(s) && Validate(s, f).Ok?
    ensures Tracks(s, Validate(s, f).value)
  {
    hide Inv, Timeouts, BalancesCover, Tracks;
    TimeoutsTrack(s, f);
  }

  /** Payouts for another event. */
  lemma PayoutElsewhere(s: State, o: Address, f: Symbol, x: Address, e: Symbol, t: Address)
    requires f != e
    ensures Withdraw(s, o, f).Ok? ==> Validate(s, f).Ok? && NotBelow(Validate(s, f).value, Withdraw(s, o, f).value, e, t)
    ensures WithdrawRevenue(s, f, o).Ok? ==> Validate(s, f).Ok? && NotBelow(Validate(s, f).value, WithdrawRevenue(s, f, o).value, e, t)
    ensures WithdrawToken(s, o, f, x).Ok? ==> Validate(s, f).Ok? && NotBelow(Validate(s, f).value, WithdrawToken(s, o, f, x).value, e, t)
  {
    hide Validate, PayoutRatio, Gross, RevenueLeft, PlatformFee, Money.CanSend;
  }

  lemma DrainsElsewhere(s: State, o: Address, f: Symbol, e: Symbol, t: Address)
    requires f != e
    ensures ReleaseIfExpired(s, f).Ok? ==> Validate(s, f).Ok? && NotBelow(Validate(s, f).value, ReleaseIfExpired(s, f).value, e, t)
    ensures WithdrawAllTokens(s, o, f).Ok? ==> Validate(s, f).Ok? && NotBelow(Validate(s, f).value, WithdrawAllTokens(s, o, f).value, e, t)
  {
    hide Validate, Drain, Money.Revenue;
    if ReleaseIfExpired(s, f).Ok? {
      var v := Validate(s, f).value;
      DrainElsewhere(v.money, f, s.events.meta[f].organizer, v.TokensOf(f), e, t);
    }
    if WithdrawAllTokens(s, o, f).Ok? {
      var v := Validate(s, f).value;
      DrainElsewhere(v.money, f, o, v.TokensOf(f), e, t);
    }
  }

  lemma SettleElsewhere(s: State, f: Symbol, e: Symbol, t: Address)
    requires Inv(s) && f != e && EnsureSettled(s, f).Ok? && RevenueCovers(s, e, t)
    ensures RevenueCovers(EnsureSettled(s, f).value, e, t)
  {
    hide Inv, Validate, PayoutRatio, Gross, RevenueLeft, PlatformFee, Tracks, RevenueCovers;
    if f !in s.split.settled {
      ValidateTracks(s, f);
      NotBelowCovers(s, Validate(s, f).value, EnsureSettled(s, f).value, e, t);
    }
  }

  lemma ShareElsewhere(s: State, f: Symbol, who: Address, to: Address, e: Symbol, t: Address)
    requires f in s.split.settled && f != e && PayShare(s, f, who, to).Ok?
    ensures NotBelow(s, PayShare(s, f, who, to).value, e, t)
  {
    hide ShareOf, Money.CanSend;
  }

  lemma SplitElsewhere(s: State, op: Op, e: Symbol, t: Address)
    requires Inv(s) && (op.DoWithdrawSplit? || op.DoResolve?) && op.event != e && RevenueCovers(s, e, t)
    ensures RevenueCovers(After(s, op), e, t)
  {
    hide Inv, EnsureSettled, PayShare, BpsOf, Tally, Money.Revenue;
    if Step(s, op).Ok? && !(op.DoResolve? && op.release) {
      var f := op.event;
      SettleElsewhere(s, f, e, t);
      var to := if op.DoWithdrawSplit? then op.recipient else s.SplitsOf(f)[0].recipient;
      ShareElsewhere(EnsureSettled(s, f).value, f, op.recipient, to, e, t);
    }
  }

  lemma BuyRevenue(s: State, b: Address, tid: nat, x: bool, e: Symbol, t: Address)
    requires BuyResale(s, b, tid, x).Ok?
    ensures NotBelow(s, BuyResale(s, b, tid, x).value, e, t)
  {
    hide Proceeds, PlatformFee, Money.CanSend, Money.CanReceive, OwnerIndex.Add, OwnerIndex.RemoveCounted, Portion;
  }

  lemma ForgoesNothing(s: State, op: Op, e: Symbol, t: Address)
    requires Inv(s) && Allowed(s, op, e)
    ensures Forgone(s, op, e, t) == 0
  {
    hide BooksOk, SplitsOk, OwnersOk, RecordsOk, ListOk;
  }

  lemma RevenueStep(s: State, op: Op, e: Symbol, r: Bps, t: Address)
    requires Era(s, e, r, t) && Allowed(s, op, e) && RevenueCovers(s, e, t) && !Settled(After(s, op), e)
    ensures RevenueCovers(After(s, op), e, t)
  {
    hide Inv, Capped, SetupStep, Pay, AdminRefund, ClaimRefund, PostponementRefund, RaiseDispute,
         ApproveRefund, RejectDispute, Timeouts, Withdraw, WithdrawRevenue, ReleaseIfExpired, WithdrawToken,
         WithdrawAllTokens, WithdrawPlatformRevenue, SyncSplits, WithdrawSplit, ResolveFlagged, BuyResale, FlagCohost,
         RevenueCovers, Validate, Tracks, NotBelow;
    if PayoutFree(op) {
      ForgoesNothing(s, op, e, t);
      StepFollows(s, op, e, t);
      FollowsCovers(s, After(s, op), e, t);
    } else if Step(s, op).Ok? {
      TracksSelf(s);
      match op
      case DoWithdraw(o, f) => ElsewhereOrSettled(s, op, e, r, t); PayoutElsewhere(s, o, f, 0, e, t); Validated(s, op, f, e, t);
      case DoWithdrawRevenue(f, to) => PayoutElsewhere(s, to, f, 0, e, t); Validated(s, op, f, e, t);
      case DoRelease(f) => DrainsElsewhere(s, 0, f, e, t); Validated(s, op, f, e, t);
      case DoWithdrawToken(o, f, x) => ElsewhereOrSettled(s, op, e, r, t); PayoutElsewhere(s, o, f, x, e, t); Validated(s, op, f, e, t);
      case DoWithdrawAll(o, f) => ElsewhereOrSettled(s, op, e, r, t); DrainsElsewhere(s, o, f, e, t); Validated(s, op, f, e, t);
      case DoWithdrawSplit(w, f) => ElsewhereOrSettled(s, op, e, r, t); SplitElsewhere(s, op, e, t);
      case DoResolve(f, w, b) => ElsewhereOrSettled(s, op, e, r, t); SplitElsewhere(s, op, e, t);
      case DoBuy(b, tid, x) => BuyRevenue(s, b, tid, x, e, t); NotBelowCovers(s, s, After(s, op), e, t);
      case _ =>
    }
  }

  lemma FollowsCovers(s: State, u: State, e: Symbol, t: Address)
    requires Follows(s, u, e, t, 0) && RevenueCovers(s, e, t)
    ensures RevenueCovers(u, e, t)
  {
    hide Tally, Money.Revenue;
  }

  lemma Validated(s: State, op: Op, f: Symbol, e: Symbol, t: Address)
    requires Inv(s) && RevenueCovers(s, e, t) && Validate(s, f).Ok? && NotBelow(Validate(s, f).value, After(s, op), e, t)
    ensures RevenueCovers(After(s, op), e, t)
  {
    hide Inv, Validate, Tracks, NotBelow, RevenueCovers, After;
    ValidateTracks(s, f);
    NotBelowCovers(s, Validate(s, f).value, After(s, op), e, t);
  }

  /** A payout for the cancelled event itself settles it; full withdrawals are only for completed events. */
  lemma ElsewhereOrSettled(s: State, op: Op, e: Symbol, r: Bps, t: Address)
    requires Era(s, e, r, t) && Allowed(s, op, e) && Step(s, op).Ok? && !Settled(After(s, op), e)
    requires op.DoWithdraw? || op.DoWithdrawToken? || op.DoWithdrawAll? || op.DoWithdrawSplit? || op.DoResolve?
    ensures op.event != e || (op.DoResolve? && op.release)
    ensures op.DoWithdraw? || op.DoWithdrawToken? || op.DoWithdrawAll? ==> Validate(s, op.event).Ok?
  {
    hide Inv, Capped, Validate, EnsureSettled, PayShare, BpsOf, PayoutRatio, Drain, Money.Payout, Money.CanSend, Money.Revenue,
         WithdrawNow;
    if op.DoWithdraw? && op.event == e { EventStep(s, op, e, r, t); }
    if op.DoWithdrawSplit? {
      SettledBalance(s, op.event);
      SharePlatform(EnsureSettled(s, op.event).value, op.event, op.recipient, op.recipient);
    }
    if op.DoResolve? && !op.release {
      SettledBalance(s, op.event);
      SharePlatform(EnsureSettled(s, op.event).value, op.event, op.recipient, s.SplitsOf(op.event)[0].recipient);
    }
  }

  lemma {:induction false} EraRevenue(s: State, ops: seq<Op>, e: Symbol, r: Bps, t: Address)
    requires Era(s, e, r, t) && !Settled(s, e) && AllAllowed(s, ops, e) && RevenueCovers(s, e, t)
    requires !Settled(Run(s, ops), e)
    ensures RevenueCovers(Run(s, ops), e, t)
  {
    hide Era, After, Settled, Allowed, RevenueCovers, Settlements, Tally, Portion, SameSales;
    if ops != [] {
      var init := ops[..|ops| - 1];
      forall k | 0 <= k < |init| ensures Allowed(Run(s, init[..k]), init[k], e) {
        assert init[..k] == ops[..k] && Allowed(Run(s, ops[..k]), ops[k], e);
      }
      assert Allowed(Run(s, ops[..|ops| - 1]), ops[|ops| - 1], e);
      EraRun(s, init, e, r, t);
      EraStepHolds(Run(s, init), ops[|ops| - 1], e, r, t);
      EraRevenue(s, init, e, r, t);
      RevenueStep(Run(s, init), ops[|ops| - 1], e, r, t);
    }
  }

  /**
   The organizer's withdrawal from an unsettled cancelled event pays the same amount whatever was
   refunded before, and is never refused for lack of revenue while that amount is positive.
   */
  lemma WithdrawEntitlement(s: State, e: Symbol, r: Bps, t: Address)
    requires Era(s, e, r, t) && !Settled(s, e) && RevenueCovers(s, e, t) && e !in s.split.splits
    requires Portion(Tally(s.records.payments, e, t, AMOUNT), r) > 0
    ensures var (o, pool) := (s.events.config[e].organizer, Portion(Tally(s.records.payments, e, t, AMOUNT), r));
      && (Withdraw(s, o, e).Err? ==>
            Withdraw(s, o, e).error in {ContractPaused, EscrowNotExpired, RevenueInvariantViolated, ActiveDisputes, HostError})
      && (Withdraw(s, o, e).Ok? ==>
            var u := Withdraw(s, o, e).value;
            && u.money.BookOf(e, t).withdrawn == s.money.BookOf(e, t).withdrawn + NetAmount(pool, s.globals.feeBps)
            && At(u.money.wallets, (t, o)) == At(s.money.wallets, (t, o)) + NetAmount(pool, s.globals.feeBps)
            && At(u.money.platform, e) == At(s.money.platform, e) + PlatformFee(pool, s.globals.feeBps))
  {
    hide Inv, Capped, Validate, WithdrawNow, Portion, Tally, RevenueCovers, PlatformFee, NetAmount;
    var o := s.events.config[e].organizer;
    RatioPositive(s, e, r, t);
    ValidateError(s, e);
    if Validate(s, e).Ok? && Validate(s, e).value.ListOf(e) == [] {
      var v := Validate(s, e).value;
      ValidateMoves(s, e);
      ValidateBooks(s, e);
      ValidateBalance(s, e);
      ValidateRefunds(s, e, e);
      SameSalesTally(s, v, e, t);
      SameRefundsCapped(s, v, e, r);
      ValidateTracks(s, e);
      TracksSelf(v);
      NotBelowCovers(s, v, v, e, t);
      WithdrawNowEntitlement(v, e, r, t);
    }
  }

  lemma ValidateError(s: State, e: Symbol)
    ensures Validate(s, e).Err? ==> Validate(s, e).error == RevenueInvariantViolated
  {
    hide Timeouts, BalancesCover;
  }

  lemma RatioPositive(s: State, e: Symbol, r: Bps, t: Address)
    requires CancelledAt(s, e, r, t) && Portion(Tally(s.records.payments, e, t, AMOUNT), r) > 0
    ensures PayoutRatio(s, e) == if s.ledger < s.events.config[e].cancelLedger.value + MIN_DISPUTE_WINDOW_LEDGERS
                                 then Err(EscrowNotExpired) else Ok(r)
  {
    hide Tally;
  }

  lemma WithdrawNowEntitlement(s: State, e: Symbol, r: Bps, t: Address)
    requires Era(s, e, r, t) && RevenueCovers(s, e, t) && s.ListOf(e) == []
    requires Portion(Tally(s.records.payments, e, t, AMOUNT), r) > 0
    ensures var (o, pool) := (s.events.config[e].organizer, Portion(Tally(s.records.payments, e, t, AMOUNT), r));
      && (WithdrawNow(s, e, r).Err? ==> WithdrawNow(s, e, r).error == HostError)
      && (WithdrawNow(s, e, r).Ok? ==>
            var u := WithdrawNow(s, e, r).value;
            && u.money.BookOf(e, t).withdrawn == s.money.BookOf(e, t).withdrawn + NetAmount(pool, s.globals.feeBps)
            && At(u.money.wallets, (t, o)) == At(s.money.wallets, (t, o)) + NetAmount(pool, s.globals.feeBps)
            && At(u.money.platform, e) == At(s.money.platform, e) + PlatformFee(pool, s.globals.feeBps))
  {
    hide Inv, Capped, Portion, Tally, RevenueLeft, CancellationPool, RevenueCovers;
    UndisputedPool(s, e, t, r);
    CoversUnfold(s, e, t);
    RevenueLeftForPool(s, e, r, t);
    var pool := Portion(Tally(s.records.payments, e, t, AMOUNT), r);
    FeeWithinGross(pool, s.globals.feeBps);
  }

  lemma CoversUnfold(s: State, e: Symbol, t: Address)
    requires RevenueCovers(s, e, t)
    ensures s.money.Revenue(e, t) >= Tally(s.records.payments, e, t, CONTRIBUTION)
  {
  }

  /** Before the first payout and without approved disputes the revenue covers the payments. */
  lemma {:induction false} RevenueCoversBefore(s: State, ops: seq<Op>, e: Symbol, t: Address)
    requires Deployed(s) && forall i :: 0 <= i < |ops| ==> PayoutFree(ops[i]) && !ops[i].DoApprove?
    ensures Shortfall(s, ops, e, t) == 0 && RevenueCovers(Run(s, ops), e, t)
  {
    hide Deployed, Run, Tally, Step, Money.Revenue;
    if ops != [] { RevenueCoversBefore(s, ops[..|ops| - 1], e, t); }
    RevenueFormula(s, ops, e, t);
  }

  // ---- From deployment ----

  /** Cancelling an event without refunds or settlement starts the era, with the elapsed fraction as ratio. */
  lemma CancelStartsEra(s: State, e: Symbol, o: Address)
    requires Inv(s) && CancelEvent(s, e, o).Ok? && !Settled(s, e)
    requires forall i :: i in s.records.payments && s.records.payments[i].event == e ==> s.records.payments[i].refunded == 0
    ensures var (u, c) := (CancelEvent(s, e, o).value, s.events.config[e]);
      Era(u, e, CancelRatio(c, s.ledger), c.payoutToken) && !Settled(u, e)
  {
    hide RecordsOk, BooksOk, DisputesOk, SplitsOk, OwnersOk, CancelRatio, Portion;
    var (u, r) := (CancelEvent(s, e, o).value, CancelRatio(s.events.config[e], s.ledger));
    forall i | i in u.records.payments && u.records.payments[i].event == e
      ensures u.records.payments[i].refunded <= Portion(u.records.payments[i].amount, 10_000 - r)
    {
      RefundedInRange(s.records, i);
      PortionBounds(s.records.payments[i].amount, 10_000 - r);
    }
  }

  /**
   From deployment: whatever happened before, once an event without refunds or settlement is cancelled,
   refunds and settlement together never exceed its volume in the payout token.
   */
  lemma CancelledEventSolvent(s: State, before: seq<Op>, e: Symbol, o: Address, ops: seq<Op>)
    requires Deployed(s)
    requires var u := Run(s, before);
      && CancelEvent(u, e, o).Ok? && !Settled(u, e)
      && (forall i :: i in u.records.payments && u.records.payments[i].event == e ==> u.records.payments[i].refunded == 0)
      && AllAllowed(CancelEvent(u, e, o).value, ops, e)
    ensures var (c, t) := (CancelEvent(Run(s, before), e, o).value, Run(s, before).events.config[e].payoutToken);
      var b := Run(c, ops).money.BookOf(e, t);
      b.volume == c.money.BookOf(e, t).volume && b.refunds + TotalSettled(c, ops, e, t) <= b.volume
  {
    hide Run, Inv, CancelEvent, Settled, AllAllowed, TotalSettled, Money.BookOf;
    var u := Run(s, before);
    RunInv(s, before);
    assert e in u.events.config by { CancelNeedsConfig(u, e, o); }
    CancelStartsEra(u, e, o);
    CancellationSolvent(CancelEvent(u, e, o).value, ops, e, CancelRatio(u.events.config[e], u.ledger),
                        u.events.config[e].payoutToken);
  }

  lemma CancelNeedsConfig(s: State, e: Symbol, o: Address)
    requires CancelEvent(s, e, o).Ok?
    ensures e in s.events.config
  {
  }
}

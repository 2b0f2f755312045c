/** The books of one event over every run, payouts included. */
module EscrowAccounts {
  import opened Ledger
  import opened MapSums
  import opened OwnerIndexes
  import opened RevenueSplits
  import opened PaymentsSpec
  import opened EscrowLedger
  import opened EscrowInvariants
  import opened EscrowDisputes
  import opened EscrowSplits
  import opened EscrowCancellation

  // ---- What an event's tokens are held for ----

  const DISPUTED: Payment -> int := (p: Payment) => if p.status == Disputed then p.amount else 0
  const KEPT: Payment -> int := (p: Payment) => p.amount - p.refunded

  /** What the books of an event expect the contract to hold in a token. */
  function Net(s: State, e: Symbol, t: Address): int { Expected(s.money.BookOf(e, t)) }

  /** Platform fees of the event not yet paid out; they are held in the accepted token. */
  function Fees(s: State, e: Symbol, t: Address): int {
    if t == s.globals.acceptedToken then At(s.money.platform, e) else 0
  }

  /** The frozen net amount not yet paid to recipients. */
  function Unpaid(s: State, e: Symbol, t: Address): int {
    if e in s.split.settled && s.split.settled[e].token == t then s.split.settled[e].net - PaidTotal(s, e) else 0
  }

  /** What has left the revenue for good: paid out, or owed to platform and recipients. */
  function Committed(s: State, e: Symbol, t: Address): int {
    s.money.BookOf(e, t).withdrawn + Fees(s, e, t) + Unpaid(s, e, t)
  }

  /** Revenue and commitments against what the payments contribute. */
  ghost function Position(s: State, e: Symbol, t: Address): int {
    s.money.Revenue(e, t) + Committed(s, e, t) - Tally(s.records.payments, e, t, CONTRIBUTION)
  }

  /** Payout and settlement tokens are the accepted token. */
  ghost predicate TokensOk(s: State) {
    && (forall e :: e in s.events.config ==> s.events.config[e].payoutToken == s.globals.acceptedToken)
    && (forall e :: e in s.split.settled ==> s.split.settled[e].token == s.globals.acceptedToken)
  }

  /** The position moves by `d`. */
  ghost predicate Shifts(s: State, u: State, e: Symbol, t: Address, d: int) {
    Position(u, e, t) == Position(s, e, t) + d
  }

  lemma SameCommitted(s: State, u: State, e: Symbol, t: Address)
    requires u.money.platform == s.money.platform && u.split.settled == s.split.settled && PaidTotal(u, e) == PaidTotal(s, e)
    requires u.money.BookOf(e, t).withdrawn == s.money.BookOf(e, t).withdrawn
    requires u.globals.acceptedToken == s.globals.acceptedToken
    ensures Committed(u, e, t) == Committed(s, e, t)
  {
    hide PaidTotal, Money.BookOf;
  }

  lemma FollowsShifts(s: State, u: State, e: Symbol, t: Address, forgone: int)
    requires Follows(s, u, e, t, forgone) && Committed(u, e, t) == Committed(s, e, t)
    ensures Shifts(s, u, e, t, -forgone)
  {
    hide Committed, Tally, Money.Revenue;
  }

  lemma ShiftsThen(s: State, u: State, v: State, e: Symbol, t: Address, d: int, c: int)
    requires Shifts(s, u, e, t, d) && Shifts(u, v, e, t, c)
    ensures Shifts(s, v, e, t, d + c)
  {
    hide Position;
  }

  // ---- Operations that pay nothing out ----

  lemma PayKeepsBooks(s: State, p: PaymentParams, e: Symbol, t: Address)
    ensures Pay(s, p).Ok? ==> SameBooksOut(s, Pay(s, p).value, e, t)
  {
    hide CheckPayment, BuildPayment, AddToken, Remember, OwnerIndex.Add;
  }

  lemma RefundsKeepBooks(s: State, a: Address, id: nat, x: Option<int>, e: Symbol, t: Address)
    ensures AdminRefund(s, a, id, x).Ok? ==> SameBooksOut(s, AdminRefund(s, a, id, x).value, e, t)
    ensures ClaimRefund(s, a, id).Ok? ==> SameBooksOut(s, ClaimRefund(s, a, id).value, e, t)
    ensures PostponementRefund(s, a, id).Ok? ==> SameBooksOut(s, PostponementRefund(s, a, id).value, e, t)
  {
    hide Money.CanSend, Portion, PaidOut, MaxRefund;
  }

  lemma DisputesKeepBooks(s: State, id: nat, r: nat, b: bool, e: Symbol, t: Address)
    ensures RaiseDispute(s, id, r, b).Ok? ==> SameBooksOut(s, RaiseDispute(s, id, r, b).value, e, t)
    ensures ApproveRefund(s, id).Ok? ==> SameBooksOut(s, ApproveRefund(s, id).value, e, t)
    ensures RejectDispute(s, id).Ok? ==> SameBooksOut(s, RejectDispute(s, id).value, e, t)
  {
    hide Money.CanSend, Without, Expired;
  }

  /** Nothing withdrawn, no fee booked. */
  ghost predicate SameBooksOut(s: State, u: State, e: Symbol, t: Address) {
    && u.money.platform == s.money.platform && u.globals.acceptedToken == s.globals.acceptedToken
    && u.money.BookOf(e, t).withdrawn == s.money.BookOf(e, t).withdrawn
  }

  lemma SameOut(s: State, u: State, e: Symbol, t: Address)
    requires SameBooksOut(s, u, e, t) && u.split == s.split
    ensures Committed(u, e, t) == Committed(s, e, t)
  {
    hide Money.BookOf, PaidSum;
    SameCommitted(s, u, e, t);
  }

  lemma TimeoutsOut(s: State, f: Symbol, e: Symbol, t: Address)
    ensures Committed(Timeouts(s, f), e, t) == Committed(s, e, t)
  {
    hide Committed, ExpireList, AnyExpired, Remaining, Money.BookOf;
    ExpireListBooks(s, f, s.ListOf(f));
    TimeoutsFrame(s, f);
    SameOut(s, Timeouts(s, f), e, t);
  }

  lemma SetupOut(s: State, x: Setup, e: Symbol, t: Address)
    requires SetupStep(s, x).Ok?
    ensures Committed(SetupStep(s, x).value, e, t) == Committed(s, e, t)
  {
    hide CancelRatio, Committed;
    SetupPayments(s, x);
    SetupKeepsSplit(s, x);
    SameOut(s, SetupStep(s, x).value, e, t);
  }

  lemma PlatformOut(s: State, f: Symbol, e: Symbol, t: Address)
    requires WithdrawPlatformRevenue(s, f).Ok?
    ensures Committed(WithdrawPlatformRevenue(s, f).value, e, t) == Committed(s, e, t)
  {
    hide PaidSum;
  }

  lemma SplitSetupOut(s: State, op: Op, e: Symbol, t: Address)
    requires Inv(s) && (op.DoSyncSplits? || op.DoFlag? || (op.DoResolve? && op.release))
    ensures Committed(After(s, op), e, t) == Committed(s, e, t)
  {
    hide RecordsOk, BooksOk, DisputesOk, OwnersOk, WellFormed, BpsOf, PaidSum;
    if op.DoSyncSplits? && Step(s, op).Ok? {
      SyncStep(s, op.caller, op.event, op.splits, e, 0);
    }
    SameCommitted(s, After(s, op), e, t);
  }

  /** Without a payout nothing becomes committed. */
  lemma QuietOut(s: State, op: Op, e: Symbol, t: Address)
    requires Inv(s) && PayoutFree(op)
    ensures Committed(After(s, op), e, t) == Committed(s, e, t)
  {
    hide Inv, Committed, SetupStep, Pay, AdminRefund, ClaimRefund, PostponementRefund, RaiseDispute, ApproveRefund,
         RejectDispute, Timeouts, WithdrawPlatformRevenue, SyncSplits, FlagCohost, ResolveFlagged;
    if op.DoSyncSplits? || op.DoFlag? || op.DoResolve? {
      SplitSetupOut(s, op, e, t);
    } else if Step(s, op).Ok? {
      var u := After(s, op);
      match op
      case DoSetup(x) => SetupOut(s, x, e, t);
      case DoTimeouts(f) => TimeoutsOut(s, f, e, t);
      case DoWithdrawPlatform(f) => PlatformOut(s, f, e, t);
      case DoAdvance(l, d) => SameOut(s, u, e, t);
      case DoPay(p) => PayKeepsBooks(s, p, e, t); OthersKeepSplit(s, op); SameOut(s, u, e, t);
      case DoRefund(a, id, x) => RefundsKeepBooks(s, a, id, x, e, t); OthersKeepSplit(s, op); SameOut(s, u, e, t);
      case DoClaimRefund(p, id) => RefundsKeepBooks(s, p, id, None, e, t); OthersKeepSplit(s, op); SameOut(s, u, e, t);
      case DoPostponementRefund(c, id) => RefundsKeepBooks(s, c, id, None, e, t); OthersKeepSplit(s, op); SameOut(s, u, e, t);
      case DoRaise(id, r, b) => DisputesKeepBooks(s, id, r, b, e, t); OthersKeepSplit(s, op); SameOut(s, u, e, t);
      case DoApprove(id) => DisputesKeepBooks(s, id, 0, false, e, t); OthersKeepSplit(s, op); SameOut(s, u, e, t);
      case DoReject(id) => DisputesKeepBooks(s, id, 0, false, e, t); OthersKeepSplit(s, op); SameOut(s, u, e, t);
      case _ =>
    }
  }

  // ---- Payouts ----

  /** The validated state holds the same position. */
  lemma ValidateShifts(s: State, f: Symbol, e: Symbol, t: Address)
    requires Inv(s) && Validate(s, f).Ok?
    ensures Shifts(s, Validate(s, f).value, e, t, 0)
  {
    hide Inv, Committed, Follows, Timeouts, BalancesCover, Tracks, Shifts;
    TimeoutsTrack(s, f);
    TracksFollows(s, Timeouts(s, f), e, t);
    TimeoutsOut(s, f, e, t);
    FollowsShifts(s, Timeouts(s, f), e, t, 0);
  }

  /** Revenue plus withdrawals plus fees move by `d`, payments and splits not at all. */
  ghost predicate Booked(s: State, u: State, e: Symbol, t: Address, d: int) {
    && u.records.payments == s.records.payments && u.split == s.split
    && u.globals.acceptedToken == s.globals.acceptedToken
    && u.money.Revenue(e, t) + u.money.BookOf(e, t).withdrawn + Fees(u, e, t)
       == s.money.Revenue(e, t) + s.money.BookOf(e, t).withdrawn + Fees(s, e, t) + d
  }

  lemma BookedShifts(s: State, u: State, e: Symbol, t: Address, d: int)
    requires Booked(s, u, e, t, d)
    ensures Shifts(s, u, e, t, d)
  {
    hide Tally, Fees, PaidSum, Money.Revenue, Money.BookOf;
  }

  /** A settlement at the full ratio of a cancelled event empties the revenue but pays from the whole volume. */
  function PoolShift(s: State, e: Symbol, t: Address): int {
    if e in s.events.config && s.events.config[e].payoutToken == t && s.StatusOf(e) == Some(Cancelled)
       && s.events.config[e].ratio == Some(TOTAL_BASIS_POINTS)
    then s.money.BookOf(e, t).volume - s.money.Revenue(e, t) else 0
  }

  lemma PortionAll(a: int)
    ensures Portion(a, TOTAL_BASIS_POINTS) == a
  {
  }

  /** What a settlement takes and what it leaves on the books. */
  lemma GrossLeft(s: State, e: Symbol, ratio: Bps, t: Address)
    requires e in s.events.config && t == s.events.config[e].payoutToken && PayoutRatio(s, e) == Ok(ratio)
    requires s.ListOf(e) == []
    ensures Gross(s, e, t, ratio) + RevenueLeft(s, e, t, ratio, Gross(s, e, t, ratio)) == s.money.Revenue(e, t) + PoolShift(s, e, t)
  {
    hide Portion;
    PortionAll(s.money.Revenue(e, t));
    PortionAll(s.money.BookOf(e, t).volume);
  }

  lemma WithdrawNowBooked(s: State, f: Symbol, ratio: Bps, e: Symbol, t: Address)
    requires f in s.events.config && PayoutRatio(s, f) == Ok(ratio) && s.ListOf(f) == [] && WithdrawNow(s, f, ratio).Ok?
    requires s.events.config[f].payoutToken == s.globals.acceptedToken
    ensures Booked(s, WithdrawNow(s, f, ratio).value, e, t, if f == e then PoolShift(s, e, t) else 0)
  {
    hide Gross, RevenueLeft, PlatformFee, PayoutRatio, Money.CanSend;
    var c := s.events.config[f];
    GrossLeft(s, f, ratio, c.payoutToken);
    var gross := Gross(s, f, c.payoutToken, ratio);
    FeeWithinGross(gross, s.globals.feeBps);
  }

  lemma SameRatio(s: State, u: State, e: Symbol)
    requires e in s.events.config && u.events == s.events && u.ledger == s.ledger
    ensures PayoutRatio(u, e) == PayoutRatio(s, e)
  {
  }

  lemma WithdrawShifts(s: State, o: Address, f: Symbol, e: Symbol, t: Address)
    requires Inv(s) && TokensOk(s) && Withdraw(s, o, f).Ok?
    ensures Shifts(s, Withdraw(s, o, f).value, e, t, if f == e then PoolShift(Timeouts(s, e), e, t) else 0)
  {
    hide Inv, Shifts, Booked, PoolShift, WithdrawNow, PayoutRatio, Timeouts, BalancesCover;
    var v := Validate(s, f).value;
    ValidateShifts(s, f, e, t);
    ValidateBalance(s, f);
    SameRatio(s, v, f);
    WithdrawNowBooked(v, f, PayoutRatio(s, f).value, e, t);
    BookedShifts(v, Withdraw(s, o, f).value, e, t, if f == e then PoolShift(v, e, t) else 0);
    ShiftsThen(s, v, Withdraw(s, o, f).value, e, t, 0, if f == e then PoolShift(v, e, t) else 0);
  }

  lemma RevenueNowBooked(s: State, f: Symbol, to: Address, e: Symbol, t: Address)
    requires WithdrawRevenueNow(s, f, to).Ok?
    ensures Booked(s, WithdrawRevenueNow(s, f, to).value, e, t, 0)
  {
    hide PlatformFee, Money.CanSend;
    FeeWithinGross(s.money.Revenue(f, s.globals.acceptedToken), s.globals.feeBps);
  }

  lemma WithdrawRevenueShifts(s: State, f: Symbol, to: Address, e: Symbol, t: Address)
    requires Inv(s) && WithdrawRevenue(s, f, to).Ok?
    ensures Shifts(s, WithdrawRevenue(s, f, to).value, e, t, 0)
  {
    hide Inv, Shifts, Booked, WithdrawRevenueNow, Validate;
    var v := Validate(s, f).value;
    ValidateShifts(s, f, e, t);
    RevenueNowBooked(v, f, to, e, t);
    BookedShifts(v, WithdrawRevenue(s, f, to).value, e, t, 0);
    ShiftsThen(s, v, WithdrawRevenue(s, f, to).value, e, t, 0, 0);
  }

  lemma {:induction false} DrainBooked(m: Money, f: Symbol, to: Address, tokens: seq<Address>, e: Symbol, t: Address)
    requires Drain(m, f, to, tokens).Ok?
    ensures var n := Drain(m, f, to, tokens).value.money;
      n.platform == m.platform
      && n.Revenue(e, t) + n.BookOf(e, t).withdrawn == m.Revenue(e, t) + m.BookOf(e, t).withdrawn
  {
    hide Money.CanSend;
    if tokens != [] { DrainBooked(m, f, to, tokens[..|tokens| - 1], e, t); }
  }

  lemma ReleaseShifts(s: State, f: Symbol, e: Symbol, t: Address)
    requires Inv(s) && ReleaseIfExpired(s, f).Ok?
    ensures Shifts(s, ReleaseIfExpired(s, f).value, e, t, 0)
  {
    hide Inv, Shifts, Validate, Drain, Money.BookOf, Money.Revenue;
    var v := Validate(s, f).value;
    ValidateShifts(s, f, e, t);
    DrainBooked(v.money, f, s.events.meta[f].organizer, v.TokensOf(f), e, t);
    BookedShifts(v, ReleaseIfExpired(s, f).value, e, t, 0);
    ShiftsThen(s, v, ReleaseIfExpired(s, f).value, e, t, 0, 0);
  }

  lemma WithdrawAllShifts(s: State, o: Address, f: Symbol, e: Symbol, t: Address)
    requires Inv(s) && WithdrawAllTokens(s, o, f).Ok?
    ensures Shifts(s, WithdrawAllTokens(s, o, f).value, e, t, 0)
  {
    hide Inv, Shifts, Validate, Drain, Money.BookOf, Money.Revenue;
    var v := Validate(s, f).value;
    ValidateShifts(s, f, e, t);
    DrainBooked(v.money, f, o, v.TokensOf(f), e, t);
    BookedShifts(v, WithdrawAllTokens(s, o, f).value, e, t, 0);
    ShiftsThen(s, v, WithdrawAllTokens(s, o, f).value, e, t, 0, 0);
  }

  lemma WithdrawTokenShifts(s: State, o: Address, f: Symbol, x: Address, e: Symbol, t: Address)
    requires Inv(s) && WithdrawToken(s, o, f, x).Ok?
    ensures Shifts(s, WithdrawToken(s, o, f, x).value, e, t, 0)
  {
    hide Inv, Shifts, Validate, Money.CanSend;
    var v := Validate(s, f).value;
    ValidateShifts(s, f, e, t);
    BookedShifts(v, WithdrawToken(s, o, f, x).value, e, t, 0);
    ShiftsThen(s, v, WithdrawToken(s, o, f, x).value, e, t, 0, 0);
  }

  // ---- Splits ----

  lemma SettleNowShifts(s: State, f: Symbol, ratio: Bps, e: Symbol, t: Address)
    requires Inv(s) && f in s.events.config && PayoutRatio(s, f) == Ok(ratio) && s.ListOf(f) == []
    requires SettleNow(s, f, ratio).Ok? && f in s.split.splits && f !in s.split.settled
    requires s.events.config[f].payoutToken == s.globals.acceptedToken
    ensures Shifts(s, SettleNow(s, f, ratio).value, e, t, if f == e then PoolShift(s, e, t) else 0)
  {
    hide RecordsOk, BooksOk, DisputesOk, OwnersOk, SettledOk, SplitOk, Gross, RevenueLeft, PlatformFee, PayoutRatio, Tally, PaidSum;
    var x := s.events.config[f].payoutToken;
    GrossLeft(s, f, ratio, x);
    FeeWithinGross(Gross(s, f, x, ratio), s.globals.feeBps);
    PaidSumEmpty(s.SplitsOf(f));
  }

  lemma EnsureShifts(s: State, f: Symbol, e: Symbol, t: Address)
    requires Inv(s) && TokensOk(s) && f in s.split.splits && EnsureSettled(s, f).Ok?
    ensures Shifts(s, EnsureSettled(s, f).value, e, t,
                   if f == e && e !in s.split.settled then PoolShift(Timeouts(s, e), e, t) else 0)
  {
    hide Inv, Shifts, PoolShift, SettleNow, PayoutRatio, Timeouts, BalancesCover;
    if f !in s.split.settled {
      var v := Validate(s, f).value;
      ValidateShifts(s, f, e, t);
      ValidateMoves(s, f);
      SameRatio(s, v, f);
      SettleNowShifts(v, f, PayoutRatio(s, f).value, e, t);
      ShiftsThen(s, v, EnsureSettled(s, f).value, e, t, 0, if f == e then PoolShift(v, e, t) else 0);
    } else {
      ShiftsSelf(s, e, t);
    }
  }

  lemma ShiftsSelf(s: State, e: Symbol, t: Address)
    ensures Shifts(s, s, e, t, 0)
  {
    hide Position;
  }

  lemma ShareShifts(s: State, f: Symbol, who: Address, to: Address, e: Symbol, t: Address)
    requires Inv(s) && f in s.split.settled && PayShare(s, f, who, to).Ok?
    requires BpsOf(s.SplitsOf(f), who).Some? && !WasPaid(s, f, who)
    ensures Shifts(s, PayShare(s, f, who, to).value, e, t, 0)
  {
    hide Inv, PaidSum, Tally, BpsOf, ShareOf;
    SharePaid(s, f, who, to);
  }

  lemma SplitShifts(s: State, op: Op, e: Symbol, t: Address)
    requires Inv(s) && TokensOk(s) && (op.DoWithdrawSplit? || (op.DoResolve? && !op.release)) && Step(s, op).Ok?
    ensures Shifts(s, After(s, op), e, t,
                   if op.event == e && e !in s.split.settled then PoolShift(Timeouts(s, e), e, t) else 0)
  {
    hide Inv, Shifts, PoolShift, EnsureSettled, PayShare, BpsOf, PaidSum, ShareOf, Timeouts;
    var f := op.event;
    var u := EnsureSettled(s, f).value;
    var d := if f == e && e !in s.split.settled then PoolShift(Timeouts(s, e), e, t) else 0;
    var to := if op.DoWithdrawSplit? then op.recipient else s.SplitsOf(f)[0].recipient;
    SettleMoves(s, f);
    SettledBalance(s, f);
    EnsureShifts(s, f, e, t);
    ShareShifts(u, f, op.recipient, to, e, t);
    var v := PayShare(u, f, op.recipient, to).value;
    ShiftsThen(s, u, v, e, t, d, 0);
    if op.DoResolve? {
      FlagsShift(v, v.split.flagged - {(f, op.recipient)}, e, t);
      ShiftsThen(s, v, After(s, op), e, t, d, 0);
    }
  }

  lemma FlagsShift(s: State, flagged: set<(Symbol, Address)>, e: Symbol, t: Address)
    ensures Shifts(s, s.(split := s.split.(flagged := flagged)), e, t, 0)
  {
    hide PaidSum, Tally;
  }

  // ---- Resale ----

  /** Fee and royalty of a resale, which are booked without volume. */
  function ResaleBooked(s: State, op: Op, e: Symbol, t: Address): int {
    if !op.DoBuy? || Step(s, op).Err? || op.ticket !in s.listings || op.ticket !in s.records.tickets then 0
    else
      var price := s.listings[op.ticket].price;
      if price <= 0 || s.records.tickets[op.ticket].event != e || e !in s.events.config
         || s.events.config[e].payoutToken != t then 0
      else PlatformFee(price, s.globals.feeBps) + Portion(price, s.events.config[e].royaltyBps)
  }

  lemma TradeBooked(s: State, f: Symbol, seller: Address, buyer: Address, price: int, e: Symbol, t: Address)
    requires f in s.events.config && s.events.config[f].payoutToken == s.globals.acceptedToken
    requires Trade(s, f, seller, buyer, price).Ok?
    ensures Booked(s, s.(money := Trade(s, f, seller, buyer, price).value), e, t,
      if price > 0 && f == e && t == s.globals.acceptedToken
      then PlatformFee(price, s.globals.feeBps) + Portion(price, s.events.config[f].royaltyBps) else 0)
  {
    hide Proceeds, PlatformFee, Portion, Money.CanSend, Money.CanReceive;
    if price > 0 {
      FeeWithinGross(price, s.globals.feeBps);
      RoyaltyNonNegative(price, s.events.config[f].royaltyBps);
    }
  }

  lemma BuyShifts(s: State, b: Address, tid: nat, x: bool, e: Symbol, t: Address)
    requires Inv(s) && TokensOk(s) && BuyResale(s, b, tid, x).Ok?
    ensures Shifts(s, BuyResale(s, b, tid, x).value, e, t, ResaleBooked(s, DoBuy(b, tid, x), e, t))
  {
    hide Inv, Trade, PlatformFee, Portion, OwnerIndex.Add, OwnerIndex.RemoveCounted, Shifts, Booked;
    var (f, l) := (s.records.tickets[tid].event, s.listings[tid]);
    var u := s.(money := Trade(s, f, l.seller, b, l.price).value);
    TradeBooked(s, f, l.seller, b, l.price, e, t);
    BookedShifts(s, u, e, t, ResaleBooked(s, DoBuy(b, tid, x), e, t));
    MovedShifts(u, tid, l.seller, b, e, t);
    ShiftsThen(s, u, BuyResale(s, b, tid, x).value, e, t, ResaleBooked(s, DoBuy(b, tid, x), e, t), 0);
  }

  lemma MovedShifts(s: State, tid: nat, seller: Address, buyer: Address, e: Symbol, t: Address)
    requires tid in s.records.tickets
    ensures Shifts(s, MoveTicket(s, tid, seller, buyer), e, t, 0)
  {
    hide PaidSum, Tally, OwnerIndex.Add, OwnerIndex.RemoveCounted;
  }

  // ---- The law ----

  /** The operation settles the event, by a withdrawal or by freezing its split. */
  predicate Settles(s: State, op: Op, e: Symbol) {
    && Step(s, op).Ok?
    && ((op.DoWithdraw? && op.event == e)
        || ((op.DoWithdrawSplit? || (op.DoResolve? && !op.release)) && op.event == e && e !in s.split.settled))
  }

  /** What an operation adds to the event's books beyond revenue, disputes, fees and unpaid shares. */
  function Drift(s: State, op: Op, e: Symbol, t: Address): int {
    Forgone(s, op, e, t) - ResaleBooked(s, op, e, t) - if Settles(s, op, e) then PoolShift(Timeouts(s, e), e, t) else 0
  }

  function TotalDrift(s: State, ops: seq<Op>, e: Symbol, t: Address): int {
    if ops == [] then 0
    else TotalDrift(s, ops[..|ops| - 1], e, t) + Drift(Run(s, ops[..|ops| - 1]), ops[|ops| - 1], e, t)
  }

  lemma QuietShifts(s: State, op: Op, e: Symbol, t: Address)
    requires Inv(s) && PayoutFree(op)
    ensures Shifts(s, After(s, op), e, t, -Forgone(s, op, e, t))
  {
    hide Inv, Committed, Follows, After, Shifts, Forgone;
    StepFollows(s, op, e, t);
    QuietOut(s, op, e, t);
    FollowsShifts(s, After(s, op), e, t, Forgone(s, op, e, t));
  }

  lemma StepShifts(s: State, op: Op, e: Symbol, t: Address)
    requires Inv(s) && TokensOk(s)
    ensures Shifts(s, After(s, op), e, t, -Drift(s, op, e, t))
  {
    hide Inv, TokensOk, Shifts, PoolShift, SetupStep, Pay, AdminRefund, ClaimRefund, PostponementRefund, RaiseDispute, ApproveRefund,
         RejectDispute, Timeouts, Withdraw, WithdrawRevenue, ReleaseIfExpired, WithdrawToken, WithdrawAllTokens,
         WithdrawPlatformRevenue, SyncSplits, WithdrawSplit, FlagCohost, ResolveFlagged, BuyResale, PlatformFee, Portion;
    if PayoutFree(op) {
      QuietShifts(s, op, e, t);
    } else if Step(s, op).Ok? {
      match op
      case DoWithdraw(o, f) => WithdrawShifts(s, o, f, e, t);
      case DoWithdrawRevenue(f, to) => WithdrawRevenueShifts(s, f, to, e, t);
      case DoRelease(f) => ReleaseShifts(s, f, e, t);
      case DoWithdrawToken(o, f, x) => WithdrawTokenShifts(s, o, f, x, e, t);
      case DoWithdrawAll(o, f) => WithdrawAllShifts(s, o, f, e, t);
      case DoWithdrawSplit(w, f) => SplitShifts(s, op, e, t);
      case DoResolve(f, w, b) => SplitShifts(s, op, e, t);
      case DoBuy(b, tid, x) => BuyShifts(s, b, tid, x, e, t);
    } else {
      ShiftsSelf(s, e, t);
    }
  }

  // ---- Tokens ----

  /** The accepted token never changes, and configurations and settlements keep their token. */
  ghost predicate SameTokens(s: State, u: State) {
    && u.globals.acceptedToken == s.globals.acceptedToken
    && (forall e :: e in u.events.config ==>
          (e in s.events.config && u.events.config[e].payoutToken == s.events.config[e].payoutToken)
          || u.events.config[e].payoutToken == s.globals.acceptedToken)
    && (forall e :: e in u.split.settled ==>
          (e in s.split.settled && u.split.settled[e] == s.split.settled[e])
          || (e in s.events.config && u.split.settled[e].token == s.events.config[e].payoutToken))
  }

  lemma TokensKept(s: State, u: State)
    requires TokensOk(s) && SameTokens(s, u)
    ensures TokensOk(u)
  {
  }

  lemma SetupTokens(s: State, x: Setup)
    requires SetupStep(s, x).Ok?
    ensures SameTokens(s, SetupStep(s, x).value)
  {
    hide CancelRatio;
  }

  lemma PayTokens(s: State, p: PaymentParams)
    requires Pay(s, p).Ok?
    ensures SameTokens(s, Pay(s, p).value)
  {
    hide CheckPayment, BuildPayment, Issue;
    IssueEvents(s, p, BuildPayment(p).value);
    IssueRest(s, p, BuildPayment(p).value);
  }

  lemma IssueRest(s: State, p: PaymentParams, pay: Payment)
    ensures Issue(s, p, pay).globals == s.globals && Issue(s, p, pay).split == s.split
  {
    hide Money.Deposit, Remember, AddToken, OwnerIndex.Add;
  }

  lemma RefundTokens(s: State, a: Address, id: nat, x: Option<int>, r: nat, b: bool)
    ensures AdminRefund(s, a, id, x).Ok? ==> SameTokens(s, AdminRefund(s, a, id, x).value)
    ensures ClaimRefund(s, a, id).Ok? ==> SameTokens(s, ClaimRefund(s, a, id).value)
    ensures PostponementRefund(s, a, id).Ok? ==> SameTokens(s, PostponementRefund(s, a, id).value)
    ensures RaiseDispute(s, id, r, b).Ok? ==> SameTokens(s, RaiseDispute(s, id, r, b).value)
    ensures ApproveRefund(s, id).Ok? ==> SameTokens(s, ApproveRefund(s, id).value)
    ensures RejectDispute(s, id).Ok? ==> SameTokens(s, RejectDispute(s, id).value)
  {
    hide Money.Refund, Money.WithRevenue, Money.Revenue, Money.CanSend, Portion, PaidOut, MaxRefund, Without, Expired;
  }

  lemma WithdrawTokens(s: State, o: Address, f: Symbol)
    ensures Withdraw(s, o, f).Ok? ==> SameTokens(s, Withdraw(s, o, f).value)
    ensures WithdrawRevenue(s, f, o).Ok? ==> SameTokens(s, WithdrawRevenue(s, f, o).value)
  {
    hide Validate, PayoutRatio, Gross, RevenueLeft, PlatformFee, Money.Payout, Money.Collect, Money.CanSend, Money.Revenue;
    if Validate(s, f).Ok? { ValidateBalance(s, f); }
  }

  lemma DrainTokens(s: State, o: Address, f: Symbol, x: Address)
    ensures ReleaseIfExpired(s, f).Ok? ==> SameTokens(s, ReleaseIfExpired(s, f).value)
    ensures WithdrawToken(s, o, f, x).Ok? ==> SameTokens(s, WithdrawToken(s, o, f, x).value)
    ensures WithdrawAllTokens(s, o, f).Ok? ==> SameTokens(s, WithdrawAllTokens(s, o, f).value)
  {
    hide Validate, Drain, Money.Payout, Money.CanSend, Money.Revenue;
    if Validate(s, f).Ok? { ValidateBalance(s, f); }
  }

  lemma EnsureTokens(s: State, f: Symbol)
    requires EnsureSettled(s, f).Ok?
    ensures SameTokens(s, EnsureSettled(s, f).value)
  {
    hide Validate, PayoutRatio, Gross, RevenueLeft, PlatformFee, Money.WithRevenue, Money.Collect, Money.Revenue;
    if f !in s.split.settled { ValidateBalance(s, f); }
  }

  lemma SplitTokens(s: State, op: Op)
    requires op.DoSyncSplits? || op.DoFlag? || op.DoWithdrawSplit? || op.DoResolve?
    ensures SameTokens(s, After(s, op))
  {
    hide EnsureSettled, BpsOf, ShareOf, Money.Payout, Money.CanSend, Money.Revenue, WellFormed;
    if op.DoWithdrawSplit? || (op.DoResolve? && !op.release) {
      if EnsureSettled(s, op.event).Ok? { EnsureTokens(s, op.event); }
    }
  }

  lemma BuyTokens(s: State, b: Address, tid: nat, x: bool)
    requires BuyResale(s, b, tid, x).Ok?
    ensures SameTokens(s, BuyResale(s, b, tid, x).value)
  {
    hide Trade, OwnerIndex.Add, OwnerIndex.RemoveCounted;
  }

  lemma PlatformTokens(s: State, f: Symbol)
    requires WithdrawPlatformRevenue(s, f).Ok?
    ensures SameTokens(s, WithdrawPlatformRevenue(s, f).value)
  {
    hide Money.Payout, Money.CanSend;
  }

  lemma TimeoutTokens(s: State, f: Symbol)
    ensures SameTokens(s, Timeouts(s, f))
  {
    hide Timeouts;
    TimeoutsFrame(s, f);
  }

  lemma StepTokens(s: State, op: Op)
    requires TokensOk(s)
    ensures TokensOk(After(s, op))
  {
    hide TokensOk, SameTokens, SetupStep, Pay, AdminRefund, ClaimRefund, PostponementRefund, RaiseDispute, ApproveRefund,
         RejectDispute, Timeouts, Withdraw, WithdrawRevenue, ReleaseIfExpired, WithdrawToken, WithdrawAllTokens,
         WithdrawPlatformRevenue, SyncSplits, WithdrawSplit, FlagCohost, ResolveFlagged, BuyResale;
    if Step(s, op).Ok? {
      match op
      case DoSetup(x) => SetupTokens(s, x); TokensKept(s, After(s, op));
      case DoPay(p) => PayTokens(s, p); TokensKept(s, After(s, op));
      case DoRefund(a, id, x) => RefundTokens(s, a, id, x, 0, false); TokensKept(s, After(s, op));
      case DoClaimRefund(p, id) => RefundTokens(s, p, id, None, 0, false); TokensKept(s, After(s, op));
      case DoPostponementRefund(c, id) => RefundTokens(s, c, id, None, 0, false); TokensKept(s, After(s, op));
      case DoRaise(id, r, b) => RefundTokens(s, 0, id, None, r, b); TokensKept(s, After(s, op));
      case DoApprove(id) => RefundTokens(s, 0, id, None, 0, false); TokensKept(s, After(s, op));
      case DoReject(id) => RefundTokens(s, 0, id, None, 0, false); TokensKept(s, After(s, op));
      case DoTimeouts(f) => TimeoutTokens(s, f); TokensKept(s, After(s, op));
      case DoWithdraw(o, f) => WithdrawTokens(s, o, f); TokensKept(s, After(s, op));
      case DoWithdrawRevenue(f, to) => WithdrawTokens(s, to, f); TokensKept(s, After(s, op));
      case DoRelease(f) => DrainTokens(s, 0, f, 0); TokensKept(s, After(s, op));
      case DoWithdrawToken(o, f, x) => DrainTokens(s, o, f, x); TokensKept(s, After(s, op));
      case DoWithdrawAll(o, f) => DrainTokens(s, o, f, 0); TokensKept(s, After(s, op));
      case DoWithdrawPlatform(f) => PlatformTokens(s, f); TokensKept(s, After(s, op));
      case DoBuy(b, tid, x) => BuyTokens(s, b, tid, x); TokensKept(s, After(s, op));
      case DoAdvance(l, d) => AdvanceTokens(s, l, d);
      case _ => SplitTokens(s, op); TokensKept(s, After(s, op));
    }
  }

  lemma AdvanceTokens(s: State, l: nat, d: nat)
    requires TokensOk(s)
    ensures TokensOk(After(s, DoAdvance(l, d)))
  {
  }

  // ---- Every run ----

  lemma {:induction false} RunPosition(s: State, ops: seq<Op>, e: Symbol, t: Address)
    requires Deployed(s)
    ensures Position(Run(s, ops), e, t) == -TotalDrift(s, ops, e, t) && TokensOk(Run(s, ops))
  {
    hide Inv, TokensOk, Deployed, After, Position, Drift;
    if ops == [] {
      DeployedPosition(s, e, t);
    } else {
      var before := Run(s, ops[..|ops| - 1]);
      RunPosition(s, ops[..|ops| - 1], e, t);
      RunInv(s, ops[..|ops| - 1]);
      StepShifts(before, ops[|ops| - 1], e, t);
      StepTokens(before, ops[|ops| - 1]);
    }
  }

  lemma DeployedPosition(s: State, e: Symbol, t: Address)
    requires Deployed(s)
    ensures Position(s, e, t) == 0 && TokensOk(s)
  {
    hide Tally;
    DeployedRevenue(s, e, t);
  }

  /** Under the invariant the books are amounts less refunds less withdrawals. */
  lemma NetIs(s: State, e: Symbol, t: Address)
    requires Inv(s)
    ensures Net(s, e, t) == Tally(s.records.payments, e, t, KEPT) - s.money.BookOf(e, t).withdrawn
    ensures Tally(s.records.payments, e, t, CONTRIBUTION)
      == Tally(s.records.payments, e, t, KEPT) - Tally(s.records.payments, e, t, DISPUTED)
  {
    hide Inv, Tally, Money.BookOf;
    BooksAre(s, e, t);
    TallyDifference(s.records.payments, e, t, KEPT, AMOUNT, REFUNDED);
    TallyDifference(s.records.payments, e, t, CONTRIBUTION, KEPT, DISPUTED);
  }

  /**
   The account of one event in one token, in every run: volume less refunds less withdrawals is the revenue, plus
   the disputed amounts, plus the platform fees outstanding, plus the unpaid frozen net amount, plus the drift:
   the refunds forgone by approved disputes, less fees and royalties of resales, less what a full-ratio settlement of
   a cancelled event paid beyond the revenue.
   */
  lemma EventAccount(s: State, ops: seq<Op>, e: Symbol, t: Address)
    requires Deployed(s)
    ensures var u := Run(s, ops);
      Net(u, e, t) == u.money.Revenue(e, t) + Tally(u.records.payments, e, t, DISPUTED) + Fees(u, e, t) + Unpaid(u, e, t)
                      + TotalDrift(s, ops, e, t)
  {
    hide Inv, Deployed, Run, Tally, Fees, Unpaid, Money.BookOf, Money.Revenue, Net, TotalDrift;
    RunInv(s, ops);
    RunPosition(s, ops, e, t);
    NetIs(Run(s, ops), e, t);
  }

  // ---- Whoever asks is paid ----

  /** The same but for the wallets of others. */
  ghost predicate SameButWallets(m: Money, n: Money) {
    m.balance == n.balance && m.books == n.books && m.platform == n.platform
  }

  lemma {:induction false} DrainAnyone(m: Money, n: Money, e: Symbol, o: Address, p: Address, tokens: seq<Address>)
    requires SameButWallets(m, n)
    ensures var (a, b) := (Drain(m, e, o, tokens), Drain(n, e, p, tokens));
      && (a.Ok? <==> b.Ok?) && (a.Err? ==> a.error == b.error)
      && (a.Ok? ==> a.value.any == b.value.any && SameButWallets(a.value.money, b.value.money))
  {
    if tokens != [] { DrainAnyone(m, n, e, o, p, tokens[..|tokens| - 1]); }
  }

  /** What a drain leaves of the revenue in a token: nothing if the token is listed, unless it is negative. */
  function Left(m: Money, e: Symbol, tokens: seq<Address>, t: Address): int {
    if t in tokens && m.Revenue(e, t) >= 0 then 0 else m.Revenue(e, t)
  }

  /** A drain pays the rest, from the balance to the receiver. */
  lemma {:induction false} DrainAt(m: Money, e: Symbol, to: Address, tokens: seq<Address>, t: Address)
    requires Drain(m, e, to, tokens).Ok?
    ensures var (n, paid) := (Drain(m, e, to, tokens).value.money, m.Revenue(e, t) - Left(m, e, tokens, t));
      && n.Revenue(e, t) == Left(m, e, tokens, t) && At(n.balance, t) == At(m.balance, t) - paid
      && At(n.wallets, (t, to)) == At(m.wallets, (t, to)) + paid
  {
    hide Money.CanSend;
    if tokens != [] {
      var (init, x) := (tokens[..|tokens| - 1], tokens[|tokens| - 1]);
      DrainAt(m, e, to, init, t);
      assert tokens == init + [x];
      DrainOne(Drain(m, e, to, init).value, e, to, x, t);
    }
  }

  lemma DrainOne(d: Drained, e: Symbol, to: Address, x: Address, t: Address)
    requires DrainToken(d, e, to, x).Ok?
    ensures var (n, paid) := (DrainToken(d, e, to, x).value.money, d.money.Revenue(e, t) - Left(d.money, e, [x], t));
      && n.Revenue(e, t) == Left(d.money, e, [x], t) && At(n.balance, t) == At(d.money.balance, t) - paid
      && At(n.wallets, (t, to)) == At(d.money.wallets, (t, to)) + paid
  {
  }

  /**
   Draining a completed event succeeds or fails regardless of who asks for it: the caller is not compared with the
   event's organizer.  On success everything except the wallet paid is the same, and the revenue goes to the caller.
   */
  lemma AnyoneDrains(s: State, o: Address, p: Address, e: Symbol, t: Address)
    ensures WithdrawToken(s, o, e, t).Ok? <==> WithdrawToken(s, p, e, t).Ok?
    ensures WithdrawToken(s, o, e, t).Ok? ==>
      var (u, v) := (WithdrawToken(s, o, e, t).value, WithdrawToken(s, p, e, t).value);
      && SameButWallets(u.money, v.money) && u == v.(money := u.money)
      && At(u.money.wallets, (t, o)) == At(s.money.wallets, (t, o)) + Timeouts(s, e).money.Revenue(e, t)
    ensures WithdrawAllTokens(s, o, e).Ok? <==> WithdrawAllTokens(s, p, e).Ok?
    ensures WithdrawAllTokens(s, o, e).Ok? ==>
      var (u, v) := (WithdrawAllTokens(s, o, e).value, WithdrawAllTokens(s, p, e).value);
      && SameButWallets(u.money, v.money) && u == v.(money := u.money)
      && At(u.money.wallets, (t, o)) == At(s.money.wallets, (t, o))
           + if t in s.TokensOf(e) && Timeouts(s, e).money.Revenue(e, t) >= 0 then Timeouts(s, e).money.Revenue(e, t) else 0
  {
    hide Timeouts, BalancesCover, Drain;
    if Validate(s, e).Ok? {
      var v := Validate(s, e).value;
      ValidateBooks(s, e);
      ValidateBalance(s, e);
      DrainAnyone(v.money, v.money, e, o, p, v.TokensOf(e));
      if Drain(v.money, e, o, v.TokensOf(e)).Ok? { DrainAt(v.money, e, o, v.TokensOf(e), t); }
    }
  }
}

/** Which payouts and approvals keep a cancelled event covered through every later run: exact conditions before the call. */
module CancellationPayouts {
  import opened Ledger
  import opened MapSums
  import opened OwnerIndexes
  import opened RevenueSplits
  import opened PaymentsSpec
  import opened EscrowLedger
  import opened EscrowInvariants
  import opened EscrowDisputes
  import opened EscrowSplits
  import opened EscrowCancellation
  import opened EscrowAccounts
  import opened EventBooks
  import opened CancellationCover

  /** The amounts still in dispute once the expired disputes are closed. */
  ghost function Pending(s: State, e: Symbol, t: Address): int { Tally(Timeouts(s, e).records.payments, e, t, DISPUTED) }

  /** The revenue once the expired disputes are closed. */
  function Available(s: State, e: Symbol, t: Address): int { Timeouts(s, e).money.Revenue(e, t) }

  /** The state after a payout: the position of the event is kept, no payment is touched, and `left` is its revenue. */
  ghost predicate PaidFrom(s: State, u: State, e: Symbol, r: Bps, t: Address, left: int) {
    && OpenEra(u, e, r, t) && SameRefunds(s, u, e) && Position(u, e, t) == Position(s, e, t)
    && u.records.payments == Timeouts(s, e).records.payments && u.money.Revenue(e, t) == left
  }

  /** Then cover is decided by what was stored before. */
  lemma PaidCoveredIff(s: State, u: State, e: Symbol, r: Bps, t: Address, left: int)
    requires PaidFrom(s, u, e, r, t, left)
    ensures OpenParts(u, e, r, t) == OpenParts(s, e, r, t)
    ensures Covered(u, e, r, t) <==> OpenParts(s, e, r, t) + Position(s, e, t) <= Pending(s, e, t) + left
  {
    hide Inv, CancelledAt, PartsOpen, Timeouts, SameRefunds, Tally, Taken, OpenParts, Committed, Money.BookOf, Money.Revenue;
    OpenPartsSame(s, u, e, r, t);
    OpenPartsAre(u, e, r, t);
    NetIs(u, e, t);
    BooksAre(u, e, t);
    TallyDifference(u.records.payments, e, t, KEPT, AMOUNT, REFUNDED);
  }

  // ---- An escrow release ----

  /** What a release leaves of the revenue: nothing of a listed token, unless it is already negative. */
  function Unreleased(s: State, e: Symbol, t: Address): int {
    Left(Timeouts(s, e).money, e, s.TokensOf(e), t)
  }

  lemma ReleaseIsDrain(s: State, e: Symbol)
    requires ReleaseIfExpired(s, e).Ok?
    ensures e in s.events.meta
    ensures var (u, v) := (ReleaseIfExpired(s, e).value, Timeouts(s, e));
      var d := Drain(v.money, e, s.events.meta[e].organizer, v.TokensOf(e));
      d.Ok? && u.money == d.value.money && u.records == v.records
  {
    hide Timeouts, BalancesCover, Drain;
  }

  lemma ReleaseDrains(s: State, e: Symbol, t: Address)
    requires ReleaseIfExpired(s, e).Ok?
    ensures var u := ReleaseIfExpired(s, e).value;
      && u.money.Revenue(e, t) == Unreleased(s, e, t) && u.records == Timeouts(s, e).records
      && At(u.money.balance, t) == At(s.money.balance, t) - (Available(s, e, t) - Unreleased(s, e, t))
  {
    hide ReleaseIfExpired, Timeouts, Drain, Left, Money.Revenue, At;
    var v := Timeouts(s, e);
    ReleaseIsDrain(s, e);
    TimeoutsFrame(s, e);
    TimeoutsNet(s, e, e, t);
    DrainAt(v.money, e, s.events.meta[e].organizer, v.TokensOf(e), t);
    assert v.TokensOf(e) == s.TokensOf(e);
  }

  lemma ReleasePaid(s: State, e: Symbol, r: Bps, t: Address)
    requires OpenEra(s, e, r, t) && ReleaseIfExpired(s, e).Ok?
    ensures PaidFrom(s, ReleaseIfExpired(s, e).value, e, r, t, Unreleased(s, e, t))
  {
    hide Inv, PartsOpen, ReleaseIfExpired, Timeouts, SameRefunds, Progresses, Position, Unreleased, Money.Revenue, Surplus, Total;
    var u := ReleaseIfExpired(s, e).value;
    ReleaseMoves(s, e);
    ReleaseDrains(s, e, t);
    ReleaseShifts(s, e, e, t);
    PayoutPayments(s, 0, e, 0, e);
    SameProgress(s, u, e, r);
    ProgressOpen(s, u, e, r);
    PayoutEvents(s, 0, e, 0, e);
  }

  /**
   A release of the cancelled event keeps refunds and everything paid out or owed within the volume through every later
   run exactly when the open refundable parts and the position fit into what stays in dispute or on the books.
   */
  lemma ReleaseSafeIff(s: State, e: Symbol, r: Bps, t: Address)
    requires OpenEra(s, e, r, t) && ReleaseIfExpired(s, e).Ok?
    requires OpenParts(s, e, r, t) + Available(s, e, t) - Unreleased(s, e, t) <= At(s.money.balance, t)
    ensures StaysCovered(ReleaseIfExpired(s, e).value, e, t) <==>
      OpenParts(s, e, r, t) + Position(s, e, t) <= Pending(s, e, t) + Unreleased(s, e, t)
  {
    hide OpenEra, ReleaseIfExpired, Pending, Available, Unreleased, OpenParts, Position, StaysCovered, Covered;
    var u := ReleaseIfExpired(s, e).value;
    ReleasePaid(s, e, r, t);
    ReleaseDrains(s, e, t);
    PaidCoveredIff(s, u, e, r, t, Unreleased(s, e, t));
    StaysCoveredIff(u, e, r, t) by { assert PaidFrom(s, u, e, r, t, Unreleased(s, e, t)); }
  }

  lemma NothingPending(s: State, e: Symbol, t: Address)
    requires Inv(s) && s.ListOf(e) == []
    ensures Tally(s.records.payments, e, t, DISPUTED) == 0
  {
    hide RecordsOk, BooksOk, SplitsOk, OwnersOk, Sum;
    var m := Part(s.records.payments, e, t, DISPUTED);
    assert ListOk(s.disputes, e);
    forall i | i in m ensures m[i] == 0 {
      assert i in s.disputes.records ==> i in s.ListOf(e);
    }
    SumZero(m);
  }

  /** Without a pending dispute, for a listed token with revenue left: the open parts and the position must cancel out. */
  lemma ReleaseUndisputed(s: State, e: Symbol, r: Bps, t: Address)
    requires OpenEra(s, e, r, t) && ReleaseIfExpired(s, e).Ok? && t in s.TokensOf(e)
    requires Timeouts(s, e).ListOf(e) == [] && Available(s, e, t) >= 0
    requires OpenParts(s, e, r, t) + Available(s, e, t) <= At(s.money.balance, t)
    ensures StaysCovered(ReleaseIfExpired(s, e).value, e, t) <==> OpenParts(s, e, r, t) + Position(s, e, t) <= 0
    ensures Position(s, e, t) == 0 ==>
      (StaysCovered(ReleaseIfExpired(s, e).value, e, t) <==> Claimable(Timeouts(s, e), e, r, t) == {})
  {
    hide Inv, CancelledAt, PartsOpen, ReleaseIfExpired, Timeouts, Money.Revenue, OpenParts, Claimable, Position, StaysCovered, SameRefunds, Tally,
         Surplus, Total;
    var v := Timeouts(s, e);
    ReleaseSafeIff(s, e, r, t);
    TimeoutsMove(s, e);
    NothingPending(v, e, t);
    TimeoutsRefunds(s, e, e);
    OpenPartsSame(s, v, e, r, t);
    SameProgress(s, v, e, r);
    ProgressOpen(s, v, e, r) by { hide PartsOpen; }
    OpenExactly(v, e, r, t);
  }

  /** The open parts are nothing exactly when no part is claimable. */
  lemma OpenExactly(s: State, e: Symbol, r: Bps, t: Address)
    requires Inv(s) && PartsOpen(s, e, r) && s.ListOf(e) == []
    ensures OpenParts(s, e, r, t) >= 0
    ensures OpenParts(s, e, r, t) == 0 <==> Claimable(s, e, r, t) == {}
  {
    hide Inv, Sum, Portion, Claimable;
    OpenPartsNonNegative(s, e, r, t);
    if Claimable(s, e, r, t) == {} {
      NothingClaimable(s, e, r, t);
    } else {
      var id :| id in Claimable(s, e, r, t);
      ClaimableOpen(s, id, e, r, t);
    }
  }

  lemma ClaimableOpen(s: State, id: nat, e: Symbol, r: Bps, t: Address)
    requires PartsOpen(s, e, r) && id in Claimable(s, e, r, t)
    ensures OpenParts(s, e, r, t) > 0
  {
    hide Tally, Portion, PartsOpen;
    OpenPartsBound(s, id, e, r, t);
  }

  lemma OpenPartsNonNegative(s: State, e: Symbol, r: Bps, t: Address)
    requires PartsOpen(s, e, r)
    ensures OpenParts(s, e, r, t) >= 0
  {
    hide Sum, Portion;
    SumNonNegative(Part(s.records.payments, e, t, PART(r)));
  }

  // ---- The administrator's payout ----

  lemma RevenueDrained(s: State, e: Symbol, to: Address)
    requires WithdrawRevenue(s, e, to).Ok?
    ensures var (u, v, t) := (WithdrawRevenue(s, e, to).value, Timeouts(s, e), s.globals.acceptedToken);
      && u.money.Revenue(e, t) == 0 && u.records == v.records
      && At(u.money.balance, t) == At(v.money.balance, t) - NetAmount(v.money.Revenue(e, t), s.globals.feeBps)
      && u.events.status == v.events.status
      && (e in v.events.config ==> u.events.config == v.events.config[e := v.events.config[e].(withdrawn := true)])
      && SameSetup(s, v)
  {
    hide Timeouts, BalancesCover, PlatformFee, Money.CanSend;
    TimeoutsFrame(s, e);
  }

  lemma RevenueBalance(s: State, e: Symbol, to: Address)
    requires WithdrawRevenue(s, e, to).Ok?
    ensures var t := s.globals.acceptedToken;
      At(WithdrawRevenue(s, e, to).value.money.balance, t)
        == At(s.money.balance, t) - NetAmount(Available(s, e, t), s.globals.feeBps)
  {
    hide WithdrawRevenue, Timeouts, NetAmount, Money.Revenue, At;
    RevenueDrained(s, e, to);
    TimeoutsNet(s, e, e, s.globals.acceptedToken);
  }

  lemma RevenuePaid(s: State, e: Symbol, to: Address, r: Bps, t: Address)
    requires OpenEra(s, e, r, t) && TokensOk(s) && WithdrawRevenue(s, e, to).Ok?
    ensures PaidFrom(s, WithdrawRevenue(s, e, to).value, e, r, t, 0)
  {
    hide Inv, PartsOpen, TokensOk, WithdrawRevenue, Timeouts, SameRefunds, Progresses, Position, Money.Revenue, Surplus, Total;
    var u := WithdrawRevenue(s, e, to).value;
    PayoutAccepted(s, e, r, t);
    WithdrawRevenueMoves(s, e, to);
    RevenueDrained(s, e, to);
    WithdrawRevenueShifts(s, e, to, e, t);
    PayoutPayments(s, to, e, 0, e);
    SameProgress(s, u, e, r);
    ProgressOpen(s, u, e, r);
  }

  /**
   The administrator's payout of a cancelled event keeps the bound exactly when the open refundable parts and the position
   fit into what stays in dispute.
   */
  lemma WithdrawRevenueSafeIff(s: State, e: Symbol, to: Address, r: Bps, t: Address)
    requires OpenEra(s, e, r, t) && TokensOk(s) && WithdrawRevenue(s, e, to).Ok?
    requires OpenParts(s, e, r, t) + NetAmount(Available(s, e, t), s.globals.feeBps) <= At(s.money.balance, t)
    ensures StaysCovered(WithdrawRevenue(s, e, to).value, e, t) <==>
      OpenParts(s, e, r, t) + Position(s, e, t) <= Pending(s, e, t)
  {
    hide OpenEra, TokensOk, WithdrawRevenue, Pending, OpenParts, Position, StaysCovered, Covered, Timeouts, NetAmount, Money.Revenue;
    var u := WithdrawRevenue(s, e, to).value;
    PayoutAccepted(s, e, r, t);
    RevenuePaid(s, e, to, r, t);
    RevenueBalance(s, e, to);
    PaidCoveredIff(s, u, e, r, t, 0);
    StaysCoveredIff(u, e, r, t) by { assert PaidFrom(s, u, e, r, t, 0); }
  }

  // ---- A settlement by split ----

  /** Freezing a split leaves the event covered exactly when the organizer's part still fits beside everything else. */
  lemma SplitCoversIff(s: State, e: Symbol, r: Bps, t: Address)
    requires OpenEra(s, e, r, t) && TokensOk(s) && t == s.globals.acceptedToken
    requires e in s.split.splits && e !in s.split.settled && EnsureSettled(s, e).Ok?
    ensures Covered(EnsureSettled(s, e).value, e, r, t) <==>
      Taken(s, e, r, t) + Committed(s, e, t) + Portion(s.money.BookOf(e, t).volume, r) <= s.money.BookOf(e, t).volume
  {
    hide Inv, CancelledAt, PartsOpen, EnsureSettled, Tally, Taken, Committed, Money.BookOf, Portion, SameRefunds, TokensOk, Surplus, Total;
    var u := EnsureSettled(s, e).value;
    SettleMoves(s, e);
    SettlingCommitted(s, e, e, t);
    EnsureSettles(s, e, r, t);
    SettledPayments(s, e, e);
    SameTaken(s, u, e, r, t);
    BooksAre(s, e, t);
    SettledVolume(s, u, e, t);
  }

  lemma SettledVolume(s: State, u: State, e: Symbol, t: Address)
    requires Inv(s) && Inv(u) && SameRefunds(s, u, e)
    ensures u.money.BookOf(e, t).volume == s.money.BookOf(e, t).volume
  {
    hide Inv, Money.BookOf, SameSales;
    VolumeStep(s, u, e, t);
  }

  lemma SettledStaysOpen(s: State, e: Symbol, r: Bps, t: Address)
    requires OpenEra(s, e, r, t) && EnsureSettled(s, e).Ok? && e in s.split.splits
    ensures OpenEra(EnsureSettled(s, e).value, e, r, t) && SameRefunds(s, EnsureSettled(s, e).value, e)
    ensures EnsureSettled(s, e).value.money.balance == s.money.balance
  {
    hide Inv, PartsOpen, EnsureSettled, SameRefunds, Progresses, Surplus, Total;
    SettleMoves(s, e);
    SettledPayments(s, e, e);
    SettledBalance(s, e);
    SameProgress(s, EnsureSettled(s, e).value, e, r);
    ProgressOpen(s, EnsureSettled(s, e).value, e, r);
  }

  /** A settlement by split keeps the bound through every later run exactly when the organizer's part still fits. */
  lemma SplitSafeIff(s: State, e: Symbol, r: Bps, t: Address)
    requires OpenEra(s, e, r, t) && TokensOk(s) && OpenParts(s, e, r, t) <= At(s.money.balance, t)
    requires e in s.split.splits && e !in s.split.settled && EnsureSettled(s, e).Ok?
    ensures StaysCovered(EnsureSettled(s, e).value, e, t) <==>
      Taken(s, e, r, t) + Committed(s, e, t) + Portion(s.money.BookOf(e, t).volume, r) <= s.money.BookOf(e, t).volume
  {
    hide OpenEra, EnsureSettled, Tally, Taken, OpenParts, Committed, StaysCovered, Covered, Money.BookOf, Portion, TokensOk, SameRefunds;
    var u := EnsureSettled(s, e).value;
    PayoutAccepted(s, e, r, t);
    SplitCoversIff(s, e, r, t);
    SettledStaysOpen(s, e, r, t);
    OpenPartsSame(s, u, e, r, t);
    StaysCoveredIff(u, e, r, t);
  }

  ghost predicate OnlyStandard(s: State, e: Symbol) {
    forall i :: i in s.records.payments && s.records.payments[i].event == e ==> s.records.payments[i].privacy == Standard
  }

  /**
   A first settlement is always covered.  After the organizer's withdrawal a split settlement is not, unless the organizer's
   part is mere rounding dust, when all payments of the event are standard ones that are open or were closed with their part.
   */
  lemma SecondSettlement(s: State, e: Symbol, r: Bps, t: Address)
    requires InEra(s, e, r, t) && TokensOk(s)
    requires e in s.split.splits && e !in s.split.settled && EnsureSettled(s, e).Ok?
    ensures Committed(s, e, t) == 0 ==> Covered(EnsureSettled(s, e).value, e, r, t)
    ensures var pool := Portion(s.money.BookOf(e, t).volume, r);
      Committed(s, e, t) == pool && OnlyStandard(s, e) && Finished(s, e, r) && Covered(EnsureSettled(s, e).value, e, r, t) ==>
        pool <= |Part(s.records.payments, e, t, AMOUNT)|
  {
    hide Inv, CancelledAt, Capped, EnsureSettled, Tally, Taken, Committed, Money.BookOf, Portion, TokensOk, Covered, Refundable,
         OnlyStandard, Finished;
    EraIsOpen(s, e, r, t);
    PayoutAccepted(s, e, r, t);
    SplitCoversIff(s, e, r, t);
    TakenBetween(s, e, r, t);
    BooksAre(s, e, t);
    RefundableFits(s, e, r, t);
    if OnlyStandard(s, e) && Finished(s, e, r) { AllPartsTaken(s, e, r, t); }
  }

  lemma AllPartsTaken(s: State, e: Symbol, r: Bps, t: Address)
    requires Inv(s) && Finished(s, e, r) && OnlyStandard(s, e)
    ensures Taken(s, e, r, t) == Refundable(s.records.payments, e, t, r)
  {
    hide BooksOk, SplitsOk, OwnersOk, DisputesOk, Sum, Portion;
    forall i | i in s.records.payments && s.records.payments[i].event == e
      ensures TAKEN(r)(s.records.payments[i]) == CAP(r)(s.records.payments[i])
    {
      hide Finished, RecordsOk;
      RefundedInRange(s.records, i);
      if s.records.payments[i].status == Refunded { FinishedAt(s, i, e, r); }
    }
    assert Part(s.records.payments, e, t, TAKEN(r)) == Part(s.records.payments, e, t, CAP(r));
  }

  lemma FinishedAt(s: State, id: nat, e: Symbol, r: Bps)
    requires Finished(s, e, r) && id in s.records.payments && s.records.payments[id].event == e
    requires s.records.payments[id].status == Refunded
    ensures s.records.payments[id].refunded == Portion(s.records.payments[id].amount, 10_000 - r)
  {
  }

  // ---- An approved dispute ----

  /** The payment of a dispute, which an approval pays back in full. */
  function PaymentOf(s: State, tid: nat): Payment
    requires ApproveRefund(s, tid).Ok?
  {
    s.records.payments[s.disputes.records[tid].payment]
  }

  /** The payment is closed, its full amount taken instead of its refundable part. */
  lemma ApprovalRecords(s: State, tid: nat)
    requires Inv(s) && ApproveRefund(s, tid).Ok?
    ensures var (u, p) := (ApproveRefund(s, tid).value, PaymentOf(s, tid));
      && u.records.payments == s.records.payments[tid := p.(refunded := p.amount, status := Refunded)]
      && tid in s.records.payments && s.records.payments[tid] == p && p.privacy == Standard && p.status == Disputed
      && u.events == s.events
  {
    hide BooksOk, SplitsOk, OwnersOk, RecordsOk, ListOk, Without, Expired, Money.CanSend, Money.Refund;
    RefundedInRange(s.records, tid);
  }

  lemma ApprovalMoney(s: State, tid: nat, t: Address)
    requires Inv(s) && ApproveRefund(s, tid).Ok? && PaymentOf(s, tid).token == t
    ensures At(ApproveRefund(s, tid).value.money.balance, t)
      == At(s.money.balance, t) - (PaymentOf(s, tid).amount - PaymentOf(s, tid).refunded)
  {
    hide BooksOk, SplitsOk, OwnersOk, RecordsOk, ListOk, Without, Expired, Money.BookOf;
  }

  lemma ApprovalTaken(s: State, u: State, tid: nat, p: Payment, e: Symbol, r: Bps, t: Address)
    requires tid in s.records.payments && s.records.payments[tid] == p && p.privacy == Standard && p.status == Disputed
    requires p.event == e && p.token == t
    requires u.records.payments == s.records.payments[tid := p.(refunded := p.amount, status := Refunded)]
    ensures Taken(u, e, r, t) == Taken(s, e, r, t) + (p.amount - Portion(p.amount, 10_000 - r))
    ensures OpenParts(u, e, r, t) == OpenParts(s, e, r, t) - (Portion(p.amount, 10_000 - r) - p.refunded)
    ensures Tally(u.records.payments, e, t, AMOUNT) == Tally(s.records.payments, e, t, AMOUNT)
  {
    hide Tally, Portion;
    var q := p.(refunded := p.amount, status := Refunded);
    TallyChange(s.records.payments, tid, q, e, t, AMOUNT);
    TallyChange(s.records.payments, tid, q, e, t, TAKEN(r));
    TallyChange(s.records.payments, tid, q, e, t, PART(r));
  }

  lemma ApprovalOpen(s: State, u: State, tid: nat, p: Payment, e: Symbol, r: Bps, t: Address)
    requires OpenEra(s, e, r, t) && Inv(u) && u.events == s.events && tid in s.records.payments
    requires s.records.payments[tid] == p && u.records.payments == s.records.payments[tid := p.(refunded := p.amount, status := Refunded)]
    ensures OpenEra(u, e, r, t)
  {
    hide Inv, Portion;
  }

  /**
   Approving a dispute of the cancelled event keeps the bound through every later run exactly when the part of the payment
   beyond its refundable part still fits beside refunds, open parts and everything paid out or owed.
   */
  lemma ApproveSafeIff(s: State, tid: nat, e: Symbol, r: Bps, t: Address)
    requires OpenEra(s, e, r, t) && ApproveRefund(s, tid).Ok? && PaymentOf(s, tid).event == e && PaymentOf(s, tid).token == t
    requires var p := PaymentOf(s, tid);
      OpenParts(s, e, r, t) + p.amount - Portion(p.amount, 10_000 - r) <= At(s.money.balance, t)
    ensures var p := PaymentOf(s, tid);
      StaysCovered(ApproveRefund(s, tid).value, e, t) <==>
        Taken(s, e, r, t) + Committed(s, e, t) + (p.amount - Portion(p.amount, 10_000 - r)) <= s.money.BookOf(e, t).volume
  {
    hide Inv, CancelledAt, PartsOpen, ApproveRefund, Taken, OpenParts, Committed, StaysCovered, Money.BookOf, Portion, Tally, Surplus, Total;
    var (u, p) := (ApproveRefund(s, tid).value, PaymentOf(s, tid));
    DisputeStepsMove(s, tid, 0, false);
    ApprovalRecords(s, tid);
    ApprovalMoney(s, tid, t);
    ApprovalTaken(s, u, tid, p, e, r, t);
    ApprovalOpen(s, u, tid, p, e, r, t);
    ApprovalCommitted(s, tid, e, t);
    BooksAre(s, e, t);
    BooksAre(u, e, t);
    StaysCoveredIff(u, e, r, t);
  }

  lemma ApprovalCommitted(s: State, tid: nat, e: Symbol, t: Address)
    requires Inv(s) && ApproveRefund(s, tid).Ok?
    ensures Committed(ApproveRefund(s, tid).value, e, t) == Committed(s, e, t)
  {
    hide Inv, ApproveRefund, Committed;
    QuietOut(s, DoApprove(tid), e, t);
  }
}

/** As long as no other event has overdrawn its books, a cancelled event's claims and its settlement can be paid. */
module CancellationFunds {
  import opened Ledger
  import opened MapSums
  import opened OwnerIndexes
  import opened RevenueSplits
  import opened PaymentsSpec
  import opened EscrowLedger
  import opened EscrowInvariants
  import opened EscrowDisputes
  import opened EscrowSplits
  import opened EscrowCancellation
  import opened EscrowAccounts
  import opened EventBooks
  import opened CancellationCover
  import opened CancellationPayouts

  /** No other event's books in the token are negative. */
  ghost predicate OthersCovered(s: State, e: Symbol, t: Address) { forall f :: f != e ==> Net(s, f, t) >= 0 }

  /** The balance holds at least what the event's own books expect, and the surplus. */
  lemma HoldsOwn(s: State, e: Symbol, t: Address)
    requires OthersCovered(s, e, t)
    ensures At(s.money.balance, t) >= Net(s, e, t) + Surplus(s.money, t)
  {
    hide Sum;
    var m := Owed(s.money.books, t);
    forall k | k in m && k != (e, t) ensures m[k] >= 0 {
      assert k.1 == t && m[k] == Net(s, k.0, t);
    }
    if (e, t) in m {
      SumTake(m, (e, t));
      SumNonNegative(m - {(e, t)});
    } else {
      SumNonNegative(m);
    }
  }

  lemma UnpaidNonNegative(s: State, e: Symbol, t: Address)
    requires Inv(s)
    ensures Unpaid(s, e, t) >= 0
  {
    hide RecordsOk, BooksOk, DisputesOk, OwnersOk, PaidSum, WellFormed, RecipientShare;
    if e in s.split.settled {
      assert SettledOk(s.split, e);
      if e in s.split.paid {
        PaidWithinNet(s.split.splits[e], s.split.splits[e][0].recipient, s.split.settled[e].net, s.PaidOf(e));
      } else {
        PaidSumEmpty(s.SplitsOf(e));
      }
    }
  }

  /**
   In the era of a cancellation at which nothing was paid out or owed: the balance covers everything that can still be
   claimed, and before the settlement the organizer's part as well.
   */
  lemma PartsHeld(s: State, ops: seq<Op>, e: Symbol, r: Bps, t: Address)
    requires Era(s, e, r, t) && !Settled(s, e) && AllAllowed(s, ops, e) && TokensOk(s)
    requires Committed(s, e, t) <= 0 && Surplus(s.money, t) >= 0
    requires At(Run(s, ops).money.platform, e) >= 0 && OthersCovered(Run(s, ops), e, t)
    ensures var u := Run(s, ops);
      At(u.money.balance, t) >= OpenParts(u, e, r, t)
        + if Settled(u, e) then 0 else Portion(Tally(u.records.payments, e, t, AMOUNT), r)
  {
    hide Inv, CancelledAt, Capped, Settled, TokensOk, Run, AllAllowed, TotalSettled, TotalResaleFees, Surplus, Total, OthersCovered,
         Portion, Money.BookOf, Refundable, Taken, OpenParts, Unpaid, Tally;
    var u := Run(s, ops);
    EraRun(s, ops, e, r, t);
    EraIsOpen(s, e, r, t);
    EraAccount(s, ops, e, r, t);
    HoldsOwn(u, e, t);
    UnpaidNonNegative(u, e, t);
    OpenPartsAre(u, e, r, t);
    BooksAre(u, e, t);
    TakenBetween(u, e, r, t);
    RefundableFits(u, e, r, t);
  }

  /** The run that cancels an event after `before` and goes on with `ops`. */
  ghost predicate Cancelling(s: State, before: seq<Op>, e: Symbol, o: Address, ops: seq<Op>) {
    && Deployed(s)
    && (var u := Run(s, before);
        && CancelEvent(u, e, o).Ok? && !Settled(u, e) && e in u.events.config
        && Committed(u, e, u.events.config[e].payoutToken) <= 0
        && (forall i :: i in u.records.payments && u.records.payments[i].event == e ==> u.records.payments[i].refunded == 0)
        && AllAllowed(CancelEvent(u, e, o).value, ops, e))
  }

  /** The cancellation is a step of the run. */
  lemma CancelInRun(s: State, before: seq<Op>, e: Symbol, o: Address, ops: seq<Op>)
    requires CancelEvent(Run(s, before), e, o).Ok?
    ensures Run(s, before + [DoSetup(DoCancelEvent(e, o))]) == CancelEvent(Run(s, before), e, o).value
    ensures Run(s, before + [DoSetup(DoCancelEvent(e, o))] + ops) == Run(CancelEvent(Run(s, before), e, o).value, ops)
  {
    hide Run, CancelEvent;
    RunThen(s, before, [DoSetup(DoCancelEvent(e, o))]);
    RunOne(Run(s, before), DoSetup(DoCancelEvent(e, o)));
    RunThen(s, before + [DoSetup(DoCancelEvent(e, o))], ops);
  }

  lemma SurplusNonNegative(s: State, ops: seq<Op>, t: Address)
    requires Deployed(s)
    ensures Surplus(Run(s, ops).money, t) >= 0
  {
    hide Deployed, Run, Retained;
    Conservation(s, ops, t);
  }

  lemma SameCancelled(s: State, e: Symbol, o: Address, t: Address)
    requires CancelEvent(s, e, o).Ok?
    ensures Committed(CancelEvent(s, e, o).value, e, t) == Committed(s, e, t)
  {
    hide CancelRatio, PaidSum;
  }

  /** The hypotheses of `PartsHeld` in a run from deployment. */
  lemma CancellingEra(s: State, before: seq<Op>, e: Symbol, o: Address, ops: seq<Op>, c: State, r: Bps, t: Address)
    requires Cancelling(s, before, e, o, ops) && c == CancelEvent(Run(s, before), e, o).value
    requires r == CancelRatio(Run(s, before).events.config[e], Run(s, before).ledger)
    requires t == Run(s, before).events.config[e].payoutToken
    ensures Era(c, e, r, t) && !Settled(c, e) && TokensOk(c) && Committed(c, e, t) <= 0
    ensures At(Run(c, ops).money.platform, e) >= 0 && InEra(Run(c, ops), e, r, t)
    ensures forall x :: Surplus(c.money, x) >= 0 && Surplus(Run(c, ops).money, x) >= 0
  {
    hide Inv, Era, Run, Deployed, CancelEvent, CancelRatio, Settled, Committed, AllAllowed, Surplus, Total, TokensOk, TotalDrift, Position;
    var cancel := DoSetup(DoCancelEvent(e, o));
    var all := before + [cancel];
    CancelInRun(s, before, e, o, ops);
    RunInv(s, before);
    CancelStartsEra(Run(s, before), e, o);
    SameCancelled(Run(s, before), e, o, t);
    RunPosition(s, all, e, t);
    FeesNonNegative(s, all + ops, e);
    forall x ensures Surplus(c.money, x) >= 0 && Surplus(Run(c, ops).money, x) >= 0 {
      SurplusNonNegative(s, all, x);
      SurplusNonNegative(s, all + ops, x);
    }
    EraRun(c, ops, e, r, t);
    EraIn(Run(c, ops), e, r, t);
  }

  lemma EraIn(s: State, e: Symbol, r: Bps, t: Address)
    requires Era(s, e, r, t)
    ensures InEra(s, e, r, t)
  {
  }

  /**
   After a cancellation at which nothing was refunded, paid out or owed, and as long as no other event has overdrawn
   its books in the token, a claim succeeds exactly when something of the refundable part is left.
   */
  lemma ClaimsArePaid(s: State, before: seq<Op>, e: Symbol, o: Address, ops: seq<Op>, payer: Address, id: nat)
    requires Cancelling(s, before, e, o, ops)
    requires var (c, t) := (CancelEvent(Run(s, before), e, o).value, Run(s, before).events.config[e].payoutToken);
      && OthersCovered(Run(c, ops), e, t) && id in Run(c, ops).records.payments
      && var p := Run(c, ops).records.payments[id];
        p.event == e && p.token == t && p.payer == Some(payer) && p.status == Held
    ensures var c := CancelEvent(Run(s, before), e, o).value;
      var p := Run(c, ops).records.payments[id];
      ClaimRefund(Run(c, ops), payer, id).Ok? <==>
        p.refunded < Portion(p.amount, 10_000 - CancelRatio(Run(s, before).events.config[e], Run(s, before).ledger))
  {
    hide Inv, CancelledAt, Capped, Run, CancelEvent, CancelRatio, Settled, Committed, AllAllowed, Surplus, Total, OthersCovered, Portion, TokensOk,
         ClaimRefund, OpenParts, Deployed, Tally;
    var (w, c) := (Run(s, before), CancelEvent(Run(s, before), e, o).value);
    var (r, t) := (CancelRatio(w.events.config[e], w.ledger), w.events.config[e].payoutToken);
    var u := Run(c, ops);
    CancellingEra(s, before, e, o, ops, c, r, t);
    PartsHeld(c, ops, e, r, t);
    PoolNonNegative(u, e, t, r);
    EraRun(c, ops, e, r, t);
    ClaimFunded(u, payer, id, e, r, t);
  }

  lemma ClaimFunded(s: State, payer: Address, id: nat, e: Symbol, r: Bps, t: Address)
    requires Era(s, e, r, t) && id in s.records.payments && s.records.payments[id].event == e
    requires s.records.payments[id].payer == Some(payer) && s.records.payments[id].status == Held
    requires s.records.payments[id].token == t && OpenParts(s, e, r, t) <= At(s.money.balance, t)
    ensures ClaimRefund(s, payer, id).Ok?
      <==> s.records.payments[id].refunded < Portion(s.records.payments[id].amount, 10_000 - r)
  {
    hide BooksOk, DisputesOk, SplitsOk, OwnersOk, RecordsOk, CancelledAt, Capped, Portion, ClaimRefund, OpenParts;
    ClaimEntitlement(s, payer, id, e, r, t);
    RefundedInRange(s.records, id);
    EraIsOpen(s, e, r, t);
    OpenPartsBound(s, id, e, r, t);
  }

  // ---- Overdrawn books ----

  lemma DisputedNonNegative(s: State, e: Symbol, t: Address)
    requires Inv(s)
    ensures Tally(s.records.payments, e, t, DISPUTED) >= 0
  {
    hide Inv, Sum;
    var m := Part(s.records.payments, e, t, DISPUTED);
    forall i | i in m ensures m[i] >= 0 { InvRange(s, i); }
    SumNonNegative(m);
  }

  /**
   In every run the books of an event are at least its revenue plus its drift: unless resales or a full-ratio
   settlement took more than the approved disputes left, overdrawn books show as a negative revenue.
   */
  lemma OverdrawnShows(s: State, ops: seq<Op>, e: Symbol, t: Address)
    requires Deployed(s)
    ensures Net(Run(s, ops), e, t) >= Run(s, ops).money.Revenue(e, t) + TotalDrift(s, ops, e, t)
    ensures TotalDrift(s, ops, e, t) >= 0 && Net(Run(s, ops), e, t) < 0 ==> Run(s, ops).money.Revenue(e, t) < 0
  {
    hide Inv, Deployed, Run, Net, TotalDrift, Tally, Unpaid, Money.Revenue;
    RunInv(s, ops);
    EventAccount(s, ops, e, t);
    DisputedNonNegative(Run(s, ops), e, t);
    UnpaidNonNegative(Run(s, ops), e, t);
    FeesNonNegative(s, ops, e);
  }

  // ---- The settlement ----

  /** The balances cover the event's books in all of its tokens. */
  lemma ValidatePasses(s: State, e: Symbol)
    requires forall x :: OthersCovered(s, e, x) && Surplus(s.money, x) >= 0
    ensures Validate(s, e).Ok?
  {
    hide ExpireList, AnyExpired, Remaining, Surplus, Total, OthersCovered;
    var u := Timeouts(s, e);
    forall i | 0 <= i < |u.TokensOf(e)| ensures At(u.money.balance, u.TokensOf(e)[i]) >= Expected(u.money.BookOf(e, u.TokensOf(e)[i])) {
      var x := u.TokensOf(e)[i];
      assert OthersCovered(s, e, x);
      HoldsOwn(s, e, x);
      TimeoutsNet(s, e, e, x);
    }
  }

  /** The settlement itself has the funds. */
  lemma WithdrawNowPaid(s: State, e: Symbol, r: Bps, t: Address)
    requires Era(s, e, r, t) && RevenueCovers(s, e, t) && s.ListOf(e) == []
    requires 0 < Portion(Tally(s.records.payments, e, t, AMOUNT), r) <= At(s.money.balance, t)
    ensures WithdrawNow(s, e, r).Ok?
  {
    hide Inv, Capped, Portion, Tally, RevenueLeft, CancellationPool, RevenueCovers;
    UndisputedPool(s, e, t, r);
    CoversUnfold(s, e, t);
    RevenueLeftForPool(s, e, r, t);
    FeeWithinGross(Portion(Tally(s.records.payments, e, t, AMOUNT), r), s.globals.feeBps);
  }

  /** An unsettled cancelled event with the funds is refused its settlement only for the three reasons below. */
  lemma SettlementFunded(s: State, e: Symbol, r: Bps, t: Address)
    requires Era(s, e, r, t) && !Settled(s, e) && RevenueCovers(s, e, t) && e !in s.split.splits
    requires 0 < Portion(Tally(s.records.payments, e, t, AMOUNT), r) <= At(s.money.balance, t)
    requires forall x :: OthersCovered(s, e, x) && Surplus(s.money, x) >= 0
    ensures var o := s.events.config[e].organizer;
      Withdraw(s, o, e).Err? ==> Withdraw(s, o, e).error in {ContractPaused, EscrowNotExpired, ActiveDisputes}
  {
    hide Inv, Capped, Validate, WithdrawNow, Portion, Tally, RevenueCovers, OthersCovered, Surplus, Total;
    var o := s.events.config[e].organizer;
    RatioPositive(s, e, r, t);
    ValidatePasses(s, e);
    if Validate(s, e).value.ListOf(e) == [] {
      var v := Validate(s, e).value;
      ValidateMoves(s, e);
      ValidateBalance(s, e);
      ValidateRefunds(s, e, e);
      SameSalesTally(s, v, e, t);
      SameRefundsCapped(s, v, e, r);
      ValidateTracks(s, e);
      TracksSelf(v);
      NotBelowCovers(s, v, v, e, t);
      WithdrawNowPaid(v, e, r, t);
    }
  }

  /**
   After a cancellation at which nothing was refunded, paid out or owed and the revenue covered the payments, the
   organizer's settlement is refused only while the contract is paused, the waiting period runs or a dispute is open,
   as long as no other event has overdrawn its books.
   */
  lemma SettlementIsPaid(s: State, before: seq<Op>, e: Symbol, o: Address, ops: seq<Op>)
    requires Cancelling(s, before, e, o, ops)
    requires var (c, t) := (CancelEvent(Run(s, before), e, o).value, Run(s, before).events.config[e].payoutToken);
      var r := CancelRatio(Run(s, before).events.config[e], Run(s, before).ledger);
      && (forall x :: OthersCovered(Run(c, ops), e, x)) && RevenueCovers(c, e, t)
      && !Settled(Run(c, ops), e) && e !in Run(c, ops).split.splits
      && Portion(Tally(Run(c, ops).records.payments, e, t, AMOUNT), r) > 0
    ensures var u := Run(CancelEvent(Run(s, before), e, o).value, ops);
      e in u.events.config &&
      (Withdraw(u, u.events.config[e].organizer, e).Err? ==>
         Withdraw(u, u.events.config[e].organizer, e).error in {ContractPaused, EscrowNotExpired, ActiveDisputes})
  {
    hide Inv, Capped, Run, CancelEvent, CancelRatio, Settled, Committed, AllAllowed, Surplus, Total, OthersCovered, Portion, TokensOk,
         Withdraw, OpenParts, Deployed, Tally, RevenueCovers;
    var (w, c) := (Run(s, before), CancelEvent(Run(s, before), e, o).value);
    var (r, t) := (CancelRatio(w.events.config[e], w.ledger), w.events.config[e].payoutToken);
    var u := Run(c, ops);
    CancellingEra(s, before, e, o, ops, c, r, t);
    assert OthersCovered(u, e, t);
    PartsHeld(c, ops, e, r, t);
    EraRun(c, ops, e, r, t);
    EraRevenue(c, ops, e, r, t);
    EraIsOpen(u, e, r, t);
    OpenPartsNonNegative(u, e, r, t);
    SettlementFunded(u, e, r, t);
  }
}

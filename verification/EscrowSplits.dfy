/** Split settlement over every run: frozen amounts, one payment per recipient, nothing beyond the net. */
module EscrowSplits {
  import opened Ledger
  import opened MapSums
  import opened OwnerIndexes
  import opened RevenueSplits
  import opened PaymentsSpec
  import opened EscrowLedger
  import opened EscrowInvariants

  /** What the recipients of an event's split were paid so far. */
  function PaidTotal(s: State, e: Symbol): int { PaidSum(s.SplitsOf(e), s.PaidOf(e)) }

  /** The tokens that leave the contract in a split payment for event `e`. */
  function Outflow(s: State, op: Op, e: Symbol): int {
    if ((op.DoWithdrawSplit? && op.event == e) || (op.DoResolve? && op.event == e)) && e in After(s, op).split.settled then
      var t := After(s, op).split.settled[e].token;
      At(s.money.balance, t) - At(After(s, op).money.balance, t)
    else 0
  }

  function TotalOutflow(s: State, ops: seq<Op>, e: Symbol): int {
    if ops == [] then 0
    else TotalOutflow(s, ops[..|ops| - 1], e) + Outflow(Run(s, ops[..|ops| - 1]), ops[|ops| - 1], e)
  }

  /** Configured splits, frozen amounts and payments made are kept. */
  ghost predicate SplitGrows(x: SplitState, y: SplitState, e: Symbol, who: Address) {
    && (e in x.splits ==> e in y.splits && y.splits[e] == x.splits[e])
    && (e in x.settled ==> e in y.settled && y.settled[e] == x.settled[e])
    && (e in x.paid && who in x.paid[e] ==> e in y.paid && who in y.paid[e] && y.paid[e][who] == x.paid[e][who])
  }

  // ---- Sums of payments ----

  lemma {:induction false} PaidSumAdd(l: seq<Split>, paid: map<Address, int>, who: Address, share: int)
    requires Distinct(l) && who !in paid
    ensures PaidSum(l, paid[who := share]) == PaidSum(l, paid) + if exists i :: 0 <= i < |l| && l[i].recipient == who then share else 0
  {
    if l != [] {
      var init := l[..|l| - 1];
      PaidSumAdd(init, paid, who, share);
      if l[|l| - 1].recipient == who {
        assert forall i :: 0 <= i < |init| ==> init[i].recipient != who;
      } else if exists i :: 0 <= i < |l| && l[i].recipient == who {
        var i :| 0 <= i < |l| && l[i].recipient == who;
        assert init[i].recipient == who;
      }
    }
  }

  lemma {:induction false} PaidSumEmpty(l: seq<Split>)
    ensures PaidSum(l, map[]) == 0
  {
    if l != [] { PaidSumEmpty(l[..|l| - 1]); }
  }

  // ---- Balances during timeouts ----

  lemma {:induction false} ExpireListBalance(s: State, e: Symbol, l: seq<nat>)
    ensures ExpireList(s, e, l).money.balance == s.money.balance
  {
    hide Expired;
    if l != [] { ExpireListBalance(s, e, l[..|l| - 1]); }
  }

  lemma ValidateBalance(s: State, e: Symbol)
    requires Validate(s, e).Ok?
    ensures Validate(s, e).value.money.balance == s.money.balance && SameSetup(s, Validate(s, e).value)
  {
    hide ExpireList, AnyExpired, Remaining, BalancesCover;
    ExpireListBalance(s, e, s.ListOf(e));
    TimeoutsFrame(s, e);
  }

  // ---- Paying one share ----

  /** Settling pays nothing out. */
  lemma SettledBalance(s: State, e: Symbol)
    requires EnsureSettled(s, e).Ok?
    ensures var u := EnsureSettled(s, e).value;
      && u.money.balance == s.money.balance && e in u.split.settled
      && u.split == s.split.(settled := u.split.settled)
      && (forall f :: f in s.split.settled ==> f in u.split.settled && u.split.settled[f] == s.split.settled[f])
      && (forall f :: f != e ==> (f in u.split.settled <==> f in s.split.settled))
  {
    hide Validate, PayoutRatio, Gross, RevenueLeft, PlatformFee;
    if e !in s.split.settled { ValidateBalance(s, e); }
  }

  /** One share leaves the contract and is recorded once. */
  lemma SharePaid(s: State, e: Symbol, who: Address, to: Address)
    requires Inv(s) && e in s.split.settled && PayShare(s, e, who, to).Ok?
    requires BpsOf(s.SplitsOf(e), who).Some? && !WasPaid(s, e, who)
    ensures var u := PayShare(s, e, who, to).value;
      && PaidTotal(u, e) - PaidTotal(s, e)
           == At(s.money.balance, s.split.settled[e].token) - At(u.money.balance, s.split.settled[e].token)
      && who !in s.PaidOf(e) && u.split == s.split.(paid := s.split.paid[e := u.PaidOf(e)])
      && u.PaidOf(e) == s.PaidOf(e)[who := ShareOf(s, e, who, s.split.settled[e].net)]
      && u.SplitsOf(e) == s.SplitsOf(e)
  {
    hide RecordsOk, BooksOk, DisputesOk, OwnersOk, RecipientShare, BpsSum, PaidSum;
    assert SettledOk(s.split, e);
    var i := BpsFromFound(s.SplitsOf(e), who, 0);
    PaidSumAdd(s.SplitsOf(e), s.PaidOf(e), who, ShareOf(s, e, who, s.split.settled[e].net));
  }

  lemma WithdrawSplitStep(s: State, who: Address, f: Symbol, e: Symbol, w: Address)
    requires Inv(s) && WithdrawSplit(s, who, f).Ok?
    ensures var u := WithdrawSplit(s, who, f).value;
      && PaidTotal(u, e) == PaidTotal(s, e) + Outflow(s, DoWithdrawSplit(who, f), e)
      && SplitGrows(s.split, u.split, e, w)
  {
    hide Inv, EnsureSettled, PayShare, BpsOf, PaidSum, ShareOf;
    SettleMoves(s, f);
    SettledBalance(s, f);
    SharePaid(EnsureSettled(s, f).value, f, who, who);
  }

  lemma ReassignStep(s: State, f: Symbol, who: Address, e: Symbol, w: Address)
    requires Inv(s) && ResolveFlagged(s, f, who, false).Ok?
    ensures var u := ResolveFlagged(s, f, who, false).value;
      && PaidTotal(u, e) == PaidTotal(s, e) + Outflow(s, DoResolve(f, who, false), e)
      && SplitGrows(s.split, u.split, e, w)
  {
    hide Inv, EnsureSettled, PayShare, BpsOf, PaidSum, ShareOf;
    SettleMoves(s, f);
    SettledBalance(s, f);
    SharePaid(EnsureSettled(s, f).value, f, who, s.SplitsOf(f)[0].recipient);
  }

  lemma ReleaseStep(s: State, f: Symbol, who: Address, e: Symbol, w: Address)
    requires Inv(s) && ResolveFlagged(s, f, who, true).Ok?
    ensures var u := ResolveFlagged(s, f, who, true).value;
      && PaidTotal(u, e) == PaidTotal(s, e) + Outflow(s, DoResolve(f, who, true), e)
      && SplitGrows(s.split, u.split, e, w)
  {
    hide Inv, EnsureSettled, PayShare, BpsOf, PaidSum, ShareOf;
  }

  /** Splits are configured once, before anything is paid. */
  lemma SyncStep(s: State, c: Address, f: Symbol, l: seq<Split>, e: Symbol, w: Address)
    requires Inv(s) && SyncSplits(s, c, f, l).Ok?
    ensures var u := SyncSplits(s, c, f, l).value;
      PaidTotal(u, e) == PaidTotal(s, e) && SplitGrows(s.split, u.split, e, w)
  {
    hide RecordsOk, BooksOk, DisputesOk, OwnersOk, WellFormed, PaidSum;
    PaidSumEmpty(l);
    PaidSumEmpty([]);
  }

  // ---- Other operations leave the split alone ----

  lemma PayoutsKeepSplit(s: State, o: Address, e: Symbol, t: Address)
    ensures Withdraw(s, o, e).Ok? ==> Withdraw(s, o, e).value.split == s.split
    ensures WithdrawRevenue(s, e, o).Ok? ==> WithdrawRevenue(s, e, o).value.split == s.split
    ensures ReleaseIfExpired(s, e).Ok? ==> ReleaseIfExpired(s, e).value.split == s.split
    ensures WithdrawToken(s, o, e, t).Ok? ==> WithdrawToken(s, o, e, t).value.split == s.split
    ensures WithdrawAllTokens(s, o, e).Ok? ==> WithdrawAllTokens(s, o, e).value.split == s.split
  {
    hide Validate, PayoutRatio, Gross, RevenueLeft, PlatformFee, Drain, Money.Payout, Money.Collect, Money.CanSend, Money.Revenue;
    if Validate(s, e).Ok? { ValidateBalance(s, e); }
  }

  lemma PaymentsKeepSplit(s: State, p: PaymentParams, a: Address, id: nat, x: Option<int>, r: nat, b: bool)
    ensures Pay(s, p).Ok? ==> Pay(s, p).value.split == s.split
    ensures AdminRefund(s, a, id, x).Ok? ==> AdminRefund(s, a, id, x).value.split == s.split
    ensures ClaimRefund(s, a, id).Ok? ==> ClaimRefund(s, a, id).value.split == s.split
    ensures PostponementRefund(s, a, id).Ok? ==> PostponementRefund(s, a, id).value.split == s.split
    ensures RaiseDispute(s, id, r, b).Ok? ==> RaiseDispute(s, id, r, b).value.split == s.split
    ensures ApproveRefund(s, id).Ok? ==> ApproveRefund(s, id).value.split == s.split
    ensures RejectDispute(s, id).Ok? ==> RejectDispute(s, id).value.split == s.split
    ensures BuyResale(s, a, id, b).Ok? ==> BuyResale(s, a, id, b).value.split == s.split
  {
    hide CheckPayment, BuildPayment, Money.Deposit, Money.Refund, Money.WithRevenue, Money.Revenue, Money.CanSend, AddToken,
         Remember, Portion, PaidOut, MaxRefund, Without, Expired, Trade, OwnerIndex.Add, OwnerIndex.RemoveCounted;
  }

  lemma SetupKeepsSplit(s: State, x: Setup)
    requires SetupStep(s, x).Ok?
    ensures SetupStep(s, x).value.split == s.split
  {
    hide CancelRatio;
  }

  predicate SplitOp(op: Op) { op.DoSyncSplits? || op.DoWithdrawSplit? || op.DoResolve? || op.DoFlag? }

  lemma OthersKeepSplit(s: State, op: Op)
    requires !SplitOp(op)
    ensures After(s, op).split == s.split
  {
    hide SetupStep, Pay, AdminRefund, ClaimRefund, PostponementRefund, RaiseDispute, ApproveRefund, RejectDispute, Timeouts,
         Withdraw, WithdrawRevenue, ReleaseIfExpired, WithdrawToken, WithdrawAllTokens, BuyResale, Money.Payout,
         Money.CanSend;
    if Step(s, op).Ok? {
      match op
      case DoSetup(x) => SetupKeepsSplit(s, x);
      case DoPay(p) => PaymentsKeepSplit(s, p, 0, 0, None, 0, false);
      case DoRefund(a, id, x) => PaymentsKeepSplit(s, BUY_NOTHING, a, id, x, 0, false);
      case DoClaimRefund(p, id) => PaymentsKeepSplit(s, BUY_NOTHING, p, id, None, 0, false);
      case DoPostponementRefund(c, tid) => PaymentsKeepSplit(s, BUY_NOTHING, c, tid, None, 0, false);
      case DoRaise(tid, r, b) => PaymentsKeepSplit(s, BUY_NOTHING, 0, tid, None, r, b);
      case DoApprove(tid) => PaymentsKeepSplit(s, BUY_NOTHING, 0, tid, None, 0, false);
      case DoReject(tid) => PaymentsKeepSplit(s, BUY_NOTHING, 0, tid, None, 0, false);
      case DoTimeouts(e) => TimeoutsFrame(s, e);
      case DoWithdraw(o, e) => PayoutsKeepSplit(s, o, e, 0);
      case DoWithdrawRevenue(e, to) => PayoutsKeepSplit(s, to, e, 0);
      case DoRelease(e) => PayoutsKeepSplit(s, 0, e, 0);
      case DoWithdrawToken(o, e, t) => PayoutsKeepSplit(s, o, e, t);
      case DoWithdrawAll(o, e) => PayoutsKeepSplit(s, o, e, 0);
      case DoBuy(b, tid, x) => PaymentsKeepSplit(s, BUY_NOTHING, b, tid, None, 0, x);
      case _ =>
    }
  }

  const BUY_NOTHING: PaymentParams := PaymentParams(0, 0, 0, 0, 0, 0, false, false, Standard, None, None)

  /** Every operation: what was paid grows by what leaves the contract, and nothing paid or frozen changes. */
  lemma SplitStep(s: State, op: Op, e: Symbol, who: Address)
    requires Inv(s)
    ensures PaidTotal(After(s, op), e) == PaidTotal(s, e) + Outflow(s, op, e)
    ensures SplitGrows(s.split, After(s, op).split, e, who)
  {
    hide Inv, SetupStep, Pay, AdminRefund, ClaimRefund, PostponementRefund, RaiseDispute, ApproveRefund, RejectDispute, Timeouts,
         Withdraw, WithdrawRevenue, ReleaseIfExpired, WithdrawToken, WithdrawAllTokens, WithdrawPlatformRevenue, SyncSplits,
         WithdrawSplit, ResolveFlagged, BuyResale, PaidSum, BpsOf;
    if !SplitOp(op) {
      OthersKeepSplit(s, op);
    } else if Step(s, op).Ok? {
      match op
      case DoSyncSplits(c, f, l) => SyncStep(s, c, f, l, e, who);
      case DoWithdrawSplit(w, f) => WithdrawSplitStep(s, w, f, e, who);
      case DoResolve(f, w, b) => if b { ReleaseStep(s, f, w, e, who); } else { ReassignStep(s, f, w, e, who); }
      case DoFlag(c, f, w) =>
    }
  }

  /** In every run the recipients were paid exactly the tokens that left the contract for the split. */
  lemma {:induction false} OutflowIsPaid(s: State, ops: seq<Op>, e: Symbol)
    requires Deployed(s)
    ensures TotalOutflow(s, ops, e) == PaidTotal(Run(s, ops), e)
  {
    hide Inv, Deployed, After, Outflow, PaidTotal;
    if ops == [] {
      NothingPaid(s, e);
    } else {
      OutflowIsPaid(s, ops[..|ops| - 1], e);
      RunInv(s, ops[..|ops| - 1]);
      SplitStep(Run(s, ops[..|ops| - 1]), ops[|ops| - 1], e, 0);
    }
  }

  lemma NothingPaid(s: State, e: Symbol)
    requires Deployed(s)
    ensures PaidTotal(s, e) == 0
  {
    PaidSumEmpty([]);
  }

  /** All recipients with a positive share of the frozen amount were paid. */
  ghost predicate AllPaid(s: State, e: Symbol)
    requires e in s.split.settled
  {
    forall i :: 0 <= i < |s.SplitsOf(e)| ==>
      ShareOf(s, e, s.SplitsOf(e)[i].recipient, s.split.settled[e].net) > 0 ==> s.SplitsOf(e)[i].recipient in s.PaidOf(e)
  }

  /** Without a settlement nothing was paid. */
  lemma UnsettledUnpaid(s: State, ops: seq<Op>, e: Symbol)
    requires Deployed(s) && e !in Run(s, ops).split.settled
    ensures TotalOutflow(s, ops, e) == 0
  {
    hide RecordsOk, BooksOk, DisputesOk, OwnersOk, Run, PaidSum, SettledOk;
    OutflowIsPaid(s, ops, e);
    RunInv(s, ops);
    PaidSumEmpty(Run(s, ops).SplitsOf(e));
  }

  /**
   In every run the split payments of an event never exceed the frozen net amount, and reach it exactly when every recipient
   with a positive share was paid; before the settlement there are none.
   */
  lemma SplitPayouts(s: State, ops: seq<Op>, e: Symbol)
    requires Deployed(s)
    ensures var u := Run(s, ops);
      if e in u.split.settled then
        && TotalOutflow(s, ops, e) <= u.split.settled[e].net
        && (TotalOutflow(s, ops, e) == u.split.settled[e].net <==> AllPaid(u, e))
      else TotalOutflow(s, ops, e) == 0
  {
    hide RecordsOk, BooksOk, DisputesOk, OwnersOk, Run, RecipientShare, PaidSum, WellFormed;
    OutflowIsPaid(s, ops, e);
    RunInv(s, ops);
    var u := Run(s, ops);
    if e in u.split.settled {
      assert SettledOk(u.split, e);
      PaidWithinNet(u.split.splits[e], u.split.splits[e][0].recipient, u.split.settled[e].net, u.PaidOf(e));
    } else {
      UnsettledUnpaid(s, ops, e);
    }
  }

  /** In every run a paid recipient was paid exactly its share of the frozen net amount. */
  lemma RecipientPaidShare(s: State, ops: seq<Op>, e: Symbol, who: Address)
    requires Deployed(s) && who in Run(s, ops).PaidOf(e)
    ensures var u := Run(s, ops);
      && e in u.split.settled && u.PaidOf(e)[who] == ShareOf(u, e, who, u.split.settled[e].net) > 0
  {
    hide RecordsOk, BooksOk, DisputesOk, OwnersOk, Run, RecipientShare, WellFormed;
    RunInv(s, ops);
    assert SettledOk(Run(s, ops).split, e);
  }

  /** No later operation pays a recipient again, or pays it another amount. */
  lemma {:induction false} PaidForGood(s: State, ops: seq<Op>, more: seq<Op>, e: Symbol, who: Address)
    requires Deployed(s)
    ensures SplitGrows(Run(s, ops).split, Run(s, ops + more).split, e, who)
  {
    hide Inv, Deployed, After;
    if more == [] {
      assert ops + more == ops;
    } else {
      var init := ops + more[..|more| - 1];
      PaidForGood(s, ops, more[..|more| - 1], e, who);
      RunInv(s, init);
      SplitStep(Run(s, init), more[|more| - 1], e, who);
      assert (ops + more)[..|ops + more| - 1] == init;
    }
  }

  /** The frozen net amount and the fee add up to the gross settlement. */
  lemma SettlementGross(s: State, e: Symbol, ratio: Bps)
    requires SettleNow(s, e, ratio).Ok?
    ensures var (u, t) := (SettleNow(s, e, ratio).value, s.events.config[e].payoutToken);
      && u.split.settled[e].net + (At(u.money.platform, e) - At(s.money.platform, e)) == Gross(s, e, t, ratio)
      && u.split.settled[e].net > 0 && At(u.money.platform, e) >= At(s.money.platform, e)
  {
    hide Gross, RevenueLeft, PlatformFee;
    var gross := Gross(s, e, s.events.config[e].payoutToken, ratio);
    FeeWithinGross(if gross >= 0 then gross else 0, s.globals.feeBps);
  }
}

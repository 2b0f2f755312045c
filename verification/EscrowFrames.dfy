/** Which parts of the escrow an operation can change, and what that fixes over whole runs. */
module EscrowFrames {
  import opened Ledger
  import opened MapSums
  import opened OwnerIndexes
  import opened RevenueSplits
  import opened PaymentsSpec
  import opened EscrowLedger
  import opened EscrowInvariants
  import opened EscrowSplits

  // ---- One operation ----

  function Bought(s: State, op: Op, e: Symbol): nat {
    if op.DoPay? && op.params.event == e && Step(s, op).Ok? then 1 else 0
  }

  predicate Syncs(op: Op, e: Symbol) { op.DoSetup? && op.setup.DoSyncConfig? && op.setup.event == e }

  predicate Cancels(op: Op, e: Symbol) { op.DoSetup? && op.setup.DoCancelEvent? && op.setup.event == e }

  predicate Settles(op: Op, e: Symbol) { (op.DoWithdraw? || op.DoWithdrawRevenue?) && op.event == e }

  /** What an event's configuration keeps, besides what synchronization, cancellation, delays, sales and settlements set. */
  ghost predicate ConfigKept(c: Config, d: Config, s: State, op: Op, e: Symbol) {
    && d.organizer == c.organizer && d.payoutToken == c.payoutToken
    && d.sold == c.sold + Bought(s, op, e)
    && (c.withdrawn ==> d.withdrawn) && (d.withdrawn && !c.withdrawn ==> Settles(op, e))
    && d.extension >= c.extension
    && (!Cancels(op, e) ==> d.cancelLedger == c.cancelLedger && d.ratio == c.ratio)
    && (!Syncs(op, e) ==> && d.start == c.start && d.end == c.end && d.delay == c.delay && d.maxSupply == c.maxSupply
                          && d.maxPerUser == c.maxPerUser && d.royaltyBps == c.royaltyBps
                          && d.maxResalePrice == c.maxResalePrice && d.freeTransfer == c.freeTransfer)
  }

  ghost predicate Framed(s: State, u: State, op: Op) {
    && (op.DoPay? || u.ids == s.ids)
    && (op.DoSetup? || (u.globals == s.globals && u.events.status == s.events.status && u.events.privacy == s.events.privacy
                        && u.events.deadline == s.events.deadline))
    && u.globals.admin == s.globals.admin && u.globals.eventContract == s.globals.eventContract
    && u.globals.acceptedToken == s.globals.acceptedToken && s.globals.supported <= u.globals.supported
    && (op.DoSetup? || op.DoBuy? || u.listings == s.listings)
    && (op.DoPay? || op.DoBuy? || u.records.tickets == s.records.tickets)
    && (op.DoSetup? || op.DoRelease? || u.events.meta == s.events.meta)
    && (op.DoAdvance? || (u.ledger == s.ledger && u.timestamp == s.timestamp))
    && u.ledger >= s.ledger && u.timestamp >= s.timestamp
    && (forall e :: e in s.events.config ==>
          e in u.events.config && ConfigKept(s.events.config[e], u.events.config[e], s, op, e))
  }

  lemma SetupFramed(s: State, x: Setup)
    requires SetupStep(s, x).Ok?
    ensures Framed(s, SetupStep(s, x).value, DoSetup(x))
  {
    hide CancelRatio;
  }

  lemma SaleFramed(s: State, p: PaymentParams)
    requires Pay(s, p).Ok?
    ensures Framed(s, Pay(s, p).value, DoPay(p))
  {
    hide CheckPayment, BuildPayment, Money.Deposit, Remember, OwnerIndex.Add;
  }

  lemma RefundsFramed(s: State, a: Address, id: nat, x: Option<int>)
    ensures AdminRefund(s, a, id, x).Ok? ==> Framed(s, AdminRefund(s, a, id, x).value, DoRefund(a, id, x))
    ensures ClaimRefund(s, a, id).Ok? ==> Framed(s, ClaimRefund(s, a, id).value, DoClaimRefund(a, id))
    ensures PostponementRefund(s, a, id).Ok? ==> Framed(s, PostponementRefund(s, a, id).value, DoPostponementRefund(a, id))
  {
    hide Money.Refund, Money.CanSend, Portion, PaidOut, MaxRefund, Step;
  }

  lemma DisputesFramed(s: State, id: nat, r: nat, b: bool)
    ensures RaiseDispute(s, id, r, b).Ok? ==> Framed(s, RaiseDispute(s, id, r, b).value, DoRaise(id, r, b))
    ensures ApproveRefund(s, id).Ok? ==> Framed(s, ApproveRefund(s, id).value, DoApprove(id))
    ensures RejectDispute(s, id).Ok? ==> Framed(s, RejectDispute(s, id).value, DoReject(id))
  {
    hide Money.Refund, Money.WithRevenue, Money.Revenue, Money.CanSend, Without, Expired, Step;
  }

  lemma TimeoutsFramed(s: State, f: Symbol)
    ensures Framed(s, Timeouts(s, f), DoTimeouts(f))
  {
    hide Timeouts, Step;
    TimeoutsFrame(s, f);
  }

  lemma WithdrawsFramed(s: State, o: Address, f: Symbol)
    ensures Withdraw(s, o, f).Ok? ==> Framed(s, Withdraw(s, o, f).value, DoWithdraw(o, f))
    ensures WithdrawRevenue(s, f, o).Ok? ==> Framed(s, WithdrawRevenue(s, f, o).value, DoWithdrawRevenue(f, o))
  {
    hide Validate, PayoutRatio, Gross, RevenueLeft, PlatformFee, Money.Payout, Money.Collect, Money.CanSend, Money.Revenue, Step;
    if Validate(s, f).Ok? { ValidateBalance(s, f); }
  }

  lemma DrainsFramed(s: State, o: Address, f: Symbol, x: Address)
    ensures ReleaseIfExpired(s, f).Ok? ==> Framed(s, ReleaseIfExpired(s, f).value, DoRelease(f))
    ensures WithdrawToken(s, o, f, x).Ok? ==> Framed(s, WithdrawToken(s, o, f, x).value, DoWithdrawToken(o, f, x))
    ensures WithdrawAllTokens(s, o, f).Ok? ==> Framed(s, WithdrawAllTokens(s, o, f).value, DoWithdrawAll(o, f))
  {
    hide Validate, Drain, Money.Payout, Money.CanSend, Money.Revenue, Step;
    if Validate(s, f).Ok? { ValidateBalance(s, f); }
  }

  lemma EnsureFramed(s: State, f: Symbol)
    requires EnsureSettled(s, f).Ok?
    ensures var u := EnsureSettled(s, f).value;
      u == s.(money := u.money, records := u.records, disputes := u.disputes, split := u.split)
      && u.records.tickets == s.records.tickets
  {
    hide Validate, PayoutRatio, Gross, RevenueLeft, PlatformFee, Money.WithRevenue, Money.Collect, Money.Revenue;
    if f !in s.split.settled { ValidateBalance(s, f); }
  }

  lemma SplitSetupFramed(s: State, op: Op)
    requires op.DoSyncSplits? || op.DoFlag? || (op.DoResolve? && op.release)
    ensures Framed(s, After(s, op), op)
  {
    hide BpsOf, WellFormed;
  }

  lemma SharesFramed(s: State, op: Op)
    requires op.DoWithdrawSplit? || (op.DoResolve? && !op.release)
    requires Step(s, op).Ok?
    ensures Framed(s, After(s, op), op)
  {
    hide EnsureSettled, BpsOf, ShareOf, WasPaid, Money.Payout, Money.CanSend, Money.Revenue;
    EnsureFramed(s, op.event);
  }

  lemma BuyFramed(s: State, b: Address, tid: nat, x: bool)
    requires BuyResale(s, b, tid, x).Ok?
    ensures Framed(s, BuyResale(s, b, tid, x).value, DoBuy(b, tid, x))
  {
    hide Trade, OwnerIndex.Add, OwnerIndex.RemoveCounted;
  }

  lemma RestFramed(s: State, op: Op)
    requires op.DoWithdrawPlatform? || op.DoAdvance?
    ensures Framed(s, After(s, op), op)
  {
    hide Money.Payout, Money.CanSend;
  }

  lemma FailedFramed(s: State, op: Op)
    requires Step(s, op).Err?
    ensures Framed(s, After(s, op), op)
  {
    hide Step;
  }

  /** Every operation leaves alone what it does not name. */
  lemma StepFramed(s: State, op: Op)
    ensures Framed(s, After(s, op), op)
  {
    hide Framed, SetupStep, Pay, AdminRefund, ClaimRefund, PostponementRefund, RaiseDispute, ApproveRefund, RejectDispute,
         Timeouts, Withdraw, WithdrawRevenue, ReleaseIfExpired, WithdrawToken, WithdrawAllTokens, WithdrawPlatformRevenue,
         SyncSplits, WithdrawSplit, FlagCohost, ResolveFlagged, BuyResale;
    if Step(s, op).Err? {
      FailedFramed(s, op);
    } else {
      match op
      case DoSetup(x) => SetupFramed(s, x);
      case DoPay(p) => SaleFramed(s, p);
      case DoRefund(a, id, x) => RefundsFramed(s, a, id, x);
      case DoClaimRefund(p, id) => RefundsFramed(s, p, id, None);
      case DoPostponementRefund(c, id) => RefundsFramed(s, c, id, None);
      case DoRaise(id, r, b) => DisputesFramed(s, id, r, b);
      case DoApprove(id) => DisputesFramed(s, id, 0, false);
      case DoReject(id) => DisputesFramed(s, id, 0, false);
      case DoTimeouts(f) => TimeoutsFramed(s, f);
      case DoWithdraw(o, f) => WithdrawsFramed(s, o, f);
      case DoWithdrawRevenue(f, to) => WithdrawsFramed(s, to, f);
      case DoRelease(f) => DrainsFramed(s, 0, f, 0);
      case DoWithdrawToken(o, f, x) => DrainsFramed(s, o, f, x);
      case DoWithdrawAll(o, f) => DrainsFramed(s, o, f, 0);
      case DoBuy(b, tid, x) => BuyFramed(s, b, tid, x);
      case DoWithdrawPlatform(_) => RestFramed(s, op);
      case DoAdvance(_, _) => RestFramed(s, op);
      case DoWithdrawSplit(_, _) => SharesFramed(s, op);
      case DoResolve(_, _, release) => if release { SplitSetupFramed(s, op); } else { SharesFramed(s, op); }
      case _ => SplitSetupFramed(s, op);
    }
  }

  // ---- Every run ----

  function TotalBought(s: State, ops: seq<Op>, e: Symbol): nat {
    if ops == [] then 0
    else TotalBought(s, ops[..|ops| - 1], e) + Bought(Run(s, ops[..|ops| - 1]), ops[|ops| - 1], e)
  }

  /** Was this a successful settlement of the event by organizer or administrator? */
  function Settlement1(s: State, op: Op, e: Symbol): nat { if Settles(op, e) && Step(s, op).Ok? then 1 else 0 }

  function SettlementCount(s: State, ops: seq<Op>, e: Symbol): nat {
    if ops == [] then 0
    else SettlementCount(s, ops[..|ops| - 1], e) + Settlement1(Run(s, ops[..|ops| - 1]), ops[|ops| - 1], e)
  }

  /** A configured event keeps organizer and payout token in every run, and counts exactly the payments accepted for it. */
  lemma {:induction false} OnceConfigured(s: State, ops: seq<Op>, e: Symbol)
    requires e in s.events.config
    ensures e in Run(s, ops).events.config
    ensures var (c, d) := (s.events.config[e], Run(s, ops).events.config[e]);
      && d.organizer == c.organizer && d.payoutToken == c.payoutToken
      && d.sold == c.sold + TotalBought(s, ops, e)
      && (c.withdrawn ==> d.withdrawn)
  {
    hide After, Bought;
    if ops != [] {
      OnceConfigured(s, ops[..|ops| - 1], e);
      StepFramed(Run(s, ops[..|ops| - 1]), ops[|ops| - 1]);
    }
  }

  lemma SettlingLatches(s: State, op: Op, e: Symbol)
    requires e in s.events.config && Settlement1(s, op, e) == 1
    ensures !s.events.config[e].withdrawn && e in After(s, op).events.config && After(s, op).events.config[e].withdrawn
  {
    hide Validate, PayoutRatio, Gross, RevenueLeft, PlatformFee, Money.Payout, Money.Collect, Money.CanSend, Money.Revenue;
    if Validate(s, e).Ok? { ValidateBalance(s, e); }
  }

  /** Organizer and administrator together settle a configured event at most once in every run, whatever happens between. */
  lemma {:induction false} SettledAtMostOnce(s: State, ops: seq<Op>, e: Symbol)
    requires e in s.events.config
    ensures e in Run(s, ops).events.config
    ensures SettlementCount(s, ops, e) + (if s.events.config[e].withdrawn then 1 else 0)
      == if Run(s, ops).events.config[e].withdrawn then 1 else 0
  {
    hide After, Settlement1, Step;
    if ops != [] {
      var (init, op) := (ops[..|ops| - 1], ops[|ops| - 1]);
      SettledAtMostOnce(s, init, e);
      StepFramed(Run(s, init), op);
      if Settlement1(Run(s, init), op, e) == 1 { SettlingLatches(Run(s, init), op, e); }
      NoSettlement(Run(s, init), op, e);
    }
  }

  lemma NoSettlement(s: State, op: Op, e: Symbol)
    ensures Settlement1(s, op, e) <= 1
    ensures !Settles(op, e) ==> Settlement1(s, op, e) == 0
    ensures Settles(op, e) && Settlement1(s, op, e) == 0 ==> After(s, op) == s
  {
    hide Step;
  }

  predicate Resynced(ops: seq<Op>, e: Symbol) { exists i :: 0 <= i < |ops| && Syncs(ops[i], e) }

  lemma SaleWithinSupply(s: State, op: Op, e: Symbol)
    requires e in s.events.config && Bought(s, op, e) == 1
    ensures s.events.config[e].maxSupply > 0 ==> s.events.config[e].sold < s.events.config[e].maxSupply
  {
    hide NonceUsed, CheckPrivacy, BuildPayment, Issue, TicketsHeld, Money.CanReceive;
  }

  /** Until its configuration is synchronized again, an event never sells more tickets than its maximum supply. */
  lemma {:induction false} SupplyLimit(s: State, ops: seq<Op>, e: Symbol)
    requires e in s.events.config && !Resynced(ops, e)
    requires s.events.config[e].maxSupply > 0 && s.events.config[e].sold <= s.events.config[e].maxSupply
    ensures s.events.config[e].sold + TotalBought(s, ops, e) <= s.events.config[e].maxSupply
    ensures e in Run(s, ops).events.config && Run(s, ops).events.config[e].maxSupply == s.events.config[e].maxSupply
    ensures Run(s, ops).events.config[e].maxPerUser == s.events.config[e].maxPerUser
  {
    hide After, Bought;
    if ops != [] {
      var (init, op) := (ops[..|ops| - 1], ops[|ops| - 1]);
      assert forall i :: 0 <= i < |init| ==> init[i] == ops[i];
      assert !Syncs(op, e);
      SupplyLimit(s, init, e);
      OnceConfigured(s, init, e);
      StepFramed(Run(s, init), op);
      OneSale(Run(s, init), op, e);
      if Bought(Run(s, init), op, e) == 1 { SaleWithinSupply(Run(s, init), op, e); }
    }
  }

  lemma OneSale(s: State, op: Op, e: Symbol)
    ensures Bought(s, op, e) <= 1
  {
  }
}

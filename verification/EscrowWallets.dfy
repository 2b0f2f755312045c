/** Whose wallet every operation of the escrow takes tokens from, whose it pays, and how much. */
module EscrowWallets {
  import opened Ledger
  import opened MapSums
  import opened OwnerIndexes
  import opened RevenueSplits
  import opened PaymentsSpec
  import opened EscrowLedger
  import opened EscrowInvariants
  import opened EscrowSplits
  import opened EscrowCancellation
  import opened EscrowAccounts

  // ---- Who pays and who is paid ----

  /** The address whose tokens a successful operation takes. */
  function Spender(op: Op): Option<Address> {
    match op
    case DoPay(p) => Some(p.payer)
    case DoBuy(buyer, _, _) => Some(buyer)
    case _ => None
  }

  function PayerOf(s: State, id: nat): Option<Address> {
    if id in s.records.payments then s.records.payments[id].payer else None
  }

  /** The address a successful operation pays. */
  function Receiver(s: State, op: Op): Option<Address> {
    match op
    case DoRefund(_, id, _) => PayerOf(s, id)
    case DoClaimRefund(_, id) => PayerOf(s, id)
    case DoPostponementRefund(_, tid) => if tid in s.records.tickets then PayerOf(s, s.records.tickets[tid].payment) else None
    case DoApprove(tid) => if tid in s.disputes.records then PayerOf(s, s.disputes.records[tid].payment) else None
    case DoWithdraw(_, e) => if e in s.events.config then Some(s.events.config[e].organizer) else None
    case DoWithdrawRevenue(_, to) => Some(to)
    case DoRelease(e) => if e in s.events.meta then Some(s.events.meta[e].organizer) else None
    case DoWithdrawToken(o, _, _) => Some(o)
    case DoWithdrawAll(o, _) => Some(o)
    case DoWithdrawPlatform(_) => Some(s.globals.wallet)
    case DoWithdrawSplit(who, _) => Some(who)
    case DoResolve(e, _, release) => if release || s.SplitsOf(e) == [] then None else Some(s.SplitsOf(e)[0].recipient)
    case DoBuy(_, tid, _) => if tid in s.listings then Some(s.listings[tid].seller) else None
    case _ => None
  }

  // ---- How much ----

  /** What a payment's record still allows to be refunded. */
  function RefundDue(s: State, p: Payment): int {
    (if s.StatusOf(p.event) == Some(Cancelled) && s.RatioOf(p.event).Some?
     then p.amount * (10_000 - s.RatioOf(p.event).value) / 10_000 else p.amount) - p.refunded
  }

  /** A gross amount less the platform fee. */
  function NetOf(s: State, gross: int): int { gross - gross * s.globals.feeBps / 10_000 }

  /** The revenue of a completed event once disputes have timed out; for a cancelled one, its part of the volume. */
  function GrossOf(s: State, e: Symbol, t: Address): int {
    if s.StatusOf(e) == Some(Completed) || s.RatioOf(e).None? then Timeouts(s, e).money.Revenue(e, t)
    else s.money.BookOf(e, t).volume * s.RatioOf(e).value / 10_000
  }

  /** The price less fee and royalty, or nothing. */
  function SellerPart(s: State, e: Symbol, price: int): int
    requires e in s.events.config
  {
    var left := price - price * s.globals.feeBps / 10_000 - price * s.events.config[e].royaltyBps / 10_000;
    if left > 0 then left else 0
  }

  /** The positive revenue of a listed token. */
  function Drainable(s: State, e: Symbol, t: Address): int {
    var revenue := Timeouts(s, e).money.Revenue(e, t);
    if t in s.TokensOf(e) && revenue > 0 then revenue else 0
  }

  /** The share of a recipient in the net amount that is frozen after the operation. */
  function FrozenShare(s: State, op: Op, e: Symbol, who: Address, t: Address): int {
    var u := After(s, op);
    if e in u.split.settled && u.split.settled[e].token == t && s.SplitsOf(e) != []
    then RecipientShare(s.SplitsOf(e), who, s.SplitsOf(e)[0].recipient, u.split.settled[e].net) else 0
  }

  /** What a successful operation takes from the spender. */
  function Spent(s: State, op: Op, t: Address): int {
    match op
    case DoPay(p) => if p.token == t then p.amount else 0
    case DoBuy(_, tid, _) => if ResaleIn(s, tid, t) then s.listings[tid].price else 0
    case _ => 0
  }

  /** A listing at a positive price, traded in the token. */
  predicate ResaleIn(s: State, tid: nat, t: Address) {
    && tid in s.listings && tid in s.records.tickets && s.listings[tid].price > 0
    && s.records.tickets[tid].event in s.events.config
    && s.events.config[s.records.tickets[tid].event].payoutToken == t
  }

  function DueOf(s: State, id: nat, t: Address): int {
    if id in s.records.payments && s.records.payments[id].token == t then RefundDue(s, s.records.payments[id]) else 0
  }

  /** What a successful operation pays the receiver. */
  function Received(s: State, op: Op, t: Address): int {
    match op
    case DoRefund(_, id, x) =>
      if x.None? then DueOf(s, id, t)
      else if id in s.records.payments && s.records.payments[id].token == t then x.value else 0
    case DoClaimRefund(_, id) => DueOf(s, id, t)
    case DoPostponementRefund(_, tid) => if tid in s.records.tickets then DueOf(s, s.records.tickets[tid].payment, t) else 0
    case DoApprove(tid) =>
      if tid in s.records.payments && s.records.payments[tid].token == t
      then s.records.payments[tid].amount - s.records.payments[tid].refunded else 0
    case DoWithdraw(_, e) =>
      if e in s.events.config && s.events.config[e].payoutToken == t then NetOf(s, GrossOf(s, e, t)) else 0
    case DoWithdrawRevenue(e, _) =>
      if s.globals.acceptedToken == t then NetOf(s, Timeouts(s, e).money.Revenue(e, t)) else 0
    case DoRelease(e) => Drainable(s, e, t)
    case DoWithdrawToken(_, e, x) => if x == t then Timeouts(s, e).money.Revenue(e, t) else 0
    case DoWithdrawAll(_, e) => Drainable(s, e, t)
    case DoWithdrawPlatform(e) => if s.globals.acceptedToken == t then At(s.money.platform, e) else 0
    case DoWithdrawSplit(who, e) => FrozenShare(s, op, e, who, t)
    case DoResolve(e, who, release) => if release then 0 else FrozenShare(s, op, e, who, t)
    case DoBuy(_, tid, _) =>
      if ResaleIn(s, tid, t) then SellerPart(s, s.records.tickets[tid].event, s.listings[tid].price) else 0
    case _ => 0
  }

  /** Tokens move from the spender to the contract and from the contract to the receiver, and nowhere else. */
  ghost predicate Moved(m: Money, n: Money, t: Address, from: Option<Address>, spent: int, to: Option<Address>, received: int) {
    && At(n.balance, t) == At(m.balance, t) + spent - received
    && spent >= 0 && received >= 0
    && forall who: Address :: At(n.wallets, (t, who)) == At(m.wallets, (t, who))
         + (if to == Some(who) then received else 0) - (if from == Some(who) then spent else 0)
  }

  // ---- Money ----

  lemma PortionFloor(a: int, bps: nat)
    requires a >= 0 || Portion(a, bps) > 0
    ensures Portion(a, bps) == a * bps / 10_000
  {
    if a >= 0 { Distribute(a, 0, bps); }
  }

  lemma PaidOutMoved(m: Money, e: Symbol, u: Address, to: Address, a: int, revenue: int, fee: int, t: Address)
    requires a >= 0
    ensures Moved(m, m.Payout(e, u, to, a, revenue).Collect(e, fee), t, None, 0, Some(to), if u == t then a else 0)
  {
  }

  lemma SameWallets(m: Money, n: Money, t: Address, to: Option<Address>)
    requires n.balance == m.balance && n.wallets == m.wallets
    ensures Moved(m, n, t, None, 0, to, 0)
  {
  }

  /** Only balance and wallets matter. */
  lemma MovedSame(m: Money, n: Money, o: Money, t: Address, from: Option<Address>, spent: int, to: Option<Address>, got: int)
    requires Moved(n, o, t, from, spent, to, got) && n.balance == m.balance && n.wallets == m.wallets
    ensures Moved(m, o, t, from, spent, to, got)
  {
  }

  lemma RefundMoved(s: State, id: nat, a: int, status: PaymentStatus, t: Address)
    requires id in s.records.payments && s.records.payments[id].payer.Some? && a >= 0
    ensures var p := s.records.payments[id];
      Moved(s.money, RefundPayment(s, id, p.payer, a, status).money, t, None, 0, p.payer, if p.token == t then a else 0)
  {
  }

  lemma {:induction false} DrainMoved(m: Money, e: Symbol, to: Address, tokens: seq<Address>, t: Address)
    requires Drain(m, e, to, tokens).Ok?
    ensures var (n, revenue) := (Drain(m, e, to, tokens).value.money, m.Revenue(e, t));
      && Moved(m, n, t, None, 0, Some(to), if t in tokens && revenue > 0 then revenue else 0)
      && n.Revenue(e, t) == Left(m, e, tokens, t)
  {
    hide Money.CanSend;
    if tokens == [] {
      SameWallets(m, m, t, Some(to));
    } else {
      var (init, x) := (tokens[..|tokens| - 1], tokens[|tokens| - 1]);
      var d := Drain(m, e, to, init).value;
      DrainMoved(m, e, to, init, t);
      DrainAt(m, e, to, tokens, t);
      assert tokens == init + [x];
      PaidOutMoved(d.money, e, x, to, if d.money.Revenue(e, x) > 0 then d.money.Revenue(e, x) else 0, 0, 0, t);
    }
  }

  // ---- Every operation ----

  /** What an operation does to wallets and balance when it succeeds. */
  ghost predicate StepMoved(s: State, op: Op, u: State, t: Address) {
    Moved(s.money, u.money, t, Spender(op), Spent(s, op, t), Receiver(s, op), Received(s, op, t))
  }

  lemma PayMoved(s: State, p: PaymentParams, t: Address)
    requires Pay(s, p).Ok?
    ensures StepMoved(s, DoPay(p), Pay(s, p).value, t)
  {
    hide BuildPayment, CheckPrivacy, CheckSupply, NonceUsed, AddToken, Remember, OwnerIndex.Add;
  }

  lemma DueIs(s: State, id: nat)
    requires Inv(s) && id in s.records.payments
    ensures MaxRefund(s, s.records.payments[id]) == RefundDue(s, s.records.payments[id])
    ensures Portion(s.records.payments[id].amount, RefundBps(s, s.records.payments[id].event))
      == s.records.payments[id].amount * RefundBps(s, s.records.payments[id].event) / 10_000
  {
    hide BooksOk, DisputesOk, SplitsOk, OwnersOk, RecordsOk, Portion;
    RefundedInRange(s.records, id);
    PortionFloor(s.records.payments[id].amount, RefundBps(s, s.records.payments[id].event));
  }

  lemma AdminRefundMoved(s: State, a: Address, id: nat, x: Option<int>, t: Address)
    requires Inv(s) && AdminRefund(s, a, id, x).Ok?
    ensures StepMoved(s, DoRefund(a, id, x), AdminRefund(s, a, id, x).value, t)
  {
    hide Inv, MaxRefund, RefundDue, RefundPayment, PaidOut, Money.CanSend, Moved;
    Known(s, id);
    DueIs(s, id);
    var p := s.records.payments[id];
    var z := if x.Some? then x.value else MaxRefund(s, p);
    RefundMoved(s, id, z, if p.refunded + z == p.amount then Refunded else Held, t);
  }

  lemma Known(s: State, id: nat)
    requires Inv(s) && id in s.records.payments
    ensures 0 <= s.records.payments[id].refunded <= s.records.payments[id].amount
    ensures s.records.payments[id].payer.Some? <==> s.records.payments[id].privacy == Standard
    ensures id in s.records.tickets && s.records.tickets[id].payment == id
  {
    hide BooksOk, DisputesOk, SplitsOk, OwnersOk, RecordsOk;
    RefundedInRange(s.records, id);
  }

  lemma ClaimMoved(s: State, payer: Address, id: nat, t: Address)
    requires Inv(s) && ClaimRefund(s, payer, id).Ok?
    ensures StepMoved(s, DoClaimRefund(payer, id), ClaimRefund(s, payer, id).value, t)
  {
    hide Inv, Portion, RefundPayment, Money.CanSend, Moved;
    DueIs(s, id);
    var p := s.records.payments[id];
    RefundMoved(s, id, Portion(p.amount, RefundBps(s, p.event)) - p.refunded, Refunded, t);
  }

  lemma PostponementMoved(s: State, c: Address, tid: nat, t: Address)
    requires Inv(s) && PostponementRefund(s, c, tid).Ok?
    ensures StepMoved(s, DoPostponementRefund(c, tid), PostponementRefund(s, c, tid).value, t)
  {
    hide Inv, RefundPayment, Money.CanSend, Moved;
    var id := s.records.tickets[tid].payment;
    RefundMoved(s, id, s.records.payments[id].amount - s.records.payments[id].refunded, Refunded, t);
  }

  lemma ApproveMoved(s: State, tid: nat, t: Address)
    requires Inv(s) && ApproveRefund(s, tid).Ok?
    ensures StepMoved(s, DoApprove(tid), ApproveRefund(s, tid).value, t)
  {
    hide RecordsOk, BooksOk, SplitsOk, OwnersOk, Without, Expired, ListOk;
    Known(s, tid);
  }

  /** Raising, rejecting and timing out move no tokens, and neither does any setting. */
  lemma QuietMoved(s: State, op: Op, t: Address)
    requires Step(s, op).Ok?
    requires op.DoSetup? || op.DoRaise? || op.DoReject? || op.DoTimeouts? || op.DoSyncSplits? || op.DoFlag? || op.DoAdvance?
    ensures StepMoved(s, op, After(s, op), t)
  {
    hide CancelRatio, Without, ExpireList, AnyExpired, Remaining, BpsOf, WellFormed, Expired;
    if op.DoTimeouts? {
      ExpireListBooks(s, op.event, s.ListOf(op.event));
      ExpireListBalance(s, op.event, s.ListOf(op.event));
    }
  }

  /** The state in which a payout is made: timed-out disputes are gone, balance and wallets are as before. */
  lemma ValidState(s: State, e: Symbol)
    requires Inv(s) && Validate(s, e).Ok?
    ensures var v := Validate(s, e).value;
      && v == Timeouts(s, e) && v.money.wallets == s.money.wallets && v.money.balance == s.money.balance
      && v.events == s.events && v.globals == s.globals && v.split == s.split && v.ledger == s.ledger
      && Inv(v) && forall t :: v.money.BookOf(e, t).volume == s.money.BookOf(e, t).volume
  {
    hide Inv, Timeouts, BalancesCover, Money.BookOf, Money.Revenue;
    ValidateBooks(s, e);
    ValidateBalance(s, e);
    TimeoutsFrame(s, e);
    ValidateMoves(s, e);
    TimeoutVolumes(s, e);
  }

  lemma {:induction false} ExpireVolumes(s: State, f: Symbol, l: seq<nat>)
    ensures forall e, t :: ExpireList(s, f, l).money.BookOf(e, t).volume == s.money.BookOf(e, t).volume
  {
    hide Expired;
    if l != [] { ExpireVolumes(s, f, l[..|l| - 1]); }
  }

  lemma TimeoutVolumes(s: State, f: Symbol)
    ensures forall e, t :: Timeouts(s, f).money.BookOf(e, t).volume == s.money.BookOf(e, t).volume
  {
    hide ExpireList, AnyExpired, Remaining, Money.BookOf;
    ExpireVolumes(s, f, s.ListOf(f));
  }

  lemma WithdrawNowMoved(s: State, e: Symbol, ratio: Bps, t: Address)
    requires WithdrawNow(s, e, ratio).Ok?
    ensures var (c, u) := (s.events.config[e], WithdrawNow(s, e, ratio).value);
      && Gross(s, e, c.payoutToken, ratio) > 0
      && Moved(s.money, u.money, t, None, 0, Some(c.organizer),
               if c.payoutToken == t then NetOf(s, Gross(s, e, t, ratio)) else 0)
  {
    hide Gross, RevenueLeft, Moved, Portion, Money.CanSend;
    var c := s.events.config[e];
    var gross := Gross(s, e, c.payoutToken, ratio);
    FeeWithinGross(gross, s.globals.feeBps);
    PortionFloor(gross, s.globals.feeBps);
    PaidOutMoved(s.money, e, c.payoutToken, c.organizer, gross - PlatformFee(gross, s.globals.feeBps),
                 RevenueLeft(s, e, c.payoutToken, ratio, gross), PlatformFee(gross, s.globals.feeBps), t);
  }

  /** The gross amount after timeouts, in terms of the state before them. */
  lemma GrossIs(s: State, e: Symbol, t: Address)
    requires Inv(s) && Validate(s, e).Ok? && e in s.events.config && PayoutRatio(s, e).Ok?
    requires Validate(s, e).value.ListOf(e) == []
    ensures var gross := Gross(Validate(s, e).value, e, t, PayoutRatio(s, e).value);
      gross > 0 ==> gross == GrossOf(s, e, t)
  {
    hide Inv, Validate, Timeouts, Portion, Money.BookOf;
    ValidState(s, e);
    var (v, ratio) := (Validate(s, e).value, PayoutRatio(s, e).value);
    if s.StatusOf(e) == Some(Completed) {
      PortionAll(v.money.Revenue(e, t));
    } else if Gross(v, e, t, ratio) > 0 {
      PortionFloor(v.money.BookOf(e, t).volume, ratio);
    }
  }

  lemma WithdrawMoved(s: State, o: Address, e: Symbol, t: Address)
    requires Inv(s) && Withdraw(s, o, e).Ok?
    ensures StepMoved(s, DoWithdraw(o, e), Withdraw(s, o, e).value, t)
  {
    hide Inv, Validate, WithdrawNow, PayoutRatio, Moved, Gross, GrossOf, Timeouts;
    ValidState(s, e);
    var (v, c) := (Validate(s, e).value, s.events.config[e]);
    GrossIs(s, e, c.payoutToken);
    WithdrawNowMoved(v, e, PayoutRatio(s, e).value, t);
    MovedSame(s.money, v.money, Withdraw(s, o, e).value.money, t, None, 0, Some(c.organizer), Received(s, DoWithdraw(o, e), t));
  }

  lemma WithdrawRevenueMoved(s: State, e: Symbol, to: Address, t: Address)
    requires Inv(s) && WithdrawRevenue(s, e, to).Ok?
    ensures StepMoved(s, DoWithdrawRevenue(e, to), WithdrawRevenue(s, e, to).value, t)
  {
    hide Inv, Validate, Moved, Timeouts, Portion, Money.CanSend, Money.Revenue;
    ValidState(s, e);
    var v := Validate(s, e).value;
    var (x, revenue) := (v.globals.acceptedToken, v.money.Revenue(e, v.globals.acceptedToken));
    var fee := PlatformFee(revenue, v.globals.feeBps);
    FeeWithinGross(revenue, v.globals.feeBps);
    PortionFloor(revenue, v.globals.feeBps);
    PaidOutMoved(v.money, e, x, to, revenue - fee, 0, fee, t);
    MovedSame(s.money, v.money, WithdrawRevenue(s, e, to).value.money, t, None, 0, Some(to),
              Received(s, DoWithdrawRevenue(e, to), t));
  }

  lemma ReleaseMoved(s: State, e: Symbol, t: Address)
    requires Inv(s) && ReleaseIfExpired(s, e).Ok?
    ensures StepMoved(s, DoRelease(e), ReleaseIfExpired(s, e).value, t)
  {
    hide Inv, Validate, Moved, Timeouts, Drain, Money.Revenue;
    ValidState(s, e);
    var (v, to) := (Validate(s, e).value, s.events.meta[e].organizer);
    DrainMoved(v.money, e, to, v.TokensOf(e), t);
    MovedSame(s.money, v.money, ReleaseIfExpired(s, e).value.money, t, None, 0, Some(to), Received(s, DoRelease(e), t));
  }

  lemma AllMoved(s: State, o: Address, e: Symbol, t: Address)
    requires Inv(s) && WithdrawAllTokens(s, o, e).Ok?
    ensures StepMoved(s, DoWithdrawAll(o, e), WithdrawAllTokens(s, o, e).value, t)
  {
    hide Inv, Validate, Moved, Timeouts, Drain, Money.Revenue;
    ValidState(s, e);
    var v := Validate(s, e).value;
    DrainMoved(v.money, e, o, v.TokensOf(e), t);
    MovedSame(s.money, v.money, WithdrawAllTokens(s, o, e).value.money, t, None, 0, Some(o), Received(s, DoWithdrawAll(o, e), t));
  }

  lemma TokenMoved(s: State, o: Address, e: Symbol, x: Address, t: Address)
    requires Inv(s) && WithdrawToken(s, o, e, x).Ok?
    ensures StepMoved(s, DoWithdrawToken(o, e, x), WithdrawToken(s, o, e, x).value, t)
  {
    hide Inv, Validate, Moved, Timeouts, Money.CanSend, Money.Revenue;
    ValidState(s, e);
    var v := Validate(s, e).value;
    PaidOutMoved(v.money, e, x, o, v.money.Revenue(e, x), 0, 0, t);
    MovedSame(s.money, v.money, WithdrawToken(s, o, e, x).value.money, t, None, 0, Some(o),
              Received(s, DoWithdrawToken(o, e, x), t));
  }

  lemma PlatformMoved(s: State, e: Symbol, t: Address)
    requires WithdrawPlatformRevenue(s, e).Ok?
    ensures StepMoved(s, DoWithdrawPlatform(e), WithdrawPlatformRevenue(s, e).value, t)
  {
  }

  lemma ShareMoved(s: State, e: Symbol, who: Address, to: Address, t: Address)
    requires e in s.split.settled && PayShare(s, e, who, to).Ok?
    ensures var (u, share) := (PayShare(s, e, who, to).value, ShareOf(s, e, who, s.split.settled[e].net));
      && Moved(s.money, u.money, t, None, 0, Some(to), if s.split.settled[e].token == t then share else 0)
      && u.split.settled == s.split.settled && u.split.splits == s.split.splits
  {
    hide ShareOf;
  }

  lemma SplitsMoved(s: State, e: Symbol, who: Address, release: bool, t: Address)
    requires Inv(s)
    ensures WithdrawSplit(s, who, e).Ok? ==> StepMoved(s, DoWithdrawSplit(who, e), WithdrawSplit(s, who, e).value, t)
    ensures ResolveFlagged(s, e, who, release).Ok? ==>
      StepMoved(s, DoResolve(e, who, release), ResolveFlagged(s, e, who, release).value, t)
  {
    hide Inv, Moved, EnsureSettled, PayShare, BpsOf, RecipientShare, WasPaid;
    if EnsureSettled(s, e).Ok? && s.SplitsOf(e) != [] {
      var (v, first) := (EnsureSettled(s, e).value, s.SplitsOf(e)[0].recipient);
      SettledWallets(s, e);
      if WithdrawSplit(s, who, e).Ok? {
        ShareMoved(v, e, who, who, t);
        MovedSame(s.money, v.money, WithdrawSplit(s, who, e).value.money, t, None, 0, Some(who),
                  Received(s, DoWithdrawSplit(who, e), t));
      }
      if ResolveFlagged(s, e, who, release).Ok? && !release {
        ShareMoved(v, e, who, first, t);
        MovedSame(s.money, v.money, ResolveFlagged(s, e, who, release).value.money, t, None, 0, Some(first),
                  Received(s, DoResolve(e, who, release), t));
      }
    }
    if ResolveFlagged(s, e, who, true).Ok? { SameWallets(s.money, s.money, t, None); }
  }

  /** Freezing a net amount pays nobody. */
  lemma SettledWallets(s: State, e: Symbol)
    requires Inv(s) && EnsureSettled(s, e).Ok?
    ensures var v := EnsureSettled(s, e).value;
      v.money.balance == s.money.balance && v.money.wallets == s.money.wallets && v.split.splits == s.split.splits
  {
    hide Inv, Validate, Gross, RevenueLeft, PayoutRatio, PlatformFee;
    if e !in s.split.settled { ValidState(s, e); }
  }

  lemma TradeMoved(s: State, e: Symbol, seller: Address, buyer: Address, price: int, t: Address)
    requires e in s.events.config && Trade(s, e, seller, buyer, price).Ok?
    ensures var (m, x) := (Trade(s, e, seller, buyer, price).value, s.events.config[e].payoutToken);
      Moved(s.money, m, t, Some(buyer), if price > 0 && x == t then price else 0,
            Some(seller), if price > 0 && x == t then SellerPart(s, e, price) else 0)
  {
    hide Portion;
    if price > 0 {
      PortionFloor(price, s.globals.feeBps);
      PortionFloor(price, s.events.config[e].royaltyBps);
    }
  }

  lemma BuyMoved(s: State, buyer: Address, tid: nat, external: bool, t: Address)
    requires BuyResale(s, buyer, tid, external).Ok?
    ensures StepMoved(s, DoBuy(buyer, tid, external), BuyResale(s, buyer, tid, external).value, t)
  {
    hide Trade, Moved, SellerPart, OwnerIndex.Add, OwnerIndex.RemoveCounted;
    TradeMoved(s, s.records.tickets[tid].event, s.listings[tid].seller, buyer, s.listings[tid].price, t);
  }

  /**
   A successful operation takes `Spent` from the wallet of `Spender`, pays `Received` to the wallet of `Receiver`, and
   moves the contract's balance by the difference; no other wallet changes.  A failed one changes nothing.
   */
  lemma WalletsMove(s: State, op: Op, t: Address)
    requires Inv(s)
    ensures Step(s, op).Ok? ==> StepMoved(s, op, After(s, op), t)
    ensures Step(s, op).Err? ==> After(s, op) == s
  {
    hide Inv, StepMoved, SetupStep, Pay, AdminRefund, ClaimRefund, PostponementRefund, RaiseDispute, ApproveRefund,
         RejectDispute, Timeouts, Withdraw, WithdrawRevenue, ReleaseIfExpired, WithdrawToken, WithdrawAllTokens,
         WithdrawPlatformRevenue, SyncSplits, WithdrawSplit, FlagCohost, ResolveFlagged, BuyResale;
    if Step(s, op).Ok? {
      match op
      case DoPay(p) => PayMoved(s, p, t);
      case DoRefund(a, id, x) => AdminRefundMoved(s, a, id, x, t);
      case DoClaimRefund(p, id) => ClaimMoved(s, p, id, t);
      case DoPostponementRefund(c, tid) => PostponementMoved(s, c, tid, t);
      case DoApprove(tid) => ApproveMoved(s, tid, t);
      case DoWithdraw(o, e) => WithdrawMoved(s, o, e, t);
      case DoWithdrawRevenue(e, to) => WithdrawRevenueMoved(s, e, to, t);
      case DoRelease(e) => ReleaseMoved(s, e, t);
      case DoWithdrawToken(o, e, x) => TokenMoved(s, o, e, x, t);
      case DoWithdrawAll(o, e) => AllMoved(s, o, e, t);
      case DoWithdrawPlatform(e) => PlatformMoved(s, e, t);
      case DoWithdrawSplit(r, e) => SplitsMoved(s, e, r, true, t);
      case DoResolve(e, r, b) => SplitsMoved(s, e, r, b, t);
      case DoBuy(b, tid, x) => BuyMoved(s, b, tid, x, t);
      case _ => QuietMoved(s, op, t);
    }
  }

  // ---- What that means for single operations ----

  /**
   A ticket sold to another address for a positive price costs the buyer the price and brings the seller the price less
   fee and royalty, if that is positive; no other wallet changes, in this token or another.  A gift moves no tokens.
   Either way the buyer is the new owner, the listing is gone, and every other ticket and listing is as before.
   */
  lemma ResalePays(s: State, buyer: Address, tid: nat, external: bool, t: Address, who: Address)
    requires BuyResale(s, buyer, tid, external).Ok?
    ensures tid in s.listings && tid in s.records.tickets && s.records.tickets[tid].event in s.events.config
    ensures var (u, l, c) := (BuyResale(s, buyer, tid, external).value, s.listings[tid],
                              s.events.config[s.records.tickets[tid].event]);
      var part := l.price - l.price * s.globals.feeBps / 10_000 - l.price * c.royaltyBps / 10_000;
      && (l.price > 0 && l.seller != buyer ==>
            && At(u.money.wallets, (c.payoutToken, buyer)) == At(s.money.wallets, (c.payoutToken, buyer)) - l.price
            && At(u.money.wallets, (c.payoutToken, l.seller))
                 == At(s.money.wallets, (c.payoutToken, l.seller)) + if part > 0 then part else 0)
      && (l.price <= 0 || t != c.payoutToken || (who != buyer && who != l.seller) ==>
            At(u.money.wallets, (t, who)) == At(s.money.wallets, (t, who)))
      && u.listings == s.listings - {tid}
      && u.records.tickets == s.records.tickets[tid := s.records.tickets[tid].(owner := Some(buyer))]
      && s.records.tickets[tid].owner == Some(l.seller)
  {
    hide Trade, OwnerIndex.Add, OwnerIndex.RemoveCounted;
    var (e, l) := (s.records.tickets[tid].event, s.listings[tid]);
    TradeMoved(s, e, l.seller, buyer, l.price, t);
    TradeMoved(s, e, l.seller, buyer, l.price, s.events.config[e].payoutToken);
  }

  /** A refund by the administrator goes to the payer, in the token paid, and is what the record gains. */
  lemma AdministratorRefundPays(s: State, admin: Address, id: nat, x: Option<int>, t: Address, who: Address)
    requires Inv(s) && AdminRefund(s, admin, id, x).Ok?
    ensures id in s.records.payments && s.records.payments[id].payer.Some?
    ensures var (u, p) := (AdminRefund(s, admin, id, x).value, s.records.payments[id]);
      var q := u.records.payments[id];
      && At(u.money.wallets, (t, who)) == At(s.money.wallets, (t, who))
           + (if p.token == t && p.payer == Some(who) then q.refunded - p.refunded else 0)
      && p.refunded < q.refunded && (x.Some? ==> q.refunded == p.refunded + x.value)
      && (q.status == Refunded <==> q.refunded == p.amount)
  {
    hide Inv, RefundDue, MaxRefund, PaidOut, Money.CanSend;
    Known(s, id);
    DueIs(s, id);
    AdminRefundMoved(s, admin, id, x, t);
  }

  /** A release pays the revenue of every listed token to the recorded organizer, once the end time has passed. */
  lemma ReleasePays(s: State, e: Symbol, t: Address, who: Address)
    requires Inv(s) && ReleaseIfExpired(s, e).Ok?
    ensures e in s.events.meta && s.timestamp >= s.events.meta[e].endTime
    ensures var (u, revenue) := (ReleaseIfExpired(s, e).value, Timeouts(s, e).money.Revenue(e, t));
      && At(u.money.wallets, (t, who)) == At(s.money.wallets, (t, who))
           + (if who == s.events.meta[e].organizer && t in s.TokensOf(e) && revenue > 0 then revenue else 0)
      && ReleaseIfExpired(u, e) == Err(if u.globals.paused then ContractPaused else EscrowAlreadyReleased)
  {
    hide Inv, Timeouts, Drain, Money.Revenue, BalancesCover;
    ReleaseMoved(s, e, t);
    ValidState(s, e);
  }

  /** A recipient's withdrawal pays its share of the frozen net amount to itself, in the frozen token. */
  lemma SharePays(s: State, who: Address, e: Symbol, t: Address, other: Address)
    requires Inv(s) && WithdrawSplit(s, who, e).Ok?
    ensures s.SplitsOf(e) != []
    ensures var u := WithdrawSplit(s, who, e).value;
      && e in u.split.settled
      && At(u.money.wallets, (t, other)) == At(s.money.wallets, (t, other))
           + (if other == who && t == u.split.settled[e].token
              then RecipientShare(s.SplitsOf(e), who, s.SplitsOf(e)[0].recipient, u.split.settled[e].net) else 0)
  {
    hide Inv, EnsureSettled, PayShare, RecipientShare, BpsOf, WasPaid;
    SplitsMoved(s, e, who, true, t);
    SettledBalance(s, e);
    ShareMoved(EnsureSettled(s, e).value, e, who, who, t);
  }

  /** Platform fees go to the fee wallet in the accepted token, all at once. */
  lemma FeesPay(s: State, e: Symbol, t: Address, who: Address)
    requires WithdrawPlatformRevenue(s, e).Ok?
    ensures var u := WithdrawPlatformRevenue(s, e).value;
      && At(u.money.wallets, (t, who)) == At(s.money.wallets, (t, who))
           + (if who == s.globals.wallet && t == s.globals.acceptedToken then At(s.money.platform, e) else 0)
      && At(u.money.platform, e) == 0 && At(s.money.platform, e) > 0
  {
    hide Moved;
    PlatformMoved(s, e, t);
    assert StepMoved(s, DoWithdrawPlatform(e), WithdrawPlatformRevenue(s, e).value, t);
  }

  // ---- Every run ----

  predicate SpentBy(ops: seq<Op>, who: Address) { exists i :: 0 <= i < |ops| && Spender(ops[i]) == Some(who) }

  /** What an operation adds to a wallet. */
  function Gain(s: State, op: Op, t: Address, who: Address): int {
    if Step(s, op).Err? then 0
    else (if Receiver(s, op) == Some(who) then Received(s, op, t) else 0)
         - if Spender(op) == Some(who) then Spent(s, op, t) else 0
  }

  function Gains(s: State, ops: seq<Op>, t: Address, who: Address): int {
    if ops == [] then 0
    else Gains(s, ops[..|ops| - 1], t, who) + Gain(Run(s, ops[..|ops| - 1]), ops[|ops| - 1], t, who)
  }

  lemma StepGain(s: State, op: Op, t: Address, who: Address)
    requires Inv(s)
    ensures At(After(s, op).money.wallets, (t, who)) == At(s.money.wallets, (t, who)) + Gain(s, op, t, who)
    ensures Spender(op) == Some(who) || Gain(s, op, t, who) >= 0
  {
    hide Inv, Step, Received, Spent, Receiver;
    WalletsMove(s, op, t);
  }

  /** In every run a wallet changes by what its owner received less what it spent, and falls only by its own purchases. */
  lemma {:induction false} WalletsOverRun(s: State, ops: seq<Op>, t: Address, who: Address)
    requires Deployed(s)
    ensures At(Run(s, ops).money.wallets, (t, who)) == At(s.money.wallets, (t, who)) + Gains(s, ops, t, who)
    ensures !SpentBy(ops, who) ==> Gains(s, ops, t, who) >= 0
  {
    hide Inv, Deployed, After, Gain;
    if ops != [] {
      var (init, op) := (ops[..|ops| - 1], ops[|ops| - 1]);
      WalletsOverRun(s, init, t, who);
      RunInv(s, init);
      StepGain(Run(s, init), op, t, who);
      if !SpentBy(ops, who) {
        assert forall i :: 0 <= i < |init| ==> init[i] == ops[i];
        assert Spender(ops[|ops| - 1]) != Some(who);
      }
    }
  }
}

/** When the operations of the escrow succeed, exactly, and who may call them. */
module EscrowRules {
  import opened Ledger
  import opened MapSums
  import opened OwnerIndexes
  import opened RevenueSplits
  import opened PaymentsSpec
  import opened EscrowLedger
  import opened EscrowInvariants
  import opened EscrowDisputes
  import opened EscrowSplits
  import opened EscrowCancellation
  import opened EscrowAccounts
  import opened EscrowWallets
  import EscrowIdentities

  /** The ledger of the contract counts in 32 bits. */
  function Until(start: nat, ledgers: nat): nat {
    if start + ledgers > 0xFFFF_FFFF then 0xFFFF_FFFF else start + ledgers
  }

  // ---- Payments ----

  /** Each privacy level comes with its own identity fields, and with no others. */
  predicate FieldsFit(p: PaymentParams) {
    match p.privacy
    case Standard => p.commitment.None? && p.stealth.None?
    case Private => p.commitment.None? && p.stealth.Some?
    case Anonymous => p.commitment.Some? && p.stealth.None?
  }

  predicate RulesAllow(s: State, p: PaymentParams) {
    p.event in s.events.privacy ==>
      && (p.isAnonymous ==> s.events.privacy[p.event].allowAnonymous)
      && (s.events.privacy[p.event].requiresVerification ==> p.isVerified)
  }

  predicate SeatsLeft(s: State, p: PaymentParams)
    requires FieldsFit(p)
  {
    p.event in s.events.config ==>
      var c := s.events.config[p.event];
      && (c.maxSupply > 0 ==> c.sold < c.maxSupply) && c.sold < 0xFFFF_FFFF
      && (p.privacy != Anonymous && c.maxPerUser > 0 ==>
            EscrowIdentities.HeldBy(s.ids, p.event, EscrowIdentities.IdentityOf(p).value) < c.maxPerUser)
  }

  predicate OnSale(s: State, e: Symbol) {
    e in s.events.status ==> s.events.status[e] == Upcoming || s.events.status[e] == Active
  }

  /** A payment is taken exactly under these conditions; records and tickets are numbered on. */
  lemma PayIff(s: State, p: PaymentParams)
    requires Inv(s)
    ensures Pay(s, p).Ok? <==>
      && !s.globals.paused && p.nonce != 0 && 0 < p.amount <= At(s.money.wallets, (p.token, p.payer))
      && FieldsFit(p) && !EscrowIdentities.Spent(s.ids, EscrowIdentities.IdentityOf(p).value, p.nonce)
      && (p.privacy == Anonymous ==> p.commitment.value !in s.ids.nullifiers)
      && RulesAllow(s, p) && SeatsLeft(s, p) && OnSale(s, p.event)
      && (p.token == s.globals.acceptedToken || p.token in s.globals.supported)
  {
    hide BooksOk, DisputesOk, SplitsOk, OwnersOk, PaymentOk, Issue, Remember;
    if FieldsFit(p) && Pay(s, p).Ok? { IssueConfig(s, p); }
    if FieldsFit(p) && BuildPayment(p).Ok? { IssueConfig(s, p); }
    NextNumber(s.records);
  }

  lemma IssueConfig(s: State, p: PaymentParams)
    requires BuildPayment(p).Ok?
    ensures Issue(s, p, BuildPayment(p).value).events.config == s.events.config
  {
    hide Money.Deposit, Remember, OwnerIndex.Add;
  }

  /** What an accepted payment records: the next payment, and the next ticket in the payer's name if it is a standard one. */
  lemma PayEffect(s: State, p: PaymentParams)
    requires Inv(s) && Pay(s, p).Ok?
    ensures var (r, u) := (s.records, Pay(s, p).value);
      var (id, owner) := (r.lastPayment + 1, if p.privacy == Standard then Some(p.payer) else None);
      && u.records.lastPayment == id && id !in r.payments
      && u.records.payments == r.payments[id := Payment(p.event, owner, p.commitment, p.amount, p.token, Held, p.privacy, 0)]
      && u.records.tickets == r.tickets[id := Ticket(p.event, owner, id, p.privacy)]
      && p.token in u.TokensOf(p.event) && s.TokensOf(p.event) <= u.TokensOf(p.event)
  {
    hide BooksOk, DisputesOk, SplitsOk, OwnersOk, PaymentOk, Money.Deposit, Remember, OwnerIndex.Add, CheckPayment;
    NextNumber(s.records);
  }

  // ---- Refunds ----

  /** The whole escrow of the event has been paid out. */
  predicate FullyPaidOut(s: State, e: Symbol) {
    || (e in s.events.config && s.events.config[e].withdrawn && s.events.config[e].ratio in {None, Some(10_000)})
    || (e in s.events.meta && s.events.meta[e].released)
  }

  /** An administrator's refund: a held standard payment, not paid out, up to what is due and the contract can send. */
  lemma AdminRefundIff(s: State, admin: Address, id: nat, x: Option<int>)
    requires Inv(s)
    ensures AdminRefund(s, admin, id, x).Ok? <==>
      && !s.globals.paused && admin == s.globals.admin && id in s.records.payments
      && s.records.payments[id].payer.Some? && s.records.payments[id].status == Held
      && !FullyPaidOut(s, s.records.payments[id].event)
      && var due := RefundDue(s, s.records.payments[id]);
         0 < (if x.Some? then x.value else due) <= due
         && (if x.Some? then x.value else due) <= At(s.money.balance, s.records.payments[id].token)
  {
    hide Inv, MaxRefund, RefundDue, RefundPayment;
    if id in s.records.payments {
      Known(s, id);
      DueIs(s, id);
    }
  }

  /** A payer's claim: the event cancelled, the payment held, and something due. */
  lemma ClaimRefundIff(s: State, payer: Address, id: nat)
    requires Inv(s)
    ensures ClaimRefund(s, payer, id).Ok? <==>
      && id in s.records.payments && s.records.payments[id].payer == Some(payer) && s.records.payments[id].status == Held
      && s.StatusOf(s.records.payments[id].event) == Some(Cancelled)
      && 0 < RefundDue(s, s.records.payments[id]) <= At(s.money.balance, s.records.payments[id].token)
  {
    hide Inv, RefundPayment, Portion;
    if id in s.records.payments {
      Known(s, id);
      DueIs(s, id);
      NothingLeft(s.records.payments[id].amount);
    }
  }

  lemma NothingLeft(a: int)
    ensures Portion(a, 0) == 0
  {
  }

  /** A ticket owner's choice during a postponement, up to and including the deadline; the original payer is paid. */
  lemma PostponementRefundIff(s: State, caller: Address, tid: nat)
    requires Inv(s)
    ensures PostponementRefund(s, caller, tid).Ok? <==>
      && !s.globals.paused && tid in s.records.tickets && s.records.tickets[tid].owner == Some(caller)
      && tid in s.records.payments && s.records.payments[tid].status == Held
      && var p := s.records.payments[tid];
         && s.StatusOf(p.event) == Some(Postponed) && p.event in s.events.deadline && s.ledger <= s.events.deadline[p.event]
         && p.refunded < p.amount && p.amount - p.refunded <= At(s.money.balance, p.token)
  {
    hide BooksOk, DisputesOk, SplitsOk, OwnersOk, RecordsOk, RefundPayment;
    TicketKnown(s, tid);
  }

  lemma TicketKnown(s: State, tid: nat)
    requires Inv(s)
    ensures tid in s.records.tickets <==> tid in s.records.payments
    ensures tid in s.records.tickets ==>
      && s.records.tickets[tid].payment == tid && s.records.tickets[tid].event == s.records.payments[tid].event
      && (s.records.tickets[tid].owner.Some? <==> s.records.payments[tid].payer.Some?)
      && 0 <= s.records.payments[tid].refunded <= s.records.payments[tid].amount
  {
    hide BooksOk, DisputesOk, SplitsOk, OwnersOk;
    if tid in s.records.payments { assert PaymentOk(s.records, tid); }
  }

  // ---- Disputes ----

  /** A dispute can be raised from the end of the event for 120960 ledgers, seven days of five-second ledgers. */
  lemma RaiseIff(s: State, tid: nat, reason: nat, authorized: bool)
    requires Inv(s)
    ensures RaiseDispute(s, tid, reason, authorized).Ok? <==>
      && !s.globals.paused && reason <= 2 && authorized && tid in s.records.payments && s.records.payments[tid].status == Held
      && s.records.payments[tid].event in s.events.config
      && var end := s.events.config[s.records.payments[tid].event].end;
         end <= s.ledger < Until(end, 120_960)
    ensures RaiseDispute(s, tid, reason, authorized).Ok? ==>
      var u := RaiseDispute(s, tid, reason, authorized).value;
      && u.records.payments == s.records.payments[tid := s.records.payments[tid].(status := Disputed)]
      && u.disputes.records == s.disputes.records[tid := Dispute(s.records.payments[tid].event, tid, reason, s.ledger)]
  {
    hide BooksOk, SplitsOk, OwnersOk, RecordsOk, ListOk, Money.WithRevenue, Money.Revenue;
    TicketKnown(s, tid);
  }

  /** A dispute can be approved for less than 241920 ledgers, fourteen days, and only for a payer with an address. */
  lemma ApproveIff(s: State, tid: nat)
    requires Inv(s)
    ensures ApproveRefund(s, tid).Ok? <==>
      && !s.globals.paused && tid in s.disputes.records && tid in s.records.payments
      && s.ledger < Until(s.disputes.records[tid].raisedAt, 241_920) && s.records.payments[tid].payer.Some?
      && s.records.payments[tid].amount - s.records.payments[tid].refunded
         <= At(s.money.balance, s.records.payments[tid].token)
    ensures ApproveRefund(s, tid).Ok? ==>
      var (u, p) := (ApproveRefund(s, tid).value, s.records.payments[tid]);
      && u.records.payments == s.records.payments[tid := p.(status := Refunded, refunded := p.amount)]
      && u.disputes.records == s.disputes.records - {tid}
  {
    hide BooksOk, SplitsOk, OwnersOk, RecordsOk, ListOk, Money.Refund, Without;
    TicketKnown(s, tid);
  }

  lemma RejectIff(s: State, tid: nat)
    requires Inv(s)
    ensures RejectDispute(s, tid).Ok? <==> !s.globals.paused && tid in s.disputes.records
    ensures RejectDispute(s, tid).Ok? ==>
      var u := RejectDispute(s, tid).value;
      && tid in s.records.payments
      && u.records.payments == s.records.payments[tid := s.records.payments[tid].(status := Held)]
      && u.disputes.records == s.disputes.records - {tid}
  {
    hide BooksOk, SplitsOk, OwnersOk, RecordsOk, ListOk, Money.WithRevenue, Money.Revenue, Without;
    TicketKnown(s, tid);
  }

  /** A timeout pass ends exactly the disputes of the event that are 241920 ledgers old, and nothing else. */
  lemma TimeoutIff(s: State, e: Symbol, tid: nat)
    requires Inv(s)
    ensures tid in Timeouts(s, e).disputes.records <==>
      tid in s.disputes.records
      && !(s.disputes.records[tid].event == e && s.ledger >= Until(s.disputes.records[tid].raisedAt, 241_920))
    ensures tid in Timeouts(s, e).ListOf(e) <==> tid in Timeouts(s, e).disputes.records && tid in s.ListOf(e)
    ensures tid in s.ListOf(e) <==> tid in s.disputes.records && s.disputes.records[tid].event == e
  {
    hide Timeouts, BooksOk, SplitsOk, OwnersOk, RecordsOk, NoDuplicates;
    var u := Timeouts(s, e);
    TimeoutsMove(s, e);
    TimeoutsFrame(s, e);
    TicketKnown(s, tid);
    TicketKnown(u, tid);
    assert ListOk(s.disputes, e) && ListOk(u.disputes, e);
    if tid in s.records.payments { TimeoutsEffect(s, e, tid); }
  }

  /** All disputes of the event have timed out. */
  predicate AllTimedOut(s: State, e: Symbol) {
    forall tid :: tid in s.disputes.records && s.disputes.records[tid].event == e ==>
      s.ledger >= Until(s.disputes.records[tid].raisedAt, 241_920)
  }

  lemma NoneOpen(s: State, e: Symbol)
    requires Inv(s)
    ensures Timeouts(s, e).ListOf(e) == [] <==> AllTimedOut(s, e)
  {
    hide Inv, Timeouts, Until;
    var l := Timeouts(s, e).ListOf(e);
    if l == [] {
      forall tid | tid in s.disputes.records && s.disputes.records[tid].event == e
        ensures s.ledger >= Until(s.disputes.records[tid].raisedAt, 241_920)
      {
        TimeoutIff(s, e, tid);
      }
    } else {
      TimeoutIff(s, e, l[0]);
    }
  }

  // ---- Payouts ----

  /** For each token of the event the contract holds what the event's books expect. */
  predicate BooksCovered(s: State, e: Symbol) {
    forall t :: t in s.TokensOf(e) ==>
      var b := s.money.BookOf(e, t);
      At(s.money.balance, t) >= b.volume - b.refunds - b.withdrawn
  }

  lemma {:induction false} ExpireCounters(s: State, f: Symbol, l: seq<nat>, e: Symbol, t: Address)
    ensures var (b, c) := (s.money.BookOf(e, t), ExpireList(s, f, l).money.BookOf(e, t)); c == b.(revenue := c.revenue)
  {
    hide Expired;
    if l != [] { ExpireCounters(s, f, l[..|l| - 1], e, t); }
  }

  /** The validation before a payout only compares the counters with the balances. */
  lemma ValidateIff(s: State, e: Symbol)
    ensures Validate(s, e).Ok? <==> BooksCovered(s, e)
  {
    hide ExpireList, AnyExpired, Remaining, Money.BookOf;
    ExpireListBalance(s, e, s.ListOf(e));
    TimeoutsFrame(s, e);
    var (u, tokens) := (Timeouts(s, e), s.TokensOf(e));
    forall t ensures Expected(u.money.BookOf(e, t)) == Expected(s.money.BookOf(e, t))
              && At(u.money.balance, t) == At(s.money.balance, t)
    {
      ExpireCounters(s, e, s.ListOf(e), e, t);
    }
    if BalancesCover(u.money, e, tokens) {
      forall t | t in tokens ensures At(s.money.balance, t) >= Expected(s.money.BookOf(e, t)) {
        var i :| 0 <= i < |tokens| && tokens[i] == t;
        assert At(u.money.balance, tokens[i]) >= Expected(u.money.BookOf(e, tokens[i]));
      }
    }
  }

  /** A completed event is settled after its end and both delays, a cancelled one with a part 100 ledgers after cancelling. */
  predicate Waited(s: State, e: Symbol)
    requires e in s.events.config
  {
    var c := s.events.config[e];
    || (s.StatusOf(e) == Some(Completed) && s.ledger >= c.end + c.delay + c.extension)
    || (s.StatusOf(e) == Some(Cancelled) && c.ratio.Some? && c.ratio.value > 0
        && c.cancelLedger.Some? && s.ledger >= c.cancelLedger.value + 100)
  }

  lemma WaitedIff(s: State, e: Symbol)
    requires e in s.events.config
    ensures PayoutRatio(s, e).Ok? <==> Waited(s, e)
    ensures Waited(s, e) ==>
      PayoutRatio(s, e).value == if s.StatusOf(e) == Some(Completed) then 10_000 else s.events.config[e].ratio.value
  {
  }

  /** What a settlement leaves of the revenue: nothing, or for a partly elapsed cancelled event what was not taken. */
  function LeftOver(s: State, e: Symbol, t: Address): int {
    if s.StatusOf(e) == Some(Completed) || s.RatioOf(e) == Some(10_000) then 0
    else Timeouts(s, e).money.Revenue(e, t) - GrossOf(s, e, t)
  }

  /**
   The organizer's settlement: not for events with a split, once, after the waiting time, with no dispute left open and
   something to take.  It pays the gross amount less the fee, books the fee, and latches.
   */
  lemma WithdrawIff(s: State, o: Address, e: Symbol)
    requires Inv(s)
    ensures Withdraw(s, o, e).Ok? <==>
      && !s.globals.paused && e !in s.split.splits && e in s.events.config && s.events.config[e].organizer == o
      && !s.events.config[e].withdrawn && Waited(s, e) && BooksCovered(s, e) && AllTimedOut(s, e)
      && var t := s.events.config[e].payoutToken;
         && Timeouts(s, e).money.Revenue(e, t) > 0 && GrossOf(s, e, t) > 0
         && NetOf(s, GrossOf(s, e, t)) <= At(s.money.balance, t)
    ensures Withdraw(s, o, e).Ok? ==>
      var (u, t) := (Withdraw(s, o, e).value, s.events.config[e].payoutToken);
      && u.events.config == s.events.config[e := s.events.config[e].(withdrawn := true)]
      && u.money.Revenue(e, t) == LeftOver(s, e, t)
      && u.money.BookOf(e, t).withdrawn == s.money.BookOf(e, t).withdrawn + NetOf(s, GrossOf(s, e, t))
      && At(u.money.platform, e) == At(s.money.platform, e) + GrossOf(s, e, t) - NetOf(s, GrossOf(s, e, t))
  {
    hide Inv, Validate, WithdrawNow, PayoutRatio, GrossOf, Timeouts, Money.Revenue, Money.BookOf, AllTimedOut, LeftOver, Gross,
         Waited;
    ValidateIff(s, e);
    NoneOpen(s, e);
    if Validate(s, e).Ok? && e in s.events.config {
      WaitedIff(s, e);
      ValidState(s, e);
      ValidateBooks(s, e);
      var v := Validate(s, e).value;
      if PayoutRatio(s, e).Ok? && v.ListOf(e) == [] {
        GrossAfter(s, e, s.events.config[e].payoutToken);
        WithdrawNowIff(v, e, PayoutRatio(s, e).value);
        LeftIs(s, e, s.events.config[e].payoutToken);
      }
    }
  }

  /** The gross amount after timeouts, from the state before them. */
  lemma GrossAfter(s: State, e: Symbol, t: Address)
    requires Inv(s) && Validate(s, e).Ok? && e in s.events.config && PayoutRatio(s, e).Ok?
    requires Validate(s, e).value.ListOf(e) == []
    ensures Gross(Validate(s, e).value, e, t, PayoutRatio(s, e).value) == GrossOf(s, e, t)
  {
    hide Inv, Validate, Timeouts, Portion, Money.BookOf;
    ValidState(s, e);
    var (v, ratio) := (Validate(s, e).value, PayoutRatio(s, e).value);
    if s.StatusOf(e) == Some(Completed) {
      PortionAll(v.money.Revenue(e, t));
    } else {
      VolumeNonNegative(v, e, t);
      PortionFloor(v.money.BookOf(e, t).volume, ratio);
    }
  }

  lemma VolumeNonNegative(s: State, e: Symbol, t: Address)
    requires Inv(s)
    ensures s.money.BookOf(e, t).volume >= 0
  {
    hide Inv, Portion, Tally, Money.BookOf;
    BooksAre(s, e, t);
    PoolNonNegative(s, e, t, 10_000);
    PortionAll(Tally(s.records.payments, e, t, AMOUNT));
  }

  lemma LeftIs(s: State, e: Symbol, t: Address)
    requires Inv(s) && Validate(s, e).Ok? && e in s.events.config && Waited(s, e)
    requires PayoutRatio(s, e).Ok? && Gross(Validate(s, e).value, e, t, PayoutRatio(s, e).value) == GrossOf(s, e, t)
    ensures RevenueLeft(Validate(s, e).value, e, t, PayoutRatio(s, e).value, GrossOf(s, e, t)) == LeftOver(s, e, t)
  {
    hide Inv, Validate, Timeouts, GrossOf, Gross, Money.Revenue;
    ValidState(s, e);
  }

  /** The settlement itself. */
  lemma WithdrawNowIff(s: State, e: Symbol, ratio: Bps)
    requires e in s.events.config
    ensures var t := s.events.config[e].payoutToken;
      var gross := Gross(s, e, t, ratio);
      && (WithdrawNow(s, e, ratio).Ok? <==> s.money.Revenue(e, t) > 0 && gross > 0 && NetOf(s, gross) <= At(s.money.balance, t))
      && (WithdrawNow(s, e, ratio).Ok? ==>
            var u := WithdrawNow(s, e, ratio).value;
            && u.events.config == s.events.config[e := s.events.config[e].(withdrawn := true)]
            && u.money.Revenue(e, t) == RevenueLeft(s, e, t, ratio, gross)
            && u.money.BookOf(e, t).withdrawn == s.money.BookOf(e, t).withdrawn + NetOf(s, gross)
            && At(u.money.platform, e) == At(s.money.platform, e) + gross - NetOf(s, gross))
  {
    hide Gross, RevenueLeft, Portion;
    var gross := Gross(s, e, s.events.config[e].payoutToken, ratio);
    if gross > 0 {
      FeeWithinGross(gross, s.globals.feeBps);
      PortionFloor(gross, s.globals.feeBps);
    }
  }

  /** The administrator's payout of the accepted token: on the same latch, but neither waiting nor minding open disputes. */
  lemma WithdrawRevenueIff(s: State, e: Symbol, to: Address)
    requires Inv(s)
    ensures var (t, revenue) := (s.globals.acceptedToken, Timeouts(s, e).money.Revenue(e, s.globals.acceptedToken));
      && (WithdrawRevenue(s, e, to).Ok? <==>
            && !s.globals.paused && e !in s.split.splits && s.StatusOf(e) != Some(Postponed)
            && (e in s.events.config ==> !s.events.config[e].withdrawn)
            && BooksCovered(s, e) && 0 < revenue && NetOf(s, revenue) <= At(s.money.balance, t))
      && (WithdrawRevenue(s, e, to).Ok? ==>
            var u := WithdrawRevenue(s, e, to).value;
            && (e in s.events.config ==> u.events.config == s.events.config[e := s.events.config[e].(withdrawn := true)])
            && (e !in s.events.config ==> u.events.config == s.events.config)
            && u.money.Revenue(e, t) == 0
            && u.money.BookOf(e, t).withdrawn == s.money.BookOf(e, t).withdrawn + NetOf(s, revenue)
            && At(u.money.platform, e) == At(s.money.platform, e) + revenue - NetOf(s, revenue))
  {
    hide Inv, Validate, WithdrawRevenueNow, Timeouts, Money.Revenue, Money.BookOf;
    ValidateIff(s, e);
    if Validate(s, e).Ok? {
      ValidState(s, e);
      ValidateBooks(s, e);
      RevenueNowIff(Validate(s, e).value, e, to);
    }
  }

  lemma RevenueNowIff(s: State, e: Symbol, to: Address)
    ensures var (t, revenue) := (s.globals.acceptedToken, s.money.Revenue(e, s.globals.acceptedToken));
      && (WithdrawRevenueNow(s, e, to).Ok? <==> 0 < revenue && NetOf(s, revenue) <= At(s.money.balance, t))
      && (WithdrawRevenueNow(s, e, to).Ok? ==>
            var u := WithdrawRevenueNow(s, e, to).value;
            && (e in s.events.config ==> u.events.config == s.events.config[e := s.events.config[e].(withdrawn := true)])
            && (e !in s.events.config ==> u.events.config == s.events.config)
            && u.money.Revenue(e, t) == 0
            && u.money.BookOf(e, t).withdrawn == s.money.BookOf(e, t).withdrawn + NetOf(s, revenue)
            && At(u.money.platform, e) == At(s.money.platform, e) + revenue - NetOf(s, revenue))
  {
    hide Portion;
    var revenue := s.money.Revenue(e, s.globals.acceptedToken);
    if revenue > 0 {
      FeeWithinGross(revenue, s.globals.feeBps);
      PortionFloor(revenue, s.globals.feeBps);
    }
  }

  /** The contract can send the revenue of every listed token. */
  predicate CanDrain(m: Money, e: Symbol, tokens: seq<Address>) {
    forall t :: t in tokens ==> m.Revenue(e, t) <= 0 || m.Revenue(e, t) <= At(m.balance, t)
  }

  lemma {:induction false} DrainIff(m: Money, e: Symbol, to: Address, tokens: seq<Address>)
    ensures Drain(m, e, to, tokens).Ok? <==> CanDrain(m, e, tokens)
    ensures Drain(m, e, to, tokens).Ok? ==>
      (Drain(m, e, to, tokens).value.any <==> exists t :: t in tokens && m.Revenue(e, t) > 0)
  {
    hide Money.Payout, Money.Revenue, Left;
    if tokens != [] {
      var (init, x) := (tokens[..|tokens| - 1], tokens[|tokens| - 1]);
      assert tokens == init + [x];
      DrainIff(m, e, to, init);
      if Drain(m, e, to, init).Ok? { DrainedToken(m, e, to, init, x); }
    }
  }

  lemma DrainedToken(m: Money, e: Symbol, to: Address, tokens: seq<Address>, t: Address)
    requires Drain(m, e, to, tokens).Ok?
    ensures var n := Drain(m, e, to, tokens).value.money;
      if t in tokens && m.Revenue(e, t) > 0 then n.Revenue(e, t) == 0
      else n.Revenue(e, t) == m.Revenue(e, t) || n.Revenue(e, t) == m.Revenue(e, t) == 0
    ensures t !in tokens ==> At(Drain(m, e, to, tokens).value.money.balance, t) == At(m.balance, t)
  {
    hide Drain;
    DrainAt(m, e, to, tokens, t);
  }

  /** Release after the recorded end time: once, not while postponed, and whoever calls. */
  lemma ReleaseIff(s: State, e: Symbol)
    requires Inv(s)
    ensures ReleaseIfExpired(s, e).Ok? <==>
      && !s.globals.paused && e !in s.split.splits && e in s.events.meta && !s.events.meta[e].released
      && s.StatusOf(e) != Some(Postponed) && s.timestamp >= s.events.meta[e].endTime
      && (e in s.events.config ==> s.ledger >= s.events.config[e].end)
      && BooksCovered(s, e) && CanDrain(Timeouts(s, e).money, e, s.TokensOf(e))
    ensures ReleaseIfExpired(s, e).Ok? ==>
      ReleaseIfExpired(s, e).value.events == s.events.(meta := s.events.meta[e := s.events.meta[e].(released := true)])
  {
    hide Inv, Validate, Timeouts, Drain, CanDrain, BooksCovered;
    ValidateIff(s, e);
    if Validate(s, e).Ok? && e in s.events.meta {
      ValidState(s, e);
      DrainIff(Validate(s, e).value.money, e, s.events.meta[e].organizer, s.TokensOf(e));
    }
  }

  /**
   A completed event is drained of one token, or of all, without splits, and there must be something to drain; platform
   fees are paid out whatever the event's status.
   */
  lemma DrainsIff(s: State, o: Address, e: Symbol, t: Address)
    requires Inv(s)
    ensures WithdrawToken(s, o, e, t).Ok? <==>
      && !s.globals.paused && e !in s.split.splits && s.StatusOf(e) == Some(Completed) && BooksCovered(s, e)
      && 0 < Timeouts(s, e).money.Revenue(e, t) <= At(s.money.balance, t)
    ensures WithdrawAllTokens(s, o, e).Ok? <==>
      && !s.globals.paused && e !in s.split.splits && s.StatusOf(e) == Some(Completed) && BooksCovered(s, e)
      && CanDrain(Timeouts(s, e).money, e, s.TokensOf(e))
      && exists x :: x in s.TokensOf(e) && Timeouts(s, e).money.Revenue(e, x) > 0
    ensures WithdrawPlatformRevenue(s, e).Ok? <==>
      !s.globals.paused && 0 < At(s.money.platform, e) <= At(s.money.balance, s.globals.acceptedToken)
  {
    hide Inv, Validate, Timeouts, Drain, CanDrain, BooksCovered, Money.Revenue, Money.Payout;
    ValidateIff(s, e);
    if Validate(s, e).Ok? {
      ValidState(s, e);
      DrainIff(Validate(s, e).value.money, e, o, s.TokensOf(e));
    }
  }

  // ---- The organizer's pool of a cancelled event ----

  /** The amounts of the event's payments in the token whose tickets are on the list. */
  ghost function Listed(pays: map<nat, Payment>, e: Symbol, t: Address, l: seq<nat>): map<nat, int> {
    map i | i in pays && pays[i].event == e && pays[i].token == t :: if i in l then pays[i].amount else 0
  }

  lemma {:induction false} NothingListed(m: map<nat, int>)
    requires forall i :: i in m ==> m[i] == 0
    ensures Sum(m) == 0
    decreases |m|
  {
    if m != map[] {
      var k :| k in m;
      SumTake(m, k);
      assert |m - {k}| < |m| by { assert (m - {k}).Keys == m.Keys - {k}; }
      NothingListed(m - {k});
    }
  }

  /** The loop over a list of disputes of the event adds up the amounts listed. */
  lemma {:induction false} DisputedSum(s: State, e: Symbol, t: Address, l: seq<nat>)
    requires NoDuplicates(l)
    requires forall tid :: tid in l ==>
      && tid in s.disputes.records && s.disputes.records[tid].payment == tid
      && tid in s.records.payments && s.records.payments[tid].event == e
    ensures DisputedVolume(s, t, l) == Sum(Listed(s.records.payments, e, t, l))
  {
    hide Sum;
    var pays := s.records.payments;
    if l == [] {
      NothingListed(Listed(pays, e, t, []));
    } else {
      var (init, tid) := (l[..|l| - 1], l[|l| - 1]);
      assert l == init + [tid];
      DisputedSum(s, e, t, init);
      if pays[tid].token == t {
        SumUpdate(Listed(pays, e, t, init), tid, pays[tid].amount);
        assert Listed(pays, e, t, l) == Listed(pays, e, t, init)[tid := pays[tid].amount];
      } else {
        assert Listed(pays, e, t, l) == Listed(pays, e, t, init);
      }
    }
  }

  const UNDISPUTED: Payment -> int := (p: Payment) => if p.status == Disputed then 0 else p.amount

  /** The pool is the organizer's part of the payments that are not disputed, rounded down. */
  lemma PoolIs(s: State, e: Symbol, t: Address, ratio: Bps)
    requires Inv(s)
    ensures CancellationPool(s, e, t, ratio) == Portion(Tally(s.records.payments, e, t, UNDISPUTED), ratio)
  {
    hide Sum, BooksOk, SplitsOk, OwnersOk, RecordsOk, NoDuplicates, Portion;
    var (pays, l) := (s.records.payments, s.ListOf(e));
    assert ListOk(s.disputes, e);
    DisputedSum(s, e, t, l);
    BooksAre(s, e, t);
    var (a, d, u) := (Part(pays, e, t, AMOUNT), Listed(pays, e, t, l), Part(pays, e, t, UNDISPUTED));
    forall i | i in u ensures u[i] == a[i] - d[i] { assert pays[i].status == Disputed <==> i in s.disputes.records; }
    SumDifference(u, a, d);
  }

  // ---- Splits ----

  predicate IsRecipient(s: State, e: Symbol, who: Address) {
    e in s.split.splits && exists i :: 0 <= i < |s.split.splits[e]| && s.split.splits[e][i].recipient == who
  }

  predicate HasBeenPaid(s: State, e: Symbol, who: Address) {
    e in s.split.paid && who in s.split.paid[e] && s.split.paid[e][who] > 0
  }

  /**
   A split is set by the event contract, once, for a configured event: one to five different recipients, the organizer
   first, with positive shares of 10000 basis points in all.
   */
  lemma SyncSplitsIff(s: State, caller: Address, e: Symbol, l: seq<Split>)
    ensures SyncSplits(s, caller, e, l).Ok? <==>
      && !s.globals.paused && caller == s.globals.eventContract && e !in s.split.splits && e in s.events.config
      && 1 <= |l| <= 5 && l[0].recipient == s.events.config[e].organizer && BpsSum(l) == 10_000
      && (forall i :: 0 <= i < |l| ==> l[i].bps > 0)
      && (forall i, j :: 0 <= i < j < |l| ==> l[i].recipient != l[j].recipient)
    ensures SyncSplits(s, caller, e, l).Ok? ==>
      SyncSplits(s, caller, e, l).value == s.(split := s.split.(splits := s.split.splits[e := l]))
  {
    hide BpsSum;
  }

  /** The net amount of a split can be frozen: like the organizer's settlement, but without its latch. */
  predicate CanSettle(s: State, e: Symbol) {
    && e in s.events.config && Waited(s, e) && BooksCovered(s, e) && AllTimedOut(s, e)
    && var t := s.events.config[e].payoutToken;
       && (s.StatusOf(e) == Some(Cancelled) || Timeouts(s, e).money.Revenue(e, t) > 0)
       && GrossOf(s, e, t) > 0 && NetOf(s, GrossOf(s, e, t)) > 0
  }

  lemma SettleNowIff(s: State, e: Symbol, ratio: Bps)
    requires e in s.events.config
    ensures var t := s.events.config[e].payoutToken;
      var gross := Gross(s, e, t, ratio);
      && (SettleNow(s, e, ratio).Ok? <==> (s.StatusOf(e) == Some(Cancelled) || s.money.Revenue(e, t) > 0)
                                          && gross > 0 && NetOf(s, gross) > 0)
      && (SettleNow(s, e, ratio).Ok? ==>
            var u := SettleNow(s, e, ratio).value;
            && u.split == s.split.(settled := s.split.settled[e := Settlement(t, NetOf(s, gross))])
            && u.money.Revenue(e, t) == RevenueLeft(s, e, t, ratio, gross)
            && At(u.money.platform, e) == At(s.money.platform, e) + gross - NetOf(s, gross))
  {
    hide Gross, RevenueLeft, Portion;
    var gross := Gross(s, e, s.events.config[e].payoutToken, ratio);
    if gross > 0 {
      FeeWithinGross(gross, s.globals.feeBps);
      PortionFloor(gross, s.globals.feeBps);
    }
  }

  /** Freezing: done already, or possible now; the frozen amount is the gross amount less the fee, which is booked. */
  lemma SettleIff(s: State, e: Symbol)
    requires Inv(s)
    ensures EnsureSettled(s, e).Ok? <==> e in s.split.settled || CanSettle(s, e)
    ensures e in s.split.settled ==> EnsureSettled(s, e) == Ok(s)
    ensures e !in s.split.settled && CanSettle(s, e) ==>
      var (u, t) := (EnsureSettled(s, e).value, s.events.config[e].payoutToken);
      && u.split == s.split.(settled := s.split.settled[e := Settlement(t, NetOf(s, GrossOf(s, e, t)))])
      && u.money.Revenue(e, t) == LeftOver(s, e, t)
      && At(u.money.platform, e) == At(s.money.platform, e) + GrossOf(s, e, t) - NetOf(s, GrossOf(s, e, t))
      && u.money.balance == s.money.balance
  {
    hide Inv, Validate, SettleNow, PayoutRatio, GrossOf, Timeouts, Money.Revenue, Money.BookOf, AllTimedOut, LeftOver, Gross, Waited;
    ValidateIff(s, e);
    NoneOpen(s, e);
    if e !in s.split.settled && Validate(s, e).Ok? && e in s.events.config {
      WaitedIff(s, e);
      ValidState(s, e);
      ValidateBooks(s, e);
      var v := Validate(s, e).value;
      if PayoutRatio(s, e).Ok? && v.ListOf(e) == [] {
        GrossAfter(s, e, s.events.config[e].payoutToken);
        SettleNowIff(v, e, PayoutRatio(s, e).value);
        LeftIs(s, e, s.events.config[e].payoutToken);
        if EnsureSettled(s, e).Ok? { SettledBalance(s, e); }
      }
    }
  }

  lemma RecipientIff(s: State, e: Symbol, who: Address)
    ensures s.SplitsOf(e) != [] && BpsOf(s.SplitsOf(e), who).Some? <==> IsRecipient(s, e, who)
  {
    ListedIff(s.SplitsOf(e), who, 0);
  }

  lemma {:induction false} ListedIff(l: seq<Split>, who: Address, from: nat)
    requires from <= |l|
    ensures BpsFrom(l, who, from).Some? <==> exists i :: from <= i < |l| && l[i].recipient == who
    decreases |l| - from
  {
    if from < |l| { ListedIff(l, who, from + 1); }
  }

  /** A share can be paid from a frozen net amount. */
  predicate SharePayable(u: State, e: Symbol, who: Address) {
    && e in u.split.settled && u.SplitsOf(e) != []
    && 0 < RecipientShare(u.SplitsOf(e), who, u.SplitsOf(e)[0].recipient, u.split.settled[e].net)
         <= At(u.money.balance, u.split.settled[e].token)
  }

  /** A recipient withdraws its share once, unless flagged; the amount is recorded as paid to it. */
  lemma WithdrawSplitIff(s: State, who: Address, e: Symbol)
    requires Inv(s)
    ensures WithdrawSplit(s, who, e).Ok? <==>
      && !s.globals.paused && IsRecipient(s, e, who) && (e, who) !in s.split.flagged && !HasBeenPaid(s, e, who)
      && EnsureSettled(s, e).Ok? && SharePayable(EnsureSettled(s, e).value, e, who)
    ensures WithdrawSplit(s, who, e).Ok? ==>
      HasBeenPaid(WithdrawSplit(s, who, e).value, e, who) && WithdrawSplit(s, who, e).value.split.flagged == s.split.flagged
  {
    hide Inv, EnsureSettled, BpsOf, RecipientShare;
    RecipientIff(s, e, who);
    if EnsureSettled(s, e).Ok? { SettledBalance(s, e); }
  }

  /** Only the primary organizer flags, and only another recipient that has not been paid. */
  lemma FlagIff(s: State, caller: Address, e: Symbol, who: Address)
    requires Inv(s)
    ensures FlagCohost(s, caller, e, who).Ok? <==>
      && !s.globals.paused && IsRecipient(s, e, who) && caller == s.split.splits[e][0].recipient && who != caller
      && !HasBeenPaid(s, e, who)
    ensures FlagCohost(s, caller, e, who).Ok? ==>
      FlagCohost(s, caller, e, who).value == s.(split := s.split.(flagged := s.split.flagged + {(e, who)}))
  {
    hide Inv, BpsOf;
    RecipientIff(s, e, who);
  }

  /** A flag is released, or its share paid to the primary organizer and marked as paid to the recipient; either way it is gone. */
  lemma ResolveIff(s: State, e: Symbol, who: Address, release: bool)
    requires Inv(s)
    ensures ResolveFlagged(s, e, who, release).Ok? <==>
      && !s.globals.paused && IsRecipient(s, e, who) && (e, who) in s.split.flagged
      && (!release ==> !HasBeenPaid(s, e, who) && EnsureSettled(s, e).Ok? && SharePayable(EnsureSettled(s, e).value, e, who))
    ensures ResolveFlagged(s, e, who, release).Ok? ==>
      var u := ResolveFlagged(s, e, who, release).value;
      && u.split.flagged == s.split.flagged - {(e, who)}
      && (if release then u == s.(split := u.split) && u.split == s.split.(flagged := u.split.flagged)
          else HasBeenPaid(u, e, who))
  {
    hide Inv, EnsureSettled, BpsOf, RecipientShare;
    RecipientIff(s, e, who);
    if EnsureSettled(s, e).Ok? { SettledBalance(s, e); }
  }

  // ---- Resale ----

  /** The owner lists its ticket at a price up to the event's cap; that tickets are never free makes the other guard idle. */
  lemma ListIff(s: State, seller: Address, tid: nat, price: int)
    requires Inv(s)
    ensures ListTicket(s, seller, tid, price).Ok? <==>
      && !s.globals.paused && tid in s.records.tickets && s.records.tickets[tid].owner == Some(seller)
      && s.records.tickets[tid].event in s.events.config
      && var c := s.events.config[s.records.tickets[tid].event];
         c.maxResalePrice.Some? ==> price <= c.maxResalePrice.value
    ensures ListTicket(s, seller, tid, price).Ok? ==>
      ListTicket(s, seller, tid, price).value == s.(listings := s.listings[tid := Listing(price, seller)])
  {
    hide BooksOk, DisputesOk, SplitsOk, OwnersOk;
    if tid in s.records.tickets { assert PaymentOk(s.records, tid); }
  }

  lemma DelistIff(s: State, seller: Address, tid: nat)
    ensures Delist(s, seller, tid).Ok? <==> !s.globals.paused && tid in s.listings && s.listings[tid].seller == seller
    ensures Delist(s, seller, tid).Ok? ==> Delist(s, seller, tid).value == s.(listings := s.listings - {tid})
  {
  }

  /** A listed ticket is bought while its seller still owns it, the buyer has the price, and the ticket contract agrees. */
  lemma BuyIff(s: State, buyer: Address, tid: nat, external: bool)
    requires Inv(s)
    ensures BuyResale(s, buyer, tid, external).Ok? <==>
      && !s.globals.paused && external && tid in s.listings && tid in s.records.tickets
      && s.records.tickets[tid].owner == Some(s.listings[tid].seller) && s.records.tickets[tid].event in s.events.config
      && var (c, price) := (s.events.config[s.records.tickets[tid].event], s.listings[tid].price);
         price > 0 ==>
           && price <= At(s.money.wallets, (c.payoutToken, buyer))
           && var part := SellerPart(s, s.records.tickets[tid].event, price);
              part > 0 ==> part <= At(s.money.balance, c.payoutToken) + price
  {
    hide Inv, MoveTicket, Portion;
    if tid in s.listings && tid in s.records.tickets && s.records.tickets[tid].event in s.events.config
       && s.listings[tid].price > 0
    {
      PortionFloor(s.listings[tid].price, s.globals.feeBps);
      PortionFloor(s.listings[tid].price, s.events.config[s.records.tickets[tid].event].royaltyBps);
    }
  }

  // ---- Settings ----

  /** Whether a setting is accepted. */
  predicate SetupAllowed(s: State, x: Setup) {
    match x
    case DoSyncConfig(caller, e, c) =>
      && !s.globals.paused && caller == s.globals.eventContract && c.payoutToken == s.globals.acceptedToken
      && (e in s.events.config ==>
            s.events.config[e].organizer == c.organizer && s.events.config[e].payoutToken == c.payoutToken)
    case DoSyncPrivacy(caller, _, _) => !s.globals.paused && caller == s.globals.eventContract
    case DoSetStatus(a, _, _) => !s.globals.paused && a == s.globals.admin
    case DoCancelEvent(e, o) => e in s.events.config && s.events.config[e].organizer == o
    case DoPostpone(e, o, _) => !s.globals.paused && e in s.events.config && s.events.config[e].organizer == o
    case DoResume(e, o) =>
      && !s.globals.paused && e in s.events.config && s.events.config[e].organizer == o
      && s.StatusOf(e) == Some(Postponed)
    case DoSetEndTime(a, _, _, _) => !s.globals.paused && a == s.globals.admin
    case DoExtendDelay(a, e, _) => a == s.globals.admin && e in s.events.config
    case DoSetPaused(a, _) => a == s.globals.admin
    case DoSetPlatformFee(f, _) => !s.globals.paused && f <= 10_000
    case DoAddSupportedToken(a, _) => a == s.globals.admin
    case DoListTicket(o, tid, price) => ListTicket(s, o, tid, price).Ok?
    case DoDelist(o, tid) => Delist(s, o, tid).Ok?
  }

  lemma SetupIff(s: State, x: Setup)
    ensures SetupStep(s, x).Ok? <==> SetupAllowed(s, x)
  {
    hide CancelRatio, ListTicket, Delist;
  }

  /** `d` has the organizer, token, dates, limits and resale rules of `c`. */
  predicate SameTerms(c: Config, d: Config) {
    && d.organizer == c.organizer && d.payoutToken == c.payoutToken && d.start == c.start && d.end == c.end
    && d.delay == c.delay && d.maxSupply == c.maxSupply && d.maxPerUser == c.maxPerUser && d.royaltyBps == c.royaltyBps
    && d.maxResalePrice == c.maxResalePrice && d.freeTransfer == c.freeTransfer
  }

  /**
   What a setting writes.  A synchronized configuration has the new terms, and starts unsold and unsettled when it is the
   first of its event.
   */
  lemma SettingEffects(s: State, x: Setup)
    requires SetupStep(s, x).Ok?
    ensures var u := SetupStep(s, x).value;
      match x
      case DoSyncConfig(_, e, c) =>
        && e in u.events.config && SameTerms(c, u.events.config[e])
        && (e !in s.events.config ==>
              var d := u.events.config[e];
              d.sold == 0 && d.extension == 0 && !d.withdrawn && d.cancelLedger == None && d.ratio == None)
      case DoCancelEvent(e, _) =>
        && u.StatusOf(e) == Some(Cancelled) && u.events.config[e].cancelLedger == Some(s.ledger)
        && u.RatioOf(e) == Some(CancelRatio(s.events.config[e], s.ledger))
      case DoPostpone(e, _, d) => u.StatusOf(e) == Some(Postponed) && e in u.events.deadline && u.events.deadline[e] == d
      case DoResume(e, _) => u.StatusOf(e) == Some(Active) && e !in u.events.deadline
      case DoSetStatus(_, e, y) => u.StatusOf(e) == Some(y)
      case DoSetEndTime(_, e, o, end) => e in u.events.meta && u.events.meta[e] == EscrowMeta(o, end, false)
      case DoExtendDelay(_, e, n) => u.events.config[e].extension == s.events.config[e].extension + n
      case DoSetPaused(_, b) => u.globals == s.globals.(paused := b)
      case DoSetPlatformFee(f, w) => f <= 10_000 && u.globals == s.globals.(feeBps := f, wallet := w)
      case DoAddSupportedToken(_, t) => u.globals == s.globals.(supported := s.globals.supported + {t})
      case DoSyncPrivacy(_, e, r) => e in u.events.privacy && u.events.privacy[e] == r
      case _ => true
  {
    hide CancelRatio;
  }

  /**
   The organizer's part of a cancelled event in basis points: nothing before its start, all of it from its end on, and
   in between the elapsed part rounded down; and cancelling later never makes it smaller.
   */
  lemma CancelRatioIs(c: Config, ledger: nat, later: nat)
    requires ledger <= later
    ensures ledger < c.start ==> CancelRatio(c, ledger) == 0
    ensures ledger >= c.start && ledger >= c.end ==> CancelRatio(c, ledger) == 10_000
    ensures c.start <= ledger < c.end ==>
      var (ratio, total, elapsed) := (CancelRatio(c, ledger), c.end - c.start, ledger - c.start);
      ratio * total <= elapsed * 10_000 < ratio * total + total
    ensures CancelRatio(c, ledger) <= CancelRatio(c, later)
  {
    if c.start <= ledger < c.end {
      DivisionBounds((ledger - c.start) * 10_000, c.end - c.start);
      if later < c.end { DivisionGrows((ledger - c.start) * 10_000, (later - c.start) * 10_000, c.end - c.start); }
    }
  }

  lemma DivisionBounds(a: nat, d: nat)
    requires d > 0
    ensures a / d * d <= a < a / d * d + d
  {
  }

  lemma DivisionGrows(a: nat, b: nat, d: nat)
    requires d > 0 && a <= b
    ensures a / d <= b / d
  {
    if a / d > b / d { SmallerFactor(b / d + 1, a / d, d); }
  }

  lemma SmallerFactor(a: nat, b: nat, d: nat)
    requires a <= b
    ensures a * d <= b * d
  {
  }

  // ---- Authority ----

  /** Who can change anything by an operation; the operations not named are open to everybody or authenticated by the host. */
  predicate MayCall(s: State, op: Op) {
    match op
    case DoSetup(DoSyncConfig(caller, _, _)) => caller == s.globals.eventContract
    case DoSetup(DoSyncPrivacy(caller, _, _)) => caller == s.globals.eventContract
    case DoSetup(DoSetStatus(a, _, _)) => a == s.globals.admin
    case DoSetup(DoCancelEvent(e, o)) => e in s.events.config && o == s.events.config[e].organizer
    case DoSetup(DoPostpone(e, o, _)) => e in s.events.config && o == s.events.config[e].organizer
    case DoSetup(DoResume(e, o)) => e in s.events.config && o == s.events.config[e].organizer
    case DoSetup(DoSetEndTime(a, _, _, _)) => a == s.globals.admin
    case DoSetup(DoExtendDelay(a, _, _)) => a == s.globals.admin
    case DoSetup(DoSetPaused(a, _)) => a == s.globals.admin
    case DoSetup(DoAddSupportedToken(a, _)) => a == s.globals.admin
    case DoSetup(DoListTicket(o, tid, _)) => tid in s.records.tickets && s.records.tickets[tid].owner == Some(o)
    case DoSetup(DoDelist(o, tid)) => tid in s.listings && s.listings[tid].seller == o
    case DoRefund(a, _, _) => a == s.globals.admin
    case DoClaimRefund(p, id) => id in s.records.payments && s.records.payments[id].payer == Some(p)
    case DoPostponementRefund(c, tid) => tid in s.records.tickets && s.records.tickets[tid].owner == Some(c)
    case DoRaise(_, _, authorized) => authorized
    case DoWithdraw(o, e) => e in s.events.config && o == s.events.config[e].organizer
    case DoSyncSplits(c, _, _) => c == s.globals.eventContract
    case DoWithdrawSplit(who, e) => IsRecipient(s, e, who)
    case DoFlag(c, e, who) => IsRecipient(s, e, who) && c == s.split.splits[e][0].recipient && c != who
    case DoBuy(_, tid, _) => tid in s.listings
    case _ => true
  }

  lemma SetupAuthorized(s: State, x: Setup)
    requires Inv(s) && SetupStep(s, x).Ok?
    ensures MayCall(s, DoSetup(x))
  {
    hide Inv, SetupStep, ListTicket, Delist;
    SetupIff(s, x);
    match x
    case DoListTicket(o, tid, price) => ListIff(s, o, tid, price);
    case DoDelist(o, tid) => DelistIff(s, o, tid);
    case _ =>
  }

  /** Nobody else's operation changes anything. */
  lemma OnlyAuthorized(s: State, op: Op)
    requires Inv(s)
    ensures After(s, op) != s ==> MayCall(s, op)
  {
    hide Inv, MayCall, SetupStep, Pay, AdminRefund, ClaimRefund, PostponementRefund, RaiseDispute, ApproveRefund, RejectDispute,
         Timeouts, Withdraw, WithdrawRevenue, ReleaseIfExpired, WithdrawToken, WithdrawAllTokens, WithdrawPlatformRevenue,
         SyncSplits, WithdrawSplit, FlagCohost, ResolveFlagged, BuyResale;
    if Step(s, op).Ok? {
      match op
      case DoSetup(x) => SetupAuthorized(s, x);
      case _ => CallAuthorized(s, op);
    }
  }

  lemma CallAuthorized(s: State, op: Op)
    requires Inv(s) && !op.DoSetup? && Step(s, op).Ok?
    ensures MayCall(s, op)
  {
    hide Inv, Pay, AdminRefund, ClaimRefund, PostponementRefund, RaiseDispute, ApproveRefund, RejectDispute, Timeouts, Withdraw,
         WithdrawRevenue, ReleaseIfExpired, WithdrawToken, WithdrawAllTokens, WithdrawPlatformRevenue, SyncSplits, WithdrawSplit,
         FlagCohost, ResolveFlagged, BuyResale, RefundDue, Waited, GrossOf, NetOf, BooksCovered, AllTimedOut, IsRecipient,
         SharePayable, HasBeenPaid, BpsSum, FullyPaidOut;
    match op
    case DoRefund(a, id, x) => AdminRefundIff(s, a, id, x);
    case DoClaimRefund(p, id) => ClaimRefundIff(s, p, id);
    case DoPostponementRefund(c, tid) => PostponementRefundIff(s, c, tid);
    case DoRaise(tid, r, b) => RaiseIff(s, tid, r, b);
    case DoWithdraw(o, e) => WithdrawIff(s, o, e);
    case DoSyncSplits(c, e, l) => SyncSplitsIff(s, c, e, l);
    case DoWithdrawSplit(who, e) => WithdrawSplitIff(s, who, e);
    case DoFlag(c, e, who) => FlagIff(s, c, e, who);
    case DoBuy(b, tid, x) => BuyIff(s, b, tid, x);
    case _ =>
  }

  // ---- Pausing ----

  /** What still works while the contract is paused: claims of cancelled events, cancelling, timeouts, time, and three settings. */
  predicate WorksPaused(op: Op) {
    || op.DoClaimRefund? || op.DoTimeouts? || op.DoAdvance?
    || (op.DoSetup? && (op.setup.DoCancelEvent? || op.setup.DoExtendDelay? || op.setup.DoSetPaused? || op.setup.DoAddSupportedToken?))
  }

  /** A paused contract refuses everything else. */
  lemma PausedRefuses(s: State, op: Op)
    requires s.globals.paused && !WorksPaused(op)
    ensures Step(s, op) == Err(ContractPaused)
  {
  }

  /** While paused, tokens move only by claims for cancelled events. */
  lemma {:induction false} PausedKeepsMoney(s: State, ops: seq<Op>)
    requires s.globals.paused
    requires forall i :: 0 <= i < |ops| ==> !(ops[i].DoSetup? && ops[i].setup.DoSetPaused?) && !ops[i].DoClaimRefund?
    ensures Run(s, ops).globals.paused
    ensures Run(s, ops).money.balance == s.money.balance && Run(s, ops).money.wallets == s.money.wallets
  {
    hide After;
    if ops != [] {
      PausedKeepsMoney(s, ops[..|ops| - 1]);
      PausedStep(Run(s, ops[..|ops| - 1]), ops[|ops| - 1]);
    }
  }

  lemma PausedStep(s: State, op: Op)
    requires s.globals.paused && !(op.DoSetup? && op.setup.DoSetPaused?) && !op.DoClaimRefund?
    ensures After(s, op).globals.paused && After(s, op).money.balance == s.money.balance
    ensures After(s, op).money.wallets == s.money.wallets
  {
    hide CancelRatio, ExpireList, AnyExpired, Remaining;
    if !WorksPaused(op) {
      PausedRefuses(s, op);
    } else if op.DoTimeouts? {
      TimeoutsFrame(s, op.event);
      ExpireListBalance(s, op.event, s.ListOf(op.event));
      ExpireListBooks(s, op.event, s.ListOf(op.event));
    }
  }
}

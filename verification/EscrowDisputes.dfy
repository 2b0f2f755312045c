/** Disputes, refunds and the revenue counters, up to the first payout. */
module EscrowDisputes {
  import opened Ledger
  import opened MapSums
  import opened OwnerIndexes
  import opened RevenueSplits
  import opened PaymentsSpec
  import opened EscrowLedger
  import opened EscrowInvariants

  /** What a payment contributes to the revenue of its event and token. */
  function Contribution(p: Payment): int { if p.status == Disputed then -p.refunded else p.amount - p.refunded }

  const CONTRIBUTION: Payment -> int := (p: Payment) => Contribution(p)
  const HELD: Payment -> int := (p: Payment) => if p.status == Held then p.amount else 0
  const OUTSTANDING: Payment -> int := (p: Payment) => if p.status == Held then p.amount - p.refunded else 0

  /** The revenue moves with the contributions of the payments. */
  ghost predicate Tracks(s: State, u: State) {
    forall e, t :: u.money.Revenue(e, t) - s.money.Revenue(e, t)
      == Tally(u.records.payments, e, t, CONTRIBUTION) - Tally(s.records.payments, e, t, CONTRIBUTION)
  }

  lemma TracksThen(s: State, u: State, v: State)
    requires Tracks(s, u) && Tracks(u, v)
    ensures Tracks(s, v)
  {
    hide Tally, Money.Revenue;
    forall e, t ensures v.money.Revenue(e, t) - s.money.Revenue(e, t)
      == Tally(v.records.payments, e, t, CONTRIBUTION) - Tally(s.records.payments, e, t, CONTRIBUTION)
    {
      assert u.money.Revenue(e, t) - s.money.Revenue(e, t)
        == Tally(u.records.payments, e, t, CONTRIBUTION) - Tally(s.records.payments, e, t, CONTRIBUTION);
      assert v.money.Revenue(e, t) - u.money.Revenue(e, t)
        == Tally(v.records.payments, e, t, CONTRIBUTION) - Tally(u.records.payments, e, t, CONTRIBUTION);
    }
  }

  /** One payment recorded or rewritten, with the revenue of its event and token following. */
  lemma Tracked(s: State, u: State, id: nat, q: Payment, was: int)
    requires u.records.payments == s.records.payments[id := q]
    requires id in s.records.payments ==>
      s.records.payments[id].event == q.event && s.records.payments[id].token == q.token
    requires was == if id in s.records.payments then Contribution(s.records.payments[id]) else 0
    requires forall e, t :: u.money.Revenue(e, t) - s.money.Revenue(e, t)
                            == if e == q.event && t == q.token then Contribution(q) - was else 0
    ensures Tracks(s, u)
  {
    hide Tally, Money.Revenue;
    forall e, t ensures u.money.Revenue(e, t) - s.money.Revenue(e, t)
      == Tally(u.records.payments, e, t, CONTRIBUTION) - Tally(s.records.payments, e, t, CONTRIBUTION)
    {
      TallyChange(s.records.payments, id, q, e, t, CONTRIBUTION);
    }
  }

  // ---- Single steps ----

  lemma RefundTracks(s: State, id: nat, a: int, status: PaymentStatus)
    requires id in s.records.payments && s.records.payments[id].status == Held && (status == Held || status == Refunded)
    ensures Tracks(s, RefundPayment(s, id, s.records.payments[id].payer, a, status))
  {
    hide Tracks;
    var p := s.records.payments[id];
    Tracked(s, RefundPayment(s, id, p.payer, a, status), id, p.(refunded := p.refunded + a, status := status), Contribution(p));
  }

  lemma RaiseTracks(s: State, tid: nat, reason: nat)
    requires Inv(s) && tid in s.records.payments && s.records.payments[tid].status == Held
    ensures tid in s.records.tickets && s.records.tickets[tid].payment == tid
    ensures Tracks(s, OpenDispute(s, tid, reason))
  {
    hide Tracks, BooksOk, DisputesOk, SplitsOk, OwnersOk, RecordsOk;
    RefundedInRange(s.records, tid);
    var p := s.records.payments[tid];
    Tracked(s, OpenDispute(s, tid, reason), tid, p.(status := Disputed), Contribution(p));
  }

  lemma ReopenTracks(s: State, tid: nat, e: Symbol)
    requires tid in s.records.payments && s.records.payments[tid].status == Disputed && s.records.payments[tid].event == e
    ensures Tracks(s, Close(Restore(s, e, tid), tid, e))
  {
    hide Tracks, Without;
    var p := s.records.payments[tid];
    Tracked(s, Close(Restore(s, e, tid), tid, e), tid, p.(status := Held), Contribution(p));
  }

  lemma IssueTracks(s: State, p: PaymentParams)
    requires Inv(s) && BuildPayment(p).Ok?
    ensures Tracks(s, Issue(s, p, BuildPayment(p).value))
  {
    hide Tracks, BooksOk, DisputesOk, SplitsOk, OwnersOk, RecordsOk, AddToken, Remember, OwnerIndex.Add;
    NextNumber(s.records);
    Tracked(s, Issue(s, p, BuildPayment(p).value), s.records.lastPayment + 1, BuildPayment(p).value, 0);
  }

  lemma {:induction false} RoundsTrack(s: State, e: Symbol, k: nat)
    requires Inv(s) && s.ListOf(e) != [] && k <= |s.ListOf(e)|
    ensures Tracks(s, AfterRounds(s, e, k))
  {
    hide Inv, Restore, Close, Expired, Tracks;
    if k == 0 {
      assert s.ListOf(e)[..0] == [] && [] + s.ListOf(e) == s.ListOf(e);
      assert s.disputes.lists[e := s.ListOf(e)] == s.disputes.lists;
      assert AfterRounds(s, e, 0) == s;
      TracksSelf(s);
    } else {
      var (u, tid) := (AfterRounds(s, e, k - 1), s.ListOf(e)[k - 1]);
      RoundsTrack(s, e, k - 1);
      RoundsMove(s, e, k - 1);
      NextRound(s, e, k - 1);
      ListedDispute(u, tid, e);
      ReopenTracks(u, tid, e);
      if Expired(s, tid) { TracksThen(s, u, AfterRounds(s, e, k)); }
    }
  }

  lemma TracksSelf(s: State)
    ensures Tracks(s, s)
  {
  }

  lemma ListedDispute(s: State, tid: nat, e: Symbol)
    requires Inv(s) && tid in s.ListOf(e)
    ensures tid in s.disputes.records && s.disputes.records[tid] == s.disputes.records[tid].(event := e, payment := tid)
    ensures tid in s.records.payments && s.records.payments[tid].status == Disputed && s.records.payments[tid].event == e
  {
    hide BooksOk, SplitsOk, OwnersOk, RecordsOk, NoDuplicates;
    assert ListOk(s.disputes, e);
  }

  lemma TimeoutsTrack(s: State, e: Symbol)
    requires Inv(s)
    ensures Tracks(s, Timeouts(s, e))
  {
    hide Inv, ExpireList, Remaining, Tracks;
    var l := s.ListOf(e);
    TracksSelf(s);
    if AnyExpired(s, l) {
      RoundsTrack(s, e, |l|);
      assert l[..|l|] == l && Remaining(s, l) + l[|l|..] == Remaining(s, l);
    }
  }

  // ---- Raising and rejecting ----

  /** The same books, balances, records and dispute lists. */
  ghost predicate SameEscrow(s: State, u: State) {
    && u.records == s.records && u.money.balance == s.money.balance && u.money.wallets == s.money.wallets
    && u.money.platform == s.money.platform && u.disputes.records == s.disputes.records
    && (forall e, t :: u.money.BookOf(e, t) == s.money.BookOf(e, t))
    && (forall e :: u.ListOf(e) == s.ListOf(e))
  }

  lemma OpenThenCloseMoney(s: State, tid: nat, reason: nat, e: Symbol)
    requires tid in s.records.tickets && s.records.tickets[tid].payment == tid && tid in s.records.payments
    requires s.records.tickets[tid].event == e
    ensures var v := Restore(OpenDispute(s, tid, reason), e, tid);
      && v.money.(books := s.money.books) == s.money
      && forall f, t :: v.money.BookOf(f, t) == s.money.BookOf(f, t)
  {
  }

  lemma OpenThenCloseRecords(s: State, tid: nat, reason: nat, e: Symbol)
    requires tid in s.records.tickets && s.records.tickets[tid].payment == tid && tid in s.records.payments
    requires s.records.payments[tid].status == Held
    ensures Restore(OpenDispute(s, tid, reason), e, tid).records == s.records
  {
    hide Money.WithRevenue, Money.Revenue;
    var p := s.records.payments[tid];
    assert s.records.payments[tid := p.(status := Disputed)][tid := p] == s.records.payments;
    assert p.(status := Disputed).(status := Held) == p;
  }

  lemma OpenThenCloseDisputes(s: State, tid: nat, reason: nat, e: Symbol)
    requires tid in s.records.tickets && s.records.tickets[tid].payment == tid && tid in s.records.payments
    requires s.records.tickets[tid].event == e && tid !in s.disputes.records && tid !in s.ListOf(e)
    ensures var v := Close(Restore(OpenDispute(s, tid, reason), e, tid), tid, e);
      v.disputes.records == s.disputes.records && forall f :: v.ListOf(f) == s.ListOf(f)
  {
    hide Money.WithRevenue, Money.Revenue, Without;
    WithoutCut(s.ListOf(e), tid, []);
    assert s.ListOf(e) + [tid] + [] == s.ListOf(e) + [tid] && s.ListOf(e) + [] == s.ListOf(e);
    var u := OpenDispute(s, tid, reason);
    assert u.disputes.records - {tid} == s.disputes.records;
  }

  /** Rejecting a dispute undoes raising it. */
  lemma RaiseThenReject(s: State, tid: nat, reason: nat, authorized: bool)
    requires Inv(s) && RaiseDispute(s, tid, reason, authorized).Ok?
    ensures var u := RaiseDispute(s, tid, reason, authorized).value;
      RejectDispute(u, tid).Ok? && SameEscrow(s, RejectDispute(u, tid).value)
  {
    hide BooksOk, SplitsOk, OwnersOk, RecordsOk, NoDuplicates, Money.WithRevenue, Money.Revenue, Money.BookOf, Without;
    var e := s.records.tickets[tid].event;
    TicketsOwnPayment(s.records, tid);
    assert ListOk(s.disputes, e);
    OpenThenCloseMoney(s, tid, reason, e);
    OpenThenCloseRecords(s, tid, reason, e);
    OpenThenCloseDisputes(s, tid, reason, e);
    Opened(s, tid, reason);
    hide OpenDispute, Restore;
  }

  lemma Opened(s: State, tid: nat, reason: nat)
    requires tid in s.records.tickets && s.records.tickets[tid].payment == tid && tid in s.records.payments
    ensures var u := OpenDispute(s, tid, reason);
      && u.globals == s.globals && tid in u.records.payments && u.records.payments[tid].status == Disputed
      && tid in u.disputes.records && u.disputes.records[tid].payment == tid
      && u.disputes.records[tid].event == s.records.tickets[tid].event
  {
    hide Money.WithRevenue, Money.Revenue;
  }

  lemma TicketsOwnPayment(r: Records, tid: nat)
    requires RecordsOk(r) && tid in r.tickets
    ensures tid in r.payments && r.tickets[tid].payment == tid && r.tickets[tid].event == r.payments[tid].event
  {
    assert PaymentOk(r, tid);
  }

  // ---- What a timeout pass does ----

  lemma {:induction false} RoundsEffect(s: State, e: Symbol, k: nat, id: nat)
    requires Inv(s) && s.ListOf(e) != [] && k <= |s.ListOf(e)| && id in s.records.payments
    ensures var u := AfterRounds(s, e, k);
      && id in u.records.payments
      && u.records.payments[id] ==
           (if id in s.ListOf(e)[..k] && Expired(s, id) then s.records.payments[id].(status := Held)
            else s.records.payments[id])
  {
    hide Inv, Expired;
    if k > 0 {
      var (u, tid) := (AfterRounds(s, e, k - 1), s.ListOf(e)[k - 1]);
      RoundsEffect(s, e, k - 1, id);
      RoundsMove(s, e, k - 1);
      NextRound(s, e, k - 1);
      RestoredPayments(u, e, tid, id);
      assert s.ListOf(e)[..k] == s.ListOf(e)[..k - 1] + [tid];
      hide AfterRounds;
    }
  }

  lemma RestoredPayments(s: State, e: Symbol, tid: nat, id: nat)
    requires tid in s.records.payments && id in s.records.payments
    ensures var u := Close(Restore(s, e, tid), tid, e);
      && id in u.records.payments
      && u.records.payments[id] ==
           (if id == tid then s.records.payments[id].(status := Held) else s.records.payments[id])
  {
    hide Money.WithRevenue, Money.Revenue, Without;
  }

  lemma {:induction false} RemainingIs(s: State, l: seq<nat>, tid: nat)
    ensures tid in Remaining(s, l) <==> tid in l && tid in s.disputes.records && !Expired(s, tid)
  {
    if l != [] {
      RemainingIs(s, l[..|l| - 1], tid);
      assert l == l[..|l| - 1] + [l[|l| - 1]];
    }
  }

  /**
   A timeout pass over an event holds exactly its expired disputes' payments again, keeps the
   others listed, and adds exactly the re-held amounts to the revenue.
   */
  lemma TimeoutsEffect(s: State, e: Symbol, id: nat)
    requires Inv(s) && id in s.records.payments
    ensures var u := Timeouts(s, e);
      && id in u.records.payments
      && u.records.payments[id] ==
           (if id in s.ListOf(e) && Expired(s, id) then s.records.payments[id].(status := Held)
            else s.records.payments[id])
      && (id in u.ListOf(e) <==> id in s.ListOf(e) && !Expired(s, id))
      && Tracks(s, u)
  {
    hide Inv, ExpireList, Remaining, Tracks, Expired;
    var l := s.ListOf(e);
    TimeoutsTrack(s, e);
    if id in l { ListedDispute(s, id, e); }
    if AnyExpired(s, l) {
      RoundsEffect(s, e, |l|, id);
      assert l[..|l|] == l && Remaining(s, l) + l[|l|..] == Remaining(s, l);
      RemainingIs(s, l, id);
    }
  }

  // ---- Revenue until the first payout ----

  /** Neither a payout, nor a split settlement, nor a resale. */
  predicate PayoutFree(op: Op) {
    match op
    case DoWithdraw(_, _) => false
    case DoWithdrawRevenue(_, _) => false
    case DoRelease(_) => false
    case DoWithdrawToken(_, _, _) => false
    case DoWithdrawAll(_, _) => false
    case DoWithdrawSplit(_, _) => false
    case DoResolve(_, _, release) => release
    case DoBuy(_, _, _) => false
    case _ => true
  }

  /** What an approved dispute leaves out of the revenue: the refund made before it was raised. */
  function Forgone(s: State, op: Op, e: Symbol, t: Address): int {
    if !op.DoApprove? || Step(s, op).Err? || op.ticket !in s.records.payments then 0
    else
      var p := s.records.payments[op.ticket];
      if p.event == e && p.token == t then p.refunded else 0
  }

  function Shortfall(s: State, ops: seq<Op>, e: Symbol, t: Address): int {
    if ops == [] then 0
    else Shortfall(s, ops[..|ops| - 1], e, t) + Forgone(Run(s, ops[..|ops| - 1]), ops[|ops| - 1], e, t)
  }

  /** The revenue moves with the contributions, less what is forgone. */
  ghost predicate Follows(s: State, u: State, e: Symbol, t: Address, forgone: int) {
    u.money.Revenue(e, t) - s.money.Revenue(e, t)
      == Tally(u.records.payments, e, t, CONTRIBUTION) - Tally(s.records.payments, e, t, CONTRIBUTION) - forgone
  }

  lemma TracksFollows(s: State, u: State, e: Symbol, t: Address)
    requires Tracks(s, u)
    ensures Follows(s, u, e, t, 0)
  {
    hide Tally, Money.Revenue;
  }

  lemma ApproveFollows(s: State, tid: nat, e: Symbol, t: Address)
    requires Inv(s) && ApproveRefund(s, tid).Ok?
    ensures Follows(s, ApproveRefund(s, tid).value, e, t, Forgone(s, DoApprove(tid), e, t))
  {
    hide BooksOk, SplitsOk, OwnersOk, RecordsOk, ListOk, Tally, Without, Expired;
    var p := s.records.payments[tid];
    var q := p.(refunded := p.refunded + (p.amount - p.refunded), status := Refunded);
    TallyChange(s.records.payments, tid, q, e, t, CONTRIBUTION);
  }

  lemma SameFollows(s: State, u: State, e: Symbol, t: Address)
    requires u.records.payments == s.records.payments && u.money.books == s.money.books
    ensures Follows(s, u, e, t, 0)
  {
    hide Tally;
  }

  lemma SetupFollows(s: State, x: Setup, e: Symbol, t: Address)
    requires SetupStep(s, x).Ok?
    ensures Follows(s, SetupStep(s, x).value, e, t, 0)
  {
    hide CancelRatio, Follows;
    SameFollows(s, SetupStep(s, x).value, e, t);
  }

  lemma RefundsFollow(s: State, a: Address, id: nat, x: Option<int>, p: Address, tid: nat, e: Symbol, t: Address)
    requires Inv(s)
    ensures AdminRefund(s, a, id, x).Ok? ==> Follows(s, AdminRefund(s, a, id, x).value, e, t, 0)
    ensures ClaimRefund(s, p, id).Ok? ==> Follows(s, ClaimRefund(s, p, id).value, e, t, 0)
    ensures PostponementRefund(s, p, tid).Ok? ==> Follows(s, PostponementRefund(s, p, tid).value, e, t, 0)
  {
    hide Inv, Tracks, Follows, RefundPayment, Portion, PaidOut, Money.CanSend;
    if id in s.records.payments {
      var y := s.records.payments[id];
      if AdminRefund(s, a, id, x).Ok? {
        var z := if x.Some? then x.value else MaxRefund(s, y);
        RefundTracks(s, id, z, if y.refunded + z == y.amount then Refunded else Held);
        TracksFollows(s, AdminRefund(s, a, id, x).value, e, t);
      }
      if ClaimRefund(s, p, id).Ok? {
        RefundTracks(s, id, Portion(y.amount, RefundBps(s, y.event)) - y.refunded, Refunded);
        TracksFollows(s, ClaimRefund(s, p, id).value, e, t);
      }
    }
    if PostponementRefund(s, p, tid).Ok? {
      var i := s.records.tickets[tid].payment;
      RefundTracks(s, i, s.records.payments[i].amount - s.records.payments[i].refunded, Refunded);
      TracksFollows(s, PostponementRefund(s, p, tid).value, e, t);
    }
  }

  lemma DisputesFollow(s: State, tid: nat, reason: nat, authorized: bool, e: Symbol, t: Address)
    requires Inv(s)
    ensures RaiseDispute(s, tid, reason, authorized).Ok? ==>
      Follows(s, RaiseDispute(s, tid, reason, authorized).value, e, t, 0)
    ensures RejectDispute(s, tid).Ok? ==> Follows(s, RejectDispute(s, tid).value, e, t, 0)
  {
    hide BooksOk, SplitsOk, OwnersOk, RecordsOk, ListOk, Tracks, Follows, OpenDispute, Close, Restore;
    if RaiseDispute(s, tid, reason, authorized).Ok? {
      TicketsOwnPayment(s.records, tid);
      RaiseTracks(s, tid, reason);
      TracksFollows(s, RaiseDispute(s, tid, reason, authorized).value, e, t);
    }
    if RejectDispute(s, tid).Ok? {
      ReopenTracks(s, tid, s.disputes.records[tid].event);
      TracksFollows(s, RejectDispute(s, tid).value, e, t);
    }
  }

  lemma PayFollows(s: State, p: PaymentParams, e: Symbol, t: Address)
    requires Inv(s) && Pay(s, p).Ok?
    ensures Follows(s, Pay(s, p).value, e, t, 0)
  {
    hide Inv, Tracks, Follows, BuildPayment, Issue, CheckSupply, CheckPrivacy, NonceUsed;
    IssueTracks(s, p);
    var u := Issue(s, p, BuildPayment(p).value);
    TracksFollows(s, u, e, t);
    SameThen(s, u, Pay(s, p).value, e, t);
  }

  lemma SameThen(s: State, u: State, v: State, e: Symbol, t: Address)
    requires Follows(s, u, e, t, 0) && v.records.payments == u.records.payments && v.money.books == u.money.books
    ensures Follows(s, v, e, t, 0)
  {
    hide Tally;
  }

  lemma PlatformFollows(s: State, f: Symbol, e: Symbol, t: Address)
    requires WithdrawPlatformRevenue(s, f).Ok?
    ensures Follows(s, WithdrawPlatformRevenue(s, f).value, e, t, 0)
  {
    hide Tally;
  }

  lemma StepFollows(s: State, op: Op, e: Symbol, t: Address)
    requires Inv(s) && PayoutFree(op)
    ensures Follows(s, After(s, op), e, t, Forgone(s, op, e, t))
  {
    hide Inv, Follows, SetupStep, Pay, AdminRefund, ClaimRefund, PostponementRefund, RaiseDispute, ApproveRefund,
         RejectDispute, Timeouts, Withdraw, WithdrawRevenue, ReleaseIfExpired, WithdrawToken, WithdrawAllTokens,
         WithdrawPlatformRevenue, SyncSplits, WithdrawSplit, FlagCohost, ResolveFlagged, BuyResale;
    SameFollows(s, s, e, t);
    if Step(s, op).Ok? {
      match op
      case DoSetup(x) => SetupFollows(s, x, e, t);
      case DoPay(p) => PayFollows(s, p, e, t);
      case DoRefund(a, id, x) => RefundsFollow(s, a, id, x, 0, 0, e, t);
      case DoClaimRefund(p, id) => RefundsFollow(s, 0, id, None, p, 0, e, t);
      case DoPostponementRefund(c, tid) => RefundsFollow(s, 0, 0, None, c, tid, e, t);
      case DoRaise(tid, r, b) => DisputesFollow(s, tid, r, b, e, t);
      case DoApprove(tid) => ApproveFollows(s, tid, e, t);
      case DoReject(tid) => DisputesFollow(s, tid, 0, false, e, t);
      case DoTimeouts(f) => TimeoutsTrack(s, f); TracksFollows(s, Timeouts(s, f), e, t);
      case DoWithdrawPlatform(f) => PlatformFollows(s, f, e, t);
      case DoSyncSplits(c, f, x) => SyncFollows(s, c, f, x, e, t);
      case DoFlag(c, f, r) => FlagFollows(s, c, f, r, e, t);
      case DoResolve(f, r, b) => ReleaseFollows(s, f, r, e, t);
      case DoAdvance(l, d) => SameFollows(s, After(s, op), e, t);
      case _ =>
    }
  }

  lemma SyncFollows(s: State, c: Address, f: Symbol, l: seq<Split>, e: Symbol, t: Address)
    requires SyncSplits(s, c, f, l).Ok?
    ensures Follows(s, SyncSplits(s, c, f, l).value, e, t, 0)
  {
    hide Follows;
    SameFollows(s, SyncSplits(s, c, f, l).value, e, t);
  }

  lemma FlagFollows(s: State, c: Address, f: Symbol, r: Address, e: Symbol, t: Address)
    requires FlagCohost(s, c, f, r).Ok?
    ensures Follows(s, FlagCohost(s, c, f, r).value, e, t, 0)
  {
    hide Follows;
    SameFollows(s, FlagCohost(s, c, f, r).value, e, t);
  }

  lemma ReleaseFollows(s: State, f: Symbol, r: Address, e: Symbol, t: Address)
    requires ResolveFlagged(s, f, r, true).Ok?
    ensures Follows(s, ResolveFlagged(s, f, r, true).value, e, t, 0)
  {
    hide Follows;
    SameFollows(s, ResolveFlagged(s, f, r, true).value, e, t);
  }

  /**
   Until the first payout the revenue of an event in a token is the sum over its payments of
   what is left of each (for a disputed one, minus what was refunded before), less the
   refunds that preceded an approved dispute.
   */
  lemma {:induction false} RevenueFormula(s: State, ops: seq<Op>, e: Symbol, t: Address)
    requires Deployed(s) && forall i :: 0 <= i < |ops| ==> PayoutFree(ops[i])
    ensures Run(s, ops).money.Revenue(e, t)
      == Tally(Run(s, ops).records.payments, e, t, CONTRIBUTION) - Shortfall(s, ops, e, t)
  {
    hide Inv, Deployed, After, Tally, Money.Revenue, Forgone;
    if ops == [] {
      DeployedRevenue(s, e, t);
    } else {
      RevenueFormula(s, ops[..|ops| - 1], e, t);
      RunInv(s, ops[..|ops| - 1]);
      StepFollows(Run(s, ops[..|ops| - 1]), ops[|ops| - 1], e, t);
    }
  }

  lemma DeployedRevenue(s: State, e: Symbol, t: Address)
    requires Deployed(s)
    ensures s.money.Revenue(e, t) == 0 == Tally(s.records.payments, e, t, CONTRIBUTION)
  {
    hide Tally;
    EmptyTally(e, t, CONTRIBUTION);
  }

  /** Every payment is untouched or refunded in full. */
  ghost predicate Whole(pays: map<nat, Payment>) {
    forall i :: i in pays ==> pays[i].refunded == if pays[i].status == Refunded then pays[i].amount else 0
  }

  lemma {:induction false} NoShortfall(s: State, ops: seq<Op>, e: Symbol, t: Address)
    requires Deployed(s) && forall k :: 0 <= k <= |ops| ==> Whole(Run(s, ops[..k]).records.payments)
    ensures Shortfall(s, ops, e, t) == 0
  {
    hide Inv, Deployed, After, Run, Step;
    if ops != [] {
      var init := ops[..|ops| - 1];
      forall k | 0 <= k <= |init| ensures Whole(Run(s, init[..k]).records.payments) {
        assert init[..k] == ops[..k];
        assert Whole(Run(s, ops[..k]).records.payments);
      }
      NoShortfall(s, init, e, t);
      RunInv(s, init);
      assert ops[..|ops| - 1] == init && Whole(Run(s, ops[..|ops| - 1]).records.payments);
      var (u, op) := (Run(s, init), ops[|ops| - 1]);
      if op.DoApprove? && Step(u, op).Ok? { ApprovedDisputed(u, op); }
    }
  }

  lemma ApprovedDisputed(s: State, op: Op)
    requires Inv(s) && op.DoApprove? && Step(s, op).Ok?
    ensures op.ticket in s.records.payments && s.records.payments[op.ticket].status == Disputed
  {
    hide BooksOk, SplitsOk, OwnersOk, RecordsOk, ListOk;
  }

  /** Until the first payout, in runs with full refunds only, the revenue is the sum of the held payments. */
  lemma HeldRevenue(s: State, ops: seq<Op>, e: Symbol, t: Address)
    requires Deployed(s) && forall i :: 0 <= i < |ops| ==> PayoutFree(ops[i])
    requires forall k :: 0 <= k <= |ops| ==> Whole(Run(s, ops[..k]).records.payments)
    ensures Run(s, ops).money.Revenue(e, t) == Tally(Run(s, ops).records.payments, e, t, HELD)
  {
    hide Inv, Deployed, Run, Tally, Whole;
    RevenueFormula(s, ops, e, t);
    NoShortfall(s, ops, e, t);
    RunInv(s, ops);
    assert ops[..|ops|] == ops && Whole(Run(s, ops[..|ops|]).records.payments);
    WholeParts(Run(s, ops), e, t);
  }

  lemma WholeParts(s: State, e: Symbol, t: Address)
    requires Inv(s) && Whole(s.records.payments)
    ensures Tally(s.records.payments, e, t, CONTRIBUTION) == Tally(s.records.payments, e, t, HELD)
  {
    hide BooksOk, SplitsOk, OwnersOk, DisputesOk, RecordsOk, Sum;
    var pays := s.records.payments;
    forall i | i in pays ensures Contribution(pays[i]) == HELD(pays[i]) { RefundedInRange(s.records, i); }
    assert Part(pays, e, t, CONTRIBUTION) == Part(pays, e, t, HELD);
  }

  // ---- Partial refunds ----

  /** The revenue is what is left of the held payments. */
  ghost predicate CoversHeld(s: State, e: Symbol, t: Address) {
    s.money.Revenue(e, t) == Tally(s.records.payments, e, t, OUTSTANDING)
  }

  /** Raising a dispute keeps the revenue equal to what is left of the held payments exactly when nothing was refunded. */
  lemma RaiseCoversIff(s: State, tid: nat, reason: nat, authorized: bool, e: Symbol, t: Address)
    requires Inv(s) && CoversHeld(s, e, t) && RaiseDispute(s, tid, reason, authorized).Ok?
    requires tid in s.records.payments && s.records.payments[tid].event == e && s.records.payments[tid].token == t
    ensures CoversHeld(RaiseDispute(s, tid, reason, authorized).value, e, t) <==> s.records.payments[tid].refunded == 0
  {
    hide BooksOk, SplitsOk, OwnersOk, RecordsOk, ListOk, Tally;
    TicketsOwnPayment(s.records, tid);
    TallyChange(s.records.payments, tid, s.records.payments[tid].(status := Disputed), e, t, OUTSTANDING);
  }

  /** Rejecting one likewise. */
  lemma RejectCoversIff(s: State, tid: nat, e: Symbol, t: Address)
    requires Inv(s) && CoversHeld(s, e, t) && RejectDispute(s, tid).Ok?
    requires tid in s.records.payments && s.records.payments[tid].event == e && s.records.payments[tid].token == t
    ensures CoversHeld(RejectDispute(s, tid).value, e, t) <==> s.records.payments[tid].refunded == 0
  {
    hide BooksOk, SplitsOk, OwnersOk, RecordsOk, ListOk, Tally, Without;
    TallyChange(s.records.payments, tid, s.records.payments[tid].(status := Held), e, t, OUTSTANDING);
  }

  /** A claim on a cancelled event keeps it exactly when the organizer's ratio is zero. */
  lemma ClaimCoversIff(s: State, payer: Address, id: nat, e: Symbol, t: Address)
    requires Inv(s) && CoversHeld(s, e, t) && ClaimRefund(s, payer, id).Ok?
    requires s.records.payments[id].event == e && s.records.payments[id].token == t
    ensures CoversHeld(ClaimRefund(s, payer, id).value, e, t) <==> RefundBps(s, e) == TOTAL_BASIS_POINTS
  {
    hide BooksOk, SplitsOk, OwnersOk, RecordsOk, DisputesOk, Tally, Portion, RefundBps;
    var p := s.records.payments[id];
    var a := Portion(p.amount, RefundBps(s, e)) - p.refunded;
    RefundedInRange(s.records, id);
    PortionWhole(p.amount, RefundBps(s, e));
    TallyChange(s.records.payments, id, p.(refunded := p.refunded + a, status := Refunded), e, t, OUTSTANDING);
  }

  lemma PortionWhole(a: nat, bps: Bps)
    requires a > 0
    ensures Portion(a, bps) == a <==> bps == TOTAL_BASIS_POINTS
  {
    if bps < TOTAL_BASIS_POINTS { Distribute(a, bps, 10_000 - bps); }
  }

  /** A full or partial refund by the administrator always keeps it. */
  lemma AdminRefundCovers(s: State, admin: Address, id: nat, x: Option<int>, e: Symbol, t: Address)
    requires Inv(s) && CoversHeld(s, e, t) && AdminRefund(s, admin, id, x).Ok?
    ensures CoversHeld(AdminRefund(s, admin, id, x).value, e, t)
  {
    hide BooksOk, SplitsOk, OwnersOk, RecordsOk, DisputesOk, Tally, Portion;
    var p := s.records.payments[id];
    var a := if x.Some? then x.value else MaxRefund(s, p);
    var q := p.(refunded := p.refunded + a, status := if p.refunded + a == p.amount then Refunded else Held);
    TallyChange(s.records.payments, id, q, e, t, OUTSTANDING);
  }

  const DISPUTED_REFUNDS: Payment -> int := (p: Payment) => if p.status == Disputed then p.refunded else 0
  const KEPT_BACK: Payment -> int := (p: Payment) => if p.status == Refunded then p.amount - p.refunded else 0
  const CORRECTION: Payment -> int := (p: Payment) => KEPT_BACK(p) - DISPUTED_REFUNDS(p)

  /**
   Until the first payout, in every run: the revenue is what is left of the held payments exactly when the refunds of
   payments now disputed and the refunds forgone by approved disputes together equal what was kept back on payments
   closed as refunded.
   */
  lemma CoversHeldIff(s: State, ops: seq<Op>, e: Symbol, t: Address)
    requires Deployed(s) && forall i :: 0 <= i < |ops| ==> PayoutFree(ops[i])
    ensures CoversHeld(Run(s, ops), e, t) <==>
      Tally(Run(s, ops).records.payments, e, t, DISPUTED_REFUNDS) + Shortfall(s, ops, e, t)
        == Tally(Run(s, ops).records.payments, e, t, KEPT_BACK)
  {
    hide Inv, Deployed, Run, Tally, Shortfall;
    RunInv(s, ops);
    RevenueFormula(s, ops, e, t);
    ContributionParts(Run(s, ops), e, t);
  }

  lemma ContributionParts(s: State, e: Symbol, t: Address)
    requires Inv(s)
    ensures Tally(s.records.payments, e, t, CONTRIBUTION) == Tally(s.records.payments, e, t, OUTSTANDING)
      + Tally(s.records.payments, e, t, KEPT_BACK) - Tally(s.records.payments, e, t, DISPUTED_REFUNDS)
  {
    hide BooksOk, SplitsOk, OwnersOk, DisputesOk, RecordsOk, Tally;
    var pays := s.records.payments;
    TallyDifference(pays, e, t, CORRECTION, KEPT_BACK, DISPUTED_REFUNDS);
    forall i | i in pays ensures OUTSTANDING(pays[i]) == CONTRIBUTION(pays[i]) - CORRECTION(pays[i]) {
      RefundedInRange(s.records, i);
    }
    TallyDifference(pays, e, t, OUTSTANDING, CONTRIBUTION, CORRECTION);
  }

  // ---- A run with a partial refund and a dispute ----

  const START: State := Initial(0, 1, 0, 2, 3, map[(1, 9) := 10])
  const SYNC: Op := DoSetup(DoSyncConfig(3, 7, Config(5, 1, 0, 0, 0, 0, 0, 0, 0, None, None, false, 0, None, false)))
  const BUY: Op := DoPay(PaymentParams(1, 9, 0, 7, 10, 1, false, false, Standard, None, None))

  /** Payment 1 of event 7 is the only one, with `refunded` of its 10 units returned. */
  ghost predicate OnePayment(s: State, refunded: nat) {
    && s.globals == START.globals && s.ledger == 0
    && s.records.payments == map[1 := Payment(7, Some(9), None, 10, 1, Held, Standard, refunded)]
    && s.records.tickets == map[1 := Ticket(7, Some(9), 1, Standard)]
    && s.money.Revenue(7, 1) == At(s.money.balance, 1) == 10 - refunded
    && 7 in s.events.config && s.events.config[7].end == 0 && !s.events.config[7].withdrawn
    && s.events.status == map[] && s.events.meta == map[] && s.disputes.records == map[]
  }

  lemma Bought()
    ensures OnePayment(After(After(START, SYNC), BUY), 0)
  {
    var s := After(START, SYNC);
    assert s == START.(events := s.events) && s.events == START.events.(config := s.events.config);
    assert s.events.config[7].end == 0 && !s.events.config[7].withdrawn && s.events.config[7].sold == 0;
    hide SyncConfig, OwnerIndex.Add;
  }

  lemma PartlyRefunded(s: State)
    requires OnePayment(s, 0)
    ensures OnePayment(After(s, DoRefund(0, 1, Some(4))), 4)
  {
  }

  lemma ThenDisputed(s: State)
    requires OnePayment(s, 4)
    ensures var u := After(s, DoRaise(1, 0, true));
      u.money.Revenue(7, 1) == -4 && u.records.payments == map[1 := Payment(7, Some(9), None, 10, 1, Disputed, Standard, 4)]
  {
  }

  /**
   A payment of 10 with 4 refunded and then disputed leaves the event's revenue at -4
   although no payment is held.
   */
  lemma PartialRefundThenDispute() returns (ops: seq<Op>)
    ensures Deployed(START) && Run(START, ops).money.Revenue(7, 1) == -4
    ensures forall i :: i in Run(START, ops).records.payments ==> Run(START, ops).records.payments[i].status != Held
  {
    hide After, OnePayment, Money.Revenue;
    ops := [SYNC, BUY, DoRefund(0, 1, Some(4)), DoRaise(1, 0, true)];
    Bought();
    PartlyRefunded(After(After(START, SYNC), BUY));
    ThenDisputed(After(After(After(START, SYNC), BUY), DoRefund(0, 1, Some(4))));
    assert ops[..3] == [SYNC, BUY, DoRefund(0, 1, Some(4))] && ops[..3][..2] == [SYNC, BUY];
    assert [SYNC, BUY][..1] == [SYNC] && [SYNC][..0] == [];
    assert Run(START, ops[..3]) == After(Run(START, [SYNC, BUY]), DoRefund(0, 1, Some(4)));
    assert Run(START, [SYNC, BUY]) == After(Run(START, [SYNC]), BUY);
  }
}

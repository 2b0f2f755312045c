/** Runs from deployment in which one event pays out more than was paid in for it. */
module EscrowRuns {
  import opened Ledger
  import opened MapSums
  import opened OwnerIndexes
  import opened RevenueSplits
  import opened PaymentsSpec
  import opened EscrowLedger
  import opened EscrowInvariants
  import opened EscrowCancellation
  import opened EscrowAccounts
  import opened EventBooks

  // ---- Two events, one of them completed ----

  /** Administrator 0, token 1; address 9 owns 20 units. */
  const FRESH: State := Initial(0, 1, 0, 2, 3, map[(1, 9) := 20])
  const FIRST: Op := DoPay(PaymentParams(1, 9, 0, 7, 10, 1, false, false, Standard, None, None))
  const SECOND: Op := DoPay(PaymentParams(2, 9, 0, 6, 10, 1, false, false, Standard, None, None))

  /** Address 9 paid 10 units for event 7. */
  ghost predicate PaidOnce(s: State) {
    && s.globals == FRESH.globals && s.ledger == 0 && s.timestamp == 0 && s.money.platform == map[] && At(s.money.wallets, (1, 9)) == 10 && At(s.money.balance, 1) == 10
    && s.money.BookOf(7, 1) == Book(10, 0, 0, 10) && s.money.BookOf(6, 1) == Book(0, 0, 0, 0)
    && s.records == Records(map[1 := Payment(7, Some(9), None, 10, 1, Held, Standard, 0)], map[1 := Ticket(7, Some(9), 1, Standard)], 1, 1)
    && s.events == FRESH.events.(tokens := map[7 := [1]]) && s.disputes == FRESH.disputes && s.split == FRESH.split
    && s.ids.nonces == {(9, 1)}
  }

  lemma PayFirst()
    ensures PaidOnce(After(FRESH, FIRST))
  {
    hide OwnerIndex.Add;
    assert AddToken(FRESH.events, 7, 1).tokens == map[7 := [1]] by { assert [] + [1] == [1]; }
    assert FRESH.ids.nonces + {(9, 1)} == {(9, 1)};
    var u := Issue(FRESH, FIRST.params, Payment(7, Some(9), None, 10, 1, Held, Standard, 0));
    assert Pay(FRESH, FIRST.params) == Ok(u);
    assert u.records.payments == map[1 := Payment(7, Some(9), None, 10, 1, Held, Standard, 0)];
    assert u.records.tickets == map[1 := Ticket(7, Some(9), 1, Standard)];
  }

  /** Two events with a payment of 10 units each; the first has the given books and payment record. */
  ghost predicate TwoEvents(s: State, b: Book, balance: int, p: Payment, x: Events, ledger: nat) {
    && s.globals == FRESH.globals && s.ledger == ledger && s.timestamp == 0 && At(s.money.balance, 1) == balance
    && s.money.platform == map[] && s.money.BookOf(7, 1) == b && s.money.BookOf(6, 1) == Book(10, 0, 0, 10)
    && s.records.payments == map[1 := p, 2 := Payment(6, Some(9), None, 10, 1, Held, Standard, 0)]
    && s.events == x && s.disputes == FRESH.disputes
  }

  const PAID: Events := FRESH.events.(tokens := map[7 := [1], 6 := [1]])
  const COMPLETED: Events := PAID.(status := map[7 := Completed])
  const UNTOUCHED: Payment := Payment(7, Some(9), None, 10, 1, Held, Standard, 0)

  /** Both payments are made, nothing else has happened. */
  ghost predicate Bought(s: State) { TwoEvents(s, Book(10, 0, 0, 10), 20, UNTOUCHED, PAID, 0) && s.split == FRESH.split }

  lemma PaySecond(s: State)
    requires PaidOnce(s)
    ensures Bought(After(s, SECOND))
  {
    hide OwnerIndex.Add, Remember;
    assert AddToken(s.events, 6, 1).tokens == map[7 := [1], 6 := [1]] by { assert [] + [1] == [1]; }
    var q := Payment(6, Some(9), None, 10, 1, Held, Standard, 0);
    var u := Issue(s, SECOND.params, q);
    assert Pay(s, SECOND.params) == Ok(u);
    assert u.records.payments == map[1 := UNTOUCHED, 2 := q];
    hide AddToken, Pay;
  }

  lemma ThenCompleted(s: State)
    requires Bought(s)
    ensures var u := After(s, DoSetup(DoSetStatus(0, 7, Completed)));
      TwoEvents(u, Book(10, 0, 0, 10), 20, UNTOUCHED, COMPLETED, 0) && u.split == FRESH.split
  {
  }

  lemma ThenWithdrawn(s: State)
    requires TwoEvents(s, Book(10, 0, 0, 10), 20, UNTOUCHED, COMPLETED, 0) && s.split == FRESH.split
    ensures TwoEvents(After(s, DoWithdrawToken(66, 7, 1)), Book(10, 0, 10, 0), 10, UNTOUCHED, COMPLETED, 0)
  {
    assert Timeouts(s, 7) == s && s.TokensOf(7) == [1];
    hide Timeouts;
  }

  lemma ThenRefunded(s: State)
    requires TwoEvents(s, Book(10, 0, 10, 0), 10, UNTOUCHED, COMPLETED, 0)
    ensures TwoEvents(After(s, DoRefund(0, 1, None)), Book(10, 10, 10, -10), 0,
                      UNTOUCHED.(status := Refunded, refunded := 10), COMPLETED, 0)
  {
  }

  lemma ThenStuck(s: State, p: Payment)
    requires TwoEvents(s, Book(10, 10, 10, -10), 0, p, COMPLETED, 0)
    ensures Net(s, 7, 1) == -10 && Net(s, 6, 1) == 10 && At(s.money.balance, 1) == 0
    ensures Validate(s, 6) == Err(RevenueInvariantViolated)
  {
    assert Timeouts(s, 6) == s;
    assert s.TokensOf(6)[0] == 1;
    hide Timeouts;
  }

  /**
   Two events are paid 10 units each.  The administrator declares the first one completed, somebody withdraws its 10 units,
   and the administrator refunds its payment in full: the books of the first event stand at -10, the contract is
   empty, the second event is still owed 10 units, and every payout for it is refused.
   */
  lemma RefundAfterWithdrawal() returns (ops: seq<Op>)
    ensures Deployed(FRESH)
    ensures var u := Run(FRESH, ops);
      && Net(u, 7, 1) == -10 && Net(u, 6, 1) == 10 && At(u.money.balance, 1) == 0
      && Validate(u, 6) == Err(RevenueInvariantViolated)
  {
    hide After, PaidOnce, Bought, TwoEvents, Run, Validate, Net;
    assert Deployed(FRESH);
    var (o1, o2) := (DoSetup(DoSetStatus(0, 7, Completed)), DoWithdrawToken(66, 7, 1));
    ops := [FIRST] + [SECOND] + [o1] + [o2] + [DoRefund(0, 1, None)];
    PayFirst();
    RunOne(FRESH, FIRST);
    Next(FRESH, [FIRST], SECOND);
    PaySecond(Run(FRESH, [FIRST]));
    Next(FRESH, [FIRST] + [SECOND], o1);
    ThenCompleted(Run(FRESH, [FIRST] + [SECOND]));
    Next(FRESH, [FIRST] + [SECOND] + [o1], o2);
    ThenWithdrawn(Run(FRESH, [FIRST] + [SECOND] + [o1]));
    Next(FRESH, [FIRST] + [SECOND] + [o1] + [o2], DoRefund(0, 1, None));
    ThenRefunded(Run(FRESH, [FIRST] + [SECOND] + [o1] + [o2]));
    ThenStuck(Run(FRESH, ops), UNTOUCHED.(status := Refunded, refunded := 10));
  }

  lemma Next(s: State, ops: seq<Op>, op: Op)
    ensures Run(s, ops + [op]) == After(Run(s, ops), op)
  {
    hide After;
    assert (ops + [op])[..|ops + [op]| - 1] == ops;
  }

  // ---- A cancelled event paid out twice ----

  const CONFIG: Config := Config(5, 1, 0, 0, 0, 0, 2, 0, 0, None, None, false, 0, None, false)
  const HALF: Config := CONFIG.(cancelLedger := Some(1), ratio := Some(5_000))
  const SYNCED: Events := PAID.(config := map[7 := CONFIG])
  const TIMED: Events := SYNCED.(meta := map[7 := EscrowMeta(5, 0, false)])
  const HALFWAY: Events := TIMED.(config := map[7 := HALF], status := map[7 := Cancelled])

  /** Event 7 configured, with an escrow end, one ledger after deployment. */
  const SETTING: seq<Op> := [FIRST] + [SECOND] + [DoSetup(DoSyncConfig(3, 7, CONFIG))] + [DoSetup(DoSetEndTime(0, 7, 5, 0))]
                            + [DoAdvance(1, 0)]

  lemma ThenSynced(s: State)
    requires Bought(s)
    ensures var u := After(s, DoSetup(DoSyncConfig(3, 7, CONFIG)));
      TwoEvents(u, Book(10, 0, 0, 10), 20, UNTOUCHED, SYNCED, 0) && u.split == FRESH.split
  {
  }

  lemma ThenTimed(s: State)
    requires TwoEvents(s, Book(10, 0, 0, 10), 20, UNTOUCHED, SYNCED, 0) && s.split == FRESH.split
    ensures var u := After(After(s, DoSetup(DoSetEndTime(0, 7, 5, 0))), DoAdvance(1, 0));
      TwoEvents(u, Book(10, 0, 0, 10), 20, UNTOUCHED, TIMED, 1) && u.split == FRESH.split
  {
  }

  lemma Set()
    ensures TwoEvents(Run(FRESH, SETTING), Book(10, 0, 0, 10), 20, UNTOUCHED, TIMED, 1)
    ensures Run(FRESH, SETTING).split == FRESH.split && Deployed(FRESH)
  {
    hide After, PaidOnce, Bought, TwoEvents, Run;
    var (o1, o2) := (DoSetup(DoSyncConfig(3, 7, CONFIG)), DoSetup(DoSetEndTime(0, 7, 5, 0)));
    PayFirst();
    RunOne(FRESH, FIRST);
    Next(FRESH, [FIRST], SECOND);
    PaySecond(Run(FRESH, [FIRST]));
    Next(FRESH, [FIRST] + [SECOND], o1);
    ThenSynced(Run(FRESH, [FIRST] + [SECOND]));
    Next(FRESH, [FIRST] + [SECOND] + [o1], o2);
    Next(FRESH, [FIRST] + [SECOND] + [o1] + [o2], DoAdvance(1, 0));
    ThenTimed(Run(FRESH, [FIRST] + [SECOND] + [o1]));
  }

  /** Cancelled half way: the organizer's part and the refundable part are 5 units each. */
  lemma ThenCancelled(s: State)
    requires TwoEvents(s, Book(10, 0, 0, 10), 20, UNTOUCHED, TIMED, 1) && s.split == FRESH.split
    ensures CancelEvent(s, 7, 5).Ok?
    ensures var u := CancelEvent(s, 7, 5).value;
      TwoEvents(u, Book(10, 0, 0, 10), 20, UNTOUCHED, HALFWAY, 1) && u.split == FRESH.split
  {
  }

  lemma EraBegins(s: State)
    requires Inv(s) && TwoEvents(s, Book(10, 0, 0, 10), 20, UNTOUCHED, TIMED, 1) && s.split == FRESH.split
    ensures CancelEvent(s, 7, 5).Ok? && Era(CancelEvent(s, 7, 5).value, 7, 5_000, 1) && !Settled(CancelEvent(s, 7, 5).value, 7)
  {
    hide Inv, Era;
    assert CancelRatio(CONFIG, 1) == 5_000;
    CancelStartsEra(s, 7, 5);
  }

  lemma ThenReleased(s: State)
    requires TwoEvents(s, Book(10, 0, 0, 10), 20, UNTOUCHED, HALFWAY, 2) && s.split == FRESH.split
    ensures TwoEvents(After(s, DoRelease(7)), Book(10, 0, 10, 0), 10, UNTOUCHED,
                      HALFWAY.(meta := map[7 := EscrowMeta(5, 0, true)]), 2)
  {
    assert Timeouts(s, 7) == s && s.TokensOf(7) == [1];
    assert Drain(s.money, 7, 5, [1]) == DrainToken(Drained(s.money, false), 7, 5, 1) by {
      assert [1][..0] == [];
      assert Drain(s.money, 7, 5, []) == Ok(Drained(s.money, false));
    }
    assert s.events.meta[7 := EscrowMeta(5, 0, true)] == map[7 := EscrowMeta(5, 0, true)];
    hide Timeouts, Drain;
  }

  lemma ThenClaimed(s: State, x: Events, ledger: nat)
    requires TwoEvents(s, Book(10, 0, 10, 0), 10, UNTOUCHED, x, ledger)
    requires x.status == map[7 := Cancelled] && 7 in x.config && x.config[7].ratio == Some(5_000)
    ensures TwoEvents(After(s, DoClaimRefund(9, 1)), Book(10, 5, 10, -5), 5,
                      UNTOUCHED.(refunded := 5, status := Refunded), x, ledger)
  {
    ClaimIs(s, x, ledger);
    hide ClaimRefund;
  }

  lemma ClaimIs(s: State, x: Events, ledger: nat)
    requires TwoEvents(s, Book(10, 0, 10, 0), 10, UNTOUCHED, x, ledger)
    requires x.status == map[7 := Cancelled] && 7 in x.config && x.config[7].ratio == Some(5_000)
    ensures ClaimRefund(s, 9, 1) == Ok(RefundPayment(s, 1, Some(9), 5, Refunded))
  {
    hide RefundPayment;
  }

  /**
   An escrow release after a cancellation at one half: the organizer gets the whole 10 units of the event, and the
   payer's claim of 5 more is paid from the other event.
   */
  lemma ReleaseThenClaim() returns (c: State, ops: seq<Op>)
    ensures Deployed(FRESH) && CancelEvent(Run(FRESH, SETTING), 7, 5) == Ok(c) && Era(c, 7, 5_000, 1) && !Settled(c, 7)
    ensures ops == [DoAdvance(1, 0)] + [DoRelease(7)] + [DoClaimRefund(9, 1)]
    ensures Run(c, ops).money.BookOf(7, 1) == Book(10, 5, 10, -5)
  {
    hide After, TwoEvents, Run, Settled, Era, CancelEvent;
    Set();
    RunInv(FRESH, SETTING);
    ThenCancelled(Run(FRESH, SETTING));
    EraBegins(Run(FRESH, SETTING));
    c := CancelEvent(Run(FRESH, SETTING), 7, 5).value;
    ops := [DoAdvance(1, 0)] + [DoRelease(7)] + [DoClaimRefund(9, 1)];
    Waited(c, 1);
    RunOne(c, DoAdvance(1, 0));
    Next(c, [DoAdvance(1, 0)], DoRelease(7));
    Next(c, [DoAdvance(1, 0)] + [DoRelease(7)], DoClaimRefund(9, 1));
    ThenReleased(Run(c, [DoAdvance(1, 0)]));
    ThenClaimed(Run(c, [DoAdvance(1, 0)] + [DoRelease(7)]), HALFWAY.(meta := map[7 := EscrowMeta(5, 0, true)]), 2);
    BooksOfRun(Run(c, ops), 5, HALFWAY.(meta := map[7 := EscrowMeta(5, 0, true)]), 2);
  }

  lemma BooksOfRun(s: State, balance: int, x: Events, ledger: nat)
    requires TwoEvents(s, Book(10, 5, 10, -5), balance, UNTOUCHED.(refunded := 5, status := Refunded), x, ledger)
    ensures s.money.BookOf(7, 1) == Book(10, 5, 10, -5)
  {
  }

  lemma Waited(s: State, n: nat)
    requires TwoEvents(s, Book(10, 0, 0, 10), 20, UNTOUCHED, HALFWAY, 1) && s.split == FRESH.split
    ensures var u := After(s, DoAdvance(n, 0));
      TwoEvents(u, Book(10, 0, 0, 10), 20, UNTOUCHED, HALFWAY, 1 + n) && u.split == FRESH.split
  {
  }

  const SOLE: seq<Split> := [Split(5, 10_000)]
  const LATCHED: Events := HALFWAY.(config := map[7 := HALF.(withdrawn := true)])

  lemma ThenOrganizerPaid(s: State)
    requires TwoEvents(s, Book(10, 0, 0, 10), 20, UNTOUCHED, HALFWAY, 101) && s.split == FRESH.split
    ensures var u := After(s, DoWithdraw(5, 7));
      TwoEvents(u, Book(10, 0, 5, 5), 15, UNTOUCHED, LATCHED, 101) && u.split == FRESH.split
  {
    assert Timeouts(s, 7) == s && s.TokensOf(7) == [1];
    hide Timeouts;
  }

  lemma ThenSplit(s: State)
    requires TwoEvents(s, Book(10, 0, 5, 5), 15, UNTOUCHED, LATCHED, 101) && s.split == FRESH.split
    ensures var u := After(s, DoSyncSplits(3, 7, SOLE));
      TwoEvents(u, Book(10, 0, 5, 5), 15, UNTOUCHED, LATCHED, 101) && u.split == FRESH.split.(splits := map[7 := SOLE])
  {
    assert BpsSum(SOLE) == 10_000 by { assert SOLE[..0] == []; }
  }

  lemma ThenShared(s: State)
    requires TwoEvents(s, Book(10, 0, 5, 5), 15, UNTOUCHED, LATCHED, 101) && s.split == FRESH.split.(splits := map[7 := SOLE])
    ensures TwoEvents(After(s, DoWithdrawSplit(5, 7)), Book(10, 0, 10, 0), 10, UNTOUCHED, LATCHED, 101)
  {
    SplitFrozen(s);
    SharePaid(SettleNow(s, 7, 5_000).value);
    hide EnsureSettled, PayShare, SettleNow;
  }

  lemma SplitFrozen(s: State)
    requires TwoEvents(s, Book(10, 0, 5, 5), 15, UNTOUCHED, LATCHED, 101) && s.split == FRESH.split.(splits := map[7 := SOLE])
    ensures EnsureSettled(s, 7) == SettleNow(s, 7, 5_000) && SettleNow(s, 7, 5_000).Ok?
    ensures var u := SettleNow(s, 7, 5_000).value;
      TwoEvents(u, Book(10, 0, 5, 0), 15, UNTOUCHED, LATCHED, 101)
      && u.split == s.split.(settled := map[7 := Settlement(1, 5)])
  {
    assert Timeouts(s, 7) == s && s.TokensOf(7) == [1];
    hide Timeouts;
  }

  lemma SharePaid(s: State)
    requires TwoEvents(s, Book(10, 0, 5, 0), 15, UNTOUCHED, LATCHED, 101)
    requires s.split == FRESH.split.(splits := map[7 := SOLE], settled := map[7 := Settlement(1, 5)])
    ensures BpsOf(SOLE, 5) == Some(10_000) && PayShare(s, 7, 5, 5).Ok?
    ensures TwoEvents(PayShare(s, 7, 5, 5).value, Book(10, 0, 10, 0), 10, UNTOUCHED, LATCHED, 101)
  {
    assert SOLE[..0] == [];
    assert ShareOf(s, 7, 5, 5) == 5;
    hide ShareOf;
  }

  /**
   A split synchronized after the organizer's withdrawal from an event cancelled at one half: the organizer's 5 units are
   settled a second time, and the payer's claim of 5 is paid from the other event.
   */
  lemma SplitAfterWithdrawal() returns (c: State, ops: seq<Op>)
    ensures Deployed(FRESH) && CancelEvent(Run(FRESH, SETTING), 7, 5) == Ok(c) && Era(c, 7, 5_000, 1) && !Settled(c, 7)
    ensures ops == [DoAdvance(100, 0)] + [DoWithdraw(5, 7)] + [DoSyncSplits(3, 7, SOLE)] + [DoWithdrawSplit(5, 7)]
                   + [DoClaimRefund(9, 1)]
    ensures Run(c, ops).money.BookOf(7, 1) == Book(10, 5, 10, -5)
  {
    hide After, TwoEvents, Run, Settled, Era, CancelEvent;
    Set();
    RunInv(FRESH, SETTING);
    ThenCancelled(Run(FRESH, SETTING));
    EraBegins(Run(FRESH, SETTING));
    c := CancelEvent(Run(FRESH, SETTING), 7, 5).value;
    var (o1, o2, o3) := (DoWithdraw(5, 7), DoSyncSplits(3, 7, SOLE), DoWithdrawSplit(5, 7));
    ops := [DoAdvance(100, 0)] + [o1] + [o2] + [o3] + [DoClaimRefund(9, 1)];
    Waited(c, 100);
    RunOne(c, DoAdvance(100, 0));
    Next(c, [DoAdvance(100, 0)], o1);
    ThenOrganizerPaid(Run(c, [DoAdvance(100, 0)]));
    Next(c, [DoAdvance(100, 0)] + [o1], o2);
    ThenSplit(Run(c, [DoAdvance(100, 0)] + [o1]));
    Next(c, [DoAdvance(100, 0)] + [o1] + [o2], o3);
    ThenShared(Run(c, [DoAdvance(100, 0)] + [o1] + [o2]));
    Next(c, [DoAdvance(100, 0)] + [o1] + [o2] + [o3], DoClaimRefund(9, 1));
    ThenClaimed(Run(c, [DoAdvance(100, 0)] + [o1] + [o2] + [o3]), LATCHED, 101);
    BooksOfRun(Run(c, ops), 5, LATCHED, 101);
  }

  // ---- The excluded payouts and approvals ----

  lemma ThenAdministratorPaid(s: State)
    requires TwoEvents(s, Book(10, 0, 0, 10), 20, UNTOUCHED, HALFWAY, 1) && s.split == FRESH.split
    ensures TwoEvents(After(s, DoWithdrawRevenue(7, 77)), Book(10, 0, 10, 0), 10, UNTOUCHED, LATCHED, 1)
  {
    assert Timeouts(s, 7) == s && s.TokensOf(7) == [1];
    hide Timeouts;
  }

  /**
   The administrator's payout right after a cancellation at one half takes the whole 10 units of the event, and the
   payer's claim of 5 more is paid from the other event.
   */
  lemma AdministratorPayoutThenClaim() returns (c: State, ops: seq<Op>)
    ensures Deployed(FRESH) && CancelEvent(Run(FRESH, SETTING), 7, 5) == Ok(c) && Era(c, 7, 5_000, 1) && !Settled(c, 7)
    ensures ops == [DoWithdrawRevenue(7, 77)] + [DoClaimRefund(9, 1)]
    ensures Run(c, ops).money.BookOf(7, 1) == Book(10, 5, 10, -5)
  {
    hide After, TwoEvents, Run, Settled, Era, CancelEvent;
    Set();
    RunInv(FRESH, SETTING);
    ThenCancelled(Run(FRESH, SETTING));
    EraBegins(Run(FRESH, SETTING));
    c := CancelEvent(Run(FRESH, SETTING), 7, 5).value;
    ops := [DoWithdrawRevenue(7, 77)] + [DoClaimRefund(9, 1)];
    RunOne(c, DoWithdrawRevenue(7, 77));
    Next(c, [DoWithdrawRevenue(7, 77)], DoClaimRefund(9, 1));
    ThenAdministratorPaid(c);
    ThenClaimed(Run(c, [DoWithdrawRevenue(7, 77)]), LATCHED, 1);
    BooksOfRun(Run(c, ops), 5, LATCHED, 1);
  }

  /** Event 7 with its payment of 10 in dispute and 5 paid to the organizer. */
  ghost predicate InDispute(s: State) {
    && s.globals == FRESH.globals && s.ledger == 101 && At(s.money.balance, 1) == 15 && s.money.BookOf(7, 1) == Book(10, 0, 5, -5)
    && 1 in s.records.payments && s.records.payments[1] == UNTOUCHED.(status := Disputed)
    && s.disputes.records == map[1 := Dispute(7, 1, 0, 101)]
  }

  lemma ThenRaised(s: State)
    requires TwoEvents(s, Book(10, 0, 5, 5), 15, UNTOUCHED, LATCHED, 101)
    requires 1 in s.records.tickets && s.records.tickets[1].event == 7 && s.records.tickets[1].payment == 1
    ensures InDispute(After(s, DoRaise(1, 0, true)))
  {
  }

  lemma ThenApproved(s: State)
    requires InDispute(s)
    ensures After(s, DoApprove(1)).money.BookOf(7, 1) == Book(10, 10, 5, -5)
  {
    hide Without;
  }

  lemma FirstTicket(s: State)
    requires Inv(s) && TwoEvents(s, Book(10, 0, 5, 5), 15, UNTOUCHED, LATCHED, 101)
    ensures 1 in s.records.tickets && s.records.tickets[1].event == 7 && s.records.tickets[1].payment == 1
  {
    hide BooksOk, DisputesOk, SplitsOk, OwnersOk, RecordsOk;
    RefundedInRange(s.records, 1);
  }

  /**
   A dispute raised after the organizer's withdrawal from an event cancelled at one half, and approved: 10 refunded and 5
   withdrawn out of 10.
   */
  lemma ApproveAfterWithdrawal() returns (c: State, ops: seq<Op>)
    ensures Deployed(FRESH) && CancelEvent(Run(FRESH, SETTING), 7, 5) == Ok(c) && Era(c, 7, 5_000, 1) && !Settled(c, 7)
    ensures ops == [DoAdvance(100, 0)] + [DoWithdraw(5, 7)] + [DoRaise(1, 0, true)] + [DoApprove(1)]
    ensures Run(c, ops).money.BookOf(7, 1) == Book(10, 10, 5, -5)
  {
    hide After, TwoEvents, InDispute, Run, Settled, Era, Inv, CancelEvent;
    Set();
    RunInv(FRESH, SETTING);
    ThenCancelled(Run(FRESH, SETTING));
    EraBegins(Run(FRESH, SETTING));
    c := CancelEvent(Run(FRESH, SETTING), 7, 5).value;
    var (o0, o1, o2) := (DoAdvance(100, 0), DoWithdraw(5, 7), DoRaise(1, 0, true));
    ops := [o0] + [o1] + [o2] + [DoApprove(1)];
    Waited(c, 100);
    RunOne(c, o0);
    Next(c, [o0], o1);
    ThenOrganizerPaid(Run(c, [o0]));
    Next(c, [o0] + [o1], o2);
    var u := Run(c, [o0] + [o1]);
    assert Inv(u) by {
      StartInv(c);
      StepKeeps(c, o0, 1);
      StepKeeps(Run(c, [o0]), o1, 1);
    }
    FirstTicket(u);
    ThenRaised(u);
    Next(c, [o0] + [o1] + [o2], DoApprove(1));
    ThenApproved(Run(c, [o0] + [o1] + [o2]));
  }

  lemma StartInv(c: State)
    requires Era(c, 7, 5_000, 1)
    ensures Inv(c)
  {
    hide Inv;
  }
}

/** What every reachable state of the payments contract satisfies. */
module EscrowInvariants {
  import opened Ledger
  import opened MapSums
  import opened OwnerIndexes
  import opened RevenueSplits
  import opened PaymentsSpec
  import opened EscrowLedger

  // ---- The invariant ----

  /** Payment and ticket `i` belong together; a refund never exceeds the payment. */
  ghost predicate PaymentOk(r: Records, i: nat)
    requires i in r.payments && i in r.tickets
  {
    var (p, ticket) := (r.payments[i], r.tickets[i]);
    && p.amount > 0 && 0 <= p.refunded <= p.amount && p.status != Released
    && (p.payer.Some? <==> p.privacy == Standard)
    && ticket.payment == i && ticket.event == p.event && ticket.privacy == p.privacy
    && (ticket.owner.Some? <==> ticket.privacy == Standard)
  }

  ghost predicate RecordsOk(r: Records) {
    && r.lastPayment == r.lastTicket
    && (forall i :: i in r.payments <==> 1 <= i <= r.lastPayment)
    && (forall i :: i in r.tickets <==> 1 <= i <= r.lastTicket)
    && (forall i :: i in r.payments ==> PaymentOk(r, i))
  }

  /** Volume and refunds are the sums over the payment records. */
  ghost predicate BookOk(pays: map<nat, Payment>, m: Money, e: Symbol, t: Address) {
    m.BookOf(e, t).volume == Tally(pays, e, t, AMOUNT) && m.BookOf(e, t).refunds == Tally(pays, e, t, REFUNDED)
  }

  ghost predicate BooksOk(pays: map<nat, Payment>, m: Money) { forall e, t :: BookOk(pays, m, e, t) }

  ghost predicate NoDuplicates(l: seq<nat>) { forall i, j :: 0 <= i < j < |l| ==> l[i] != l[j] }

  function ListIn(d: Disputes, e: Symbol): seq<nat> { if e in d.lists then d.lists[e] else [] }

  /** Exactly the tickets of an event with an open dispute are on its list, each once. */
  ghost predicate ListOk(d: Disputes, e: Symbol) {
    && NoDuplicates(ListIn(d, e))
    && forall tid :: tid in ListIn(d, e) <==> tid in d.records && d.records[tid].event == e
  }

  /** Exactly the payments of open disputes are disputed. */
  ghost predicate DisputesOk(r: Records, d: Disputes) {
    && (forall tid :: tid in d.records ==> tid in r.payments && d.records[tid].payment == tid
                                           && d.records[tid].event == r.payments[tid].event)
    && (forall i :: i in r.payments ==> (r.payments[i].status == Disputed <==> i in d.records))
    && (forall e :: ListOk(d, e))
  }

  ghost predicate SplitOk(l: seq<Split>) { |l| > 0 && WellFormed(l, l[0].recipient) }

  /** Payments to recipients are exactly their shares of the frozen net amount. */
  ghost predicate SettledOk(x: SplitState, e: Symbol)
    requires e in x.settled
  {
    && e in x.splits && SplitOk(x.splits[e]) && x.settled[e].net > 0
    && (e in x.paid ==>
          && PaidAtMostOnce(x.splits[e], x.splits[e][0].recipient, x.settled[e].net, x.paid[e])
          && forall who :: who in x.paid[e] ==> x.paid[e][who] > 0)
  }

  ghost predicate SplitsOk(x: SplitState) {
    && (forall e :: e in x.splits ==> SplitOk(x.splits[e]))
    && (forall e :: e in x.settled ==> SettledOk(x, e))
    && (forall e :: e in x.paid ==> e in x.settled)
  }

  /** An address is indexed for a ticket exactly when the ticket names it as owner. */
  ghost predicate OwnersOk(tickets: map<nat, Ticket>, ix: OwnerIndex) {
    && ix.Consistent()
    && forall o, t :: (o, t) in ix.member <==> t in tickets && tickets[t].owner == Some(o)
  }

  ghost predicate Inv(s: State) {
    && RecordsOk(s.records) && BooksOk(s.records.payments, s.money) && DisputesOk(s.records, s.disputes)
    && SplitsOk(s.split) && OwnersOk(s.records.tickets, s.owners)
  }

  /** The invariant again, and surplus and total of each token unchanged. */
  ghost predicate Moves(s: State, u: State) {
    Inv(u) && forall t :: Surplus(u.money, t) == Surplus(s.money, t) && Total(u.money, t) == Total(s.money, t)
  }

  // ---- Rewriting one payment ----

  /** The same payment with another status or refund. */
  predicate SamePayment(p: Payment, q: Payment) {
    q == p.(status := q.status, refunded := q.refunded)
  }

  lemma RecordsRewrite(r: Records, id: nat, q: Payment)
    requires RecordsOk(r) && id in r.payments && SamePayment(r.payments[id], q)
    requires 0 <= q.refunded <= q.amount && q.status != Released
    ensures RecordsOk(r.(payments := r.payments[id := q]))
  {
    var u := r.(payments := r.payments[id := q]);
    forall i | i in u.payments ensures PaymentOk(u, i) { assert PaymentOk(r, i); }
  }

  /** The books follow when the refund counter of the payment's event and token moves along. */
  lemma BooksRewrite(pays: map<nat, Payment>, id: nat, q: Payment, m: Money, n: Money)
    requires BooksOk(pays, m) && id in pays && SamePayment(pays[id], q)
    requires forall e, t :: n.BookOf(e, t).volume == m.BookOf(e, t).volume
    requires forall e, t :: n.BookOf(e, t).refunds == m.BookOf(e, t).refunds
                                + if e == q.event && t == q.token then q.refunded - pays[id].refunded else 0
    ensures BooksOk(pays[id := q], n)
  {
    hide Tally, Money.BookOf;
    var after := pays[id := q];
    forall e, t ensures BookOk(after, n, e, t) {
      assert BookOk(pays, m, e, t);
      TallyChange(pays, id, q, e, t, AMOUNT);
      TallyChange(pays, id, q, e, t, REFUNDED);
    }
  }

  lemma BooksSame(pays: map<nat, Payment>, m: Money, n: Money)
    requires BooksOk(pays, m)
    requires forall e, t :: n.BookOf(e, t).volume == m.BookOf(e, t).volume
    requires forall e, t :: n.BookOf(e, t).refunds == m.BookOf(e, t).refunds
    ensures BooksOk(pays, n)
  {
    hide Tally, Money.BookOf;
    forall e, t ensures BookOk(pays, n, e, t) { assert BookOk(pays, m, e, t); }
  }

  // ---- Refunds ----

  lemma RefundBooks(m: Money, e: Symbol, u: Address, to: Option<Address>, a: int, x: bool, f: Symbol, t: Address)
    ensures var n := m.Refund(e, u, to, a, x);
      && n.BookOf(f, t).volume == m.BookOf(f, t).volume
      && n.BookOf(f, t).refunds == m.BookOf(f, t).refunds + if f == e && t == u then a else 0
  {
  }

  lemma RefundPaymentMoves(s: State, id: nat, a: int, status: PaymentStatus)
    requires Inv(s) && id in s.records.payments && s.records.payments[id].payer.Some?
    requires s.records.payments[id].status == Held && (status == Held || status == Refunded)
    requires 0 <= a <= s.records.payments[id].amount - s.records.payments[id].refunded
    ensures Moves(s, RefundPayment(s, id, s.records.payments[id].payer, a, status))
  {
    hide BooksOk, ListOk, SplitsOk, OwnersOk, PaymentOk, Money.BookOf, Money.Refund, Surplus, Total;
    var p := s.records.payments[id];
    var q := p.(refunded := p.refunded + a, status := status);
    var n := s.money.Refund(p.event, p.token, p.payer, a, true);
    assert PaymentOk(s.records, id);
    RefundedInRange(s.records, id);
    RecordsRewrite(s.records, id, q);
    forall e, t ensures n.BookOf(e, t).volume == s.money.BookOf(e, t).volume
                && n.BookOf(e, t).refunds == s.money.BookOf(e, t).refunds
                     + if e == p.event && t == p.token then a else 0
    {
      RefundBooks(s.money, p.event, p.token, p.payer, a, true, e, t);
    }
    BooksRewrite(s.records.payments, id, q, s.money, n);
    forall t ensures Surplus(n, t) == Surplus(s.money, t) && Total(n, t) == Total(s.money, t) {
      RefundSurplus(s.money, p.event, p.token, p.payer, a, true, t);
    }
  }

  lemma RefundedInRange(r: Records, id: nat)
    requires RecordsOk(r) && id in r.payments
    ensures 0 <= r.payments[id].refunded <= r.payments[id].amount && r.payments[id].amount > 0
    ensures r.payments[id].payer.Some? <==> r.payments[id].privacy == Standard
    ensures id in r.tickets && r.tickets[id].payment == id && r.tickets[id].event == r.payments[id].event
    ensures r.payments[id].status != Released
  {
    assert PaymentOk(r, id);
  }

  // ---- Disputes ----

  lemma {:induction false} WithoutKeeps(l: seq<nat>, tid: nat)
    requires NoDuplicates(l)
    ensures NoDuplicates(Without(l, tid))
    ensures forall x :: x in Without(l, tid) <==> x in l && x != tid
  {
    if l != [] {
      var init, last := l[..|l| - 1], l[|l| - 1];
      WithoutKeeps(init, tid);
      assert last !in init;
      assert l == init + [last];
    }
  }

  /** In a list without duplicates, one entry is cut out. */
  lemma {:induction false} WithoutCut(a: seq<nat>, tid: nat, b: seq<nat>)
    requires tid !in a && tid !in b
    ensures Without(a + [tid] + b, tid) == a + b
  {
    if b != [] {
      var init := b[..|b| - 1];
      WithoutCut(a, tid, init);
      assert (a + [tid] + b)[..|a + [tid] + b| - 1] == a + [tid] + init;
      assert a + init + [b[|b| - 1]] == a + b;
    } else {
      assert (a + [tid] + b)[..|a|] == a;
      WithoutAbsent(a, tid);
    }
  }

  lemma {:induction false} WithoutAbsent(l: seq<nat>, tid: nat)
    requires tid !in l
    ensures Without(l, tid) == l
  {
    if l != [] { WithoutAbsent(l[..|l| - 1], tid); }
  }

  lemma DisputesOpened(r: Records, d: Disputes, tid: nat, x: Dispute, q: Payment)
    requires DisputesOk(r, d) && tid in r.payments && tid !in d.records
    requires x.payment == tid && x.event == r.payments[tid].event == q.event && q.status == Disputed
    ensures DisputesOk(r.(payments := r.payments[tid := q]),
                       Disputes(d.records[tid := x], d.lists[x.event := ListIn(d, x.event) + [tid]]))
  {
    var n := Disputes(d.records[tid := x], d.lists[x.event := ListIn(d, x.event) + [tid]]);
    forall e ensures ListOk(n, e) {
      assert ListOk(d, e) && ListOk(d, x.event);
    }
  }

  lemma DisputesClosed(r: Records, d: Disputes, tid: nat, q: Payment)
    requires DisputesOk(r, d) && tid in d.records
    requires q.event == r.payments[tid].event && q.status != Disputed
    ensures var e := d.records[tid].event;
      DisputesOk(r.(payments := r.payments[tid := q]),
                 Disputes(d.records - {tid}, d.lists[e := Without(ListIn(d, e), tid)]))
  {
    hide Without;
    var f := d.records[tid].event;
    var n := Disputes(d.records - {tid}, d.lists[f := Without(ListIn(d, f), tid)]);
    forall e ensures ListOk(n, e) {
      assert ListOk(d, e) && ListOk(d, f);
      WithoutKeeps(ListIn(d, f), tid);
    }
  }

  lemma OpenDisputeMoves(s: State, tid: nat, reason: nat)
    requires Inv(s) && tid in s.records.tickets && tid !in s.disputes.records
    requires s.records.tickets[tid].payment in s.records.payments
    requires s.records.payments[s.records.tickets[tid].payment].status == Held
    ensures Moves(s, OpenDispute(s, tid, reason))
  {
    hide BooksOk, SplitsOk, OwnersOk, PaymentOk, Surplus, Total, DisputesOk;
    RefundedInRange(s.records, tid);
    var p := s.records.payments[tid];
    var n := s.money.WithRevenue(p.event, p.token, s.money.Revenue(p.event, p.token) - p.amount);
    RecordsRewrite(s.records, tid, p.(status := Disputed));
    BooksRewrite(s.records.payments, tid, p.(status := Disputed), s.money, n);
    DisputesOpened(s.records, s.disputes, tid, Dispute(p.event, tid, reason, s.ledger), p.(status := Disputed));
    forall t ensures Surplus(n, t) == Surplus(s.money, t) && Total(n, t) == Total(s.money, t) {
      RevenueSurplus(s.money, p.event, p.token, s.money.Revenue(p.event, p.token) - p.amount, t);
    }
  }

  lemma ReopenMoves(s: State, tid: nat)
    requires Inv(s) && tid in s.disputes.records
    ensures s.disputes.records[tid].payment == tid && tid in s.records.payments
    ensures s.disputes.records[tid].event == s.records.payments[tid].event
    ensures s.records.payments[tid].status == Disputed
    ensures Moves(s, Close(Restore(s, s.disputes.records[tid].event, tid), tid, s.disputes.records[tid].event))
  {
    hide BooksOk, SplitsOk, OwnersOk, PaymentOk, Surplus, Total, Without, ListOk;
    RefundedInRange(s.records, tid);
    var p := s.records.payments[tid];
    var n := s.money.WithRevenue(p.event, p.token, s.money.Revenue(p.event, p.token) + p.amount);
    RecordsRewrite(s.records, tid, p.(status := Held));
    BooksRewrite(s.records.payments, tid, p.(status := Held), s.money, n);
    DisputesClosed(s.records, s.disputes, tid, p.(status := Held));
    forall t ensures Surplus(n, t) == Surplus(s.money, t) && Total(n, t) == Total(s.money, t) {
      RevenueSurplus(s.money, p.event, p.token, s.money.Revenue(p.event, p.token) + p.amount, t);
    }
  }

  lemma ApproveMoves(s: State, tid: nat)
    requires Inv(s) && tid in s.disputes.records
    ensures s.disputes.records[tid].payment == tid && tid in s.records.payments
    ensures s.records.payments[tid].payer.Some? ==>
      var (e, p) := (s.disputes.records[tid].event, s.records.payments[tid]);
      Moves(s, Close(RefundDisputed(s, e, tid, p.payer), tid, e))
  {
    hide BooksOk, SplitsOk, OwnersOk, PaymentOk, Surplus, Total, Without, ListOk, Money.Refund, Money.BookOf;
    RefundedInRange(s.records, tid);
    var p := s.records.payments[tid];
    if p.payer.Some? {
      var (q, a) := (p.(refunded := p.amount, status := Refunded), p.amount - p.refunded);
      var n := s.money.Refund(p.event, p.token, p.payer, a, false);
      forall e, t ensures n.BookOf(e, t).volume == s.money.BookOf(e, t).volume
                  && n.BookOf(e, t).refunds == s.money.BookOf(e, t).refunds
                       + if e == p.event && t == p.token then a else 0
      {
        RefundBooks(s.money, p.event, p.token, p.payer, a, false, e, t);
      }
      RecordsRewrite(s.records, tid, q);
      BooksRewrite(s.records.payments, tid, q, s.money, n);
      DisputesClosed(s.records, s.disputes, tid, q);
      forall t ensures Surplus(n, t) == Surplus(s.money, t) && Total(n, t) == Total(s.money, t) {
        RefundSurplus(s.money, p.event, p.token, p.payer, a, false, t);
      }
    }
  }

  // ---- Timeouts, one dispute after the other ----

  lemma {:induction false} RemainingPart(s: State, l: seq<nat>)
    ensures forall x :: x in Remaining(s, l) ==> x in l
  {
    if l != [] { RemainingPart(s, l[..|l| - 1]); }
  }

  lemma ExpireOneKeeps(s: State, e: Symbol, tid: nat)
    ensures var u := ExpireOne(s, e, tid);
      u.ledger == s.ledger && u.disputes.lists == s.disputes.lists
      && u.disputes.records == if Expired(s, tid) then s.disputes.records - {tid} else s.disputes.records
  {
    hide Money.WithRevenue, Money.Revenue;
  }

  /** Disputes that are not in the processed part keep their records. */
  lemma {:induction false} ExpireListKeeps(s: State, e: Symbol, l: seq<nat>, tid: nat)
    requires tid !in l
    ensures var u := ExpireList(s, e, l);
      && (tid in u.disputes.records <==> tid in s.disputes.records)
      && (tid in s.disputes.records ==> u.disputes.records[tid] == s.disputes.records[tid])
      && u.ledger == s.ledger && u.disputes.lists == s.disputes.lists
  {
    hide ExpireOne;
    if l != [] {
      ExpireListKeeps(s, e, l[..|l| - 1], tid);
      ExpireOneKeeps(ExpireList(s, e, l[..|l| - 1]), e, l[|l| - 1]);
    }
  }

  /** A round on an expired dispute is its rejection, up to the list. */
  lemma RoundCloses(s: State, e: Symbol, tid: nat, l: seq<nat>)
    requires Expired(s, tid) && s.disputes.records[tid].payment == tid
    requires tid in s.records.payments && s.records.payments[tid].status == Disputed
    ensures ExpireOne(s, e, tid).WithList(e, Without(l, tid)) == Close(Restore(s.WithList(e, l), e, tid), tid, e)
  {
    hide Money.WithRevenue, Money.Revenue, Without;
  }

  /** The state after `k` rounds, with the rest of the list still to come. */
  ghost function AfterRounds(s: State, e: Symbol, k: nat): State
    requires k <= |s.ListOf(e)|
  {
    var l := s.ListOf(e);
    ExpireList(s, e, l[..k]).WithList(e, Remaining(s, l[..k]) + l[k..])
  }

  /** One more round rejects the dispute if it has timed out, and changes nothing otherwise. */
  lemma NextRound(s: State, e: Symbol, k: nat)
    requires Inv(s) && k < |s.ListOf(e)| && Inv(AfterRounds(s, e, k))
    ensures var (u, tid) := (AfterRounds(s, e, k), s.ListOf(e)[k]);
      && tid in u.disputes.records && tid in u.records.payments
      && AfterRounds(s, e, k + 1) == if Expired(s, tid) then Close(Restore(u, e, tid), tid, e) else u
  {
    hide Restore, BooksOk, SplitsOk, OwnersOk, RecordsOk, NoDuplicates, ExpireOne, Close, Expired, Without;
    var l := s.ListOf(e);
    var tid := l[k];
    var (u, base) := (AfterRounds(s, e, k), ExpireList(s, e, l[..k]));
    assert ListOk(s.disputes, e);
    Fresh(l, k);
    ExpireListKeeps(s, e, l[..k], tid);
    assert u.disputes.records == base.disputes.records && u.records == base.records;
    SameExpiry(s, base, tid);
    RemainingPart(s, l[..k]);
    assert l[..k + 1][..k] == l[..k];
    assert Remaining(s, l[..k]) + l[k..] == Remaining(s, l[..k]) + [tid] + l[k + 1..];
    if Expired(s, tid) {
      WithoutCut(Remaining(s, l[..k]), tid, l[k + 1..]);
      RoundCloses(base, e, tid, Remaining(s, l[..k]) + l[k..]);
      assert Remaining(s, l[..k + 1]) == Remaining(s, l[..k]);
    } else {
      NotExpiredKeeps(base, e, tid);
    }
  }

  lemma SameExpiry(s: State, u: State, tid: nat)
    requires tid in s.disputes.records && tid in u.disputes.records
    requires u.disputes.records[tid] == s.disputes.records[tid] && u.ledger == s.ledger
    ensures Expired(u, tid) == Expired(s, tid)
  {
  }

  lemma NotExpiredKeeps(s: State, e: Symbol, tid: nat)
    requires !Expired(s, tid)
    ensures ExpireOne(s, e, tid) == s
  {
  }

  lemma Fresh(l: seq<nat>, k: nat)
    requires NoDuplicates(l) && k < |l|
    ensures l[k] !in l[..k] && l[k] !in l[k + 1..]
  {
  }

  lemma {:induction false} RoundsMove(s: State, e: Symbol, k: nat)
    requires Inv(s) && s.ListOf(e) != [] && k <= |s.ListOf(e)|
    ensures Moves(s, AfterRounds(s, e, k))
  {
    hide Inv, Restore, Close, Surplus, Total, Expired;
    if k == 0 {
      assert s.ListOf(e)[..0] == [] && [] + s.ListOf(e) == s.ListOf(e);
      assert s.disputes.lists[e := s.ListOf(e)] == s.disputes.lists;
      assert AfterRounds(s, e, 0) == s;
    } else {
      RoundsMove(s, e, k - 1);
      NextRound(s, e, k - 1);
      ReopenRound(AfterRounds(s, e, k - 1), s.ListOf(e)[k - 1], e);
    }
  }

  /** In a listed dispute the recorded event is the list's. */
  lemma ReopenRound(s: State, tid: nat, e: Symbol)
    requires Inv(s) && tid in s.disputes.records && tid in s.records.payments
    ensures tid in s.ListOf(e) ==> Moves(s, Close(Restore(s, e, tid), tid, e))
  {
    hide BooksOk, SplitsOk, OwnersOk, RecordsOk, Restore, Close, Surplus, Total, NoDuplicates;
    assert ListOk(s.disputes, e);
    ReopenMoves(s, tid);
  }

  lemma TimeoutsMove(s: State, e: Symbol)
    requires Inv(s)
    ensures Moves(s, Timeouts(s, e))
  {
    hide Inv, Surplus, Total, ExpireList, Remaining;
    var l := s.ListOf(e);
    if AnyExpired(s, l) {
      RoundsMove(s, e, |l|);
      assert l[..|l|] == l && Remaining(s, l) + l[|l|..] == Remaining(s, l);
    }
  }

  /** Nothing but payments, money and disputes is touched. */
  ghost predicate SameSetup(s: State, u: State) {
    && u.globals == s.globals && u.events == s.events && u.split == s.split && u.listings == s.listings
    && u.owners == s.owners && u.ids == s.ids && u.ledger == s.ledger && u.timestamp == s.timestamp
    && u.records.tickets == s.records.tickets
  }

  lemma {:induction false} ExpireListFrame(s: State, e: Symbol, l: seq<nat>)
    ensures SameSetup(s, ExpireList(s, e, l))
  {
    hide Money.WithRevenue, Money.Revenue, Expired;
    if l != [] { ExpireListFrame(s, e, l[..|l| - 1]); }
  }

  lemma TimeoutsFrame(s: State, e: Symbol)
    ensures SameSetup(s, Timeouts(s, e))
  {
    hide ExpireList, AnyExpired, Remaining;
    ExpireListFrame(s, e, s.ListOf(e));
  }

  // ---- Payouts ----

  /** Money that changes no volume, no refund counter, no surplus and no total. */
  ghost predicate Neutral(m: Money, n: Money) {
    && (forall e, t :: n.BookOf(e, t).volume == m.BookOf(e, t).volume)
    && (forall e, t :: n.BookOf(e, t).refunds == m.BookOf(e, t).refunds)
    && (forall t :: Surplus(n, t) == Surplus(m, t) && Total(n, t) == Total(m, t))
  }

  lemma NeutralMoves(s: State, m: Money, x: SplitState)
    requires Inv(s) && Neutral(s.money, m) && SplitsOk(x)
    ensures Moves(s, s.(money := m, split := x))
  {
    hide RecordsOk, BooksOk, DisputesOk, SplitsOk, OwnersOk, Surplus, Total, Money.BookOf;
    BooksSame(s.records.payments, s.money, m);
  }

  lemma NeutralThen(m: Money, n: Money, o: Money)
    requires Neutral(m, n) && Neutral(n, o)
    ensures Neutral(m, o)
  {
    hide Surplus, Total, Money.BookOf;
  }

  lemma PayoutNeutral(m: Money, e: Symbol, u: Address, to: Address, a: int, revenue: int)
    ensures Neutral(m, m.Payout(e, u, to, a, revenue))
  {
    hide Surplus, Total;
    forall t ensures Surplus(m.Payout(e, u, to, a, revenue), t) == Surplus(m, t)
              && Total(m.Payout(e, u, to, a, revenue), t) == Total(m, t)
    {
      PayoutSurplus(m, e, u, to, a, revenue, t);
    }
  }

  lemma RevenueNeutral(m: Money, e: Symbol, u: Address, r: int)
    ensures Neutral(m, m.WithRevenue(e, u, r))
  {
    hide Surplus, Total;
    forall t ensures Surplus(m.WithRevenue(e, u, r), t) == Surplus(m, t)
              && Total(m.WithRevenue(e, u, r), t) == Total(m, t)
    {
      RevenueSurplus(m, e, u, r, t);
    }
  }

  lemma CollectNeutral(m: Money, e: Symbol, fee: int)
    ensures Neutral(m, m.Collect(e, fee))
  {
    hide Surplus, Total;
    forall t ensures Surplus(m.Collect(e, fee), t) == Surplus(m, t)
              && Total(m.Collect(e, fee), t) == Total(m, t)
    {
      CollectSurplus(m, e, fee, t);
    }
  }

  lemma PlatformNeutral(m: Money, p: map<Symbol, int>)
    ensures Neutral(m, m.(platform := p))
  {
    hide Surplus, Total;
    forall t ensures Surplus(m.(platform := p), t) == Surplus(m, t)
              && Total(m.(platform := p), t) == Total(m, t)
    {
      SameBooks(m, m.(platform := p), t);
    }
  }

  lemma {:induction false} DrainNeutral(m: Money, e: Symbol, to: Address, tokens: seq<Address>)
    requires Drain(m, e, to, tokens).Ok?
    ensures Neutral(m, Drain(m, e, to, tokens).value.money)
  {
    hide Neutral, Money.Payout, Money.CanSend, Money.Revenue;
    if tokens == [] {
      Same(m);
    } else {
      var d := Drain(m, e, to, tokens[..|tokens| - 1]).value;
      DrainNeutral(m, e, to, tokens[..|tokens| - 1]);
      PayoutNeutral(d.money, e, tokens[|tokens| - 1], to, d.money.Revenue(e, tokens[|tokens| - 1]), 0);
      var n := d.money.Payout(e, tokens[|tokens| - 1], to, d.money.Revenue(e, tokens[|tokens| - 1]), 0);
      NeutralThen(m, d.money, n);
    }
  }

  lemma Same(m: Money)
    ensures Neutral(m, m)
  {
  }

  lemma MovesThen(s: State, u: State, v: State)
    requires Moves(s, u) && Moves(u, v)
    ensures Moves(s, v)
  {
    hide Inv, Surplus, Total;
  }

  /** Events, settings and listings for sale do not matter. */
  lemma SetupMoves(s: State, u: State)
    requires Inv(s)
    requires u.money == s.money && u.records == s.records && u.disputes == s.disputes && u.split == s.split
    requires u.owners == s.owners
    ensures Moves(s, u)
  {
    hide RecordsOk, BooksOk, DisputesOk, SplitsOk, OwnersOk, Surplus, Total;
  }

  lemma ValidateMoves(s: State, e: Symbol)
    requires Inv(s) && Validate(s, e).Ok?
    ensures Moves(s, Validate(s, e).value) && SameSetup(s, Validate(s, e).value)
  {
    hide Inv, Surplus, Total, Timeouts, BalancesCover;
    TimeoutsMove(s, e);
    TimeoutsFrame(s, e);
  }

  lemma PaidMoves(s: State, e: Symbol, u: Address, to: Address, a: int, revenue: int, fee: int)
    requires Inv(s)
    ensures Moves(s, s.(money := s.money.Payout(e, u, to, a, revenue).Collect(e, fee)))
  {
    hide Neutral, Money.Payout, Money.Collect, Surplus, Total, RecordsOk, BooksOk, DisputesOk, SplitsOk, OwnersOk;
    var m := s.money.Payout(e, u, to, a, revenue);
    PayoutNeutral(s.money, e, u, to, a, revenue);
    CollectNeutral(m, e, fee);
    NeutralThen(s.money, m, m.Collect(e, fee));
    NeutralMoves(s, m.Collect(e, fee), s.split);
  }

  lemma WithdrawMoves(s: State, o: Address, e: Symbol)
    requires Inv(s) && Withdraw(s, o, e).Ok?
    ensures Moves(s, Withdraw(s, o, e).value)
  {
    hide Inv, Surplus, Total, Validate, Gross, RevenueLeft, PlatformFee, Money.Payout, Money.Collect, Money.CanSend, PayoutRatio;
    var ratio := PayoutRatio(s, e).value;
    ValidateMoves(s, e);
    WithdrawNowMoves(Validate(s, e).value, e, ratio);
    MovesThen(s, Validate(s, e).value, Withdraw(s, o, e).value);
  }

  lemma WithdrawNowMoves(s: State, e: Symbol, ratio: Bps)
    requires Inv(s) && WithdrawNow(s, e, ratio).Ok?
    ensures Moves(s, WithdrawNow(s, e, ratio).value)
  {
    hide Inv, Surplus, Total, Gross, RevenueLeft, PlatformFee, Money.Payout, Money.Collect, Money.CanSend;
    var t := s.events.config[e].payoutToken;
    var gross := Gross(s, e, t, ratio);
    var fee := PlatformFee(gross, s.globals.feeBps);
    var u := s.(money := s.money.Payout(e, t, s.events.config[e].organizer, gross - fee,
                                        RevenueLeft(s, e, t, ratio, gross)).Collect(e, fee));
    PaidMoves(s, e, t, s.events.config[e].organizer, gross - fee, RevenueLeft(s, e, t, ratio, gross), fee);
    SetupMoves(u, WithdrawNow(s, e, ratio).value);
  }

  lemma WithdrawRevenueMoves(s: State, e: Symbol, to: Address)
    requires Inv(s) && WithdrawRevenue(s, e, to).Ok?
    ensures Moves(s, WithdrawRevenue(s, e, to).value)
  {
    hide Inv, Surplus, Total, Validate, PlatformFee, Money.Payout, Money.Collect, Money.CanSend, Money.Revenue;
    ValidateMoves(s, e);
    var u := Validate(s, e).value;
    var (t, revenue) := (u.globals.acceptedToken, u.money.Revenue(e, u.globals.acceptedToken));
    var fee := PlatformFee(revenue, u.globals.feeBps);
    PaidMoves(u, e, t, to, revenue - fee, 0, fee);
    SetupMoves(u.(money := u.money.Payout(e, t, to, revenue - fee, 0).Collect(e, fee)), WithdrawRevenue(s, e, to).value);
  }

  lemma ReleaseMoves(s: State, e: Symbol)
    requires Inv(s) && ReleaseIfExpired(s, e).Ok?
    ensures Moves(s, ReleaseIfExpired(s, e).value)
  {
    hide Inv, Surplus, Total, Validate, Drain;
    ValidateMoves(s, e);
    var u := Validate(s, e).value;
    DrainMoves(u, e, s.events.meta[e].organizer);
    SetupMoves(u.(money := Drain(u.money, e, s.events.meta[e].organizer, u.TokensOf(e)).value.money),
               ReleaseIfExpired(s, e).value);
  }

  lemma DrainMoves(s: State, e: Symbol, to: Address)
    requires Inv(s) && Drain(s.money, e, to, s.TokensOf(e)).Ok?
    ensures Moves(s, s.(money := Drain(s.money, e, to, s.TokensOf(e)).value.money))
  {
    hide Neutral, Drain, Surplus, Total, RecordsOk, BooksOk, DisputesOk, SplitsOk, OwnersOk;
    DrainNeutral(s.money, e, to, s.TokensOf(e));
    NeutralMoves(s, Drain(s.money, e, to, s.TokensOf(e)).value.money, s.split);
  }

  lemma WithdrawTokenMoves(s: State, o: Address, e: Symbol, t: Address)
    requires Inv(s) && WithdrawToken(s, o, e, t).Ok?
    ensures Moves(s, WithdrawToken(s, o, e, t).value)
  {
    hide Inv, Surplus, Total, Validate, Money.Payout, Money.CanSend, Money.Revenue;
    ValidateMoves(s, e);
    var u := Validate(s, e).value;
    PaidMoves(u, e, t, o, u.money.Revenue(e, t), 0, 0);
  }

  lemma WithdrawAllMoves(s: State, o: Address, e: Symbol)
    requires Inv(s) && WithdrawAllTokens(s, o, e).Ok?
    ensures Moves(s, WithdrawAllTokens(s, o, e).value)
  {
    hide Inv, Surplus, Total, Validate, Drain;
    ValidateMoves(s, e);
    DrainMoves(Validate(s, e).value, e, o);
  }

  lemma PlatformMoves(s: State, e: Symbol)
    requires Inv(s) && WithdrawPlatformRevenue(s, e).Ok?
    ensures Moves(s, WithdrawPlatformRevenue(s, e).value)
  {
    hide Neutral, Money.Payout, Money.CanSend, Money.Revenue, Surplus, Total, RecordsOk, BooksOk, DisputesOk, SplitsOk, OwnersOk;
    var t := s.globals.acceptedToken;
    var m := s.money.Payout(e, t, s.globals.wallet, At(s.money.platform, e), s.money.Revenue(e, t));
    PayoutNeutral(s.money, e, t, s.globals.wallet, At(s.money.platform, e), s.money.Revenue(e, t));
    PlatformNeutral(m, m.platform[e := 0]);
    NeutralThen(s.money, m, m.(platform := m.platform[e := 0]));
    NeutralMoves(s, m.(platform := m.platform[e := 0]), s.split);
  }

  // ---- Splits ----

  lemma SplitsSynced(x: SplitState, e: Symbol, l: seq<Split>)
    requires SplitsOk(x) && e !in x.splits && SplitOk(l)
    ensures SplitsOk(x.(splits := x.splits[e := l]))
  {
    hide WellFormed;
    var y := x.(splits := x.splits[e := l]);
    forall f | f in y.settled ensures SettledOk(y, f) { assert SettledOk(x, f); }
  }

  lemma SplitsSettled(x: SplitState, e: Symbol, z: Settlement)
    requires SplitsOk(x) && e in x.splits && e !in x.settled && z.net > 0
    ensures SplitsOk(x.(settled := x.settled[e := z]))
  {
    hide WellFormed;
    var y := x.(settled := x.settled[e := z]);
    forall f | f in y.settled ensures SettledOk(y, f) { if f != e { assert SettledOk(x, f); } }
  }

  lemma SplitsPaid(x: SplitState, e: Symbol, paid: map<Address, int>, who: Address, share: int)
    requires SplitsOk(x) && e in x.settled && paid == (if e in x.paid then x.paid[e] else map[]) && share > 0
    requires e in x.splits && SplitOk(x.splits[e])
    requires share == RecipientShare(x.splits[e], who, x.splits[e][0].recipient, x.settled[e].net)
    ensures SplitsOk(x.(paid := x.paid[e := paid[who := share]]))
  {
    hide WellFormed, RecipientShare;
    var y := x.(paid := x.paid[e := paid[who := share]]);
    forall f | f in y.settled ensures SettledOk(y, f) { assert SettledOk(x, f); }
  }

  lemma SettleMoves(s: State, e: Symbol)
    requires Inv(s) && e in s.split.splits && EnsureSettled(s, e).Ok?
    ensures Moves(s, EnsureSettled(s, e).value)
    ensures EnsureSettled(s, e).value.split.splits == s.split.splits
    ensures EnsureSettled(s, e).value.split.paid == s.split.paid
    ensures EnsureSettled(s, e).value.split.flagged == s.split.flagged
  {
    hide Inv, Surplus, Total, Validate, SettleNow, PayoutRatio;
    if e !in s.split.settled {
      ValidateMoves(s, e);
      SettleNowMoves(Validate(s, e).value, e, PayoutRatio(s, e).value);
    }
  }

  lemma SettleNowMoves(s: State, e: Symbol, ratio: Bps)
    requires Inv(s) && e in s.split.splits && e !in s.split.settled && SettleNow(s, e, ratio).Ok?
    ensures Moves(s, SettleNow(s, e, ratio).value)
    ensures var x := SettleNow(s, e, ratio).value.split;
      x == s.split.(settled := x.settled)
  {
    hide RecordsOk, BooksOk, DisputesOk, SplitsOk, OwnersOk, Surplus, Total, Neutral, Gross, RevenueLeft, PlatformFee,
         Money.WithRevenue, Money.Revenue, Money.Collect;
    var t := s.events.config[e].payoutToken;
    var gross := Gross(s, e, t, ratio);
    var fee := PlatformFee(gross, s.globals.feeBps);
    var m := s.money.WithRevenue(e, t, RevenueLeft(s, e, t, ratio, gross));
    RevenueNeutral(s.money, e, t, RevenueLeft(s, e, t, ratio, gross));
    CollectNeutral(m, e, fee);
    NeutralThen(s.money, m, m.Collect(e, fee));
    SplitsSettled(s.split, e, Settlement(t, gross - fee));
    NeutralMoves(s, m.Collect(e, fee), s.split.(settled := s.split.settled[e := Settlement(t, gross - fee)]));
  }

  lemma PayShareMoves(s: State, e: Symbol, who: Address, to: Address)
    requires Inv(s) && e in s.split.settled && PayShare(s, e, who, to).Ok?
    ensures Moves(s, PayShare(s, e, who, to).value)
  {
    hide RecordsOk, BooksOk, DisputesOk, OwnersOk, Surplus, Total, Neutral, RecipientShare, Money.Payout, Money.Revenue, WellFormed;
    assert SettledOk(s.split, e);
    var (t, share) := (s.split.settled[e].token, ShareOf(s, e, who, s.split.settled[e].net));
    PayoutNeutral(s.money, e, t, to, share, s.money.Revenue(e, t));
    SplitsPaid(s.split, e, s.PaidOf(e), who, share);
    NeutralMoves(s, s.money.Payout(e, t, to, share, s.money.Revenue(e, t)),
                 s.split.(paid := s.split.paid[e := s.PaidOf(e)[who := share]]));
  }

  lemma FlagsMove(s: State, flagged: set<(Symbol, Address)>)
    requires Inv(s)
    ensures Moves(s, s.(split := s.split.(flagged := flagged)))
  {
    hide RecordsOk, BooksOk, DisputesOk, OwnersOk, Surplus, Total, SettledOk, SplitOk;
    var y := s.split.(flagged := flagged);
    forall f | f in y.settled ensures SettledOk(y, f) { assert SettledOk(s.split, f); SettledSame(s.split, y, f); }
  }

  lemma SettledSame(x: SplitState, y: SplitState, e: Symbol)
    requires e in x.settled && SettledOk(x, e) && y == x.(flagged := y.flagged)
    ensures SettledOk(y, e)
  {
    hide WellFormed;
  }

  lemma SyncSplitsMoves(s: State, c: Address, e: Symbol, l: seq<Split>)
    requires Inv(s) && SyncSplits(s, c, e, l).Ok?
    ensures Moves(s, SyncSplits(s, c, e, l).value)
  {
    hide RecordsOk, BooksOk, DisputesOk, OwnersOk, Surplus, Total, SplitsOk;
    SplitsSynced(s.split, e, l);
  }

  lemma WithdrawSplitMoves(s: State, who: Address, e: Symbol)
    requires Inv(s) && WithdrawSplit(s, who, e).Ok?
    ensures Moves(s, WithdrawSplit(s, who, e).value)
  {
    hide Inv, Surplus, Total, EnsureSettled, PayShare, BpsOf;
    SettleMoves(s, e);
    PayShareMoves(EnsureSettled(s, e).value, e, who, who);
  }

  lemma ResolveMoves(s: State, e: Symbol, who: Address, release: bool)
    requires Inv(s) && ResolveFlagged(s, e, who, release).Ok?
    ensures Moves(s, ResolveFlagged(s, e, who, release).value)
  {
    hide Inv, Surplus, Total, EnsureSettled, PayShare, BpsOf;
    if release {
      FlagsMove(s, s.split.flagged - {(e, who)});
    } else {
      SettleMoves(s, e);
      var u := EnsureSettled(s, e).value;
      PayShareMoves(u, e, who, s.SplitsOf(e)[0].recipient);
      var v := PayShare(u, e, who, s.SplitsOf(e)[0].recipient).value;
      FlagsMove(v, v.split.flagged - {(e, who)});
    }
  }

  // ---- New payments and resale ----

  lemma OwnersIssued(tickets: map<nat, Ticket>, ix: OwnerIndex, tid: nat, x: Ticket)
    requires OwnersOk(tickets, ix) && tid !in tickets
    ensures OwnersOk(tickets[tid := x], if x.owner.Some? then ix.Add(x.owner.value, tid) else ix)
  {
    hide OwnerIndex.Consistent;
    if x.owner.Some? { AddKeeps(ix, x.owner.value, tid); }
  }

  lemma OwnersMoved(tickets: map<nat, Ticket>, ix: OwnerIndex, tid: nat, seller: Address, buyer: Address)
    requires OwnersOk(tickets, ix) && tid in tickets && tickets[tid].owner == Some(seller)
    ensures OwnersOk(tickets[tid := tickets[tid].(owner := Some(buyer))], ix.RemoveCounted(seller, tid).Add(buyer, tid))
  {
    hide OwnerIndex.Consistent, OwnerIndex.Remove, OwnerIndex.RemoveCounted;
    RemovalsAgree(ix, seller, tid);
    RemoveKeeps(ix, seller, tid);
    AddKeeps(ix.Remove(seller, tid), buyer, tid);
  }

  lemma RecordsIssued(r: Records, p: Payment)
    requires RecordsOk(r) && p.amount > 0 && p.refunded == 0 && p.status == Held
    requires p.payer.Some? <==> p.privacy == Standard
    ensures var n := r.lastPayment + 1;
      RecordsOk(Records(r.payments[n := p], r.tickets[n := Ticket(p.event, p.payer, n, p.privacy)], n, n))
  {
    var n := r.lastPayment + 1;
    var u := Records(r.payments[n := p], r.tickets[n := Ticket(p.event, p.payer, n, p.privacy)], n, n);
    forall i | i in u.payments ensures PaymentOk(u, i) { if i != n { assert PaymentOk(r, i); } }
  }

  lemma BooksIssued(pays: map<nat, Payment>, m: Money, id: nat, p: Payment, from: Address)
    requires BooksOk(pays, m) && id !in pays && p.refunded == 0
    ensures BooksOk(pays[id := p], m.Deposit(p.event, p.token, from, p.amount))
  {
    hide Tally;
    var (n, after) := (m.Deposit(p.event, p.token, from, p.amount), pays[id := p]);
    forall e, t ensures BookOk(after, n, e, t) {
      assert BookOk(pays, m, e, t);
      TallyChange(pays, id, p, e, t, AMOUNT);
      TallyChange(pays, id, p, e, t, REFUNDED);
    }
  }

  lemma DisputesIssued(r: Records, d: Disputes, u: Records, id: nat, p: Payment)
    requires DisputesOk(r, d) && id !in r.payments && p.status != Disputed && u.payments == r.payments[id := p]
    ensures DisputesOk(u, d)
  {
    hide ListOk;
  }

  lemma IssueMoves(s: State, p: PaymentParams)
    requires Inv(s) && p.amount > 0 && BuildPayment(p).Ok?
    ensures Moves(s, Issue(s, p, BuildPayment(p).value))
  {
    hide RecordsOk, BooksOk, DisputesOk, SplitsOk, OwnersOk, Surplus, Total, Money.Deposit, AddToken, Remember, OwnerIndex.Add;
    var (pay, n) := (BuildPayment(p).value, s.records.lastPayment + 1);
    NextNumber(s.records);
    RecordsIssued(s.records, pay);
    BooksIssued(s.records.payments, s.money, n, pay, p.payer);
    DisputesIssued(s.records, s.disputes, Issue(s, p, pay).records, n, pay);
    OwnersIssued(s.records.tickets, s.owners, n, Ticket(pay.event, pay.payer, n, pay.privacy));
    forall t ensures Surplus(Issue(s, p, pay).money, t) == Surplus(s.money, t)
              && Total(Issue(s, p, pay).money, t) == Total(s.money, t)
    {
      DepositSurplus(s.money, p.event, p.token, p.payer, p.amount, t);
    }
  }

  lemma NextNumber(r: Records)
    requires RecordsOk(r)
    ensures r.lastTicket == r.lastPayment && r.lastPayment + 1 !in r.payments && r.lastPayment + 1 !in r.tickets
  {
  }

  lemma PayMoves(s: State, p: PaymentParams)
    requires Inv(s) && Pay(s, p).Ok?
    ensures Moves(s, Pay(s, p).value)
  {
    hide Inv, Surplus, Total, BuildPayment, Issue, CheckSupply, CheckPrivacy, NonceUsed;
    IssueMoves(s, p);
    SetupMoves(Issue(s, p, BuildPayment(p).value), Pay(s, p).value);
  }

  /** What the contract keeps of a resale: the price less what the seller is paid. */
  function Kept(s: State, op: Op, t: Address): int {
    if !op.DoBuy? || Step(s, op).Err? || op.ticket !in s.listings || op.ticket !in s.records.tickets then 0
    else
      var (e, price) := (s.records.tickets[op.ticket].event, s.listings[op.ticket].price);
      if price <= 0 || e !in s.events.config || s.events.config[e].payoutToken != t then 0
      else price - Proceeds(s, e, price)
  }

  lemma TradeMoney(s: State, e: Symbol, seller: Address, buyer: Address, price: int, t: Address)
    requires e in s.events.config && Trade(s, e, seller, buyer, price).Ok?
    ensures Total(Trade(s, e, seller, buyer, price).value, t) == Total(s.money, t)
    ensures Surplus(Trade(s, e, seller, buyer, price).value, t) == Surplus(s.money, t)
      + if price <= 0 || s.events.config[e].payoutToken != t then 0 else price - Proceeds(s, e, price)
  {
    hide Surplus, Total, Proceeds, PlatformFee, Portion, Money.Send, Money.Receive, Money.CanSend, Money.CanReceive, Money.Collect,
         Money.WithRevenue, Money.Revenue;
    if price > 0 {
      var (u, proceeds, royalty) :=
        (s.events.config[e].payoutToken, Proceeds(s, e, price), Portion(price, s.events.config[e].royaltyBps));
      var got := s.money.Receive(u, buyer, price);
      ReceiveSurplus(s.money, u, buyer, price, t);
      SendSurplus(got, u, seller, proceeds, t);
      var sent := if proceeds > 0 then got.Send(u, seller, proceeds) else got;
      ProceedsNonNegative(s, e, price);
      CollectSurplus(sent, e, PlatformFee(price, s.globals.feeBps), t);
      var sold := sent.Collect(e, PlatformFee(price, s.globals.feeBps));
      RevenueSurplus(sold, e, u, sold.Revenue(e, u) + royalty, t);
    }
  }

  lemma ProceedsNonNegative(s: State, e: Symbol, price: int)
    requires e in s.events.config
    ensures Proceeds(s, e, price) >= 0
  {
    hide Portion;
  }

  lemma TradeBooks(s: State, e: Symbol, seller: Address, buyer: Address, price: int, f: Symbol, t: Address)
    requires e in s.events.config && Trade(s, e, seller, buyer, price).Ok?
    ensures var m := Trade(s, e, seller, buyer, price).value;
      m.BookOf(f, t).volume == s.money.BookOf(f, t).volume && m.BookOf(f, t).refunds == s.money.BookOf(f, t).refunds
  {
    hide Proceeds, Portion;
  }

  lemma BuyKeeps(s: State, buyer: Address, tid: nat, external: bool, t: Address)
    requires Inv(s) && BuyResale(s, buyer, tid, external).Ok?
    ensures Inv(BuyResale(s, buyer, tid, external).value)
    ensures Surplus(BuyResale(s, buyer, tid, external).value.money, t)
      == Surplus(s.money, t) + Kept(s, DoBuy(buyer, tid, external), t)
    ensures Total(BuyResale(s, buyer, tid, external).value.money, t) == Total(s.money, t)
  {
    hide RecordsOk, BooksOk, DisputesOk, SplitsOk, OwnersOk, Surplus, Total, Trade, Money.BookOf, OwnerIndex.Add,
         OwnerIndex.RemoveCounted, Proceeds;
    var (e, listing) := (s.records.tickets[tid].event, s.listings[tid]);
    var m := Trade(s, e, listing.seller, buyer, listing.price).value;
    TradeMoney(s, e, listing.seller, buyer, listing.price, t);
    forall f, u ensures m.BookOf(f, u).volume == s.money.BookOf(f, u).volume
                && m.BookOf(f, u).refunds == s.money.BookOf(f, u).refunds
    {
      TradeBooks(s, e, listing.seller, buyer, listing.price, f, u);
    }
    BooksSame(s.records.payments, s.money, m);
    OwnersMoved(s.records.tickets, s.owners, tid, listing.seller, buyer);
    RecordsMoved(s.records, s.disputes, tid, buyer);
  }

  lemma RecordsMoved(r: Records, d: Disputes, tid: nat, buyer: Address)
    requires RecordsOk(r) && DisputesOk(r, d) && tid in r.tickets && r.tickets[tid].owner.Some?
    ensures var u := r.(tickets := r.tickets[tid := r.tickets[tid].(owner := Some(buyer))]);
      RecordsOk(u) && DisputesOk(u, d)
  {
    hide ListOk;
    var u := r.(tickets := r.tickets[tid := r.tickets[tid].(owner := Some(buyer))]);
    forall i | i in u.payments ensures PaymentOk(u, i) { assert PaymentOk(r, i); }
  }

  // ---- Every operation ----

  lemma SetupStepMoves(s: State, x: Setup)
    requires Inv(s) && SetupStep(s, x).Ok?
    ensures Moves(s, SetupStep(s, x).value)
  {
    hide Inv, Moves, CancelRatio;
    SetupMoves(s, SetupStep(s, x).value);
  }

  lemma RefundsMove(s: State, a: Address, id: nat, x: Option<int>, p: Address, tid: nat)
    requires Inv(s)
    ensures AdminRefund(s, a, id, x).Ok? ==> Moves(s, AdminRefund(s, a, id, x).value)
    ensures ClaimRefund(s, p, id).Ok? ==> Moves(s, ClaimRefund(s, p, id).value)
    ensures PostponementRefund(s, p, tid).Ok? ==> Moves(s, PostponementRefund(s, p, tid).value)
  {
    hide BooksOk, DisputesOk, SplitsOk, OwnersOk, Moves, RefundPayment, Portion, PaidOut, Money.CanSend, RecordsOk;
    if id in s.records.payments {
      var y := s.records.payments[id];
      RefundedInRange(s.records, id);
      PortionWithin(y.amount, RefundBps(s, y.event));
      if AdminRefund(s, a, id, x).Ok? {
        var z := if x.Some? then x.value else MaxRefund(s, y);
        RefundPaymentMoves(s, id, z, if y.refunded + z == y.amount then Refunded else Held);
      }
      if ClaimRefund(s, p, id).Ok? {
        RefundPaymentMoves(s, id, Portion(y.amount, RefundBps(s, y.event)) - y.refunded, Refunded);
      }
    }
    if PostponementRefund(s, p, tid).Ok? {
      var i := s.records.tickets[tid].payment;
      RefundedInRange(s.records, i);
      RefundPaymentMoves(s, i, s.records.payments[i].amount - s.records.payments[i].refunded, Refunded);
    }
  }

  lemma PortionWithin(a: nat, bps: Bps)
    ensures 0 <= Portion(a, bps) <= a
  {
    FeeWithinGross(a, bps);
  }

  lemma DisputeStepsMove(s: State, tid: nat, reason: nat, authorized: bool)
    requires Inv(s)
    ensures RaiseDispute(s, tid, reason, authorized).Ok? ==> Moves(s, RaiseDispute(s, tid, reason, authorized).value)
    ensures ApproveRefund(s, tid).Ok? ==> Moves(s, ApproveRefund(s, tid).value)
    ensures RejectDispute(s, tid).Ok? ==> Moves(s, RejectDispute(s, tid).value)
  {
    hide Inv, Moves, OpenDispute, Close, Restore, RefundDisputed, Expired, Money.CanSend;
    if RaiseDispute(s, tid, reason, authorized).Ok? { OpenDisputeMoves(s, tid, reason); }
    if tid in s.disputes.records {
      ApproveMoves(s, tid);
      ReopenMoves(s, tid);
    }
  }

  lemma StepKeeps(s: State, op: Op, t: Address)
    requires Inv(s)
    ensures Inv(After(s, op))
    ensures Surplus(After(s, op).money, t) == Surplus(s.money, t) + Kept(s, op, t)
    ensures Total(After(s, op).money, t) == Total(s.money, t)
  {
    hide Inv, Surplus, Total, SetupStep, Pay, AdminRefund, ClaimRefund, PostponementRefund, RaiseDispute, ApproveRefund,
         RejectDispute, Timeouts, Withdraw, WithdrawRevenue, ReleaseIfExpired, WithdrawToken, WithdrawAllTokens,
         WithdrawPlatformRevenue, SyncSplits, WithdrawSplit, FlagCohost, ResolveFlagged, BuyResale, Proceeds;
    if Step(s, op).Ok? {
      match op
      case DoSetup(x) => SetupStepMoves(s, x);
      case DoPay(p) => PayMoves(s, p);
      case DoRefund(a, id, x) => RefundsMove(s, a, id, x, 0, 0);
      case DoClaimRefund(p, id) => RefundsMove(s, 0, id, None, p, 0);
      case DoPostponementRefund(c, tid) => RefundsMove(s, 0, 0, None, c, tid);
      case DoRaise(tid, r, b) => DisputeStepsMove(s, tid, r, b);
      case DoApprove(tid) => DisputeStepsMove(s, tid, 0, false);
      case DoReject(tid) => DisputeStepsMove(s, tid, 0, false);
      case DoTimeouts(e) => TimeoutsMove(s, e);
      case DoWithdraw(o, e) => WithdrawMoves(s, o, e);
      case DoWithdrawRevenue(e, to) => WithdrawRevenueMoves(s, e, to);
      case DoRelease(e) => ReleaseMoves(s, e);
      case DoWithdrawToken(o, e, u) => WithdrawTokenMoves(s, o, e, u);
      case DoWithdrawAll(o, e) => WithdrawAllMoves(s, o, e);
      case DoWithdrawPlatform(e) => PlatformMoves(s, e);
      case DoSyncSplits(c, e, x) => SyncSplitsMoves(s, c, e, x);
      case DoWithdrawSplit(r, e) => WithdrawSplitMoves(s, r, e);
      case DoFlag(c, e, r) => FlagMoves(s, c, e, r);
      case DoResolve(e, r, b) => ResolveMoves(s, e, r, b);
      case DoBuy(b, tid, x) => BuyKeeps(s, b, tid, x, t);
      case DoAdvance(l, d) => SetupMoves(s, After(s, op));
    }
  }

  lemma FlagMoves(s: State, c: Address, e: Symbol, r: Address)
    requires Inv(s) && FlagCohost(s, c, e, r).Ok?
    ensures Moves(s, FlagCohost(s, c, e, r).value)
  {
    hide Inv, Moves, BpsOf;
    FlagsMove(s, s.split.flagged + {(e, r)});
  }

  /** A freshly initialized contract. */
  ghost predicate Deployed(s: State) {
    exists a, t, f, w, c, x :: s == Initial(a, t, f, w, c, x)
  }

  lemma DeployedInv(s: State, t: Address)
    requires Deployed(s)
    ensures Inv(s) && Surplus(s.money, t) == 0
  {
    hide Tally;
    forall e, u ensures BookOk(s.records.payments, s.money, e, u) {
      assert Part(map[], e, u, AMOUNT) == map[] && Part(map[], e, u, REFUNDED) == map[];
      EmptyTally(e, u, AMOUNT);
      EmptyTally(e, u, REFUNDED);
    }
    assert Owed(map[], t) == map[];
  }

  lemma EmptyTally(e: Symbol, t: Address, f: Payment -> int)
    ensures Tally(map[], e, t, f) == 0
  {
    assert Part(map[], e, t, f) == map[];
  }

  // ---- Every run ----

  /** The resale amounts the contract kept during a run. */
  function Retained(s: State, ops: seq<Op>, t: Address): int {
    if ops == [] then 0
    else Retained(s, ops[..|ops| - 1], t) + Kept(Run(s, ops[..|ops| - 1]), ops[|ops| - 1], t)
  }

  lemma {:induction false} RunInv(s: State, ops: seq<Op>)
    requires Deployed(s)
    ensures Inv(Run(s, ops))
  {
    hide Inv, Deployed, After, Surplus, Total;
    if ops == [] {
      DeployedInv(s, 0);
    } else {
      RunInv(s, ops[..|ops| - 1]);
      StepKeeps(Run(s, ops[..|ops| - 1]), ops[|ops| - 1], 0);
    }
  }

  lemma KeptNonNegative(s: State, op: Op, t: Address)
    ensures Kept(s, op, t) >= 0
  {
    hide Step;
    if op.DoBuy? && op.ticket in s.listings && op.ticket in s.records.tickets
       && s.records.tickets[op.ticket].event in s.events.config && s.listings[op.ticket].price > 0
    {
      var (e, price) := (s.records.tickets[op.ticket].event, s.listings[op.ticket].price);
      FeeWithinGross(price, s.globals.feeBps);
      RoyaltyNonNegative(price, s.events.config[e].royaltyBps);
    }
  }

  lemma RoyaltyNonNegative(price: nat, bps: nat)
    ensures Portion(price, bps) >= 0
  {
    Distribute(price, 0, bps);
  }

  /**
   Conservation: in every run each token's contract balance is exactly what the books of
   all events expect plus the resale amounts retained, and these are never negative.
   */
  lemma {:induction false} Conservation(s: State, ops: seq<Op>, t: Address)
    requires Deployed(s)
    ensures At(Run(s, ops).money.balance, t) == Sum(Owed(Run(s, ops).money.books, t)) + Retained(s, ops, t)
    ensures Retained(s, ops, t) >= 0
  {
    hide Inv, Deployed, After, Owed, Total, Kept;
    if ops == [] {
      DeployedInv(s, t);
    } else {
      var before := Run(s, ops[..|ops| - 1]);
      Conservation(s, ops[..|ops| - 1], t);
      RunInv(s, ops[..|ops| - 1]);
      StepKeeps(before, ops[|ops| - 1], t);
      KeptNonNegative(before, ops[|ops| - 1], t);
    }
  }

  /** In every run the contract's balance and all wallets of a token add up to what they did before it. */
  lemma {:induction false} NothingLost(s: State, ops: seq<Op>, t: Address)
    requires Deployed(s)
    ensures Total(Run(s, ops).money, t) == Total(s.money, t)
  {
    hide Inv, Deployed, After, Total, Surplus, Kept;
    if ops != [] {
      NothingLost(s, ops[..|ops| - 1], t);
      RunInv(s, ops[..|ops| - 1]);
      StepKeeps(Run(s, ops[..|ops| - 1]), ops[|ops| - 1], t);
    }
  }

  /**
   In every run the dispute list of an event has no duplicates and names exactly the tickets
   with an open dispute for it; exactly the payments of open disputes are disputed.
   */
  lemma DisputeLists(s: State, ops: seq<Op>, e: Symbol, tid: nat)
    requires Deployed(s)
    ensures var u := Run(s, ops);
      && NoDuplicates(u.ListOf(e))
      && (tid in u.ListOf(e) <==> tid in u.disputes.records && u.disputes.records[tid].event == e)
      && (tid in u.records.payments && u.records.payments[tid].status == Disputed
          <==> exists d :: d in u.disputes.records && u.disputes.records[d].payment == tid)
  {
    hide Run, BooksOk, SplitsOk, OwnersOk, RecordsOk, NoDuplicates;
    RunInv(s, ops);
    var u := Run(s, ops);
    assert ListOk(u.disputes, e);
    if tid in u.disputes.records { assert u.disputes.records[tid].payment == tid; }
  }

  /** In every run an owner lists a ticket exactly once if the ticket record names it, and not at all otherwise. */
  lemma OwnerListings(s: State, ops: seq<Op>, o: Address, tid: nat)
    requires Deployed(s)
    ensures var u := Run(s, ops);
      && multiset(u.owners.Listing(o))[tid] ==
           (if tid in u.records.tickets && u.records.tickets[tid].owner == Some(o) then 1 else 0)
      && ((o, tid) in u.owners.member ==>
            && u.owners.member[(o, tid)] < |u.owners.Listing(o)|
            && u.owners.Listing(o)[u.owners.member[(o, tid)]] == tid)
  {
    hide Run, OwnerIndex.Listing, OwnerIndex.Consistent, RecordsOk, BooksOk, DisputesOk, SplitsOk;
    RunInv(s, ops);
    ListedOnce(Run(s, ops).owners, o, tid);
  }

  /** Only standard payments record an address, and the refunds of a payment stay within its amount. */
  lemma PaymentRecords(s: State, ops: seq<Op>, id: nat)
    requires Deployed(s) && id in Run(s, ops).records.payments
    ensures var (p, r) := (Run(s, ops).records.payments[id], Run(s, ops).records);
      && 0 <= p.refunded <= p.amount && (p.payer.Some? <==> p.privacy == Standard)
      && id in r.tickets && r.tickets[id].payment == id && (r.tickets[id].owner.Some? <==> p.privacy == Standard)
  {
    hide Run, BooksOk, DisputesOk, SplitsOk, OwnersOk;
    RunInv(s, ops);
    assert PaymentOk(Run(s, ops).records, id);
  }
}

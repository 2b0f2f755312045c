/** When the books of one event can fall below zero, so that its refunds spend other events' tokens. */
module EventBooks {
  import opened Ledger
  import opened MapSums
  import opened OwnerIndexes
  import opened RevenueSplits
  import opened PaymentsSpec
  import opened EscrowLedger
  import opened EscrowInvariants
  import opened EscrowDisputes
  import opened EscrowSplits
  import opened EscrowCancellation
  import opened EscrowAccounts

  /** What can still be refunded of a payment: the rest of a standard payment that is held or disputed. */
  const OPEN: Payment -> int := (p: Payment) =>
    if p.privacy == Standard && (p.status == Held || p.status == Disputed) then p.amount - p.refunded else 0
  const CLOSED: Payment -> int := (p: Payment) =>
    if p.privacy == Standard && (p.status == Held || p.status == Disputed) then 0 else p.amount - p.refunded

  ghost function StillOpen(s: State, e: Symbol, t: Address): int { Tally(s.records.payments, e, t, OPEN) }

  ghost function NoLongerOpen(s: State, e: Symbol, t: Address): int { Tally(s.records.payments, e, t, CLOSED) }

  /** Refunds, disputes, settings and time: no payment comes in, and nothing is paid to organizers or platform. */
  predicate RefundOnly(op: Op) { PayoutFree(op) && !op.DoPay? && !op.DoWithdrawPlatform? }

  predicate OnlyRefunds(ops: seq<Op>) { forall i :: 0 <= i < |ops| ==> RefundOnly(ops[i]) }

  // ---- One step ----

  /** An amount `a` leaves the books of the event, out of its open payments and out of the balance. */
  ghost predicate Leaves(s: State, u: State, e: Symbol, t: Address, a: int) {
    && Net(u, e, t) == Net(s, e, t) - a
    && StillOpen(u, e, t) <= StillOpen(s, e, t) - a
    && At(u.money.balance, t) <= At(s.money.balance, t) - a
    && 0 <= a && (a == 0 || a <= At(s.money.balance, t))
  }

  lemma NothingLeaves(s: State, u: State, e: Symbol, t: Address)
    requires u.records.payments == s.records.payments && u.money == s.money
    ensures Leaves(s, u, e, t, 0)
  {
    hide Tally, Expected, At, Money.BookOf;
  }

  /** A payment refunded in part or in full. */
  lemma RefundLeaves(s: State, id: nat, a: int, status: PaymentStatus, e: Symbol, t: Address)
    requires Inv(s) && id in s.records.payments && s.records.payments[id].payer.Some?
    requires s.records.payments[id].status == Held && (status == Held || status == Refunded)
    requires 0 <= a <= s.records.payments[id].amount - s.records.payments[id].refunded
    requires s.money.CanSend(s.records.payments[id].token, a)
    ensures var p := s.records.payments[id];
      Leaves(s, RefundPayment(s, id, p.payer, a, status), e, t, if p.event == e && p.token == t then a else 0)
  {
    hide BooksOk, DisputesOk, SplitsOk, OwnersOk, RecordsOk, Tally, Money.Refund, Money.BookOf, Expected;
    RefundedInRange(s.records, id);
    var p := s.records.payments[id];
    RefundMoney(s.money, p.event, p.token, p.payer, a, true, e, t);
    TallyChange(s.records.payments, id, p.(refunded := p.refunded + a, status := status), e, t, OPEN);
  }

  lemma RefundMoney(m: Money, f: Symbol, u: Address, to: Option<Address>, a: int, x: bool, e: Symbol, t: Address)
    requires to.Some?
    ensures var n := m.Refund(f, u, to, a, x);
      && Expected(n.BookOf(e, t)) == Expected(m.BookOf(e, t)) - (if f == e && u == t then a else 0)
      && At(n.balance, t) == At(m.balance, t) - if u == t then a else 0
  {
    hide Money.Send, At, Expected;
    var b := m.BookOf(f, u);
    SendBooks(m, u, to.value, a, t);
    RefundedBook(m, m.Send(u, to.value, a), f, u, a, if x then b.revenue - a else b.revenue, e, t);
    hide Money.BookOf;
  }

  lemma RefundedBook(m: Money, k: Money, f: Symbol, u: Address, a: int, revenue: int, e: Symbol, t: Address)
    requires k.books == m.books
    ensures var b := m.BookOf(f, u);
      Expected(k.WithBook(f, u, b.(refunds := b.refunds + a, revenue := revenue)).BookOf(e, t))
      == Expected(m.BookOf(e, t)) - if f == e && u == t then a else 0
  {
  }

  lemma SendBooks(m: Money, u: Address, to: Address, a: int, t: Address)
    ensures m.Send(u, to, a).books == m.books
    ensures At(m.Send(u, to, a).balance, t) == At(m.balance, t) - if u == t then a else 0
  {
  }

  lemma RefundsLeave(s: State, op: Op, e: Symbol, t: Address)
    requires Inv(s) && (op.DoRefund? || op.DoClaimRefund? || op.DoPostponementRefund?)
    ensures Leaves(s, After(s, op), e, t, Net(s, e, t) - Net(After(s, op), e, t))
  {
    hide Inv, Leaves, RefundPayment, Portion, PaidOut, Money.CanSend, Net;
    if Step(s, op).Ok? {
      var id := if op.DoPostponementRefund? then s.records.tickets[op.ticket].payment else op.payment;
      var p := s.records.payments[id];
      InvRange(s, id);
      PortionWithin(p.amount, RefundBps(s, p.event));
      var a := if op.DoPostponementRefund? then p.amount - p.refunded
               else if op.DoClaimRefund? then Portion(p.amount, RefundBps(s, p.event)) - p.refunded
               else if op.amount.Some? then op.amount.value else MaxRefund(s, p);
      var status := if op.DoRefund? && p.refunded + a != p.amount then Held else Refunded;
      RefundLeaves(s, id, a, status, e, t);
      LeavesNet(s, RefundPayment(s, id, p.payer, a, status), e, t, if p.event == e && p.token == t then a else 0);
    } else {
      NothingLeaves(s, After(s, op), e, t);
      LeavesNet(s, After(s, op), e, t, 0);
    }
  }

  lemma InvRange(s: State, id: nat)
    requires Inv(s) && id in s.records.payments
    ensures 0 <= s.records.payments[id].refunded <= s.records.payments[id].amount && s.records.payments[id].amount > 0
    ensures s.records.payments[id].payer.Some? <==> s.records.payments[id].privacy == Standard
    ensures id in s.records.tickets && s.records.tickets[id].payment == id
    ensures s.records.payments[id].status == Disputed <==> id in s.disputes.records
    ensures id in s.disputes.records ==> s.disputes.records[id].payment == id
  {
    hide BooksOk, SplitsOk, OwnersOk, RecordsOk, ListOk;
    RefundedInRange(s.records, id);
  }

  lemma LeavesNet(s: State, u: State, e: Symbol, t: Address, a: int)
    requires Leaves(s, u, e, t, a)
    ensures a == Net(s, e, t) - Net(u, e, t)
  {
    hide Net, StillOpen;
  }

  lemma StatusLeaves(s: State, u: State, id: nat, q: Payment, e: Symbol, t: Address)
    requires id in s.records.payments && u.records.payments == s.records.payments[id := q]
    requires q == s.records.payments[id].(status := q.status)
    requires s.records.payments[id].status in {Held, Disputed} && q.status in {Held, Disputed}
    requires u.money.balance == s.money.balance && Net(u, e, t) == Net(s, e, t)
    ensures Leaves(s, u, e, t, 0)
  {
    hide Tally, Net;
    TallyChange(s.records.payments, id, q, e, t, OPEN);
  }

  lemma RaiseLeaves(s: State, tid: nat, reason: nat, authorized: bool, e: Symbol, t: Address)
    requires Inv(s) && RaiseDispute(s, tid, reason, authorized).Ok?
    ensures Leaves(s, RaiseDispute(s, tid, reason, authorized).value, e, t, 0)
  {
    hide Inv, Leaves, Net, Money.WithRevenue, Money.Revenue;
    var (u, ticket) := (RaiseDispute(s, tid, reason, authorized).value, s.records.tickets[tid]);
    var p := s.records.payments[ticket.payment];
    RevenueNet(s, u, ticket.event, p.token, s.money.Revenue(ticket.event, p.token) - p.amount, e, t);
    StatusLeaves(s, u, ticket.payment, u.records.payments[ticket.payment], e, t);
  }

  lemma RejectLeaves(s: State, tid: nat, e: Symbol, t: Address)
    requires Inv(s) && RejectDispute(s, tid).Ok?
    ensures Leaves(s, RejectDispute(s, tid).value, e, t, 0)
  {
    hide Inv, Leaves, Net, Money.WithRevenue, Money.Revenue, Without;
    var (u, d) := (RejectDispute(s, tid).value, s.disputes.records[tid]);
    var p := s.records.payments[d.payment];
    RevenueNet(s, u, d.event, p.token, s.money.Revenue(d.event, p.token) + p.amount, e, t);
    StatusLeaves(s, u, d.payment, u.records.payments[d.payment], e, t);
  }

  lemma RaiseRejectLeave(s: State, op: Op, e: Symbol, t: Address)
    requires Inv(s) && (op.DoRaise? || op.DoReject?)
    ensures Leaves(s, After(s, op), e, t, 0)
  {
    hide Inv, Leaves, RaiseDispute, RejectDispute;
    if Step(s, op).Err? {
      NothingLeaves(s, After(s, op), e, t);
    } else if op.DoRaise? {
      RaiseLeaves(s, op.ticket, op.reason, op.authorized, e, t);
    } else {
      RejectLeaves(s, op.ticket, e, t);
    }
  }

  lemma ApproveLeaves(s: State, tid: nat, e: Symbol, t: Address)
    requires Inv(s) && ApproveRefund(s, tid).Ok?
    ensures var (u, p) := (ApproveRefund(s, tid).value, s.records.payments[s.disputes.records[tid].payment]);
      Leaves(s, u, e, t, if p.event == e && p.token == t then p.amount - p.refunded else 0)
  {
    hide BooksOk, SplitsOk, OwnersOk, RecordsOk, ListOk, Tally, Without, Expired, Expected, Money.Refund, Money.BookOf;
    RefundedInRange(s.records, tid);
    var p := s.records.payments[tid];
    RefundMoney(s.money, p.event, p.token, p.payer, p.amount - p.refunded, false, e, t);
    TallyChange(s.records.payments, tid, p.(refunded := p.refunded + (p.amount - p.refunded), status := Refunded), e, t, OPEN);
  }

  lemma {:induction false} ExpireListLeaves(s: State, f: Symbol, l: seq<nat>, e: Symbol, t: Address)
    ensures var u := ExpireList(s, f, l);
      u.money.balance == s.money.balance && Net(u, e, t) == Net(s, e, t) && StillOpen(u, e, t) == StillOpen(s, e, t)
  {
    if l == [] {
    } else {
      ExpireListLeaves(s, f, l[..|l| - 1], e, t);
      ExpireOneLeaves(ExpireList(s, f, l[..|l| - 1]), f, l[|l| - 1], e, t);
    }
  }

  lemma ExpireOneLeaves(s: State, f: Symbol, tid: nat, e: Symbol, t: Address)
    ensures var u := ExpireOne(s, f, tid);
      u.money.balance == s.money.balance && Net(u, e, t) == Net(s, e, t) && StillOpen(u, e, t) == StillOpen(s, e, t)
  {
    hide Tally, SatAdd, Net, Money.WithRevenue;
    if Expired(s, tid) {
      var id := s.disputes.records[tid].payment;
      if id in s.records.payments && s.records.payments[id].status == Disputed {
        var p := s.records.payments[id];
        TallyChange(s.records.payments, id, p.(status := Held), e, t, OPEN);
        RevenueNet(s, ExpireOne(s, f, tid), f, p.token, s.money.Revenue(f, p.token) + p.amount, e, t);
      } else {
        assert ExpireOne(s, f, tid).money == s.money;
        SameNet(s, ExpireOne(s, f, tid), e, t);
      }
    }
  }

  lemma SameNet(s: State, u: State, e: Symbol, t: Address)
    requires u.money == s.money
    ensures Net(u, e, t) == Net(s, e, t)
  {
  }

  /** The revenue is not what the books expect. */
  lemma RevenueNet(s: State, u: State, f: Symbol, x: Address, r: int, e: Symbol, t: Address)
    requires u.money == s.money.WithRevenue(f, x, r)
    ensures Net(u, e, t) == Net(s, e, t) && u.money.balance == s.money.balance
  {
  }

  lemma TimeoutsLeave(s: State, f: Symbol, e: Symbol, t: Address)
    ensures Leaves(s, Timeouts(s, f), e, t, 0)
  {
    hide ExpireList, AnyExpired, Remaining, Tally, Money.BookOf;
    ExpireListLeaves(s, f, s.ListOf(f), e, t);
  }

  lemma StepLeaves(s: State, op: Op, e: Symbol, t: Address)
    requires Inv(s) && RefundOnly(op)
    ensures Leaves(s, After(s, op), e, t, Net(s, e, t) - Net(After(s, op), e, t))
  {
    hide Inv, Leaves, SetupStep, Pay, AdminRefund, ClaimRefund, PostponementRefund, RaiseDispute, ApproveRefund, RejectDispute,
         Timeouts, WithdrawPlatformRevenue, SyncSplits, FlagCohost, ResolveFlagged, Net;
    var u := After(s, op);
    if Step(s, op).Err? {
      NothingLeaves(s, u, e, t);
      LeavesNet(s, u, e, t, 0);
    } else {
      match op
      case DoSetup(x) => SetupPayments(s, x); NothingLeaves(s, u, e, t); LeavesNet(s, u, e, t, 0);
      case DoRefund(a, id, x) => RefundsLeave(s, op, e, t);
      case DoClaimRefund(p, id) => RefundsLeave(s, op, e, t);
      case DoPostponementRefund(c, id) => RefundsLeave(s, op, e, t);
      case DoRaise(id, r, b) => RaiseRejectLeave(s, op, e, t); LeavesNet(s, u, e, t, 0);
      case DoReject(id) => RaiseRejectLeave(s, op, e, t); LeavesNet(s, u, e, t, 0);
      case DoApprove(id) => ApproveStepLeaves(s, id, e, t);
      case DoTimeouts(f) => TimeoutsLeave(s, f, e, t); LeavesNet(s, u, e, t, 0);
      case DoAdvance(l, d) => NothingLeaves(s, u, e, t); LeavesNet(s, u, e, t, 0);
      case _ => SplitSetupSame(s, op); NothingLeaves(s, u, e, t); LeavesNet(s, u, e, t, 0);
    }
  }

  lemma ApproveStepLeaves(s: State, tid: nat, e: Symbol, t: Address)
    requires Inv(s) && ApproveRefund(s, tid).Ok?
    ensures Leaves(s, ApproveRefund(s, tid).value, e, t, Net(s, e, t) - Net(ApproveRefund(s, tid).value, e, t))
  {
    hide Inv, Leaves, Net, RefundDisputed, Close, Expired, Money.CanSend;
    ApproveLeaves(s, tid, e, t);
    var p := s.records.payments[s.disputes.records[tid].payment];
    LeavesNet(s, ApproveRefund(s, tid).value, e, t, if p.event == e && p.token == t then p.amount - p.refunded else 0);
  }

  lemma SplitSetupSame(s: State, op: Op)
    requires op.DoSyncSplits? || op.DoFlag? || (op.DoResolve? && op.release)
    ensures After(s, op).records == s.records && After(s, op).money == s.money
  {
    hide WellFormed, BpsOf;
  }

  // ---- Runs of refunds ----

  lemma {:induction false} RefundsInv(s: State, ops: seq<Op>)
    requires Inv(s)
    ensures Inv(Run(s, ops))
  {
    hide Inv, After, Surplus, Total;
    if ops != [] {
      RefundsInv(s, ops[..|ops| - 1]);
      StepKeeps(Run(s, ops[..|ops| - 1]), ops[|ops| - 1], 0);
    }
  }

  /** What is open bounds what can leave, and so does the balance. */
  lemma {:induction false} RefundsBounded(s: State, ops: seq<Op>, e: Symbol, t: Address)
    requires Inv(s) && OnlyRefunds(ops) && Net(s, e, t) >= 0
    requires StillOpen(s, e, t) <= Net(s, e, t) || At(s.money.balance, t) <= Net(s, e, t)
    ensures var u := Run(s, ops);
      && Net(u, e, t) >= 0
      && (StillOpen(s, e, t) <= Net(s, e, t) ==> StillOpen(u, e, t) <= Net(u, e, t))
      && (At(s.money.balance, t) <= Net(s, e, t) ==> At(u.money.balance, t) <= Net(u, e, t))
  {
    hide Inv, After, Net, StillOpen, RefundOnly;
    if ops != [] {
      var v := Run(s, ops[..|ops| - 1]);
      RefundsBounded(s, ops[..|ops| - 1], e, t);
      RefundsInv(s, ops[..|ops| - 1]);
      StepLeaves(v, ops[|ops| - 1], e, t);
      OpenNonNegative(Run(s, ops), e, t) by { RefundsInv(s, ops); }
    }
  }

  lemma OpenNonNegative(s: State, e: Symbol, t: Address)
    requires Inv(s)
    ensures StillOpen(s, e, t) >= 0
  {
    hide Inv, Sum;
    var m := Part(s.records.payments, e, t, OPEN);
    forall i | i in m ensures m[i] >= 0 { InvRange(s, i); }
    SumNonNegative(m);
  }

  // ---- Driving the books below zero ----

  lemma {:induction false} RunThen(s: State, first: seq<Op>, more: seq<Op>)
    ensures Run(s, first + more) == Run(Run(s, first), more)
  {
    hide After;
    if more == [] {
      assert first + more == first;
    } else {
      RunThen(s, first, more[..|more| - 1]);
      assert (first + more)[..|first + more| - 1] == first + more[..|more| - 1];
    }
  }

  lemma RunOne(s: State, op: Op)
    ensures Run(s, [op]) == After(s, op)
  {
    hide After;
    assert [op][..0] == [];
  }

  /** Full refunds by the administrator are possible. */
  ghost predicate Ready(s: State, e: Symbol) { !s.globals.paused && !PaidOut(s, e) && s.StatusOf(e) != Some(Cancelled) }

  /** The payments of the event in the token with something left to refund. */
  ghost function OpenIds(s: State, e: Symbol, t: Address): set<nat> {
    set i | i in s.records.payments && s.records.payments[i].event == e && s.records.payments[i].token == t
            && OPEN(s.records.payments[i]) > 0
  }

  lemma {:induction false} SumPositive(m: map<nat, int>) returns (k: nat)
    requires Sum(m) > 0
    ensures k in m && m[k] > 0
    decreases |m|
  {
    k :| k in m && Sum(m) == m[k] + Sum(m - {k});
    if m[k] <= 0 {
      assert |m - {k}| < |m| by { assert (m - {k}).Keys == m.Keys - {k}; }
      k := SumPositive(m - {k});
    }
  }

  lemma SomeOpen(s: State, e: Symbol, t: Address) returns (i: nat)
    requires StillOpen(s, e, t) > 0
    ensures i in OpenIds(s, e, t)
  {
    hide Sum;
    i := SumPositive(Part(s.records.payments, e, t, OPEN));
  }

  /** The administrator refunds `a` of a held payment. */
  lemma RefundHeld(s: State, id: nat, a: int, e: Symbol, t: Address)
    requires Inv(s) && Ready(s, e) && id in OpenIds(s, e, t) && s.records.payments[id].status == Held
    requires 0 < a <= OPEN(s.records.payments[id]) && a <= At(s.money.balance, t)
    ensures var u := After(s, DoRefund(s.globals.admin, id, Some(a)));
      && Ready(u, e) && Net(u, e, t) == Net(s, e, t) - a && StillOpen(u, e, t) == StillOpen(s, e, t) - a
      && At(u.money.balance, t) == At(s.money.balance, t) - a
      && (a == OPEN(s.records.payments[id]) ==> OpenIds(u, e, t) == OpenIds(s, e, t) - {id})
  {
    hide BooksOk, DisputesOk, SplitsOk, OwnersOk, RecordsOk, Tally, Money.Refund, Money.BookOf, Expected, PaidOut;
    RefundedInRange(s.records, id);
    var p := s.records.payments[id];
    var q := p.(refunded := p.refunded + a, status := if p.refunded + a == p.amount then Refunded else Held);
    assert After(s, DoRefund(s.globals.admin, id, Some(a))) == RefundPayment(s, id, p.payer, a, q.status);
    RefundMoney(s.money, e, t, p.payer, a, true, e, t);
    TallyChange(s.records.payments, id, q, e, t, OPEN);
    SameLatches(s, RefundPayment(s, id, p.payer, a, q.status), e);
  }

  lemma SameLatches(s: State, u: State, e: Symbol)
    requires u.events == s.events
    ensures PaidOut(u, e) == PaidOut(s, e)
  {
  }

  /** The administrator rejects the dispute of a disputed payment, so that it can be refunded. */
  lemma RejectOpen(s: State, id: nat, e: Symbol, t: Address)
    requires Inv(s) && Ready(s, e) && id in OpenIds(s, e, t) && s.records.payments[id].status == Disputed
    ensures var u := After(s, DoReject(id));
      && Ready(u, e) && Net(u, e, t) == Net(s, e, t) && StillOpen(u, e, t) == StillOpen(s, e, t)
      && At(u.money.balance, t) == At(s.money.balance, t) && OpenIds(u, e, t) == OpenIds(s, e, t)
      && u.globals == s.globals && u.records.payments[id] == s.records.payments[id].(status := Held)
  {
    hide Inv, Tally, Without, PaidOut;
    InvRange(s, id);
    var p := s.records.payments[id];
    TallyChange(s.records.payments, id, p.(status := Held), e, t, OPEN);
    SameLatches(s, After(s, DoReject(id)), e);
  }

  /** One refund of an open payment, after rejecting its dispute if there is one. */
  lemma RefundOpen(s: State, id: nat, e: Symbol, t: Address) returns (ops: seq<Op>, a: int)
    requires Inv(s) && Ready(s, e) && id in OpenIds(s, e, t) && At(s.money.balance, t) > 0
    ensures OnlyRefunds(ops) && Ready(Run(s, ops), e)
    ensures Net(Run(s, ops), e, t) == Net(s, e, t) - a && StillOpen(Run(s, ops), e, t) == StillOpen(s, e, t) - a
    ensures At(Run(s, ops).money.balance, t) == At(s.money.balance, t) - a
    ensures a == At(s.money.balance, t) || OpenIds(Run(s, ops), e, t) == OpenIds(s, e, t) - {id}
  {
    hide Inv, After, Ready, Net, StillOpen, Run;
    var p := s.records.payments[id];
    a := if OPEN(p) <= At(s.money.balance, t) then OPEN(p) else At(s.money.balance, t);
    if p.status == Held {
      ops := [DoRefund(s.globals.admin, id, Some(a))];
      RunOne(s, ops[0]);
      RefundHeld(s, id, a, e, t);
    } else {
      var u := After(s, DoReject(id));
      ops := [DoReject(id)] + [DoRefund(s.globals.admin, id, Some(a))];
      RejectOpen(s, id, e, t);
      StepKeeps(s, DoReject(id), t);
      RunOne(s, DoReject(id));
      RunThen(s, [DoReject(id)], [DoRefund(s.globals.admin, id, Some(a))]);
      RunOne(u, DoRefund(s.globals.admin, id, Some(a)));
      RefundHeld(u, id, a, e, t);
    }
  }

  /** Refund one open payment after another until the books are negative. */
  lemma {:induction false} Overdraw(s: State, e: Symbol, t: Address) returns (ops: seq<Op>)
    requires Inv(s) && Ready(s, e) && 0 <= Net(s, e, t) < StillOpen(s, e, t) && Net(s, e, t) < At(s.money.balance, t)
    ensures OnlyRefunds(ops) && Net(Run(s, ops), e, t) < 0
    decreases |OpenIds(s, e, t)|
  {
    hide Inv, Run, Ready, Net, StillOpen, OpenIds, After;
    var id := SomeOpen(s, e, t);
    var first, a := RefundOpen(s, id, e, t);
    var u := Run(s, first);
    if Net(u, e, t) < 0 {
      ops := first;
    } else {
      RefundsInv(s, first);
      assert |OpenIds(s, e, t) - {id}| < |OpenIds(s, e, t)|;
      var more := Overdraw(u, e, t);
      RunThen(s, first, more);
      ops := first + more;
    }
  }

  // ---- Making the event ready ----

  /** Same money, payments, disputes and administrators; configurations keep their token. */
  ghost predicate OnlySettings(s: State, u: State) {
    && u.money == s.money && u.records == s.records && u.disputes == s.disputes && u.split == s.split && u.owners == s.owners
    && u.globals == s.globals.(paused := u.globals.paused)
  }

  lemma Unpause(s: State)
    ensures var u := After(s, DoSetup(DoSetPaused(s.globals.admin, false)));
      OnlySettings(s, u) && !u.globals.paused && u.events == s.events && u.ledger == s.ledger
  {
  }

  /** A settled configuration gets a future start, so that cancelling sets its ratio to zero. */
  lemma Reopen(s: State, e: Symbol)
    requires !s.globals.paused && e in s.events.config && s.events.config[e].payoutToken == s.globals.acceptedToken
    ensures var c := s.events.config[e];
      var v := After(s, DoSetup(DoSyncConfig(s.globals.eventContract, e, c.(start := s.ledger + 1))));
      var u := After(v, DoSetup(DoCancelEvent(e, c.organizer)));
      && OnlySettings(s, u) && !u.globals.paused && e in u.events.config && u.events.config[e].ratio == Some(0)
      && u.events.meta == s.events.meta
  {
  }

  lemma Activate(s: State, e: Symbol)
    requires !s.globals.paused && (e in s.events.config && s.events.config[e].withdrawn ==> s.events.config[e].ratio == Some(0))
    ensures var v := After(s, DoSetup(DoSetStatus(s.globals.admin, e, Active)));
      var u := After(v, DoSetup(DoSetEndTime(s.globals.admin, e, 0, 0)));
      OnlySettings(s, u) && Ready(u, e)
  {
  }

  lemma Prepare(s: State, e: Symbol) returns (ops: seq<Op>)
    requires TokensOk(s)
    ensures OnlyRefunds(ops) && OnlySettings(s, Run(s, ops)) && Ready(Run(s, ops), e)
  {
    hide After, Ready, Run;
    var unpause := DoSetup(DoSetPaused(s.globals.admin, false));
    var activate := [DoSetup(DoSetStatus(s.globals.admin, e, Active))] + [DoSetup(DoSetEndTime(s.globals.admin, e, 0, 0))];
    Unpause(s);
    RunOne(s, unpause);
    var u := After(s, unpause);
    ops := [unpause];
    if e in s.events.config && s.events.config[e].withdrawn {
      var c := s.events.config[e];
      var reopen := [DoSetup(DoSyncConfig(s.globals.eventContract, e, c.(start := u.ledger + 1)))]
                    + [DoSetup(DoCancelEvent(e, c.organizer))];
      Reopen(u, e);
      RunTwo(u, reopen[0], reopen[1]);
      RunThen(s, ops, reopen);
      u := Run(u, reopen);
      ops := ops + reopen;
    }
    Activate(u, e);
    RunTwo(u, activate[0], activate[1]);
    RunThen(s, ops, activate);
    ops := ops + activate;
  }

  lemma RunTwo(s: State, a: Op, b: Op)
    ensures Run(s, [a] + [b]) == After(After(s, a), b)
  {
    hide After, Run;
    RunThen(s, [a], [b]);
    RunOne(s, a);
    RunOne(After(s, a), b);
  }

  lemma SettingsKeep(s: State, u: State, e: Symbol, t: Address)
    requires OnlySettings(s, u)
    ensures Net(u, e, t) == Net(s, e, t) && StillOpen(u, e, t) == StillOpen(s, e, t) && u.money == s.money
  {
    hide Tally;
  }

  // ---- The condition ----

  /** No later run of refunds, disputes, settings and time takes the event's books below zero. */
  ghost predicate NeverBelow(s: State, e: Symbol, t: Address) {
    forall ops :: OnlyRefunds(ops) ==> Net(Run(s, ops), e, t) >= 0
  }

  /**
   As long as nothing more is paid in or paid out, the books of an event stay non-negative through every run exactly when
   what is still refundable is covered by them, or the contract holds no token beyond them.  The first means
   that what was withdrawn is at most what can no longer be refunded.
   */
  lemma NeverBelowIff(s: State, e: Symbol, t: Address)
    requires Inv(s) && TokensOk(s) && Net(s, e, t) >= 0
    ensures NeverBelow(s, e, t) <==> StillOpen(s, e, t) <= Net(s, e, t) || At(s.money.balance, t) <= Net(s, e, t)
    ensures StillOpen(s, e, t) <= Net(s, e, t) <==> s.money.BookOf(e, t).withdrawn <= NoLongerOpen(s, e, t)
  {
    hide Inv, TokensOk, Net, StillOpen, Run, Ready, OnlyRefunds, Money.BookOf, NoLongerOpen;
    OpenSplit(s, e, t);
    if StillOpen(s, e, t) <= Net(s, e, t) || At(s.money.balance, t) <= Net(s, e, t) {
      forall ops | OnlyRefunds(ops) ensures Net(Run(s, ops), e, t) >= 0 { RefundsBounded(s, ops, e, t); }
    } else {
      var first := Prepare(s, e);
      var u := Run(s, first);
      SettingsKeep(s, u, e, t);
      RefundsInv(s, first);
      var more := Overdraw(u, e, t);
      RunThen(s, first, more);
      BothRefunds(first, more);
      assert OnlyRefunds(first + more) && Net(Run(s, first + more), e, t) < 0;
    }
  }

  lemma BothRefunds(a: seq<Op>, b: seq<Op>)
    requires OnlyRefunds(a) && OnlyRefunds(b)
    ensures OnlyRefunds(a + b)
  {
    hide RefundOnly;
  }

  lemma OpenSplit(s: State, e: Symbol, t: Address)
    requires Inv(s)
    ensures Net(s, e, t) == StillOpen(s, e, t) + NoLongerOpen(s, e, t) - s.money.BookOf(e, t).withdrawn
  {
    hide Inv, Tally, Money.BookOf;
    NetIs(s, e, t);
    TallyDifference(s.records.payments, e, t, OPEN, KEPT, CLOSED);
  }

  /** The same in every reachable state. */
  lemma ReachableNeverBelowIff(s: State, ops: seq<Op>, e: Symbol, t: Address)
    requires Deployed(s) && Net(Run(s, ops), e, t) >= 0
    ensures var u := Run(s, ops);
      NeverBelow(u, e, t) <==>
        u.money.BookOf(e, t).withdrawn <= NoLongerOpen(u, e, t) || At(u.money.balance, t) <= Net(u, e, t)
  {
    hide Inv, TokensOk, Net, StillOpen, Run, Deployed, NeverBelow, Money.BookOf, NoLongerOpen, Position, TotalDrift;
    RunInv(s, ops);
    RunPosition(s, ops, e, t);
    NeverBelowIff(Run(s, ops), e, t);
  }
}

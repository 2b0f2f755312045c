/** The payments contract's books against its token balances, over every run. */
module EscrowLedger {
  import opened Ledger
  import opened MapSums
  import opened OwnerIndexes
  import opened RevenueSplits
  import opened PaymentsSpec

  // ---- What the books expect the contract to hold ----

  type Books = map<(Symbol, Address), Book>

  ghost function Owed(books: Books, t: Address): map<(Symbol, Address), int> {
    map k | k in books && k.1 == t :: Expected(books[k])
  }

  /** The contract's balance in a token less what the books of all events expect. */
  ghost function Surplus(m: Money, t: Address): int { At(m.balance, t) - Sum(Owed(m.books, t)) }

  ghost function WalletsIn(wallets: map<(Address, Address), int>, t: Address): map<(Address, Address), int> {
    map k | k in wallets && k.0 == t :: wallets[k]
  }

  /** All of a token there is: the contract's balance and everybody else's. */
  ghost function Total(m: Money, t: Address): int { At(m.balance, t) + Sum(WalletsIn(m.wallets, t)) }

  /** Neither surplus nor total of a token has changed. */
  ghost predicate Alike(m: Money, n: Money, t: Address) {
    Surplus(n, t) == Surplus(m, t) && Total(n, t) == Total(m, t)
  }

  lemma WalletSum(wallets: map<(Address, Address), int>, k: (Address, Address), a: int, t: Address)
    ensures Sum(WalletsIn(wallets[k := a], t))
      == Sum(WalletsIn(wallets, t)) + if k.0 == t then a - At(wallets, k) else 0
  {
    hide Sum;
    var after := WalletsIn(wallets[k := a], t);
    if k.0 == t {
      SumUpdate(WalletsIn(wallets, t), k, a);
      assert after == WalletsIn(wallets, t)[k := a];
    } else {
      assert after == WalletsIn(wallets, t);
    }
  }

  lemma OwedChange(books: Books, k: (Symbol, Address), b: Book, t: Address)
    ensures Owed(books[k := b], t) == if k.1 == t then Owed(books, t)[k := Expected(b)] else Owed(books, t)
    ensures At(Owed(books, t), k) == if k.1 == t && k in books then Expected(books[k]) else 0
  {
  }

  lemma OwedSum(books: Books, k: (Symbol, Address), b: Book, t: Address)
    ensures Sum(Owed(books[k := b], t)) == Sum(Owed(books, t))
      + if k.1 == t then Expected(b) - (if k in books then Expected(books[k]) else 0) else 0
  {
    hide Sum, Owed, Expected;
    OwedChange(books, k, b, t);
    if k.1 == t { SumUpdate(Owed(books, t), k, Expected(b)); }
  }

  lemma BookChange(m: Money, e: Symbol, u: Address, b: Book, t: Address)
    ensures Surplus(m.WithBook(e, u, b), t)
      == Surplus(m, t) - if u == t then Expected(b) - Expected(m.BookOf(e, u)) else 0
    ensures Total(m.WithBook(e, u, b), t) == Total(m, t)
  {
    var n := m.WithBook(e, u, b);
    assert Expected(m.BookOf(e, u)) == if (e, u) in m.books then Expected(m.books[(e, u)]) else 0;
    hide Sum, Owed, Expected, Money.BookOf, At, WalletsIn;
    OwedSum(m.books, (e, u), b, t);
    assert n.books == m.books[(e, u) := b] && n.balance == m.balance;
    hide Money.WithBook;
  }

  lemma SameBooks(m: Money, n: Money, t: Address)
    requires m.books == n.books
    ensures Surplus(n, t) - Surplus(m, t) == At(n.balance, t) - At(m.balance, t)
    ensures n.balance == m.balance && n.wallets == m.wallets ==> Total(n, t) == Total(m, t)
  {
  }

  lemma SendSurplus(m: Money, u: Address, to: Address, a: int, t: Address)
    ensures Surplus(m.Send(u, to, a), t) == Surplus(m, t) - if u == t then a else 0
    ensures m.Send(u, to, a).books == m.books && Total(m.Send(u, to, a), t) == Total(m, t)
  {
    hide Surplus, WalletsIn;
    SameBooks(m, m.Send(u, to, a), t);
    WalletSum(m.wallets, (u, to), At(m.wallets, (u, to)) + a, t);
  }

  lemma ReceiveSurplus(m: Money, u: Address, from: Address, a: int, t: Address)
    ensures Surplus(m.Receive(u, from, a), t) == Surplus(m, t) + if u == t then a else 0
    ensures m.Receive(u, from, a).books == m.books && Total(m.Receive(u, from, a), t) == Total(m, t)
  {
    hide Surplus, WalletsIn;
    SameBooks(m, m.Receive(u, from, a), t);
    WalletSum(m.wallets, (u, from), At(m.wallets, (u, from)) - a, t);
  }

  lemma DepositSurplus(m: Money, e: Symbol, u: Address, from: Address, a: int, t: Address)
    ensures Alike(m, m.Deposit(e, u, from, a), t)
  {
    hide Surplus, Total, At, Money.Receive, Expected, Money.BookOf;
    var (b, n) := (m.BookOf(e, u), m.Receive(u, from, a));
    ReceiveSurplus(m, u, from, a, t);
    assert n.BookOf(e, u) == b by { SameBook(m, n, e, u); }
    var c := b.(volume := b.volume + a, revenue := b.revenue + a);
    BookChange(n, e, u, c, t);
    assert Expected(c) == Expected(b) + a by { MoreVolume(b, a); }
  }

  lemma SameBook(m: Money, n: Money, e: Symbol, t: Address)
    requires n.books == m.books
    ensures n.BookOf(e, t) == m.BookOf(e, t)
  {
  }

  lemma MoreVolume(b: Book, a: int)
    ensures Expected(b.(volume := b.volume + a, revenue := b.revenue + a)) == Expected(b) + a
  {
  }

  lemma RefundSurplus(m: Money, e: Symbol, u: Address, to: Option<Address>, a: int, fromRevenue: bool, t: Address)
    requires to.Some?
    ensures Alike(m, m.Refund(e, u, to, a, fromRevenue), t)
  {
    hide Surplus, Total, Money.Send;
    var b := m.BookOf(e, u);
    SendSurplus(m, u, to.value, a, t);
    BookChange(m.Send(u, to.value, a), e, u,
               b.(refunds := b.refunds + a, revenue := if fromRevenue then b.revenue - a else b.revenue), t);
  }

  lemma PayoutSurplus(m: Money, e: Symbol, u: Address, to: Address, a: int, revenue: int, t: Address)
    ensures Alike(m, m.Payout(e, u, to, a, revenue), t)
  {
    hide Surplus, Total, Money.Send;
    var b := m.BookOf(e, u);
    SendSurplus(m, u, to, a, t);
    BookChange(m.Send(u, to, a), e, u, b.(withdrawn := b.withdrawn + a, revenue := revenue), t);
  }

  lemma RevenueSurplus(m: Money, e: Symbol, u: Address, r: int, t: Address)
    ensures Alike(m, m.WithRevenue(e, u, r), t)
  {
    hide Surplus, Total, At;
    BookChange(m, e, u, m.BookOf(e, u).(revenue := r), t);
    hide Money.BookOf;
  }

  lemma CollectSurplus(m: Money, e: Symbol, fee: int, t: Address)
    ensures Alike(m, m.Collect(e, fee), t)
  {
    hide Surplus, Total;
    SameBooks(m, m.Collect(e, fee), t);
  }

  // ---- Sums over the payments of an event in a token ----

  ghost function Part(pays: map<nat, Payment>, e: Symbol, t: Address, f: Payment -> int): map<nat, int> {
    map i | i in pays && pays[i].event == e && pays[i].token == t :: f(pays[i])
  }

  ghost function Tally(pays: map<nat, Payment>, e: Symbol, t: Address, f: Payment -> int): int {
    Sum(Part(pays, e, t, f))
  }

  /** Recording a payment, or changing one without moving it to another event or token. */
  lemma TallyChange(pays: map<nat, Payment>, id: nat, p: Payment, e: Symbol, t: Address, f: Payment -> int)
    requires id in pays ==> pays[id].event == p.event && pays[id].token == p.token
    ensures Tally(pays[id := p], e, t, f) == Tally(pays, e, t, f)
      + if p.event == e && p.token == t then f(p) - (if id in pays then f(pays[id]) else 0) else 0
  {
    hide Sum;
    if p.event == e && p.token == t {
      SumUpdate(Part(pays, e, t, f), id, f(p));
      assert Part(pays[id := p], e, t, f) == Part(pays, e, t, f)[id := f(p)];
    } else {
      assert Part(pays[id := p], e, t, f) == Part(pays, e, t, f);
    }
  }

  /** A sum of differences is the difference of the sums. */
  lemma TallyDifference(pays: map<nat, Payment>, e: Symbol, t: Address, f: Payment -> int, g: Payment -> int, h: Payment -> int)
    requires forall i :: i in pays ==> f(pays[i]) == g(pays[i]) - h(pays[i])
    ensures Tally(pays, e, t, f) == Tally(pays, e, t, g) - Tally(pays, e, t, h)
  {
    hide Sum;
    SumDifference(Part(pays, e, t, f), Part(pays, e, t, g), Part(pays, e, t, h));
  }

  const AMOUNT: Payment -> int := (p: Payment) => p.amount
  const REFUNDED: Payment -> int := (p: Payment) => p.refunded
}

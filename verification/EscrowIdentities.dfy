/** No request nonce of one identity, and no commitment, is accepted twice; and how many tickets an identity can buy. */
module EscrowIdentities {
  import opened Ledger
  import opened MapSums
  import opened OwnerIndexes
  import opened RevenueSplits
  import opened PaymentsSpec
  import opened EscrowInvariants
  import opened EscrowFrames

  /** Standard payments are made under an address, the others under a hash: of the wallet, or the commitment. */
  datatype Identity = Wallet(address: Address) | Hash(hash: nat)

  function IdentityOf(p: PaymentParams): Option<Identity> {
    match p.privacy
    case Standard => Some(Wallet(p.payer))
    case Private => Some(Hash(p.walletHash))
    case Anonymous => if p.commitment.Some? then Some(Hash(p.commitment.value)) else None
  }

  /** Has the identity used the nonce? */
  predicate Spent(ids: Identities, x: Identity, nonce: nat) {
    match x
    case Wallet(a) => (a, nonce) in ids.nonces
    case Hash(h) => (h, nonce) in ids.nonceHashes
  }

  ghost predicate Grows(a: Identities, b: Identities) {
    a.nonces <= b.nonces && a.nonceHashes <= b.nonceHashes && a.nullifiers <= b.nullifiers
  }

  /** What an accepted payment records. */
  lemma PayRecords(s: State, p: PaymentParams)
    requires Pay(s, p).Ok?
    ensures p.nonce != 0 && p.amount > 0 && IdentityOf(p).Some?
    ensures !Spent(s.ids, IdentityOf(p).value, p.nonce) && Spent(Pay(s, p).value.ids, IdentityOf(p).value, p.nonce)
    ensures p.privacy == Anonymous ==> p.commitment.value !in s.ids.nullifiers && p.commitment.value in Pay(s, p).value.ids.nullifiers
    ensures Grows(s.ids, Pay(s, p).value.ids)
  {
    hide CheckPrivacy, CheckSupply, Money.CanReceive, Money.Deposit, AddToken, OwnerIndex.Add, TicketsHeld;
  }

  lemma StepGrows(s: State, op: Op)
    ensures Grows(s.ids, After(s, op).ids)
  {
    hide Pay, Framed;
    if op.DoPay? {
      if Pay(s, op.params).Ok? { PayRecords(s, op.params); }
    } else {
      StepIds(s, op);
    }
  }

  lemma StepIds(s: State, op: Op)
    requires !op.DoPay?
    ensures After(s, op).ids == s.ids
  {
    hide After;
    StepFramed(s, op);
  }

  lemma {:induction false} RunGrows(s: State, ops: seq<Op>)
    ensures Grows(s.ids, Run(s, ops).ids)
  {
    hide After;
    if ops != [] {
      RunGrows(s, ops[..|ops| - 1]);
      StepGrows(Run(s, ops[..|ops| - 1]), ops[|ops| - 1]);
    }
  }

  lemma SpentRefused(s: State, q: PaymentParams)
    requires q.nonce != 0 && IdentityOf(q).Some? && Spent(s.ids, IdentityOf(q).value, q.nonce)
    ensures Pay(s, q) == Err(if s.globals.paused then ContractPaused else DuplicateRequest)
  {
    hide CheckPrivacy, CheckSupply, Money.CanReceive, BuildPayment, Issue;
  }

  /** After an accepted payment, every later request of the same identity with the same nonce is a duplicate. */
  lemma SecondRequestRefused(s: State, p: PaymentParams, ops: seq<Op>, q: PaymentParams)
    requires Pay(s, p).Ok? && IdentityOf(q) == IdentityOf(p) && q.nonce == p.nonce
    ensures var u := Run(Pay(s, p).value, ops);
      Pay(u, q) == Err(if u.globals.paused then ContractPaused else DuplicateRequest)
  {
    hide Pay, Run;
    PayRecords(s, p);
    RunGrows(Pay(s, p).value, ops);
    SpentRefused(Run(Pay(s, p).value, ops), q);
  }

  /** After an accepted anonymous payment, its commitment is never accepted again, under any nonce. */
  lemma CommitmentRefused(s: State, p: PaymentParams, ops: seq<Op>, q: PaymentParams)
    requires Pay(s, p).Ok? && p.privacy == Anonymous && q.privacy == Anonymous && q.commitment == p.commitment
    ensures Pay(Run(Pay(s, p).value, ops), q).Err?
  {
    hide Pay, Run;
    PayRecords(s, p);
    RunGrows(Pay(s, p).value, ops);
    if Pay(Run(Pay(s, p).value, ops), q).Ok? { PayRecords(Run(Pay(s, p).value, ops), q); }
  }

  // ---- Counted over a run ----

  function Accepts(s: State, op: Op, x: Identity, nonce: nat): nat {
    if op.DoPay? && op.params.nonce == nonce && IdentityOf(op.params) == Some(x) && Step(s, op).Ok? then 1 else 0
  }

  function AcceptedCount(s: State, ops: seq<Op>, x: Identity, nonce: nat): nat {
    if ops == [] then 0
    else AcceptedCount(s, ops[..|ops| - 1], x, nonce) + Accepts(Run(s, ops[..|ops| - 1]), ops[|ops| - 1], x, nonce)
  }

  lemma StepAccepts(s: State, op: Op, x: Identity, nonce: nat)
    ensures Accepts(s, op, x, nonce) + (if Spent(s.ids, x, nonce) then 1 else 0)
      <= if Spent(After(s, op).ids, x, nonce) then 1 else 0
  {
    hide Pay, Framed, Grows;
    StepGrows(s, op);
    GrownSpent(s.ids, After(s, op).ids, x, nonce);
    if op.DoPay? && Pay(s, op.params).Ok? { PayRecords(s, op.params); }
  }

  lemma GrownSpent(a: Identities, b: Identities, x: Identity, nonce: nat)
    requires Grows(a, b)
    ensures Spent(a, x, nonce) ==> Spent(b, x, nonce)
  {
  }

  /** In every run at most one payment of an identity is accepted under a nonce. */
  lemma {:induction false} NonceAcceptedOnce(s: State, ops: seq<Op>, x: Identity, nonce: nat)
    ensures AcceptedCount(s, ops, x, nonce) + (if Spent(s.ids, x, nonce) then 1 else 0)
      <= if Spent(Run(s, ops).ids, x, nonce) then 1 else 0
  {
    hide After, Accepts;
    if ops != [] {
      NonceAcceptedOnce(s, ops[..|ops| - 1], x, nonce);
      StepAccepts(Run(s, ops[..|ops| - 1]), ops[|ops| - 1], x, nonce);
    }
  }

  // ---- Tickets of one identity ----

  /** The counter of an identity's tickets for an event. */
  function HeldBy(ids: Identities, e: Symbol, x: Identity): nat {
    match x
    case Wallet(a) => if (e, a) in ids.userTickets then ids.userTickets[(e, a)] else 0
    case Hash(h) => if (e, h) in ids.userTicketHashes then ids.userTicketHashes[(e, h)] else 0
  }

  /** A payment that is not anonymous, accepted for the event under the identity. */
  function BuysFor(s: State, op: Op, e: Symbol, x: Identity): nat {
    if op.DoPay? && op.params.event == e && op.params.privacy != Anonymous && IdentityOf(op.params) == Some(x)
       && Step(s, op).Ok? then 1 else 0
  }

  function TotalFor(s: State, ops: seq<Op>, e: Symbol, x: Identity): nat {
    if ops == [] then 0
    else TotalFor(s, ops[..|ops| - 1], e, x) + BuysFor(Run(s, ops[..|ops| - 1]), ops[|ops| - 1], e, x)
  }

  lemma RememberCounts(ids: Identities, p: PaymentParams, e: Symbol, x: Identity)
    ensures HeldBy(Remember(ids, p), e, x) == HeldBy(ids, e, x)
      + if p.event == e && p.privacy != Anonymous && IdentityOf(p) == Some(x) then 1 else 0
  {
  }

  lemma PayIds(s: State, p: PaymentParams)
    requires Pay(s, p).Ok?
    ensures Pay(s, p).value.ids == Remember(s.ids, p)
  {
    hide CheckPayment, BuildPayment, Money.Deposit, AddToken, OwnerIndex.Add, Remember;
  }

  /** A counter at the maximum stops the payment. */
  lemma PayBelowMaximum(s: State, p: PaymentParams)
    requires Pay(s, p).Ok? && p.event in s.events.config && s.events.config[p.event].maxPerUser > 0 && p.privacy != Anonymous
    ensures HeldBy(s.ids, p.event, IdentityOf(p).value) < s.events.config[p.event].maxPerUser
  {
    hide CheckPrivacy, Money.CanReceive, NonceUsed, BuildPayment, Issue;
  }

  lemma PayCounts(s: State, p: PaymentParams, e: Symbol, x: Identity)
    requires Pay(s, p).Ok?
    ensures HeldBy(Pay(s, p).value.ids, e, x) == HeldBy(s.ids, e, x) + BuysFor(s, DoPay(p), e, x)
    ensures BuysFor(s, DoPay(p), e, x) == 1 && e in s.events.config && s.events.config[e].maxPerUser > 0 ==>
      HeldBy(s.ids, e, x) < s.events.config[e].maxPerUser
  {
    hide Pay, HeldBy, Remember;
    PayIds(s, p);
    RememberCounts(s.ids, p, e, x);
    if p.event in s.events.config && s.events.config[p.event].maxPerUser > 0 && p.privacy != Anonymous { PayBelowMaximum(s, p); }
  }

  lemma StepCounts(s: State, op: Op, e: Symbol, x: Identity)
    ensures HeldBy(After(s, op).ids, e, x) == HeldBy(s.ids, e, x) + BuysFor(s, op, e, x)
    ensures BuysFor(s, op, e, x) == 1 && e in s.events.config && s.events.config[e].maxPerUser > 0 ==>
      HeldBy(s.ids, e, x) < s.events.config[e].maxPerUser
    ensures BuysFor(s, op, e, x) <= 1
  {
    hide Pay, HeldBy;
    if op.DoPay? {
      if Pay(s, op.params).Ok? { PayCounts(s, op.params, e, x); }
    } else {
      StepIds(s, op);
    }
  }

  /** The counter follows every purchase, and until the event is synchronized again it never passes the maximum per user. */
  lemma {:induction false} UserLimit(s: State, ops: seq<Op>, e: Symbol, x: Identity)
    requires e in s.events.config && !Resynced(ops, e)
    requires s.events.config[e].maxPerUser > 0 && HeldBy(s.ids, e, x) <= s.events.config[e].maxPerUser
    ensures HeldBy(Run(s, ops).ids, e, x) == HeldBy(s.ids, e, x) + TotalFor(s, ops, e, x) <= s.events.config[e].maxPerUser
    ensures e in Run(s, ops).events.config && Run(s, ops).events.config[e].maxPerUser == s.events.config[e].maxPerUser
  {
    hide After, BuysFor, HeldBy;
    if ops != [] {
      var (init, op) := (ops[..|ops| - 1], ops[|ops| - 1]);
      assert forall i :: 0 <= i < |init| ==> init[i] == ops[i];
      assert !Syncs(op, e);
      UserLimit(s, init, e, x);
      StepFramed(Run(s, init), op);
      StepCounts(Run(s, init), op, e, x);
    }
  }
}

/**
 contracts/common-utils/src/validation.rs and revenue.rs: the revenue split rules and
 the share arithmetic.
 */
module RevenueSplits {
  import opened Ledger

  const MAX_REVENUE_SPLIT_RECIPIENTS: nat := 5
  const TOTAL_BASIS_POINTS: nat := 10_000
  const U32_MAX: nat := 0xFFFF_FFFF

  datatype Split = Split(recipient: Address, bps: nat)

  datatype Share = Share(recipient: Address, amount: int)

  /** The signed division of the source, which truncates toward zero. */
  function Truncated(a: int, d: nat): (q: int)
    requires d > 0
    ensures a >= 0 ==> q * d <= a < q * d + d
    ensures a <= 0 ==> q * d - d < a <= q * d
  {
    if a >= 0 then a / d else -(-a / d)
  }

  function Portion(amount: int, bps: nat): int { Truncated(amount * bps, TOTAL_BASIS_POINTS) }

  // ---- Valid splits ----

  function BpsSum(splits: seq<Split>): nat {
    if splits == [] then 0 else BpsSum(splits[..|splits| - 1]) + splits[|splits| - 1].bps
  }

  predicate Distinct(splits: seq<Split>) {
    forall i, j :: 0 <= j < i < |splits| ==> splits[i].recipient != splits[j].recipient
  }

  predicate Positive(splits: seq<Split>) {
    forall i :: 0 <= i < |splits| ==> splits[i].bps > 0
  }

  /** The documented rules for a configured split. */
  predicate WellFormed(splits: seq<Split>, organizer: Address) {
    && 1 <= |splits| <= MAX_REVENUE_SPLIT_RECIPIENTS
    && splits[0].recipient == organizer
    && Positive(splits) && Distinct(splits)
    && BpsSum(splits) == TOTAL_BASIS_POINTS
  }

  lemma {:induction false} BpsSumPrefix(splits: seq<Split>, n: nat)
    requires n <= |splits|
    ensures BpsSum(splits[..n]) <= BpsSum(splits)
    decreases |splits| - n
  {
    if n < |splits| {
      BpsSumPrefix(splits, n + 1);
      assert splits[..n + 1][..n] == splits[..n];
    } else {
      assert splits[..n] == splits;
    }
  }

  /** The checking loop accepts exactly the well-formed splits and the empty one. */
  method ValidateRevenueSplits(splits: seq<Split>, organizer: Address) returns (r: Result<(), string>)
    ensures r.Ok? <==> splits == [] || WellFormed(splits, organizer)
  {
    if |splits| == 0 { return Ok(()); }
    if |splits| > MAX_REVENUE_SPLIT_RECIPIENTS { return Err("Too many split recipients"); }
    if splits[0].recipient != organizer { return Err("First recipient must be the primary organizer"); }
    var total: nat := 0;
    for i := 0 to |splits|
      invariant total == BpsSum(splits[..i]) <= U32_MAX
      invariant Positive(splits[..i]) && Distinct(splits[..i])
    {
      assert splits[..i + 1][..i] == splits[..i];
      BpsSumPrefix(splits, i + 1);
      if splits[i].bps == 0 { return Err("Basis points cannot be zero"); }
      if total + splits[i].bps > U32_MAX { return Err("Basis points sum overflow"); }
      total := total + splits[i].bps;
      for j := 0 to i
        invariant forall k :: 0 <= k < j ==> splits[k].recipient != splits[i].recipient
      {
        if splits[j].recipient == splits[i].recipient { return Err("Duplicate recipient in split"); }
      }
    }
    assert splits[..|splits|] == splits;
    if total != TOTAL_BASIS_POINTS { return Err("Basis points must sum to 10000"); }
    return Ok(());
  }

  // ---- Shares ----

  /** The first allocation of an address. */
  function BpsFrom(splits: seq<Split>, who: Address, from: nat): Option<nat>
    requires from <= |splits|
    decreases |splits| - from
  {
    if from == |splits| then None
    else if splits[from].recipient == who then Some(splits[from].bps)
    else BpsFrom(splits, who, from + 1)
  }

  function BpsOf(splits: seq<Split>, who: Address): Option<nat> { BpsFrom(splits, who, 0) }

  /** The loop of `find_recipient_basis_points`. */
  method FindRecipientBasisPoints(splits: seq<Split>, who: Address) returns (r: Option<nat>)
    ensures r == BpsOf(splits, who)
    ensures r.None? <==> forall i :: 0 <= i < |splits| ==> splits[i].recipient != who
    ensures r.Some? ==> exists i :: 0 <= i < |splits| && splits[i] == Split(who, r.value)
  {
    for i := 0 to |splits|
      invariant BpsFrom(splits, who, i) == BpsFrom(splits, who, 0)
      invariant forall k :: 0 <= k < i ==> splits[k].recipient != who
    {
      if splits[i].recipient == who { return Some(splits[i].bps); }
    }
    return None;
  }

  lemma {:induction false} BpsFromAt(splits: seq<Split>, i: nat, from: nat)
    requires Distinct(splits) && from <= i < |splits|
    ensures BpsFrom(splits, splits[i].recipient, from) == Some(splits[i].bps)
    decreases i - from
  {
    if from < i { BpsFromAt(splits, i, from + 1); }
  }

  /** A listed address is one of the recipients. */
  lemma {:induction false} BpsFromFound(splits: seq<Split>, who: Address, from: nat) returns (i: nat)
    requires from <= |splits| && BpsFrom(splits, who, from).Some?
    ensures from <= i < |splits| && splits[i].recipient == who
    decreases |splits| - from
  {
    if splits[from].recipient == who { i := from; } else { i := BpsFromFound(splits, who, from + 1); }
  }

  /** What the co-recipients after the first get together. */
  function Others(splits: seq<Split>, net: int): int {
    if |splits| <= 1 then 0
    else Others(splits[..|splits| - 1], net) + Portion(net, splits[|splits| - 1].bps)
  }

  /** `calculate_recipient_share`: floors for the co-recipients, the remainder for the first. */
  function RecipientShare(splits: seq<Split>, who: Address, organizer: Address, net: int): int {
    if splits == [] then if who == organizer then net else 0
    else if who == splits[0].recipient then net - Others(splits, net)
    else if BpsOf(splits, who).Some? then Portion(net, BpsOf(splits, who).value)
    else 0
  }

  method CalculateRecipientShare(splits: seq<Split>, who: Address, organizer: Address, net: int) returns (share: int)
    ensures share == RecipientShare(splits, who, organizer, net)
  {
    if |splits| == 0 {
      return if who == organizer then net else 0;
    }
    if who == splits[0].recipient {
      var others := 0;
      for i := 1 to |splits|
        invariant others == Others(splits[..i], net)
      {
        others := others + Portion(net, splits[i].bps);
        assert splits[..i + 1][..i] == splits[..i];
      }
      assert splits[..|splits|] == splits;
      return net - others;
    }
    var bps := FindRecipientBasisPoints(splits, who);
    return if bps.Some? then Portion(net, bps.value) else 0;
  }

  function SumOf(shares: seq<Share>): int {
    if shares == [] then 0 else SumOf(shares[..|shares| - 1]) + shares[|shares| - 1].amount
  }

  /** The share of every recipient in order. */
  function AllShares(splits: seq<Split>, organizer: Address, net: int): (r: seq<Share>)
    ensures |r| == |splits|
  {
    seq(|splits|, i requires 0 <= i < |splits| =>
      Share(splits[i].recipient, RecipientShare(splits, splits[i].recipient, organizer, net)))
  }

  method CalculateAllShares(splits: seq<Split>, organizer: Address, net: int) returns (r: seq<Share>)
    ensures splits == [] ==> r == [Share(organizer, net)]
    ensures splits != [] ==> r == AllShares(splits, organizer, net)
    ensures splits == [] || WellFormed(splits, organizer) ==> SumOf(r) == net
  {
    if |splits| == 0 {
      assert [Share(organizer, net)][..0] == [];
      return [Share(organizer, net)];
    }
    r := [];
    for i := 0 to |splits|
      invariant r == AllShares(splits, organizer, net)[..i]
    {
      var share := CalculateRecipientShare(splits, splits[i].recipient, organizer, net);
      r := r + [Share(splits[i].recipient, share)];
    }
    if WellFormed(splits, organizer) { SharesSumToNet(splits, organizer, net); }
  }

  method VerifySharesSum(shares: seq<Share>, expected: int) returns (b: bool)
    ensures b == (SumOf(shares) == expected)
  {
    var sum := 0;
    for i := 0 to |shares|
      invariant sum == SumOf(shares[..i])
    {
      sum := sum + shares[i].amount;
      assert shares[..i + 1][..i] == shares[..i];
    }
    assert shares[..|shares|] == shares;
    return sum == expected;
  }

  lemma {:induction false} SharesPrefix(splits: seq<Split>, organizer: Address, net: int, n: nat)
    requires Distinct(splits) && 1 <= n <= |splits|
    ensures SumOf(AllShares(splits, organizer, net)[..n]) == net - Others(splits, net) + Others(splits[..n], net)
  {
    var all := AllShares(splits, organizer, net);
    if n == 1 {
      assert all[..1] == [all[0]] && all[..1][..0] == [];
    } else {
      SharesPrefix(splits, organizer, net, n - 1);
      BpsFromAt(splits, n - 1, 0);
      assert all[..n][..n - 1] == all[..n - 1];
      assert splits[..n][..n - 1] == splits[..n - 1];
    }
  }

  /** Nothing is lost to rounding: the shares add up to the net amount, whatever its sign. */
  lemma SharesSumToNet(splits: seq<Split>, organizer: Address, net: int)
    requires WellFormed(splits, organizer)
    ensures SumOf(AllShares(splits, organizer, net)) == net
  {
    SharesPrefix(splits, organizer, net, |splits|);
    assert AllShares(splits, organizer, net)[..|splits|] == AllShares(splits, organizer, net);
    assert splits[..|splits|] == splits;
  }

  /** The floors of the co-recipients fall short of the exact proportion by less than one unit each. */
  lemma {:induction false} OthersBound(splits: seq<Split>, net: nat)
    requires splits != []
    ensures var exact := net * (BpsSum(splits) - splits[0].bps);
      Others(splits, net) * 10_000 <= exact <= Others(splits, net) * 10_000 + 9_999 * (|splits| - 1)
    ensures Others(splits, net) >= 0
  {
    if |splits| > 1 {
      var init, last := splits[..|splits| - 1], splits[|splits| - 1];
      OthersBound(init, net);
      Distribute(net, BpsSum(init) - splits[0].bps, last.bps);
    } else {
      assert splits[..0] == [];
    }
  }

  lemma Distribute(a: nat, b: int, c: nat)
    ensures a * (b + c) == a * b + a * c && a * c >= 0
  {
  }

  /** The first recipient gets at least its exact proportion, and less than one unit per co-recipient more. */
  lemma PrimaryExcess(splits: seq<Split>, organizer: Address, net: nat)
    requires WellFormed(splits, organizer)
    ensures var share := RecipientShare(splits, organizer, organizer, net);
      net * splits[0].bps <= share * 10_000 <= net * splits[0].bps + 9_999 * (|splits| - 1)
  {
    hide BpsSum, Others;
    OthersBound(splits, net);
    Distribute(net, 10_000 - splits[0].bps, splits[0].bps);
  }

  /** Every co-recipient gets its exact proportion rounded down. */
  lemma CoRecipientShare(splits: seq<Split>, organizer: Address, net: nat, i: nat)
    requires WellFormed(splits, organizer) && 1 <= i < |splits|
    ensures var share := RecipientShare(splits, splits[i].recipient, organizer, net);
      share * 10_000 <= net * splits[i].bps < share * 10_000 + 10_000
  {
    BpsFromAt(splits, i, 0);
    Distribute(net, 0, splits[i].bps);
  }

  /** No share of a non-negative amount is negative. */
  lemma ShareNonNegative(splits: seq<Split>, who: Address, organizer: Address, net: nat)
    requires WellFormed(splits, organizer)
    ensures RecipientShare(splits, who, organizer, net) >= 0
  {
    hide BpsSum, Others;
    if who == organizer {
      PrimaryExcess(splits, organizer, net);
      Distribute(net, 0, splits[0].bps);
    } else if BpsOf(splits, who).Some? {
      Distribute(net, 0, BpsOf(splits, who).value);
    }
  }

  // ---- The platform fee ----

  function PlatformFee(gross: int, feeBps: nat): int { Portion(gross, feeBps) }

  function NetAmount(gross: int, feeBps: nat): int { gross - PlatformFee(gross, feeBps) }

  /** The fee never exceeds the amount, so both parts are non-negative. */
  lemma FeeWithinGross(gross: nat, feeBps: nat)
    requires feeBps <= TOTAL_BASIS_POINTS
    ensures 0 <= PlatformFee(gross, feeBps) <= gross
    ensures PlatformFee(gross, feeBps) + NetAmount(gross, feeBps) == gross
  {
    Distribute(gross, 10_000 - feeBps, feeBps);
    Distribute(gross, 0, 10_000 - feeBps);
  }

  // ---- Paying recipients out of a frozen net amount ----

  /** The sum of what the recipients were paid, where `paid` records one amount per address. */
  function PaidSum(splits: seq<Split>, paid: map<Address, int>): int {
    if splits == [] then 0
    else PaidSum(splits[..|splits| - 1], paid)
         + (var who := splits[|splits| - 1].recipient; if who in paid then paid[who] else 0)
  }

  /** Each recipient was paid nothing or exactly its share. */
  ghost predicate PaidAtMostOnce(splits: seq<Split>, organizer: Address, net: int, paid: map<Address, int>) {
    forall who :: who in paid ==> paid[who] == RecipientShare(splits, who, organizer, net)
  }

  lemma {:induction false} PaidPrefix(splits: seq<Split>, organizer: Address, net: nat, paid: map<Address, int>, n: nat)
    requires WellFormed(splits, organizer) && PaidAtMostOnce(splits, organizer, net, paid) && n <= |splits|
    ensures PaidSum(splits[..n], paid) <= SumOf(AllShares(splits, organizer, net)[..n])
    ensures (forall i :: 0 <= i < n ==> AllShares(splits, organizer, net)[i].amount > 0 ==> splits[i].recipient in paid)
      ==> PaidSum(splits[..n], paid) == SumOf(AllShares(splits, organizer, net)[..n])
    ensures PaidSum(splits[..n], paid) == SumOf(AllShares(splits, organizer, net)[..n]) ==>
      forall i :: 0 <= i < n ==> AllShares(splits, organizer, net)[i].amount > 0 ==> splits[i].recipient in paid
  {
    hide BpsSum, RecipientShare, WellFormed;
    if n > 0 {
      PaidPrefix(splits, organizer, net, paid, n - 1);
      ShareNonNegative(splits, splits[n - 1].recipient, organizer, net);
      assert splits[..n][..n - 1] == splits[..n - 1];
      assert AllShares(splits, organizer, net)[..n][..n - 1] == AllShares(splits, organizer, net)[..n - 1];
    }
  }

  /** The payments never exceed the frozen net amount, and reach it exactly when every positive share is paid. */
  lemma PaidWithinNet(splits: seq<Split>, organizer: Address, net: nat, paid: map<Address, int>)
    requires WellFormed(splits, organizer) && PaidAtMostOnce(splits, organizer, net, paid)
    ensures PaidSum(splits, paid) <= net
    ensures PaidSum(splits, paid) == net <==>
      forall i :: 0 <= i < |splits| ==>
        RecipientShare(splits, splits[i].recipient, organizer, net) > 0 ==> splits[i].recipient in paid
  {
    hide BpsSum, RecipientShare, WellFormed;
    PaidPrefix(splits, organizer, net, paid, |splits|);
    SharesSumToNet(splits, organizer, net);
    assert splits[..|splits|] == splits;
    assert AllShares(splits, organizer, net)[..|splits|] == AllShares(splits, organizer, net);
  }
}

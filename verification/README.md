# Verified model of an on-chain ticketing platform

A Dafny 4.11 model of two parts of the repository and proofs about them.
`dafny verify dfyconfig.toml` checks everything.

**The UltraHonk verifier** (`crates/ultrazk-soroban-verifier`).  Its loops over flat arrays
are methods over arrays and sequences; each is proved to compute a simple mathematical object:
an inverse, an interpolant, a hypercube sum, an iterated fold, a sum of opening claims, a hash
chain, a point of a curve.  The field is the integers modulo a symbolic prime with its inverse;
the constants stored as bytes are checked in the BN254 scalar field.

- `PrimeField`, `Polynomials`: congruences, inverses, interpolation and its uniqueness.
- `BatchInverse`: Montgomery batch inversion.
- `Sumcheck`, `SumcheckProtocol`, `Multilinear`, `MaskedSumcheck`: barycentric evaluation, the round loop, and
  completeness and soundness of the protocol it checks, with the mask of the last four rows and the Libra polynomial.
- `Gemini`, `Inversions`, `Shplonk`, `OpeningClaims`, `Shplemini`: the batch opening and its claims.
- `Libra`, `LibraTables`, `LibraProofs`, `LibraCheck`: the Libra evaluation check, what its table of challenge powers is
  for, its completeness, and what its identity says about the claim.
- `Openings`, `OpeningSoundness`: completeness of the batch opening for an honest prover, and soundness
  against one who knows the polynomials behind its commitments; `LuckyChallenges`: how few challenges let a false claim pass.
- `EllipticGate`: subrelations 10 and 11 and the group law on y^2 = x^3 - 17.
- `Encoding`, `Transcript`: point encoding, the challenge generators, what they absorb byte for byte, the integer values of
  the challenges, and binding.

**The contracts** (`contracts/ticket`, `contracts/event`, `contracts/payments`,
`contracts/common-utils`).  Each contract is a class whose fields are its storage entries and whose
methods are its entry points, written in the order of the code; every method is proved equal to a
step function on the stored state, and to keep the invariant its results rest on.  Runs are sequences
of steps of any kind and any arguments, and the main results are invariants of every run.

- `OwnerIndex`, `EventTicketIndex`, `TicketContract`, `TicketHistory`, `AttendeeIndex`: ticket ownership, who can change it
  and how often, and the indexes, two of them with removal by swapping in the last entry.
- `EventSpec`, `EventContract`, `EventCapacity`, `AnonymousClaims`, `EventRegistrations`, `EventRules`: tiers, reservations,
  purchases, rate windows and nullifiers; who is registered, how often; and exactly when each operation succeeds.
- `RevenueSplits`: split validation and share arithmetic.
- `PaymentsSpec`, `PaymentsContract`: the escrow.
- `EscrowLedger`, `EscrowInvariants`: conservation and what every reachable state satisfies.
- `EscrowWallets`: whose wallet each operation takes tokens from and whose it pays, and how much.
- `EscrowFrames`, `EscrowIdentities`, `EscrowRules`: what each operation leaves alone, replay protection and limits over
  whole runs, and exactly when each operation succeeds.
- `EscrowDisputes`, `EscrowSplits`, `EscrowCancellation`: revenue until the first payout, split
  settlement, and solvency of cancelled events.
- `EscrowAccounts`, `EventBooks`: the account of one event in every run, and exactly when its books
  can fall below zero.
- `CancellationCover`, `CancellationPayouts`, `CancellationFunds`: when a cancelled event stays covered,
  exactly which payouts and approvals keep it so, and when its claims and its settlement can be paid.
- `EscrowRuns`: runs from deployment in which one event pays out more than was paid in for it.

Conventions.  A call that returns an error or is stopped by the host changes nothing; where the
code writes before it fails, the methods write and roll back.  Callers named in an operation are
authenticated.  Calls into other contracts, proof checks and signatures are boolean parameters.
The ledger number and the time are fields that only grow.  Integers are unbounded: the contracts
are built with overflow checks, so an overflow of `i128` or `u32` is a call stopped by the host,
and where the code itself checks or saturates, the bound is written out.  `Address` stands for
every address except the payments contract's own.  Divisions of possibly negative amounts truncate
toward zero as in the source.

Where the code differs from its own text, the code is followed.  A comment in `shplemini.rs`
(line 189) says that shifted commitments are merged into their unshifted counterparts, but the code
places them in slots of their own (lines 294-304).  `verify_and_attend` calls no verifier.
The Libra identity (`shplemini.rs` lines 74-86) does not by itself fix the claimed evaluation: `IdentityMeans` says that it does
exactly when the grand sum starts at zero, and `EveryClaim` gives a grand sum for any other claim.
`buy_resale_ticket` removes a stale listing and then returns an error, so the removal is undone.
`raise_dispute` takes the full amount out of the revenue even after a partial refund: the lemma
`CoversHeldIff` says in which runs exactly the revenue still equals what is left of the held payments,
`RaiseCoversIff`, `RejectCoversIff` and `ClaimCoversIff` which steps keep it so, and
`PartialRefundThenDispute` is a run where it does not.

No payout looks at what is still refundable, and a refund looks at most at two flags, never at the amounts
paid out: `withdraw_token` and `withdraw_all_tokens` set neither flag, and after the other payouts claims and
approved disputes are still paid.  So refunds of an event can spend other events' tokens, although
`validate_revenue_invariant` (`contracts/payments/src/lib.rs` lines 228-250) guards each payout.
`RefundAfterWithdrawal` is such a run, `EventAccount` the account of one event in every run, and
`NeverBelowIff` the exact condition under which refunds cannot take its books below zero: what was withdrawn
is at most what can no longer be refunded, or the contract holds nothing beyond the event's books.

The cancellation pool is computed from the whole volume, so the solvency results are stated for
events without earlier refunds beyond a payment's refundable part and without an earlier settlement.  They
exclude, for the cancelled event, further status changes and four operations that can take it beyond its volume:
an approved dispute, which refunds more than the refundable part; the administrator's `withdraw_revenue`; and two
that settle the event a second time, `release_if_expired`, which anybody may call and which shares neither the
ratio nor the `organizer_withdrawn` latch, and `sync_revenue_splits`, since `ensure_split_settled` never reads
that latch.  `ApproveAfterWithdrawal`, `AdministratorPayoutThenClaim`, `ReleaseThenClaim` and
`SplitAfterWithdrawal` are runs in which 15 leave a volume of 10.  `ApproveSafeIff`, `WithdrawRevenueSafeIff`,
`ReleaseSafeIff` and `SplitSafeIff` say exactly when they do not, in amounts stored before the call: refunds, the
refundable parts still open, everything paid out or owed, and the position of the event, which is zero unless
resales, approved disputes or a full-ratio settlement moved it (`RunPosition`).  After another status change
`NeverBelowIff` is the condition.

Two further points a reader of the code may not expect.  `withdraw_token` and `withdraw_all_tokens` pay
whichever caller names itself organizer: the argument is authenticated but not compared with the event's
organizer (`contracts/payments/src/lib.rs` lines 1799-1914, `AnyoneDrains`).  A ticket transfer leaves the previous owner's recovery key in
place; after a transfer somebody can recover the ticket exactly when a key was stored (`contracts/ticket/src/lib.rs` lines 135-187 and 323-355,
`TransferKeepsKey`, and the run `KeyOutlivesTransfer`).

## Model

| member | source | states |
|---|---|---|
| PrimeFields.Inverse | crates/ultrazk-soroban-verifier/src/field.rs:97-99 | For every non-zero element of a prime field the inverse function gives a field element whose product with it is one (extended Euclid). |
| BatchInversion.BatchInverse | crates/ultrazk-soroban-verifier/src/field.rs:112-143 | On any slice, `Ok` exactly when no element is zero, and then each output slot is the inverse of the same input slot; prefix products and one inversion. |
| BatchInversion.ProductNonzero | crates/ultrazk-soroban-verifier/src/field.rs:131-134 | The total product the code tests is zero exactly when some element is zero, so one test decides all of them. |
| BatchInversion.InvertsUnique | crates/ultrazk-soroban-verifier/src/field.rs:112-143 | The buffer of inverses is determined by the input slice, so it does not depend on how the inverses are computed. |
| Sumcheck.BaryTableCorrect | crates/ultrazk-soroban-verifier/src/sumcheck.rs:19-65 | The nine stored constants are the products of (i - j) over j != i, and non-zero, in the BN254 scalar field; checked on the literal bytes. |
| Sumcheck.ComputeNextTargetSum | crates/ultrazk-soroban-verifier/src/sumcheck.rs:85-124 | Returns the value at the challenge of the polynomial given at 0..8, on the short-circuit path and on the barycentric path; the "denominator is zero" error is unreachable. |
| Sumcheck.UnivariateIsThePolynomial | crates/ultrazk-soroban-verifier/src/sumcheck.rs:85-124 | That value is S(x) for every polynomial S of degree at most 8 with those nine values, so the interpolation is exact and unique. |
| Sumcheck.RunRounds | crates/ultrazk-soroban-verifier/src/sumcheck.rs:172-195 | The round loop succeeds exactly when every round satisfies S(0) + S(1) = target, and returns the last target and the accumulated gate separator; a failing round gives "round failed". |
| Sumcheck.MaskProduct | crates/ultrazk-soroban-verifier/src/sumcheck.rs:206-209 | The masking factor is the product of the challenges from index 2 on; `MaskIsMle` says which mask of the table that is. |
| Sumcheck.VerifySumcheck | crates/ultrazk-soroban-verifier/src/sumcheck.rs:153-229 | Complete outcome of the verifier: the range error exactly outside 1..28, the round error, acceptance exactly when the last target is the masked relation sum, and otherwise the mismatch error; `HonestProofAccepted` and `AcceptedProofSound` say what is accepted. |
| Multilinear.MaskIsMle | crates/ultrazk-soroban-verifier/src/sumcheck.rs:206-209 | For every us and every n up to its length, one minus the masking factor is the multilinear extension at us[..n] of the table of 2^n entries that is 0 on the last four rows and 1 on all others. |
| MaskedSumcheck.HonestProofAccepted | crates/ultrazk-soroban-verifier/src/sumcheck.rs:153-229 | Completeness of the whole verifier: honest messages for a relation that vanishes on all rows but the last four, masked by that table and by a Libra polynomial with the cube sum sent, pass every round and the final check; no hypothesis about the masked sum. |
| MaskedSumcheck.AcceptedProofSound | crates/ultrazk-soroban-verifier/src/sumcheck.rs:153-229 | Soundness: if true evaluations of the prover data are accepted, masked relation plus Libra polynomial sum over the cube to what was sent, or some round had a lucky challenge. |
| SumcheckProtocol.HonestMessageValue | crates/ultrazk-soroban-verifier/src/sumcheck.rs:153-195 | A message carrying the nine values of the honest round univariate of g evaluates at any point to the partial hypercube sum of g there. |
| SumcheckProtocol.SumcheckComplete | crates/ultrazk-soroban-verifier/src/sumcheck.rs:153-195 | Completeness: for any g in n variables of degree at most 8 in each, honest messages for the true hypercube sum pass every round and end with target g(u). |
| SumcheckProtocol.SumcheckSound | crates/ultrazk-soroban-verifier/src/sumcheck.rs:153-195 | Soundness: if all rounds pass and end at g(u) but the start is not the hypercube sum of g, some round sent a univariate other than the honest one that agrees with it at its challenge. |
| SumcheckProtocol.FewAgreements | crates/ultrazk-soroban-verifier/src/sumcheck.rs:153-195 | A message other than the honest one agrees with it in at most 8 points, so each round has at most 8 such challenges. |
| SumcheckProtocol.HonestInputAccepted | crates/ultrazk-soroban-verifier/src/sumcheck.rs:153-229 | An input with honest messages, the right start and g(u) as masked relation sum passes all rounds and the final check of the verifier. |
| SumcheckProtocol.AcceptedInputSound | crates/ultrazk-soroban-verifier/src/sumcheck.rs:153-229 | An accepted input whose start is not the hypercube sum had a lucky round. |
| Multilinear.GateSeparatorIsMle | crates/ultrazk-soroban-verifier/src/sumcheck.rs:133-140 | For every k, the gate separator after k rounds, which looks at the first k entries of the 28-entry arrays, is the sum over all bit vectors b of prod eq(b_i, u_i) times prod beta_i^b_i: the multilinear extension of the power table. |
| Multilinear.FoldAll | crates/ultrazk-soroban-verifier/src/shplemini.rs:308-319 | Folding a table of length 2^n even/odd by u_0..u_(n-1) leaves the single value of its multilinear extension at u. |
| Multilinear.FoldIdentity | crates/ultrazk-soroban-verifier/src/shplemini.rs:308-319 | 2x Fold(A)(x^2) = (x(1-u)+u) A(x) + (x(1-u)-u) A(-x): the identity one fold round solves. |
| Gemini.FoldsReconstruct | crates/ultrazk-soroban-verifier/src/shplemini.rs:308-319 | From the multilinear evaluation and A_j(-r^(2^j)) the downward recurrence gives A_j(r^(2^j)) for every j whenever the fold denominators are non-zero. |
| Shplemini.FoldLoop | crates/ultrazk-soroban-verifier/src/shplemini.rs:308-319 | The loop over the inverted fold denominators solves that recurrence in every round. |
| Inversions.LayoutBijective | crates/ultrazk-soroban-verifier/src/shplemini.rs:128-150 | The slot layout of the packed inversion array is a bijection between indices and the denominators they stand for. |
| Inversions.RPowers | crates/ultrazk-soroban-verifier/src/shplemini.rs:118-126 | The powers array holds r^(2^i). |
| Inversions.FillDenominators | crates/ultrazk-soroban-verifier/src/shplemini.rs:152-168 | Every slot of the packed array is written with exactly its denominator, and the slots written are all of them. |
| Inversions.ReadBack | crates/ultrazk-soroban-verifier/src/shplemini.rs:170-186 | Each index read back after the inversion is the inverse of the denominator it stands for. |
| Inversions.ZeroSomewhere | crates/ultrazk-soroban-verifier/src/shplemini.rs:170-180 | The packed array contains a zero exactly when one of the named denominators is zero. |
| Shplemini.EntityScalars | crates/ultrazk-soroban-verifier/src/shplemini.rs:196-225 | The scalars of the 40 entities and the batched evaluation sum of rho^i times the evaluations. |
| Shplemini.FoldSlots | crates/ultrazk-soroban-verifier/src/shplemini.rs:320-344 | The fold slots of the flat arrays, including the dummy commitments, and the constant term they add. |
| Shplemini.LibraSlots | crates/ultrazk-soroban-verifier/src/shplemini.rs:346-366 | The three Libra slots, the grand-sum slot holding the sum of two scalars, and the constant term they add. |
| Shplonk.MsmIsClaimSum | crates/ultrazk-soroban-verifier/src/shplemini.rs:188-383 | The flat 74-slot sum equals Q + z W minus the sum over all opening claims of nu^e (C - v G)/(z - x), for every layout and every number of rounds. |
| Shplonk.ClaimExponents | crates/ultrazk-soroban-verifier/src/shplemini.rs:320-366 | The exponents of nu of all claims are pairwise distinct. |
| OpeningClaims.ClaimList | crates/ultrazk-soroban-verifier/src/shplemini.rs:188-366 | All 2n + 4 opening claims one by one: commitment (with the powers rho to rho^40 of the entities in order), value, point (r, -r, r^(2^j), -r^(2^j), and r, g r, r, r for Libra) and power of nu (0 to 2n - 1, and 58 to 61). |
| OpeningClaims.BatchedEvalIs | crates/ultrazk-soroban-verifier/src/shplemini.rs:205-225 | The fold recurrence starts from the hiding evaluation plus rho times the evaluations as a polynomial in rho. |
| Shplonk.ClaimsSound | crates/ultrazk-soroban-verifier/src/shplemini.rs:182-200 | In each claim the weight used is the inverse of z minus the claim point. |
| Shplemini.VerifyShplemini | crates/ultrazk-soroban-verifier/src/shplemini.rs:107-390 | The whole check: refused for a size outside 1..28, a zero denominator, r in the subgroup or a failing Libra identity (never for honest ones, `HonestNotRefused`); otherwise the first pairing argument is the sum of opening claims and the answer is the pairing of it with the negated quotient; `ClaimList` spells the claims out. |
| Libra.StoredGenerator | crates/ultrazk-soroban-verifier/src/shplemini.rs:22-30 | The stored constants are a generator of order 256 of the BN254 scalar field and its inverse; checked on the literal bytes. |
| Libra.SubgroupEvaluation | crates/ultrazk-soroban-verifier/src/shplemini.rs:55-72 | The weighted sum of inverted denominators times (r^256 - 1)/256 is the value at r of the polynomial of degree below 256 with the given values on the subgroup. |
| Libra.DftIsInterpolant | crates/ultrazk-soroban-verifier/src/shplemini.rs:55-72 | That polynomial, written by powers of the generator, is the unique interpolant on the subgroup. |
| Libra.DenominatorsNonzero | crates/ultrazk-soroban-verifier/src/shplemini.rs:55-63 | For r^256 != 1 no denominator is zero, so the "Libra denominator is zero" error is unreachable. |
| LibraCheck.FillChallengeLagrange | crates/ultrazk-soroban-verifier/src/shplemini.rs:45-53 | The 256 values are one, then for each challenge its powers 0..8, then zeros, entry by entry; `PowersEvaluate` says what they are for. |
| LibraTables.PowersEvaluate | crates/ultrazk-soroban-verifier/src/shplemini.rs:45-53 | For every table of a constant c_0, then nine coefficients of g_k for each round k, then zeros: its inner product with those values is c_0 plus the sum over all rounds of g_k(u_k). |
| LibraCheck.FillDenominators | crates/ultrazk-soroban-verifier/src/shplemini.rs:55-61 | Denominator i is w^-i r - 1. |
| LibraCheck.CheckLibraEvaluations | crates/ultrazk-soroban-verifier/src/shplemini.rs:32-89 | Accepts exactly when r^256 != 1 and the grand-sum identity holds at r, with the three Lagrange evaluations replaced by values of interpolants; with r^256 != 1 the openings of an honest prover are accepted. |
| LibraCheck.HonestAccepted | crates/ultrazk-soroban-verifier/src/shplemini.rs:32-89 | Completeness: the openings at r and g r of any table as above, of its grand sum and of the quotient, claimed with the inner product, satisfy the identity the code checks, for every r outside the subgroup. |
| LibraProofs.HonestDivides | crates/ultrazk-soroban-verifier/src/shplemini.rs:74-86 | The honest numerator vanishes on the whole subgroup, so the honest quotient is exact. |
| LibraProofs.IdentityMeans | crates/ultrazk-soroban-verifier/src/shplemini.rs:74-86 | If the identity holds as polynomials, the claim differs from the inner product by a fixed non-zero multiple of the first value of the grand sum: the claim is the inner product if and only if that value is zero. |
| LibraProofs.EveryClaim | crates/ultrazk-soroban-verifier/src/shplemini.rs:74-86 | Without that condition the identity fixes nothing: for every claim there are a grand sum and a quotient that satisfy it as polynomials. |
| LibraCheck.AcceptedLibra | crates/ultrazk-soroban-verifier/src/shplemini.rs:32-89 | Accepted openings of known polynomials: the claim is the inner product exactly when the grand sum starts at zero, or r is a root of a non-zero polynomial fixed by them. |
| Openings.HonestNotRefused | crates/ultrazk-soroban-verifier/src/shplemini.rs:107-390 | An honest prover is refused before the pairing check only for a bad size, a zero denominator or r in the subgroup. |
| Openings.OpeningComplete | crates/ultrazk-soroban-verifier/src/shplemini.rs:107-390 | Completeness: for every secret point, tables and challenges, an honest prover's commitments, evaluations, fold and Libra openings and two quotients satisfy the pairing check that decides `verify_shplemini`, unless a denominator is zero. |
| Openings.HonestClaimsTrue | crates/ultrazk-soroban-verifier/src/shplemini.rs:196-366 | Every opening claim of an honest prover is true: commitment minus value vanishes at the claim point, the shifted entities through the division of their wires by X, and the folds through the reconstructed values. |
| Openings.ClaimsOpen | crates/ultrazk-soroban-verifier/src/shplemini.rs:366-390 | Any list of true claims with the honest quotients makes Q + z W less the claim sum equal to tau W. |
| OpeningSoundness.AcceptedOpening | crates/ultrazk-soroban-verifier/src/shplemini.rs:107-390 | Soundness for a prover who knows the polynomials behind its commitments: if the pairing check accepts, every opening claim is true of them, or the secret point, z or nu is a root of a non-zero polynomial; the one for nu has at most 62 coefficients. |
| OpeningSoundness.FalseClaimNeedsLuck | crates/ultrazk-soroban-verifier/src/shplemini.rs:366-390 | The same for any claims with different powers of nu; the polynomial for nu is built from commitments and claims alone, the one for z also from nu and Q, the one for the secret point from everything sent. |
| LuckyChallenges.FewLucky | crates/ultrazk-soroban-verifier/src/shplemini.rs:366-390 | A non-zero polynomial has fewer different roots than coefficients, so each challenge has few lucky values. |
| EllipticGate.AccumulateElliptic | crates/ultrazk-soroban-verifier/src/relations.rs:188-238 | Subrelations 10 and 11 get the gated identities and every other slot of the buffer is untouched. |
| EllipticGate.AddModeExact | crates/ultrazk-soroban-verifier/src/relations.rs:188-238 | Add mode: for selector, separator, sign^2 = 1 and x1 != x2, both subrelations vanish exactly when (x3, y3) is the chord sum of (x1, y1) and (x2, sign y2). |
| EllipticGate.DoubleModeExact | crates/ultrazk-soroban-verifier/src/relations.rs:188-238 | Double mode: for a curve point with y1 != 0, both subrelations vanish exactly when (x3, y3) is its tangent double. |
| EllipticGate.ChordSumOnCurve | crates/ultrazk-soroban-verifier/src/relations.rs:188-238 | The chord sum of two points of y^2 = x^3 - 17 is again on the curve. |
| EllipticGate.TangentDoubleOnCurve | crates/ultrazk-soroban-verifier/src/relations.rs:188-238 | The tangent double of a curve point is again on the curve. |
| EllipticGate.AddGateOnCurve | crates/ultrazk-soroban-verifier/src/relations.rs:188-238 | A passing gate in add mode between curve points outputs a curve point, for either sign. |
| EllipticGate.DoubleGateOnCurve | crates/ultrazk-soroban-verifier/src/relations.rs:188-238 | A passing gate in double mode outputs a curve point. |
| Encoding.PointRoundTrip | crates/ultrazk-soroban-verifier/src/utils.rs:57-81 | Decoding a 128-byte chunk undoes the encoding of a point. |
| Encoding.PointBytesInjective | crates/ultrazk-soroban-verifier/src/transcript.rs:28-48 | Different points have different encodings. |
| Encoding.BigEndianRoundTrip | crates/ultrazk-soroban-verifier/src/transcript.rs:94-98 | Reading the big-endian bytes of a number that fits gives the number back. |
| Encoding.U64Injective | crates/ultrazk-soroban-verifier/src/transcript.rs:94-98 | Different 64-bit numbers have different 32-byte words. |
| Encoding.FlatInjective | crates/ultrazk-soroban-verifier/src/transcript.rs:109-366 | Concatenations of items of the same sizes are equal only if the items are. |
| Encoding.LimbValues | crates/ultrazk-soroban-verifier/src/transcript.rs:28-42 | The two words of a coordinate are the coordinate modulo 2^136 and divided by it. |
| Encoding.U64Value | crates/ultrazk-soroban-verifier/src/transcript.rs:94-98 | The 32-byte word of a size reads back as the size. |
| Encoding.FlatUniform | crates/ultrazk-soroban-verifier/src/transcript.rs:109-366 | Item k of a buffer of equally long items is found at k times their length. |
| Transcripts.ChallengeValues | crates/ultrazk-soroban-verifier/src/transcript.rs:59-71 | As integers: eta + 2^128 etaTwo is the first chained hash and beta + 2^128 gamma the third, each pair of alphas likewise, and every other challenge is its hash modulo 2^128; all are below 2^128. |
| Transcripts.PreambleLayout | crates/ultrazk-soroban-verifier/src/transcript.rs:109-143 | Byte offsets of what the first hash absorbs: the sizes, the public inputs, then the points, each at its place. |
| Transcripts.Chained | crates/ultrazk-soroban-verifier/src/transcript.rs:145-370 | Every later buffer starts with the previous hash. |
| Transcripts.CommitmentLayout | crates/ultrazk-soroban-verifier/src/transcript.rs:145-211 | Byte offsets of the commitments absorbed by the second and third steps. |
| Transcripts.RoundLayout | crates/ultrazk-soroban-verifier/src/transcript.rs:263-301 | Byte offsets of the Libra commitment and sum, and of each round message. |
| Transcripts.EvaluationLayout | crates/ultrazk-soroban-verifier/src/transcript.rs:303-338 | Byte offsets of the evaluations and of the further commitments. |
| Transcripts.OpeningLayout | crates/ultrazk-soroban-verifier/src/transcript.rs:324-370 | Byte offsets of the fold commitments, the fold and Libra evaluations and the Shplonk commitment. |
| Transcripts.GenerateEta | crates/ultrazk-soroban-verifier/src/transcript.rs:109-143 | Sizes, public inputs and the first commitments are absorbed into the first hash and split into the eta challenges; what the halves are is `ChallengeValues`. |
| Transcripts.GenerateBetaGamma | crates/ultrazk-soroban-verifier/src/transcript.rs:145-169 | The second step of the chain. |
| Transcripts.GenerateAlphas | crates/ultrazk-soroban-verifier/src/transcript.rs:171-211 | The third step and the loop deriving the 25 alphas. |
| Transcripts.GenerateGates | crates/ultrazk-soroban-verifier/src/transcript.rs:249-261 | One step of the chain for each gate challenge. |
| Transcripts.GenerateLibra | crates/ultrazk-soroban-verifier/src/transcript.rs:263-277 | The Libra step. |
| Transcripts.GenerateSumcheck | crates/ultrazk-soroban-verifier/src/transcript.rs:279-301 | One step per sumcheck round absorbing that round message. |
| Transcripts.GenerateRho | crates/ultrazk-soroban-verifier/src/transcript.rs:303-322 | The evaluations step. |
| Transcripts.GenerateGeminiR | crates/ultrazk-soroban-verifier/src/transcript.rs:324-338 | The fold commitments step. |
| Transcripts.GenerateNu | crates/ultrazk-soroban-verifier/src/transcript.rs:340-357 | The fold and Libra evaluations step. |
| Transcripts.GenerateZ | crates/ultrazk-soroban-verifier/src/transcript.rs:359-370 | The last step. |
| Transcripts.GenerateTranscript | crates/ultrazk-soroban-verifier/src/transcript.rs:412-458 | The generators, run in the order of the code, produce the challenges of one hash chain over the absorbed items, with the integer values of `ChallengeValues`. |
| Transcripts.TranscriptBinding | crates/ultrazk-soroban-verifier/src/transcript.rs:109-458 | Two runs ending in the same final chained hash absorbed the same items (everything except the KZG quotient), or some step exhibits two different buffers with the same hash. |
| Transcripts.RoundChallengeCausal | crates/ultrazk-soroban-verifier/src/transcript.rs:279-301 | The challenge of round r depends only on the statement, the earlier items and the messages up to round r. |
| OwnerIndexes.ListedOnce | contracts/ticket/src/storage.rs:214-230 | In a consistent index an owner lists a ticket exactly once if there is a back-pointer and not at all otherwise, and the back-pointer names its slot. |
| OwnerIndexes.AddKeeps | contracts/ticket/src/storage.rs:59-86 | Adding keeps the index consistent, appends to the owner listing and changes no other listing. |
| OwnerIndexes.RemoveKeeps | contracts/ticket/src/storage.rs:96-153 | Removing keeps the index consistent and deletes exactly one back-pointer. |
| OwnerIndexes.RemoveListing | contracts/ticket/src/storage.rs:96-153 | Removing is the swap-remove of the owner listing; other listings do not change. |
| OwnerIndexes.RemovalsAgree | contracts/payments/src/storage.rs:440-492 | The payments variant, which leaves the slots alone when the count is zero, agrees with the ticket variant on every consistent index. |
| OwnerIndexes.OwnerTicketStore.Add | contracts/ticket/src/storage.rs:59-86 | The storage writes are the specified addition. |
| OwnerIndexes.OwnerTicketStore.Remove | contracts/ticket/src/storage.rs:96-153 | The storage writes are the specified removal, a swap-remove of the listing. |
| OwnerIndexes.OwnerTicketStore.RemoveCounted | contracts/payments/src/storage.rs:440-492 | The storage writes of the payments contract removal. |
| OwnerIndexes.OwnerTicketStore.GetTicketsByOwner | contracts/ticket/src/storage.rs:214-230 | The listing loop returns the owner listing. |
| TicketContract.Contract.MintTicket | contracts/ticket/src/lib.rs:23-75 | Mints with the next id and indexes it under owner and event; the invariant of records and indexes is kept. |
| TicketContract.Contract.BatchMintTicket | contracts/ticket/src/lib.rs:76-134 | The loop is that many mints in order, under owner and event, and returns their consecutive ids; sizes 0 and above 100 are refused; the invariant is kept. |
| TicketContract.Contract.TransferTicket | contracts/ticket/src/lib.rs:135-187 | Checks in the order of the code, then the record and both owners change; a recovery key set before still recovers the ticket afterwards; the invariant is kept. |
| TicketContract.Contract.AdminTransferTicket | contracts/ticket/src/lib.rs:398-434 | The same for the payments contract. |
| TicketContract.Contract.UseTicket | contracts/ticket/src/lib.rs:192-251 | Marks a valid ticket used, each other status having its error; from a state with the invariant the used ticket then stays as it is through every later run of any operations. |
| TicketContract.Contract.CancelTicket | contracts/ticket/src/lib.rs:269-298 | Cancels a valid ticket of its owner; the cancelled ticket then stays as it is through every later run. |
| TicketContract.Contract.PutRecoveryKey | contracts/ticket/src/lib.rs:299-322 | Stores a recovery key for a valid ticket of its owner; afterwards a correct signature moves the ticket to any new owner, exactly once. |
| TicketContract.Contract.RecoverTicket | contracts/ticket/src/lib.rs:323-355 | Moves a valid ticket with a recovery key and a correct signature and spends the key. |
| TicketSpec.RunInv | contracts/ticket/src/lib.rs:23-434 | Every run of mint, batch mint, transfer, admin transfer, use, cancel, recovery and settings keeps both indexes, records and ids in agreement. |
| TicketSpec.OwnerListings | contracts/ticket/src/storage.rs:59-153 | In every run an owner lists a ticket exactly once iff its record names that owner, the back-pointer names the slot, and the counts over all owners add up to the number of minted tickets. |
| TicketSpec.EventListings | contracts/ticket/src/storage.rs:156-180 | In every run an event lists exactly its minted tickets, each once and in the order of their ids, and the flags say the same. |
| TicketSpec.FinalTicketsFrozen | contracts/ticket/src/lib.rs:192-298 | A used or cancelled ticket never changes again; no operation changes a ticket event or organizer. |
| TicketSpec.FrozenForever | contracts/ticket/src/lib.rs:192-298 | A used or cancelled ticket is the same in every later run. |
| TicketSpec.TransferKeepsKey | contracts/ticket/src/lib.rs:135-187 | After every successful transfer the ticket can be recovered by somebody if and only if a recovery key was stored before; with a key it can be moved to anybody, in particular back, and without one every attempt fails as not found. |
| TicketSpec.KeyOutlivesTransfer | contracts/ticket/src/lib.rs:299-355 | A run from the initial state: minted, keyed, transferred, and taken back by the previous owner through the key. |
| TicketHistory.TransferIff | contracts/ticket/src/lib.rs:135-187 | In every reachable state a transfer succeeds exactly between different addresses, for a valid ticket, asked by its owner, and the payments contract moves exactly valid tickets of the named owner; only the owner field changes. |
| TicketHistory.UseIff | contracts/ticket/src/lib.rs:192-355 | Check-in, cancelling, key setting and recovery succeed exactly for a valid ticket with, respectively, organizer and owner, the owner, the owner, and a stored key with a correct signature. |
| TicketHistory.MintIff | contracts/ticket/src/lib.rs:23-134 | Minted tickets are valid, unused, transferable, numbered on and named as asked; a batch has 1 to 100 of them. |
| TicketHistory.RunSound | contracts/ticket/src/lib.rs:23-434 | In every run each ticket is transferable, and marked used exactly if its status is used. |
| TicketHistory.ChangesAuthorized | contracts/ticket/src/lib.rs:135-434 | A ticket changes owner only by a transfer of its owner, of the payments contract or by a signed recovery with a stored key; is used only by organizer and owner, and cancelled only by its owner; and never becomes valid again. |
| TicketHistory.EndsOnce | contracts/ticket/src/lib.rs:192-298 | In every run a ticket is checked in or cancelled at most once in all, and is valid until then. |
| TicketHistory.KeysRecoverOnce | contracts/ticket/src/lib.rs:299-355 | In every run the recoveries of a ticket never outnumber the keys its owners set. |
| EventTicketIndexes.AddListing | contracts/ticket/src/storage.rs:156-180 | Adding appends to the listing of its event and to no other, whatever the index holds. |
| EventTicketIndexes.EventTicketStore.Add | contracts/ticket/src/storage.rs:156-180 | The storage writes append the ticket; listings stay ascending and the flags agree with them. |
| EventTicketIndexes.EventTicketStore.GetTicketsByEvent | contracts/ticket/src/storage.rs:232-246 | The listing loop returns the event listing. |
| EventContract.Contract.FindTierIndex | contracts/event/src/lib.rs:867-884 | The search loop finds the first tier with the id. |
| EventContract.Contract.PushOneTier | contracts/event/src/lib.rs:133-155 | One tier appended with its bounds checked; while the event is upcoming the capacity invariant is kept, the supply grows by the capacity, the new tier is found under its own id with all seats free, and every other id finds the tier it found before. |
| EventContract.Contract.AddTicketTier | contracts/event/src/lib.rs:342-390 | Only the organizer of an upcoming event adds a tier; the same consequences follow for any state with the capacity invariant. |
| EventContract.Contract.UpdateTicketTier | contracts/event/src/lib.rs:392-458 | Price and capacity edits with every refusal of the code; the supply follows the capacity. |
| EventContract.Contract.ReserveTicket | contracts/event/src/lib.rs:700-768 | An unexpired reservation is kept, an expired one is given back first, and a free seat is held for 900 seconds; the capacity invariant is kept. |
| EventContract.Contract.ReleaseExpiredReservation | contracts/event/src/lib.rs:770-803 | Gives the seat of an expired reservation back. |
| EventContract.Contract.RecordSale | contracts/event/src/lib.rs:918-934 | The writes of a purchase: sold counts, registration, reservation and free-claim counters; afterwards the buyer is registered and holds no reservation. |
| EventContract.Contract.RegisterForEvent | contracts/event/src/lib.rs:805-939 | All refusals in order, then the sale of one seat to an attendee who was not registered and now is; `RegisterIff` and `PurchaseEffects` say exactly when and what. |
| EventContract.Contract.BatchRegisterForEvent | contracts/event/src/lib.rs:945-1097 | All refusals in order, then the sale of several seats to an attendee who is registered afterwards; `BatchIff` and `PurchaseEffects` say exactly when and what. |
| EventContract.Contract.ClaimAnonymousTicket | contracts/event/src/lib.rs:1246-1335 | Idempotent replay, refusals, rate window and the sale of one seat. |
| EventContract.Contract.VerifyAndAttendEvent | contracts/event/src/lib.rs:1361-1442 | Refusals, nullifier and the sale of one seat. |
| EventContract.ReserveHonoured | contracts/event/src/lib.rs:700-768 | After a successful reservation its holder is told neither that the tier nor that the event is sold out, registering singly or as a batch of one. |
| EventCapacity.ReachableInv | contracts/event/src/lib.rs:700-1085 | In every reachable state each tier counts exactly its stored reservations, sold plus reserved stays within capacity, the sold count is the sum over tiers and the supply is the sum of capacities. |
| EventCapacity.StepInv | contracts/event/src/lib.rs:342-1442 | Every operation, successful or refused, keeps that invariant. |
| EventCapacity.ReservationHonoured | contracts/event/src/lib.rs:805-939 | A caller with an unexpired reservation for the tier is never refused with EventSoldOut or TierSoldOut, registering one seat singly or as a batch of one. |
| EventRegistrations.PurchasedOnce | contracts/event/src/lib.rs:700-939 | After a single or batch purchase by an attendee, in every later run without the removal of its registration: it is registered, its reservations are answered AlreadyRegistered while the event is active, and no single registration of it succeeds. |
| EventRegistrations.SinglesBound | contracts/event/src/lib.rs:805-939 | In every run the single registrations of one attendee are at most one more than the removals of its registration. |
| EventRegistrations.FreeLimit | contracts/event/src/lib.rs:825-849 | Until the limits are changed, in every run an attendee gets at most the maximum of free seats, counted exactly. |
| EventRegistrations.NullifierOnce | contracts/event/src/lib.rs:1361-1442 | In every run a nullifier of a verified attendance is accepted at most once, and exactly if it is used at the end. |
| EventRegistrations.StepStatus | contracts/event/src/lib.rs:460-640 | Seats are sold only while the event is active, and the status changes only along the lifecycle. |
| EventRegistrations.ClosedForever | contracts/event/src/lib.rs:460-520 | A completed or cancelled event stays so in every run and never sells another seat. |
| EventRules.RegisterIff | contracts/event/src/lib.rs:805-939 | In every state with the capacity invariant a single registration succeeds exactly for an active, public event, a new attendee, a free seat or its own running reservation of that tier, and within the free-claim limits. |
| EventRules.BatchIff | contracts/event/src/lib.rs:945-1097 | The same for batches of 1 to 100 seats, with the per-user maximum. |
| EventRules.PurchaseEffects | contracts/event/src/lib.rs:918-934 | A purchase moves exactly its seats from free or held to sold in one tier and in the total, registers the buyer, uses up its reservation and counts free seats, and touches nobody else. |
| EventRules.ReserveIff | contracts/event/src/lib.rs:700-768 | A reservation succeeds exactly for an active event, an unregistered attendee and a seat left (its own expired one counting); it lasts 900 seconds, a running one is kept as it is, and only the two tiers concerned change. |
| EventRules.ReleaseIff | contracts/event/src/lib.rs:770-803 | Exactly reservations at or past their expiry can be released, which frees one seat of their tier. |
| EventRules.ClaimIff | contracts/event/src/lib.rs:1246-1335 | A fresh anonymous claim succeeds exactly for a free seat of a free tier with a proof that expires within 17280 ledgers and a window not full; it sells one seat and stores its commitment. |
| EventRules.AttendIff | contracts/event/src/lib.rs:1361-1442 | A verified attendance succeeds exactly where required and enabled, with the required claim type, before its expiry, with an unused nullifier and a free seat. |
| EventRules.UpdateTierIff | contracts/event/src/lib.rs:392-458 | Exactly the organizer of an upcoming event edits tiers; price and capacity are the new ones and the supply follows. |
| EventRules.OthersCannotManage | contracts/event/src/lib.rs:342-640 | In every run without an operation of its organizer an event keeps its lifecycle state, tiers, prices, capacities, supply, limits and settings, whatever others try. |
| AnonymousClaims.WindowBound | contracts/event/src/lib.rs:1297-1310 | While the settings stay fixed and positive, every run admits at most the maximum of fresh claims in each window. |
| AnonymousClaims.SlidingBound | contracts/event/src/lib.rs:1297-1310 | And at most twice the maximum in any span of consecutive ledgers as long as a window. |
| AnonymousClaims.CommitmentsPermanent | contracts/event/src/lib.rs:1254-1262 | The commitment stored for a nullifier never changes in any run. |
| AnonymousClaims.NullifiersAreSeats | contracts/event/src/lib.rs:1320-1335 | In every run the sold count grows by exactly one per new nullifier plus the seats of the other sales. |
| AnonymousClaims.ReplayChangesNothing | contracts/event/src/lib.rs:1254-1262 | Claiming again with a spent nullifier leaves the whole state unchanged. |
| AttendeeIndex.AttendeeStore.Save | contracts/event/src/storage.rs:93-112 | Appends an attendee not yet registered and keeps flags and slots in agreement. |
| AttendeeIndex.AttendeeStore.Find | contracts/event/src/storage.rs:347-360 | The search loop finds the attendee slot exactly when there is one. |
| AttendeeIndex.AttendeeStore.Remove | contracts/event/src/storage.rs:336-385 | Exactly the attendee leaves: its flag goes and the listing loses it by a swap with the last entry; for anyone else nothing changes. |
| AttendeeIndex.AttendeeStore.GetPage | contracts/event/src/storage.rs:129-149 | The page loop returns the requested window of the listing, at most 100 entries. |
| AttendeeIndex.PagesCover | contracts/event/src/storage.rs:129-149 | Reading page after page gives the whole listing in order, without gap or repetition. |
| AttendeeIndex.DroppedKeeps | contracts/event/src/storage.rs:336-385 | After a removal flags and slots agree again and the listing is the swap-out. |
| RevenueSplits.ValidateRevenueSplits | contracts/common-utils/src/validation.rs:57-107 | The checking loops accept exactly the empty split and the splits with 1 to 5 different recipients, the organizer first, no zero share and 10000 basis points in all. |
| RevenueSplits.FindRecipientBasisPoints | contracts/common-utils/src/validation.rs:171-183 | The search finds the first allocation of an address and none exactly when it is not a recipient. |
| RevenueSplits.CalculateRecipientShare | contracts/common-utils/src/validation.rs:126-161 | Floors for the co-recipients and the remainder for the first, as the specified share. |
| RevenueSplits.CalculateAllShares | contracts/common-utils/src/revenue.rs:43-65 | One share per recipient in order; for a valid split they add up to the net amount. |
| RevenueSplits.VerifySharesSum | contracts/common-utils/src/revenue.rs:75-83 | Answers whether the shares add up to the expected total. |
| RevenueSplits.SharesSumToNet | contracts/common-utils/src/validation.rs:126-161 | Rounding loses nothing: for every net amount, of either sign, the shares of a valid split add up to it. |
| RevenueSplits.PrimaryExcess | contracts/common-utils/src/validation.rs:126-161 | The first recipient gets at least its exact proportion and exceeds it by less than one unit per co-recipient. |
| RevenueSplits.CoRecipientShare | contracts/common-utils/src/validation.rs:126-161 | Every co-recipient gets its exact proportion rounded down. |
| RevenueSplits.FeeWithinGross | contracts/common-utils/src/revenue.rs:14-29 | Fee and net are non-negative and add up to the gross amount for every fee up to 10000 basis points. |
| RevenueSplits.PaidWithinNet | contracts/common-utils/src/validation.rs:126-161 | If every payment made is a share, the payments stay within the net amount and reach it exactly when every positive share is paid. |
| PaymentsContract.Contract.CreatePayment | contracts/payments/src/lib.rs:261-433 | All refusals in the order of the code, then transfer, payment, ticket, index, counters and replay protection; a failed call changes nothing (`PayIff`, `PayEffect` and `SecondRequestRefused` say when, what and how often). |
| PaymentsContract.Contract.ProcessTimedOutDisputes | contracts/payments/src/lib.rs:182-226 | The loop removes exactly the expired disputes, holds their payments again and keeps the others listed. |
| PaymentsContract.Contract.ValidateRevenueInvariant | contracts/payments/src/lib.rs:228-250 | After the timeouts, whether each token balance covers the books of the event. |
| PaymentsContract.Contract.RefundPaymentByAdmin | contracts/payments/src/lib.rs:904-1001 | Full and partial refunds within what is refundable, with every refusal. |
| PaymentsContract.Contract.ClaimRefundOf | contracts/payments/src/lib.rs:1212-1278 | The pro-rata refund of a cancelled event. |
| PaymentsContract.Contract.RequestPostponementRefund | contracts/payments/src/lib.rs:1323-1395 | The full refund while a postponed event is open for it. |
| PaymentsContract.Contract.RaiseDisputeOn | contracts/payments/src/lib.rs:2386-2485 | Opens a dispute in its window and takes the full amount out of the revenue. |
| PaymentsContract.Contract.ApproveRefundOf | contracts/payments/src/lib.rs:2487-2535 | Pays the rest back and closes the dispute. |
| PaymentsContract.Contract.RejectDisputeOn | contracts/payments/src/lib.rs:2537-2576 | Holds the payment again and closes the dispute. |
| PaymentsContract.Contract.CheckPayoutRatio | contracts/payments/src/lib.rs:524-550 | Answers Ok exactly for a completed event after its unlock ledger and for an event cancelled at least 100 ledgers ago with a non-zero ratio; the answer lies in 1..10000, is 10000 for a completed event and the stored ratio for a cancelled one. |
| PaymentsContract.Contract.CollectCancellationOrganizerPool | contracts/payments/src/lib.rs:435-459 | The proportion of the volume without the disputed payments. |
| PaymentsContract.Contract.WithdrawByOrganizer | contracts/payments/src/lib.rs:1003-1156 | The organizer settlement with fee and latch; a failed call is rolled back. |
| PaymentsContract.Contract.WithdrawRevenueByAdmin | contracts/payments/src/lib.rs:1501-1579 | The administrator settlement sharing the latch. |
| PaymentsContract.Contract.ReleaseExpired | contracts/payments/src/lib.rs:1419-1487 | The automatic release draining every token of the event. |
| PaymentsContract.Contract.WithdrawOneToken | contracts/payments/src/lib.rs:1799-1851 | One token drained for a completed event. |
| PaymentsContract.Contract.WithdrawAll | contracts/payments/src/lib.rs:1853-1914 | Every token drained for a completed event; nothing to drain is an error. |
| PaymentsContract.Contract.WithdrawPlatformFees | contracts/payments/src/lib.rs:1610-1641 | The platform fees paid out and booked as withdrawn. |
| PaymentsContract.Contract.SyncRevenueSplits | contracts/payments/src/lib.rs:1925-1981 | A valid split is stored once. |
| PaymentsContract.Contract.EnsureSplitSettled | contracts/payments/src/lib.rs:515-618 | The first call freezes the net amount and books the fee; later calls change nothing. |
| PaymentsContract.Contract.WithdrawSplitShare | contracts/payments/src/lib.rs:2001-2053 | One recipient paid its frozen share. |
| PaymentsContract.Contract.FlagCohostWallet | contracts/payments/src/lib.rs:2061-2094 | Only the primary organizer flags an unpaid co-recipient; the recipient's withdrawal is then refused as flagged, and releasing the flag gives the old state back. |
| PaymentsContract.Contract.ResolveFlaggedShare | contracts/payments/src/lib.rs:2102-2164 | The flag is released, or the share goes to the primary organizer and counts as paid. |
| PaymentsContract.Contract.ListTicketForResale | contracts/payments/src/lib.rs:2250-2294 | Lists an owned standard ticket within the price rules; delisting by the seller then succeeds and undoes it. |
| PaymentsContract.Contract.DelistTicket | contracts/payments/src/lib.rs:2296-2308 | Only the seller takes a listing back; afterwards every attempt to buy the ticket fails as not found. |
| PaymentsContract.Contract.BuyResaleTicket | contracts/payments/src/lib.rs:2310-2384 | Price, proceeds, fee, royalty, ticket record, both indexes and the listing; a stale listing is an error and rolled back; who pays and who is paid is `ResalePays`. |
| PaymentsContract.Contract.CancelEventFor | contracts/payments/src/lib.rs:1176-1210 | Freezes the elapsed fraction as the organizer ratio and cancels; an unsettled event without refunds then meets every hypothesis of the cancellation results (`EscrowCancellation.Era` with that ratio). |
| PaymentsContract.StepSound | contracts/payments/src/lib.rs:261-2576 | What every entry point of the contract object ensures: the escrow invariant carries over from the state before to the state after, the surplus of every token changes by exactly what a resale retains, by nothing on any error, and its total over balance and wallets not at all. |
| EscrowInvariants.Conservation | contracts/payments/src/lib.rs:228-250 | In every run each token balance of the contract equals the sum over all events of volume less refunds less withdrawals, plus the resale amounts retained (price less proceeds paid), which are never negative. |
| EscrowInvariants.RunInv | contracts/payments/src/lib.rs:261-2576 | Every run keeps payments and tickets paired, counters equal to sums over payments, dispute lists, splits and the owner index in agreement. |
| EscrowInvariants.StepKeeps | contracts/payments/src/lib.rs:261-2576 | Each operation keeps the invariant and changes the surplus of each token by exactly what a resale retains, and the total of balance and wallets not at all. |
| EscrowInvariants.DisputeLists | contracts/payments/src/lib.rs:2386-2576 | In every run the dispute list of an event has no duplicates and names exactly the tickets with an open dispute for it, and exactly their payments are disputed. |
| EscrowInvariants.OwnerListings | contracts/payments/src/lib.rs:2310-2384 | In every run an address lists a ticket exactly once iff the ticket names it as owner, through purchases and resales. |
| EscrowInvariants.PaymentRecords | contracts/payments/src/lib.rs:52-151 | Only standard payments and tickets record an address, and refunds of a payment stay within its amount. |
| EscrowInvariants.TimeoutsMove | contracts/payments/src/lib.rs:182-226 | A timeout pass is a sequence of rejections, so it keeps the invariant and every balance. |
| EscrowInvariants.NothingLost | contracts/payments/src/lib.rs:261-2576 | In every run the contract balance plus all wallets of each token stays the same. |
| EscrowWallets.WalletsMove | contracts/payments/src/lib.rs:261-2384 | For every operation: whose wallet it takes tokens from, whose it pays, in which token and exactly how much (payments, all refunds, approved disputes, every settlement, drain, share, reassigned share, platform fee and resale); no other wallet changes, and the balance moves by the difference. |
| EscrowWallets.ResalePays | contracts/payments/src/lib.rs:2310-2384 | A resale for a positive price to another address costs the buyer the price, brings the seller the price less fee and royalty if positive, and changes no other wallet; the buyer owns the ticket and the listing is gone. |
| EscrowWallets.AdministratorRefundPays | contracts/payments/src/lib.rs:904-1001 | An administrator refund goes to the payer in the token paid and is exactly what the record gains; the record closes exactly at the full amount. |
| EscrowWallets.ReleasePays | contracts/payments/src/lib.rs:1419-1487 | A release pays the revenue of every listed token to the recorded organizer, after the end time, and cannot be repeated. |
| EscrowWallets.SharePays | contracts/payments/src/lib.rs:2001-2053 | A withdrawn share is paid to the recipient in the frozen token, and nobody else is paid. |
| EscrowWallets.FeesPay | contracts/payments/src/lib.rs:1610-1641 | All outstanding platform fees go to the fee wallet in the accepted token, and none are left. |
| EscrowWallets.WalletsOverRun | contracts/payments/src/lib.rs:261-2384 | In every run a wallet changes by what its owner received less what it spent, and falls only by its own payments and purchases. |
| EscrowIdentities.SecondRequestRefused | contracts/payments/src/lib.rs:278-293 | After an accepted payment every later request of the same payer, wallet hash or commitment with the same nonce is refused as a duplicate, whatever happens in between. |
| EscrowIdentities.NonceAcceptedOnce | contracts/payments/src/lib.rs:278-293 | In every run at most one payment is accepted for a nonce of one payer, wallet hash or commitment. |
| EscrowIdentities.CommitmentRefused | contracts/payments/src/lib.rs:358-365 | After an accepted anonymous payment its commitment is never accepted again. |
| EscrowIdentities.UserLimit | contracts/payments/src/lib.rs:306-330 | Until the event is synchronized again, in every run an address or wallet hash buys at most the maximum per user, counted exactly. |
| EscrowFrames.OnceConfigured | contracts/payments/src/lib.rs:825-902 | In every run a configured event keeps its organizer and payout token, counts exactly the payments accepted for it, and stays settled once settled. |
| EscrowFrames.SettledAtMostOnce | contracts/payments/src/lib.rs:1003-1579 | In every run organizer and administrator together settle a configured event at most once. |
| EscrowFrames.SupplyLimit | contracts/payments/src/lib.rs:306-309 | Until the event is synchronized again, in every run it accepts no payment beyond its maximum supply. |
| EscrowRules.PayIff | contracts/payments/src/lib.rs:261-366 | A payment is taken exactly under the conditions listed: not paused, a new nonce, a positive amount the payer has, fitting identity fields, privacy rules, supply and user limits, an event on sale and an accepted token. |
| EscrowRules.PayEffect | contracts/payments/src/lib.rs:353-432 | It is recorded as the next payment and the next ticket, with an owner exactly if it is a standard one. |
| EscrowRules.AdminRefundIff | contracts/payments/src/lib.rs:904-1001 | In every reachable state the administrator can refund exactly held standard payments of an event not fully paid out, by at most what is due (all of it, or the refundable part of a cancelled event) and held. |
| EscrowRules.ClaimRefundIff | contracts/payments/src/lib.rs:1212-1278 | In every reachable state a claim succeeds exactly for the payer of a held payment of a cancelled event of whose refundable part something is left and held. |
| EscrowRules.PostponementRefundIff | contracts/payments/src/lib.rs:1323-1395 | A ticket owner gets the refund exactly for a held, not fully refunded payment of a postponed event, up to and including the deadline; the original payer is paid. |
| EscrowRules.RaiseIff | contracts/payments/src/lib.rs:2386-2485 | Disputes are raised exactly from the end of the event for 120960 ledgers, for held payments, with one of three reasons. |
| EscrowRules.ApproveIff | contracts/payments/src/lib.rs:2487-2535 | And approved exactly during the next 241920 ledgers, for payers with an address; the payment is then refunded in full. |
| EscrowRules.RejectIff | contracts/payments/src/lib.rs:2537-2576 | Exactly open disputes are rejected, by an unpaused contract; the payment is held again. |
| EscrowRules.TimeoutIff | contracts/payments/src/lib.rs:182-226 | A timeout pass ends exactly the disputes of the event that are 241920 ledgers old. |
| EscrowRules.WithdrawIff | contracts/payments/src/lib.rs:1003-1156 | The organizer settles exactly an event without split that is not settled yet, after the end and both delays or 100 ledgers after cancelling, with every dispute timed out, the books covered and a positive gross amount; revenue left, withdrawn counter, fee and latch follow. |
| EscrowRules.WithdrawRevenueIff | contracts/payments/src/lib.rs:1501-1579 | The administrator payout succeeds exactly for an event without split, not postponed, not settled, with covered books and positive revenue, whether or not disputes are open; what it books. |
| EscrowRules.ReleaseIff | contracts/payments/src/lib.rs:1419-1487 | A release succeeds exactly after the end time, once, for an event without split and not postponed, with covered books and the balance for every listed token. |
| EscrowRules.DrainsIff | contracts/payments/src/lib.rs:1799-1914 | One token, or all, are drained exactly for a completed event without split with covered books and something to drain; platform fees exactly when there are some and the balance holds them. |
| EscrowRules.SettleIff | contracts/payments/src/lib.rs:515-618 | The net amount of a split is frozen exactly under the conditions of a settlement, and is the gross amount less the fee; frozen already, nothing changes. |
| EscrowRules.WithdrawSplitIff | contracts/payments/src/lib.rs:2001-2053 | A share is withdrawn exactly by a recipient that is neither flagged nor paid, from a net amount frozen now or before, if it is positive and held; afterwards it counts as paid. |
| EscrowRules.ResolveIff | contracts/payments/src/lib.rs:2102-2164 | A flag is resolved exactly while it stands, by release or, if the share is unpaid and payable, by paying it away; afterwards the flag is gone. |
| EscrowRules.BuyIff | contracts/payments/src/lib.rs:2310-2384 | A listed ticket is bought exactly while its seller still owns it, its event is configured, the buyer has the price, the contract can pay the proceeds and the ticket contract agrees. |
| EscrowRules.PoolIs | contracts/payments/src/lib.rs:435-459 | In every reachable state the organizer pool of a cancelled event is the ratio of exactly the payments that are not disputed, rounded down. |
| EscrowRules.CancelRatioIs | contracts/payments/src/lib.rs:1190-1206 | The organizer part of a cancelled event is nothing before the start, all from the end on, and in between the elapsed part of the duration rounded down; cancelling later never makes it smaller. |
| EscrowRules.SettingEffects | contracts/payments/src/lib.rs:657-1416 | What each setting writes: terms of a configuration, status, deadline, end time, delay, pause, fee and tokens; a first configuration starts unsold and unsettled. |
| EscrowRules.OnlyAuthorized | contracts/payments/src/lib.rs:657-2576 | Who can change anything by an operation: administrator, event contract, organizer, payer, ticket owner, seller or split recipient, each for its own; every other caller changes nothing. |
| EscrowRules.PausedRefuses | contracts/payments/src/lib.rs:261-2576 | A paused contract refuses everything but claims of cancelled events, cancelling, timeouts and three settings. |
| EscrowRules.PausedKeepsMoney | contracts/payments/src/lib.rs:261-2576 | In every run while paused, tokens move only by claims for cancelled events. |
| EscrowDisputes.RaiseThenReject | contracts/payments/src/lib.rs:2386-2576 | Rejecting a dispute undoes raising it: records, balances, every book, every list. |
| EscrowDisputes.TimeoutsEffect | contracts/payments/src/lib.rs:182-226 | A timeout pass holds exactly the expired listed payments again, keeps the others listed, and moves the revenue by exactly the re-held contributions. |
| EscrowDisputes.RevenueFormula | contracts/payments/src/lib.rs:904-2576 | Until the first payout, in every run, the revenue of an event in a token is the sum of what is left of each payment (for a disputed one minus the earlier refund), less the refunds that preceded an approved dispute. |
| EscrowDisputes.HeldRevenue | contracts/payments/src/lib.rs:904-2576 | Until the first payout, in runs with full refunds only, the revenue is the sum of the amounts of the held payments. |
| EscrowDisputes.RaiseCoversIff | contracts/payments/src/lib.rs:2445-2462 | Raising a dispute keeps the revenue equal to what is left of the held payments exactly when nothing of the payment was refunded before. |
| EscrowDisputes.RejectCoversIff | contracts/payments/src/lib.rs:2537-2576 | Rejecting one, likewise. |
| EscrowDisputes.ClaimCoversIff | contracts/payments/src/lib.rs:1236-1272 | A claim keeps it exactly when the organizer's ratio is zero, that is, the whole amount is refundable. |
| EscrowDisputes.AdminRefundCovers | contracts/payments/src/lib.rs:960-995 | A refund by the administrator, full or partial, always keeps it. |
| EscrowDisputes.CoversHeldIff | contracts/payments/src/lib.rs:904-2576 | Until the first payout, in every run: the revenue is what is left of the held payments exactly when the refunds of payments now disputed and the refunds forgone by approved disputes together equal what was kept back on payments closed as refunded. |
| EscrowDisputes.PartialRefundThenDispute | contracts/payments/src/lib.rs:2445-2462 | A concrete run: 10 paid, 4 refunded, disputed; the revenue is -4 while no payment is held. |
| EscrowCancellation.CancelledEventSolvent | contracts/payments/src/lib.rs:1176-1205 | From deployment: once an event without refunds or settlement is cancelled, any later run takes out, in refunds and its one settlement, at most its volume in the payout token; excluded for this event are approved disputes, status changes, `withdraw_revenue`, `release_if_expired` and `sync_revenue_splits`. |
| EscrowCancellation.CancellationSolvent | contracts/payments/src/lib.rs:435-459 | The same, with the same exclusions, from any cancelled state with the invariant in which no refund exceeds its refundable part, the event is unsettled and not both withdrawn and split. |
| EscrowCancellation.EraRun | contracts/payments/src/lib.rs:1066-1131 | Through every run with those exclusions the event stays cancelled and is settled at most once, by a withdrawal or a split, for exactly the floor of its proportion of the volume. |
| EscrowCancellation.ClaimEntitlement | contracts/payments/src/lib.rs:1212-1278 | A claim brings the refund to the same amount whatever happened before and fails exactly if nothing is left to claim or the tokens are missing (`ClaimsArePaid` says when they are not). |
| EscrowCancellation.WithdrawEntitlement | contracts/payments/src/lib.rs:1003-1156 | The withdrawal from an unsettled cancelled event pays the same amount whatever was refunded before and is never refused for lack of revenue while that amount is positive; a failing revenue check or missing tokens remain possible here (`SettlementIsPaid` excludes them). |
| EscrowCancellation.EraRevenue | contracts/payments/src/lib.rs:1066-1131 | As long as the event is unsettled its revenue covers what its payments contribute. |
| EscrowCancellation.RevenueCoversBefore | contracts/payments/src/lib.rs:261-433 | Before the first payout and without approved disputes the revenue covers the payments. |
| EscrowCancellation.PartsFit | contracts/payments/src/lib.rs:1193-1205 | Floors of the refundable parts plus the floor of the organizer part never exceed the whole and miss it by at most one unit per payment. |
| CancellationCover.CancellationDust | contracts/payments/src/lib.rs:1236-1272 | Once every payment of the event is refunded (or has nothing to refund) and the event is settled, between 0 and n units are left of the volume of n payments, if none of them was closed before the cancellation. |
| CancellationCover.EraAccount | contracts/payments/src/lib.rs:1003-1156 | Through every run of the cancelled event (same exclusions), withdrawn plus fees outstanding plus unpaid shares grow by exactly the settlement and the resale fees, and the surplus grows by at least those fees. |
| CancellationCover.ClaimAll | contracts/payments/src/lib.rs:1212-1278 | Without open disputes and with the balance for it, all payers can claim one after another until no refundable part is open. |
| CancellationCover.StaysCoveredIff | contracts/payments/src/lib.rs:228-250 | With the balance for the open parts, disputes pending or not: refunds plus everything paid out or owed stay within the volume in every later run of claims, disputes that are not approved, payments and settings, if and only if refunds plus open refundable parts plus everything paid out or owed are within it now. |
| CancellationPayouts.ReleaseSafeIff | contracts/payments/src/lib.rs:1419-1487 | A release of the cancelled event keeps that bound through every later run if and only if, before the call, the open refundable parts and the position fit into the amounts in dispute and the revenue it leaves; disputes and drift of either sign included, the balance holding the payout and the open parts. |
| CancellationPayouts.ReleaseUndisputed | contracts/payments/src/lib.rs:1419-1487 | Without a pending dispute, for a listed token: if and only if open parts plus position are at most zero, and at position zero if and only if no refundable part is claimable. |
| CancellationPayouts.WithdrawRevenueSafeIff | contracts/payments/src/lib.rs:1501-1579 | The administrator's payout of the cancelled event keeps the bound if and only if the open refundable parts and the position fit into the amounts in dispute. |
| CancellationPayouts.ApproveSafeIff | contracts/payments/src/lib.rs:2487-2535 | Approving a dispute of the cancelled event keeps the bound if and only if the part of its payment beyond the refundable part still fits beside refunds, open parts and everything paid out or owed. |
| CancellationPayouts.SplitSafeIff | contracts/payments/src/lib.rs:515-618 | A settlement by split keeps the bound if and only if the organizer's part still fits beside refunds, open parts and what was already paid out or owed. |
| CancellationPayouts.SecondSettlement | contracts/payments/src/lib.rs:515-618 | So a first settlement always keeps it, and a split settled after the organizer's withdrawal keeps it only if the organizer's part is at most one unit per payment, when all payments are standard ones that are open or were closed with their part. |
| CancellationFunds.ClaimsArePaid | contracts/payments/src/lib.rs:1212-1278 | From deployment: after a cancellation at which nothing was refunded, paid out or owed, and while no other event has overdrawn its books in the token, a claim succeeds exactly when some of the refundable part is left; the tokens are there. |
| CancellationFunds.SettlementIsPaid | contracts/payments/src/lib.rs:1003-1156 | Likewise, if the revenue covered the payments at the cancellation and no other event has overdrawn its books in any token, the organizer's settlement of a positive amount is refused only while the contract is paused, the waiting period runs or a dispute is open. |
| CancellationFunds.OverdrawnShows | contracts/payments/src/lib.rs:228-250 | In every run the books of an event are at least its revenue plus its drift, so without a negative drift overdrawn books show as a negative revenue. |
| EscrowAccounts.EventAccount | contracts/payments/src/lib.rs:228-250 | The account of one event in one token in every run, payouts included: volume less refunds less withdrawals is revenue plus disputed amounts plus platform fees outstanding plus unpaid frozen shares plus a drift, which adds the refunds forgone by approved disputes and subtracts resale fees and royalties and what a full-ratio settlement of a cancelled event took beyond the revenue. |
| EscrowAccounts.AnyoneDrains | contracts/payments/src/lib.rs:1799-1914 | `withdraw_token` and `withdraw_all_tokens` succeed or fail regardless of who asks, who need not be the organizer of the event; on success everything but the wallet paid is the same, and the caller receives the revenue of the token, or of every listed token in which it is positive. |
| EventBooks.NeverBelowIff | contracts/payments/src/lib.rs:904-1001 | While nothing more is paid in or out, non-negative books of one event stay so through every run of refunds, disputes, settings and time if and only if what was withdrawn for it is at most what can no longer be refunded, or the balance holds nothing beyond its books. |
| EventBooks.ReachableNeverBelowIff | contracts/payments/src/lib.rs:904-1001 | The same in every state reachable from deployment in which the books are not negative yet. |
| EventBooks.StepLeaves | contracts/payments/src/lib.rs:904-1395 | In each such step an amount between zero and the balance leaves the books of the event; its open refundable amounts and the balance fall by at least as much. |
| EventBooks.RefundsBounded | contracts/payments/src/lib.rs:904-1001 | Once the open amounts, or the balance, are covered by the books they stay covered through every such run, and the books stay non-negative. |
| EventBooks.Overdraw | contracts/payments/src/lib.rs:904-1001 | When the condition fails, administrator refunds that take the books below zero, constructed one payment after another. |
| EscrowRuns.RefundAfterWithdrawal | contracts/payments/src/lib.rs:1799-1851 | A run from deployment: two events are paid 10 each, the first is completed, drained by an address that is not an organizer and then refunded; its books are at -10, the contract is empty, the other event is owed 10, and every payout for it is refused. |
| EscrowRuns.ReleaseThenClaim | contracts/payments/src/lib.rs:1419-1487 | A run: an event of volume 10 cancelled at one half is released and then claimed; refunds 5 and withdrawals 10. |
| EscrowRuns.SplitAfterWithdrawal | contracts/payments/src/lib.rs:515-618 | A run: an event of volume 10 cancelled at one half is withdrawn by the organizer, given a split, settled again through it and claimed; refunds 5 and withdrawals 10. |
| EscrowRuns.AdministratorPayoutThenClaim | contracts/payments/src/lib.rs:1501-1579 | A run: an event of volume 10 cancelled at one half is paid out by the administrator and then claimed; refunds 5 and withdrawals 10. |
| EscrowRuns.ApproveAfterWithdrawal | contracts/payments/src/lib.rs:2487-2535 | A run: an event of volume 10 cancelled at one half is withdrawn by the organizer, disputed and approved; refunds 10 and withdrawals 5. |
| EscrowSplits.SplitPayouts | contracts/payments/src/lib.rs:2001-2164 | In every run the tokens paid out for a split never exceed the frozen net amount and reach it exactly when every recipient with a positive share was paid; before the settlement there are none. |
| EscrowSplits.OutflowIsPaid | contracts/payments/src/lib.rs:2001-2164 | The tokens that left the contract for the split are exactly the payments recorded. |
| EscrowSplits.RecipientPaidShare | contracts/payments/src/lib.rs:489-508 | A paid recipient was paid exactly its share of the frozen net amount. |
| EscrowSplits.PaidForGood | contracts/payments/src/lib.rs:2001-2164 | No later operation, flag, release or reassignment pays a recipient again or changes splits, frozen amounts or payments made. |
| EscrowSplits.SettlementGross | contracts/payments/src/lib.rs:560-618 | Frozen net amount plus platform fee is the gross settlement, and the net amount is positive. |

## Left out

- G1 is a one-dimensional module over the scalar field, which BN254 G1 is; point addition, on-curve checks and the pairing itself are not modelled. The pairing is a parameter of `VerifyShplemini` and, in `Openings` and `OpeningSoundness`, the test that a + tau b is zero.
- Extracting polynomials from commitments, as in the algebraic group model: the soundness of the opening starts from the polynomials.
- The hash is a function parameter, uninterpreted; nothing probabilistic is claimed, so the transcript result names a pair of colliding buffers and the sumcheck result a round with one of at most 8 challenges.
- Primality of the BN254 scalar modulus is a hypothesis (`PrimeField`); the byte constants are checked against its literal value.
- The arithmetic, permutation, lookup, range, auxiliary and Poseidon relations and the batching of subrelations: the sumcheck takes their batched value as a function of the gate separator.
- `load_proof`, `load_vk_from_bytes` and the point-length checks of the host: only the point chunk decoding they use is modelled.
- `SumcheckProtocol.SumcheckComplete` and `SumcheckSound` speak of an arbitrary polynomial; that the relation sum is such a polynomial in the round challenges is not proved.
- An `EventSpec` state is one event; operations of an event touch only its own entries.
- `create_event` is its tier loop and a flag for the other checks; strings, dates, postponement windows and the links to other contracts are flags or left out.
- The attendee index is a store of its own, proved separately; `EventSpec` keeps only the registration flags.
- The event-payment and payer-payment indexes of the payments contract: written with each payment, read only by getters.
- The attendance credential that `use_ticket` stores with a used ticket: a hash read only by its getter.
- Withdrawal records, the per-event counters `TotalPayments`, `TotalRefunds`, `TotalWithdrawn` and the stored `EventRevenue`: written but read only by getters and by `migrate_event`.
- `migrate` and `migrate_event`; conservation is not meant to hold across the latter.
- `initialize` before its first success, `bind_email_commitment`, `set_ticket_contract` and emission privacy: plumbing.
- Storage lifetimes, event emission, address masking, XDR and error numbers.
- Agreement of sold counts between the event and payments contracts: tier edits are not synchronized, and a batch is one payment.
- Conservation is over all events, as the code keeps it: the books of a single event may go below zero (`RefundAfterWithdrawal`). `EventAccount` gives them in every run, and `NeverBelowIff` says exactly when they cannot while nothing more is paid in or out.
- Fees and royalties of resales of a cancelled event's tickets: they are not part of its volume and not counted in `CancelledEventSolvent`; `EraAccount` counts the fees.
- The factory, the mock event, the privacy utilities, the anonymous-claim verifier wrapper and the relayer.

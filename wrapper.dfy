/**
 * The unencrypted envelope of a wrapper transaction: the fee it pays, the
 * quantised gas limit with its refund rule, and the envelope record itself.
 * Integers are Rust's `u64`; a token `Amount` is modelled as a `u64`.
 */
module Wrapper {
  import opened Common

  /** Minimum fee amount in micro NAM. */
  const MIN_FEE: U64 := 100

  /** Every gas limit is a multiple of this step; the larger it is, the less a limit reveals. */
  const GAS_LIMIT_RESOLUTION: U64 := 1_000_000

  /** The largest multiplier whose raw value `multiplier * GAS_LIMIT_RESOLUTION` still fits in a `u64`. */
  const MAX_FITTING_MULTIPLIER: U64 := U64_MAX / GAS_LIMIT_RESOLUTION

  /** A token amount, viewed through its `u64` value. */
  type Amount = U64

  /** Errors from decrypting or signing a wrapper transaction. */
  datatype WrapperTxErr =
    | DecryptedHash     // the decrypted payload does not match its hash commitment
    | InvalidTx         // decryption did not produce a well-formed transaction
    | InvalidWrapperTx  // the transaction carries no wrapper envelope
    | InvalidKeyPair    // signing key differs from the public key in the envelope

  /** An address, kept abstract: only its identity matters here. */
  datatype Address = Address(id: seq<bv8>)

  /** A fee is an amount of a given token. */
  datatype Fee = Fee(amount: Amount, token: Address)

  /** A public key, kept abstract. */
  datatype PublicKey = PublicKey(bytes: seq<bv8>)

  /**
   * A secret key. Deriving the public half is key arithmetic outside this
   * model, so a key pair simply carries the public key it derives to.
   */
  datatype SecretKey = SecretKey(secret: seq<bv8>, publicKey: PublicKey)

  /** An epoch number. */
  datatype Epoch = Epoch(value: U64)

  /** A testnet proof-of-work solution, kept abstract. */
  datatype PowSolution = PowSolution(bytes: seq<bv8>)

  /** A gas limit stores only its multiple of `GAS_LIMIT_RESOLUTION`, never the raw amount. */
  datatype GasLimit = GasLimit(multiplier: U64)

  /** The raw limit `multiplier * GAS_LIMIT_RESOLUTION` does not overflow a `u64`. */
  predicate RawFitsU64(g: GasLimit)
  {
    g.multiplier * GAS_LIMIT_RESOLUTION <= U64_MAX
  }

  /**
   * `From<u64> for GasLimit`: round the amount up to the next multiple of the
   * resolution, using integer division only. The raw value of the result lies
   * in the half-open window [amount, amount + resolution), which makes the
   * multiplier the ceiling of amount / resolution.
   */
  function FromU64(amount: U64): (g: GasLimit)
    ensures amount <= g.multiplier * GAS_LIMIT_RESOLUTION < amount + GAS_LIMIT_RESOLUTION
  {
    if GAS_LIMIT_RESOLUTION * (amount / GAS_LIMIT_RESOLUTION) < amount then
      GasLimit(amount / GAS_LIMIT_RESOLUTION + 1)
    else
      GasLimit(amount / GAS_LIMIT_RESOLUTION)
  }

  /** `From<Amount> for GasLimit`: the same rounding, applied to the amount's `u64` value. */
  function FromAmount(amount: Amount): (g: GasLimit)
    ensures amount <= g.multiplier * GAS_LIMIT_RESOLUTION < amount + GAS_LIMIT_RESOLUTION
  {
    FromU64(amount)
  }

  /**
   * `From<&GasLimit> for u64` and `From<GasLimit> for u64` (identical on
   * values): the raw limit, always a whole number of resolution steps.
   */
  function ToU64(g: GasLimit): (raw: U64)
    requires RawFitsU64(g)
    ensures raw % GAS_LIMIT_RESOLUTION == 0
    ensures raw / GAS_LIMIT_RESOLUTION == g.multiplier
  {
    g.multiplier * GAS_LIMIT_RESOLUTION
  }

  /** `From<GasLimit> for Amount`: the raw limit viewed as an amount; it agrees with the `u64` conversions. */
  function ToAmount(g: GasLimit): (a: Amount)
    requires RawFitsU64(g)
    ensures a == ToU64(g)
  {
    g.multiplier * GAS_LIMIT_RESOLUTION
  }

  /**
   * `refund_amount` exactly as written: line 89 subtracts the resolution from
   * the limit in `u64`, which wraps around (a build with overflow checks
   * panics instead) when the multiplier is 0. Wherever the multiplier is at
   * least 1 it agrees with `RefundAmount`.
   */
  function RefundAmountAsWritten(g: GasLimit, usedGas: U64): (r: Amount)
    requires RawFitsU64(g)
    ensures g.multiplier >= 1 ==> r == RefundAmount(g, usedGas)
  {
    var limit := ToU64(g);
    if usedGas < WrappingSub(limit, GAS_LIMIT_RESOLUTION) then
      GAS_LIMIT_RESOLUTION
    else if usedGas >= limit then
      0
    else
      limit - usedGas
  }

  /**
   * The refund rule with the subtraction on line 89 saturating at 0: unused
   * gas is refunded, but never more than one resolution step, and nothing is
   * refunded once the limit is reached.
   */
  function RefundAmount(g: GasLimit, usedGas: U64): (r: Amount)
    requires RawFitsU64(g)
    ensures r <= GAS_LIMIT_RESOLUTION && r <= ToU64(g)
    ensures usedGas < ToU64(g) ==> usedGas + r <= ToU64(g)
    ensures r == if usedGas >= ToU64(g) then 0 else Min(GAS_LIMIT_RESOLUTION, ToU64(g) - usedGas)
  {
    var limit := ToU64(g);
    if usedGas < SaturatingSub(limit, GAS_LIMIT_RESOLUTION) then
      GAS_LIMIT_RESOLUTION
    else if usedGas >= limit then
      0
    else
      limit - usedGas
  }

  /** The envelope that travels beside an encrypted inner transaction. */
  datatype WrapperTx = WrapperTx(
    fee: Fee,
    pk: PublicKey,
    epoch: Epoch,
    gasLimit: GasLimit,
    powSolution: Option<PowSolution>)  // always None in mainnet builds

  /** `keypair.ref_to()`: the public key of a key pair. */
  function RefTo(keypair: SecretKey): PublicKey
  {
    keypair.publicKey
  }

  /**
   * `WrapperTx::new`: keeps the fee, epoch, gas limit and proof-of-work
   * solution as given and records the signer's public key, not the secret key.
   * Since every argument except the secret key is stored verbatim, equal
   * envelopes come only from equal arguments and equal public keys.
   */
  function NewWrapperTx(fee: Fee, keypair: SecretKey, epoch: Epoch, gasLimit: GasLimit,
                        powSolution: Option<PowSolution>): (w: WrapperTx)
    ensures w.fee == fee && w.epoch == epoch && w.gasLimit == gasLimit && w.powSolution == powSolution
    ensures w.pk == RefTo(keypair)
  {
    WrapperTx(fee, RefTo(keypair), epoch, gasLimit, powSolution)
  }

  // ---------------------------------------------------------------------------
  // Properties of the gas limit

  /** No smaller multiplier than the one `FromU64` picks covers the amount: it is the ceiling. */
  lemma FromIsLeastCoveringMultiplier(amount: U64, m: nat)
    requires amount <= m * GAS_LIMIT_RESOLUTION
    ensures FromU64(amount).multiplier <= m
  {
  }

  /** Exactly the amounts up to `MAX_FITTING_MULTIPLIER` steps round to a limit whose raw value fits in a `u64`. */
  lemma FromFitsIff(amount: U64)
    ensures RawFitsU64(FromU64(amount)) <==> amount <= MAX_FITTING_MULTIPLIER * GAS_LIMIT_RESOLUTION
  {
  }

  /** `GasLimit::from(u64::MAX)` has a raw value that no longer fits in a `u64`. */
  lemma FromMaxDoesNotFit()
    ensures FromU64(U64_MAX as U64).multiplier == MAX_FITTING_MULTIPLIER + 1
    ensures !RawFitsU64(FromU64(U64_MAX as U64))
  {
  }

  /**
   * Serialising a gas limit as its raw `u64` and reading it back yields the
   * same multiplier (the serde round trip through `u64`).
   */
  lemma SerdeRoundTrip(g: GasLimit)
    requires RawFitsU64(g)
    ensures FromU64(ToU64(g)) == g
  {
  }

  /**
   * Reading an amount into a gas limit and writing it back gives the least
   * multiple of the resolution that is at least the amount.
   */
  lemma RawOfFromIsNextMultiple(amount: U64)
    requires RawFitsU64(FromU64(amount))
    ensures amount <= ToU64(FromU64(amount)) < amount + GAS_LIMIT_RESOLUTION
    ensures ToU64(FromU64(amount)) % GAS_LIMIT_RESOLUTION == 0
    ensures amount % GAS_LIMIT_RESOLUTION == 0 ==> ToU64(FromU64(amount)) == amount
  {
  }

  /** The values the unit tests of the gas limit pin down. */
  lemma GasLimitExamples()
    ensures ToU64(GasLimit(1)) == 1_000_000
    ensures FromU64(ToU64(GasLimit(1))) == GasLimit(1)
    ensures FromU64(GAS_LIMIT_RESOLUTION + 1) == GasLimit(2)
    ensures RefundAmount(GasLimit(1), GAS_LIMIT_RESOLUTION - 1) == 1
    ensures RefundAmount(GasLimit(2), GAS_LIMIT_RESOLUTION - 1) == GAS_LIMIT_RESOLUTION
    ensures RefundAmount(GasLimit(1), GAS_LIMIT_RESOLUTION + 1) == 0
    ensures RefundAmountAsWritten(GasLimit(1), GAS_LIMIT_RESOLUTION - 1) == 1
    ensures RefundAmountAsWritten(GasLimit(2), GAS_LIMIT_RESOLUTION - 1) == GAS_LIMIT_RESOLUTION
    ensures RefundAmountAsWritten(GasLimit(1), GAS_LIMIT_RESOLUTION + 1) == 0
  {
  }

  /**
   * The three branches of the refund rule, stated against the raw limit for
   * every multiplier: the full step when more than one step is unused,
   * nothing once the limit is reached, the exact unused gas in between.
   */
  lemma RefundBranches(g: GasLimit, usedGas: U64)
    requires RawFitsU64(g)
    ensures usedGas + GAS_LIMIT_RESOLUTION < ToU64(g) ==> RefundAmount(g, usedGas) == GAS_LIMIT_RESOLUTION
    ensures usedGas >= ToU64(g) ==> RefundAmount(g, usedGas) == 0
    ensures ToU64(g) - GAS_LIMIT_RESOLUTION <= usedGas < ToU64(g) ==> RefundAmount(g, usedGas) == ToU64(g) - usedGas
  {
  }

  /**
   * As written, a limit with multiplier 0 (what `GasLimit::from(0)` gives)
   * refunds a whole resolution step although the limit itself is 0.
   */
  lemma RefundAsWrittenOverpaysAtZero()
    ensures FromU64(0) == GasLimit(0) && ToU64(GasLimit(0)) == 0
    ensures RefundAmountAsWritten(GasLimit(0), 0) == GAS_LIMIT_RESOLUTION
    ensures RefundAmount(GasLimit(0), 0) == 0
  {
  }
}

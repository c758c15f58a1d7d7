# Block admission: gas-limit quantisation and the first block-space phase

This project models two small parts of a ledger node's block-admission logic and proves properties of them in Dafny.

- **Wrapper envelope** (`wrapper.dfy`, module `Wrapper`). The unencrypted metadata of a wrapper transaction. Its parts are the `Fee`, the `WrapperTx` record built by `WrapperTx::new`, the `WrapperTxErr` enumeration, and the `GasLimit`.
  - A `GasLimit` stores only a multiplier of `GAS_LIMIT_RESOLUTION` (1 000 000).
  - Converting a `u64` or an `Amount` into a gas limit rounds up to the next multiple.
  - Converting back gives `multiplier * GAS_LIMIT_RESOLUTION`. serde reads and writes gas limits through this raw `u64`.
  - `refund_amount` returns unused gas but never more than one resolution step.
- **Block space allocator, decrypted phase** (`block_space_alloc.dfy`, module `BlockSpaceAlloc`). In the `BuildingDecryptedTxBatch` phase, `try_alloc` puts transactions into the decrypted-transaction bin only. `next_state_impl` then does three things:
  - shrinks that bin to its occupancy;
  - measures the block space that no bin holds yet;
  - creates the protocol-transaction bin with exactly that space, and moves to `BuildingProtocolTxBatch`.

  The allocator is a class. Its fields are the phase and four bins. Its methods update the fields in place, and each method is specified by a pure function over an `AllocatorState` value.

`common.dfy` (module `Common`) holds the `u64` range, `Option`, `Outcome` (Rust's `Result<(), E>`) and the saturating and wrapping `u64` subtraction.

Some of the allocator's building blocks live in parent modules that are not part of this model. Those are the bin type, the allocator record, `AllocFailure`, `try_dump`, `shrink_to_fit` and `uninitialized_space_in_bytes`. The model gives them these minimal definitions and takes them as assumptions:

- A bin is `{capacity, occupied}` with `occupied <= capacity`.
- `try_dump` accepts a transaction exactly when `occupied + len <= capacity`. It then adds `len` to `occupied`.
- `try_dump` fails with `OverflowsBin` when the transaction is larger than the whole bin, and with `Rejected` otherwise. A failure leaves the bin unchanged.
- `shrink_to_fit` sets `capacity := occupied`.
- The allocator holds the block's own bin plus the protocol, encrypted and decrypted bins.
- Uninitialised space is the block bin's capacity minus the sum of the three category bins' capacities.
- During the decrypted phase, the protocol bin is the empty placeholder of capacity 0. With this assumption, the three capacities sum to exactly the block capacity after the transition.
- The constructor takes the block capacity and the initial decrypted and encrypted budgets. It requires their sum to fit in the block. How the node picks those budgets is not part of this model.

For multiplier 1 with `R - 1` gas used, the code (`core/src/types/transaction/wrapper.rs:88-100`) and its unit test (`core/src/types/transaction/wrapper.rs:255-259`) give a refund of 1; `GasLimitExamples` proves it.

## Model

| member | source | states |
|---|---|---|
| `Wrapper.FromU64` | core/src/types/transaction/wrapper.rs:103-119 | The raw value of the result lies in `[amount, amount + R)`, so the multiplier is the ceiling of `amount / R`. It is computed with integer division only. |
| `Wrapper.FromAmount` | core/src/types/transaction/wrapper.rs:121-127 | Converting an `Amount` rounds its `u64` value up in the same way. |
| `Wrapper.ToU64` | core/src/types/transaction/wrapper.rs:129-141 | The raw limit is a multiple of `R`, and dividing it by `R` gives back the multiplier. Both the by-reference and the by-value conversion are covered. |
| `Wrapper.ToAmount` | core/src/types/transaction/wrapper.rs:143-148 | The raw limit as an `Amount` equals the `u64` conversion. |
| `Wrapper.RefundAmountAsWritten` | core/src/types/transaction/wrapper.rs:86-100 | The refund rule as written, with the wrapping `limit - R` of line 89. For every multiplier of at least 1 it equals `RefundAmount`. |
| `Wrapper.RefundAmount` | core/src/types/transaction/wrapper.rs:86-100 | The refund is `0` once the limit is used, and `min(R, limit - used)` otherwise. So it never exceeds `R` or the limit, and `used + refund <= limit` whenever `used < limit`. |
| `Wrapper.NewWrapperTx` | core/src/types/transaction/wrapper.rs:177-199 | Fee, epoch, gas limit and PoW solution are stored unchanged, and `pk` is the key pair's public key. |
| `Wrapper.FromIsLeastCoveringMultiplier` | core/src/types/transaction/wrapper.rs:103-119 | Every multiplier `m` with `m * R >= amount` is at least the one `FromU64` picks, so rounding is to the ceiling. |
| `Wrapper.FromFitsIff` | core/src/types/transaction/wrapper.rs:105-134 | A converted limit has a raw value that fits in `u64` exactly when `amount <= (u64::MAX / R) * R`. |
| `Wrapper.FromMaxDoesNotFit` | core/src/types/transaction/wrapper.rs:105-134 | `from(u64::MAX)` has multiplier `u64::MAX / R + 1`, whose raw value overflows `u64`. |
| `Wrapper.SerdeRoundTrip` | core/src/types/transaction/wrapper.rs:80-81 | Writing a gas limit as its raw `u64` and reading it back returns the same multiplier. |
| `Wrapper.RawOfFromIsNextMultiple` | core/src/types/transaction/wrapper.rs:105-134 | `raw(from(x))` is the least multiple of `R` that is at least `x`. It is `x` itself when `x` is a multiple of `R`. |
| `Wrapper.GasLimitExamples` | core/src/types/transaction/wrapper.rs:220-275 | The unit-test values hold. Multiplier 1 is raw `1000000` and round-trips; `R + 1` reads as multiplier 2; the refunds are 1, `R` and 0 in the three refund tests, both as written and under the corrected rule. |
| `Wrapper.RefundBranches` | core/src/types/transaction/wrapper.rs:88-100 | The three branches against the raw limit: `R` when `used + R < limit`, `0` when `used >= limit`, and `limit - used` in between. |
| `Wrapper.RefundAsWrittenOverpaysAtZero` | core/src/types/transaction/wrapper.rs:88-119 | `from(0)` has multiplier 0. As written, its refund for 0 used gas is `R`; the corrected rule gives 0. |
| `BlockSpaceAlloc.TryDump` | apps/src/lib/node/ledger/shell/block_space_alloc/states/decrypted_txs.rs:11 | A transaction goes in exactly when it fits in the space left. Success adds exactly its length. Failure leaves the bin unchanged. It is `OverflowsBin(capacity)` exactly when the transaction exceeds the bin's capacity, and `Rejected(capacity - occupied)` when it fits the bin but not the space left. |
| `BlockSpaceAlloc.ShrinkToFit` | apps/src/lib/node/ledger/shell/block_space_alloc/states/decrypted_txs.rs:20 | The capacity becomes the occupancy, which is unchanged. The capacity never grows. |
| `BlockSpaceAlloc.InitBin` | apps/src/lib/node/ledger/shell/block_space_alloc/states/decrypted_txs.rs:24 | A fresh bin has the given capacity and is empty. |
| `BlockSpaceAlloc.DecryptedTryAlloc` | apps/src/lib/node/ledger/shell/block_space_alloc/states/decrypted_txs.rs:8-13 | The outcome and new decrypted bin are those of `try_dump`. Every other field is unchanged, and the allocator invariant is kept. |
| `BlockSpaceAlloc.DecryptedNextState` | apps/src/lib/node/ledger/shell/block_space_alloc/states/decrypted_txs.rs:15-43 | The decrypted bin's capacity becomes its occupancy. The protocol bin is empty, with capacity `block - encrypted - decrypted occupancy`. Block and encrypted bin are unchanged. The phase advances to `BuildingProtocolTxBatch`, and the three capacities sum to the block capacity. |
| `BlockSpaceAlloc.AllocEach` | apps/src/lib/node/ledger/shell/block_space_alloc/states/decrypted_txs.rs:10-12 | Any sequence of `try_alloc` calls keeps the invariant, changes only the decrypted bin's occupancy, and never lowers it. |
| `BlockSpaceAlloc.OccupancyWithinBlock` | apps/src/lib/node/ledger/shell/block_space_alloc/states/decrypted_txs.rs:10-24 | In every valid state, occupied bytes ≤ allotted bytes ≤ block capacity. |
| `BlockSpaceAlloc.NextStateReclaimsHeadroom` | apps/src/lib/node/ledger/shell/block_space_alloc/states/decrypted_txs.rs:20-24 | Because the shrink comes first, the protocol bin gets the uninitialised space plus the decrypted bin's unused headroom. |
| `BlockSpaceAlloc.NextStateKeepsOccupancy` | apps/src/lib/node/ledger/shell/block_space_alloc/states/decrypted_txs.rs:19-41 | The transition moves no transaction bytes; total occupancy is unchanged. |
| `BlockSpaceAlloc.AllocEachAccountsAccepted` | apps/src/lib/node/ledger/shell/block_space_alloc/states/decrypted_txs.rs:10-12 | After any sequence of candidates, decrypted occupancy grows by exactly the lengths accepted, and total occupancy stays within the block. |
| `BlockSpaceAlloc.BlockSpaceAllocator.constructor` | apps/src/lib/node/ledger/shell/block_space_alloc/states/decrypted_txs.rs:15 | Sets up the `BuildingDecryptedTxBatch` state that this `impl` operates on: the invariant holds, the protocol bin is the empty zero-capacity placeholder, and the other budgets are as given. The construction itself lives in the parent module; the model's version rests on the assumptions listed above and on the "## Left out" line about the allocator's construction. |
| `BlockSpaceAlloc.BlockSpaceAllocator.TryAlloc` | apps/src/lib/node/ledger/shell/block_space_alloc/states/decrypted_txs.rs:8-13 | In place: returns the decrypted bin's `try_dump` result and stores its new bin. Block, protocol and encrypted bins and the phase are unchanged. |
| `BlockSpaceAlloc.BlockSpaceAllocator.NextState` | apps/src/lib/node/ledger/shell/block_space_alloc/states/decrypted_txs.rs:15-43 | In place: the new state is `DecryptedNextState` of the old one. That means decrypted capacity = occupancy, a fresh protocol bin holding the leftover space, block and encrypted unchanged, phase `BuildingProtocolTxBatch`, and capacities summing to the block. |

## Findings

| source | as written | input that shows it | evidently intended | confidence | as-written member | corrected member |
|---|---|---|---|---|---|---|
| core/src/types/transaction/wrapper.rs:89 | `u64::from(self) - GAS_LIMIT_RESOLUTION` underflows when the multiplier is 0. A build with overflow checks panics. A build without them wraps to `2^64 - R`, so the first branch refunds `R` against a limit of 0. | `GasLimit::from(0)` (multiplier 0, as the tests build with `0.into()`), `refund_amount(0)` | No refund once the limit is reached, which for a limit of 0 is always: a saturating subtraction on line 89 | not executed; high (plain `u64` arithmetic) | `Wrapper.RefundAmountAsWritten`, `Wrapper.RefundAsWrittenOverpaysAtZero` | `Wrapper.RefundAmount` |

## Left out

- `Wrapper.ToU64`, `Wrapper.ToAmount`, `Wrapper.RefundAmount`, `Wrapper.RefundAmountAsWritten`: these require `multiplier * R` to fit in `u64` and do not model the overflowing product (a panic, or wrap-around without overflow checks). `FromFitsIff` and `FromMaxDoesNotFit` show which inputs of `From<u64>` lead there.
- Threshold encryption and decryption of the inner transaction, `validate_ciphertext`, the hash commitment check, and signature creation and verification (the tests at `core/src/types/transaction/wrapper.rs:293-409`): these are foreign cryptography on a transaction type that is not part of this model. `WrapperTxErr` is modelled as the plain enumeration those operations return.
- `WrapperTx::hash`: SHA-256 over the Borsh encoding, not modelled.
- `WrapperTx::fee_payer` (`Address::from(&pk)`): address derivation is not part of this model.
- `keypair.ref_to()`: key derivation is not modelled. A `SecretKey` carries the public key it derives to, and `RefTo` returns it.
- The testnet proof-of-work solution is an opaque optional field. Mainnet builds, which lack the field, correspond to always passing `None`.
- serde and Borsh mechanics beyond "a gas limit is written as its raw `u64`". Borsh writes the multiplier field itself, so its round trip is the identity and is not stated separately. The JSON text form is not modelled.
- `Amount` is modelled as its `u64` value. Its internal representation and the token denomination are not modelled.
- `MIN_FEE` is declared but used by nothing in this model.
- The protocol-to-encrypted phase, `try_alloc` in the later phases, and the allocator's construction from the consensus engine's block size are not part of this model. The allocator starts from given budgets instead.
- The type-level phase marker becomes a `phase` field that every method checks through its `requires`. Moving the fields into a value of the next state type becomes an in-place update of the same object.
- A transaction is taken as its bytes, and only its length matters. The `u64` cast of that length is not modelled.

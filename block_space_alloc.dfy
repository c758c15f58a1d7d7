/**
 * The block space allocator in its first phase, `BuildingDecryptedTxBatch`:
 * allocations go to the decrypted-transaction bin, and the transition to
 * `BuildingProtocolTxBatch` hands every byte not yet taken to the
 * protocol-transaction bin.
 *
 * The bin type, the allocator record and `uninitialized_space_in_bytes` live
 * in parent modules that are not part of this model; they are given here the
 * minimal definitions this phase relies on:
 *  - a bin is a pair {capacity, occupied} with occupied <= capacity;
 *  - the allocator holds the block's own bin and three category bins;
 *  - uninitialised space is the block's capacity minus the three bins' capacities;
 *  - while decrypted transactions are built, the protocol bin is the empty
 *    placeholder of capacity 0.
 */
module BlockSpaceAlloc {
  import opened Common

  /** Why a transaction could not be placed in a bin. */
  datatype AllocFailure =
    | Rejected(binSpaceLeft: U64)  // the bin has too little space left for it
    | OverflowsBin(binSize: U64)   // it is larger than the whole bin

  /** A byte budget for one category of transactions. */
  datatype TxBin = TxBin(capacity: U64, occupied: U64)

  predicate BinValid(bin: TxBin)
  {
    bin.occupied <= bin.capacity
  }

  /** `TxBin::init`: an empty bin of the given capacity. */
  function InitBin(capacity: U64): (bin: TxBin)
    ensures BinValid(bin) && bin.capacity == capacity && bin.occupied == 0
  {
    TxBin(capacity, 0)
  }

  /**
   * `TxBin::try_dump`: the transaction goes in exactly when it fits in the
   * space left, and then occupies exactly its length; on failure the bin is
   * unchanged.
   */
  function TryDump(bin: TxBin, txLen: nat): (r: (Outcome<AllocFailure>, TxBin))
    requires BinValid(bin)
    ensures BinValid(r.1) && r.1.capacity == bin.capacity
    ensures r.0.Pass? <==> bin.occupied + txLen <= bin.capacity
    ensures r.0.Pass? ==> r.1.occupied == bin.occupied + txLen
    ensures r.0.Fail? ==> r.1 == bin
    ensures r.0.Fail? ==> (r.0.error.OverflowsBin? <==> txLen > bin.capacity)
    ensures txLen > bin.capacity ==> r.0 == Fail(OverflowsBin(bin.capacity))
    ensures txLen <= bin.capacity < bin.occupied + txLen ==> r.0 == Fail(Rejected(bin.capacity - bin.occupied))
  {
    if txLen > bin.capacity then
      (Fail(OverflowsBin(bin.capacity)), bin)
    else if bin.occupied + txLen <= bin.capacity then
      (Pass, bin.(occupied := bin.occupied + txLen))
    else
      (Fail(Rejected(bin.capacity - bin.occupied)), bin)
  }

  /** `TxBin::shrink_to_fit`: the capacity drops to the occupancy, which stays as it was. */
  function ShrinkToFit(bin: TxBin): (r: TxBin)
    requires BinValid(bin)
    ensures BinValid(r) && r.capacity <= bin.capacity
    ensures r.occupied == bin.occupied && r.capacity == bin.occupied
  {
    bin.(capacity := bin.occupied)
  }

  /** The phases of block construction, in the only order they are visited. */
  datatype Phase = BuildingDecryptedTxBatch | BuildingProtocolTxBatch | BuildingEncryptedTxBatch

  function PhaseRank(p: Phase): nat
  {
    match p
    case BuildingDecryptedTxBatch => 0
    case BuildingProtocolTxBatch => 1
    case BuildingEncryptedTxBatch => 2
  }

  /** The allocator's fields; the phase is the type parameter of the source's allocator. */
  datatype AllocatorState = AllocatorState(
    phase: Phase,
    block: TxBin,
    protocolTxs: TxBin,
    encryptedTxs: TxBin,
    decryptedTxs: TxBin)

  /** Bytes handed to the three category bins. */
  function AllottedSpace(s: AllocatorState): nat
  {
    s.protocolTxs.capacity + s.encryptedTxs.capacity + s.decryptedTxs.capacity
  }

  /** Bytes taken by transactions in the three category bins. */
  function OccupiedSpace(s: AllocatorState): nat
  {
    s.protocolTxs.occupied + s.encryptedTxs.occupied + s.decryptedTxs.occupied
  }

  /** Every bin respects its capacity and the bins together fit in the block. */
  predicate StateValid(s: AllocatorState)
  {
    BinValid(s.block) && BinValid(s.protocolTxs) && BinValid(s.encryptedTxs) && BinValid(s.decryptedTxs)
    && AllottedSpace(s) <= s.block.capacity
    && (s.phase == BuildingDecryptedTxBatch ==> s.protocolTxs == InitBin(0))
  }

  /** `uninitialized_space_in_bytes`: block space that no bin has been given yet. */
  function UninitializedSpaceInBytes(s: AllocatorState): U64
    requires AllottedSpace(s) <= s.block.capacity
  {
    s.block.capacity - AllottedSpace(s)
  }

  /**
   * `try_alloc` in the decrypted phase: the outcome is the decrypted bin's
   * `try_dump`, and nothing but that bin changes.
   */
  function DecryptedTryAlloc(s: AllocatorState, txLen: nat): (r: (Outcome<AllocFailure>, AllocatorState))
    requires StateValid(s) && s.phase == BuildingDecryptedTxBatch
    ensures StateValid(r.1)
    ensures r.0 == TryDump(s.decryptedTxs, txLen).0 && r.1.decryptedTxs == TryDump(s.decryptedTxs, txLen).1
    ensures r.1 == s.(decryptedTxs := r.1.decryptedTxs)
  {
    var (outcome, bin) := TryDump(s.decryptedTxs, txLen);
    (outcome, s.(decryptedTxs := bin))
  }

  /**
   * `next_state_impl` from the decrypted phase: the decrypted bin shrinks to
   * its occupancy, and the protocol bin is created with all the block space
   * left over after that shrink. Block and encrypted bin pass on unchanged,
   * the phase moves forward, and the bins now share out the whole block.
   */
  function DecryptedNextState(s: AllocatorState): (t: AllocatorState)
    requires StateValid(s) && s.phase == BuildingDecryptedTxBatch
    ensures StateValid(t) && t.phase == BuildingProtocolTxBatch
    ensures PhaseRank(t.phase) == PhaseRank(s.phase) + 1
    ensures t.decryptedTxs.capacity == s.decryptedTxs.occupied
    ensures t.decryptedTxs.occupied == s.decryptedTxs.occupied
    ensures t.protocolTxs.occupied == 0
    ensures t.protocolTxs.capacity == s.block.capacity - s.encryptedTxs.capacity - s.decryptedTxs.occupied
    ensures t.block == s.block && t.encryptedTxs == s.encryptedTxs
    ensures AllottedSpace(t) == s.block.capacity
  {
    var shrunk := s.(decryptedTxs := ShrinkToFit(s.decryptedTxs));
    var remainingFreeSpace := UninitializedSpaceInBytes(shrunk);
    shrunk.(protocolTxs := InitBin(remainingFreeSpace), phase := BuildingProtocolTxBatch)
  }

  /**
   * Repeated `try_alloc` calls, one per candidate transaction in the driver's
   * order: only the decrypted bin fills, and the block budget holds after
   * every call.
   */
  function AllocEach(s: AllocatorState, txLens: seq<nat>): (r: AllocatorState)
    requires StateValid(s) && s.phase == BuildingDecryptedTxBatch
    ensures StateValid(r) && r == s.(decryptedTxs := r.decryptedTxs)
    ensures r.decryptedTxs.capacity == s.decryptedTxs.capacity
    ensures s.decryptedTxs.occupied <= r.decryptedTxs.occupied
    decreases |txLens|
  {
    if txLens == [] then s else AllocEach(DecryptedTryAlloc(s, txLens[0]).1, txLens[1..])
  }

  // ---------------------------------------------------------------------------
  // Properties of the allocator

  /** The invariant bounds what transactions occupy: never more than the block. */
  lemma OccupancyWithinBlock(s: AllocatorState)
    requires StateValid(s)
    ensures OccupiedSpace(s) <= AllottedSpace(s) <= s.block.capacity
  {
  }

  /**
   * Because the shrink comes before the free space is measured, the protocol
   * bin receives the uninitialised space plus the decrypted bin's unused
   * headroom.
   */
  lemma NextStateReclaimsHeadroom(s: AllocatorState)
    requires StateValid(s) && s.phase == BuildingDecryptedTxBatch
    ensures DecryptedNextState(s).protocolTxs.capacity
         == UninitializedSpaceInBytes(s) + (s.decryptedTxs.capacity - s.decryptedTxs.occupied)
  {
  }

  /** The transition moves no transaction bytes: total occupancy is the same before and after. */
  lemma NextStateKeepsOccupancy(s: AllocatorState)
    requires StateValid(s) && s.phase == BuildingDecryptedTxBatch
    ensures OccupiedSpace(DecryptedNextState(s)) == OccupiedSpace(s)
  {
  }

  /**
   * Whatever the sequence of candidates, the decrypted bin's occupancy grows
   * by exactly the lengths that were accepted, and the block budget holds.
   */
  lemma {:induction false} AllocEachAccountsAccepted(s: AllocatorState, txLens: seq<nat>)
    requires StateValid(s) && s.phase == BuildingDecryptedTxBatch
    ensures AllocEach(s, txLens).decryptedTxs.occupied == s.decryptedTxs.occupied + AcceptedBytes(s, txLens)
    ensures OccupiedSpace(AllocEach(s, txLens)) <= s.block.capacity
    decreases |txLens|
  {
    if txLens != [] {
      var (outcome, next) := DecryptedTryAlloc(s, txLens[0]);
      AllocEachAccountsAccepted(next, txLens[1..]);
    }
  }

  /** Total length of the candidates that `AllocEach` accepts. */
  function AcceptedBytes(s: AllocatorState, txLens: seq<nat>): nat
    requires StateValid(s) && s.phase == BuildingDecryptedTxBatch
    decreases |txLens|
  {
    if txLens == [] then 0
    else
      var (outcome, next) := DecryptedTryAlloc(s, txLens[0]);
      (if outcome.Pass? then txLens[0] else 0) + AcceptedBytes(next, txLens[1..])
  }

  /**
   * `BlockSpaceAllocator<BuildingDecryptedTxBatch>`, updated in place. The
   * phase field stands for the source's phase type parameter: only
   * `BuildingDecryptedTxBatch` allows the two methods below, and the
   * transition leaves it for good.
   */
  class BlockSpaceAllocator {
    var phase: Phase
    var block: TxBin
    var protocolTxs: TxBin
    var encryptedTxs: TxBin
    var decryptedTxs: TxBin

    function View(): AllocatorState
      reads this
    {
      AllocatorState(phase, block, protocolTxs, encryptedTxs, decryptedTxs)
    }

    ghost predicate Valid()
      reads this
    {
      StateValid(View())
    }

    /** An allocator at the start of a block, with the category budgets the caller carved out of it. */
    constructor (blockCapacity: U64, decryptedCapacity: U64, encryptedCapacity: U64)
      requires decryptedCapacity + encryptedCapacity <= blockCapacity
      ensures Valid() && phase == BuildingDecryptedTxBatch
      ensures block == InitBin(blockCapacity) && protocolTxs == InitBin(0)
      ensures encryptedTxs == InitBin(encryptedCapacity) && decryptedTxs == InitBin(decryptedCapacity)
    {
      phase := BuildingDecryptedTxBatch;
      block := InitBin(blockCapacity);
      protocolTxs := InitBin(0);
      encryptedTxs := InitBin(encryptedCapacity);
      decryptedTxs := InitBin(decryptedCapacity);
    }

    /** `try_alloc`: dump the transaction into the decrypted bin; the other fields stay. */
    method TryAlloc(tx: seq<bv8>) returns (r: Outcome<AllocFailure>)
      requires Valid() && phase == BuildingDecryptedTxBatch
      modifies this
      ensures Valid() && phase == BuildingDecryptedTxBatch
      ensures (r, View()) == DecryptedTryAlloc(old(View()), |tx|)
      ensures r == TryDump(old(decryptedTxs), |tx|).0 && decryptedTxs == TryDump(old(decryptedTxs), |tx|).1
      ensures block == old(block) && protocolTxs == old(protocolTxs) && encryptedTxs == old(encryptedTxs)
    {
      var (outcome, bin) := TryDump(decryptedTxs, |tx|);
      decryptedTxs := bin;
      r := outcome;
    }

    /**
     * `next_state_impl`: shrink the decrypted bin, measure the space still
     * unallocated, give all of it to a fresh protocol bin, and move on to
     * `BuildingProtocolTxBatch`.
     */
    method NextState()
      requires Valid() && phase == BuildingDecryptedTxBatch
      modifies this
      ensures Valid() && phase == BuildingProtocolTxBatch
      ensures View() == DecryptedNextState(old(View()))
      ensures decryptedTxs.capacity == old(decryptedTxs.occupied) && decryptedTxs.occupied == old(decryptedTxs.occupied)
      ensures protocolTxs == InitBin(old(block.capacity - encryptedTxs.capacity - decryptedTxs.occupied))
      ensures block == old(block) && encryptedTxs == old(encryptedTxs)
      ensures AllottedSpace(View()) == block.capacity
    {
      decryptedTxs := ShrinkToFit(decryptedTxs);
      var remainingFreeSpace := UninitializedSpaceInBytes(View());
      protocolTxs := InitBin(remainingFreeSpace);
      phase := BuildingProtocolTxBatch;
    }
  }
}

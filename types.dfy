/**
 * Values exchanged between the test executor and its collaborators: ledger
 * state, write sets, transactions, outputs and statuses, plus the panics the
 * executor raises and the bundle of foreign collaborators it calls.
 */
module Types {

  /** Rust's `Result`. */
  datatype Result<+T, +E> = Ok(value: T) | Err(error: E)

  /** Rust's `Option`. */
  datatype Option<+T> = None | Some(value: T)

  /** Rust's `u64`. */
  newtype u64 = x: int | 0 <= x < 0x1_0000_0000_0000_0000

  type Bytes = seq<bv8>

  /** n zero bytes. */
  function Zeros(n: nat): (z: Bytes)
    ensures |z| == n
    ensures forall i :: 0 <= i < n ==> z[i] == 0
    decreases n
  {
    if n == 0 then [] else Zeros(n - 1) + [0]
  }

  /** One storage slot of the ledger. */
  datatype StateKey = StateKey(path: Bytes)

  datatype WriteOp = Value(blob: Bytes) | Deletion

  /** An ordered batch of upserts and deletions. */
  type WriteSet = seq<(StateKey, WriteOp)>

  /** The in-memory data store: every slot that has been written. */
  type Store = map<StateKey, Bytes>

  /**
   * The data store's `add_write_set`: every operation in sequence order,
   * a value upserts its key and a deletion removes it.
   */
  function AddWriteSet(store: Store, ws: WriteSet): (r: Store)
    ensures ws != [] && ws[|ws| - 1].1.Value? ==> ws[|ws| - 1].0 in r && r[ws[|ws| - 1].0] == ws[|ws| - 1].1.blob
    ensures ws != [] && ws[|ws| - 1].1.Deletion? ==> ws[|ws| - 1].0 !in r
    decreases |ws|
  {
    if ws == [] then store
    else
      var before := AddWriteSet(store, ws[..|ws| - 1]);
      var (key, op) := ws[|ws| - 1];
      match op
      case Value(blob) => before[key := blob]
      case Deletion => before - {key}
  }

  datatype VMStatus = VMStatus(code: nat)

  datatype StatusCode = StatusCode(code: nat)

  datatype ExecutionStatus =
    | Success
    | OutOfGas
    | MoveAbort(abortCode: nat)
    | ExecutionFailure(functionIndex: nat)
    | MiscellaneousError(code: nat)

  datatype TransactionStatus = Keep(execution: ExecutionStatus) | Discard(discarded: StatusCode) | Retry

  datatype EventKey = EventKey(bytes: Bytes)

  datatype ContractEvent = ContractEvent(key: EventKey, sequenceNumber: nat, eventData: Bytes)

  datatype TransactionOutput = TransactionOutput(
    writeSet: WriteSet,
    events: seq<ContractEvent>,
    gasUsed: nat,
    status: TransactionStatus)

  datatype SignedTransaction = SignedTransaction(raw: Bytes)

  datatype HashValue = HashValue(bytes: Bytes)

  /** `HashValue::zero()`: 32 zero bytes. */
  const ZERO_HASH: HashValue := HashValue(Zeros(32))

  /** The arguments of `BlockMetadata::new`, in their order. */
  datatype BlockMetadata = BlockMetadata(
    id: HashValue,
    epoch: nat,
    round: nat,
    previousBlockVotes: seq<bool>,
    proposer: nat,
    timestampUsecs: u64)

  datatype Transaction =
    | UserTransaction(signed: SignedTransaction)
    | BlockMetadataTransaction(metadata: BlockMetadata)

  /** What executing a block yields: one output per transaction, or a VM failure. */
  type BlockResult = Result<seq<TransactionOutput>, VMStatus>

  datatype ValidatorInfo = ValidatorInfo(address: Bytes)

  datatype Identifier = Identifier(name: string)

  datatype ModuleId = ModuleId(address: Bytes, name: Identifier)

  /** `CORE_CODE_ADDRESS`, the account 0x1. */
  const CORE_CODE_ADDRESS: Bytes := Zeros(15) + [1]

  datatype TypeTag = TypeTag(repr: string)

  /** How a direct VM session ends, step by step. */
  datatype SessionOutcome =
    | CallFailed(callStatus: VMStatus)
    | FinishFailed
    | ChangeSetFailed
    | Finished(writeSet: WriteSet, events: seq<ContractEvent>)

  /** Second component of the parallel engine's result, which the executor drops. */
  type ParallelDetail

  /**
   * The foreign code the executor calls, as parameters: the two engines, the
   * hardware parallelism, the on-chain config fetches, the new-block event key
   * and the BCS check of its payload, the Move VM and its session, and
   * `Identifier::new`'s validity test.
   */
  datatype Collaborators = Collaborators(
    sequential: (seq<Transaction>, Store) -> BlockResult,
    parallel: (seq<Transaction>, Store, nat) -> Result<(seq<TransactionOutput>, ParallelDetail), VMStatus>,
    cpus: nat,
    validatorSet: Store -> Option<seq<ValidatorInfo>>,
    version: Store -> Option<nat>,
    newBlockEventKey: EventKey,
    parsesAsNewBlockEvent: Bytes -> bool,
    vmStarts: bool,
    isIdentifier: string -> bool,
    session: (Store, ModuleId, Identifier, seq<TypeTag>, seq<Bytes>) -> SessionOutcome)

  /** Every way the executor aborts the test. */
  datatype Panic =
    | TraceDirUnreadable
    | TraceFileExists
    | ErrorFileNotCreated
    | OutputsDiffer
    | VmFailed(status: VMStatus)
    | OutputCountMismatch
    | NoOutput
    | TransactionFailed(failure: ExecutionStatus)
    | TransactionDiscarded(code: StatusCode)
    | TransactionRetry
    | ValidatorSetUnavailable
    | NoEvents
    | UnexpectedEventKey
    | MalformedNewBlockEvent
    | BlockTimeOverflow
    | VmStartFailed
    | InvalidIdentifier(identifier: string)
    | CallPanicked(callStatus: VMStatus)
    | SessionFinishFailed
    | ChangeSetNotGenerated

  /** An executor call either returns or panics. */
  datatype Outcome<+T> = Returned(value: T) | Panicked(reason: Panic)
}

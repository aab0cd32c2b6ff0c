/**
 * `FakeExecutor`: the data store, the block time and the optional trace
 * directory of an end-to-end test, the dual-path execution of a block with
 * its trace recording, the success-asserting convenience forms, block
 * progression and the direct VM calls.
 *
 * Every operation is specified by a function of the old state (store, block
 * time, trace directory, filesystem listing) whose result is the outcome and
 * the new state; the class methods are proved to follow those functions.
 */
module Executor {
  import opened Types
  import opened Decimal
  import opened TraceFiles

  const U64_MAX: int := 0xFFFF_FFFF_FFFF_FFFF

  /** An outcome with the store and the listing it leaves. */
  datatype Applied<+T> = Applied(outcome: Outcome<T>, store: Store, files: Listing)

  /** An outcome with the store, the block time and the listing it leaves. */
  datatype Advanced = Advanced(outcome: Outcome<()>, store: Store, blockTime: u64, files: Listing)

  /** `test_name.replace(':', "_")`. */
  function SanitizeFileName(testName: string): (r: string)
    ensures |r| == |testName|
    ensures ':' !in r
    ensures forall i :: 0 <= i < |r| && testName[i] != ':' ==> r[i] == testName[i]
    ensures forall i :: 0 <= i < |r| && testName[i] == ':' ==> r[i] == '_'
    decreases |testName|
  {
    if testName == [] then []
    else [if testName[0] == ':' then '_' else testName[0]] + SanitizeFileName(testName[1..])
  }

  /** The text of the `name` file: `"{test_name}::{version}"`. */
  function NameFileText(testName: string, version: nat): (text: string)
    ensures |text| == |testName| + 2 + |Dec(version)|
    ensures text[..|testName|] == testName && text[|testName|..|testName| + 2] == "::"
    ensures forall i :: |testName| + 2 <= i < |text| ==> '0' <= text[i] <= '9'
  {
    testName + "::" + Dec(version)
  }

  /** `Version::fetch_config(..).map_or(0, |v| v.major)`. */
  function AptosVersion(env: Collaborators, store: Store): (version: nat)
    ensures env.version(store).Some? ==> version == env.version(store).value
    ensures env.version(store).None? ==> version == 0
  {
    match env.version(store)
    case Some(major) => major
    case None => 0
  }

  /** The transactions of `execute_block`, each wrapped as a user transaction. */
  function UserBlock(txns: seq<SignedTransaction>): (block: seq<Transaction>)
    ensures |block| == |txns|
    ensures forall i :: 0 <= i < |txns| ==> block[i] == UserTransaction(txns[i])
  {
    seq(|txns|, i requires 0 <= i < |txns| => UserTransaction(txns[i]))
  }

  function InputItems(block: seq<Transaction>): (items: seq<TraceItem>)
    ensures |items| == |block|
    ensures forall i :: 0 <= i < |block| ==> items[i] == InputRecord(block[i])
  {
    seq(|block|, i requires 0 <= i < |block| => InputRecord(block[i]))
  }

  function OutputItems(results: seq<TransactionOutput>): (items: seq<TraceItem>)
    ensures |items| == |results|
    ensures forall i :: 0 <= i < |results| ==> items[i] == OutputRecord(results[i])
  {
    seq(|results|, i requires 0 <= i < |results| => OutputRecord(results[i]))
  }

  /** `execute_transaction_block_parallel`: the parallel engine's outputs, its second component dropped. */
  function ExecuteParallel(env: Collaborators, block: seq<Transaction>, store: Store): (r: BlockResult)
    ensures r.Ok? <==> env.parallel(block, store, env.cpus).Ok?
    ensures r.Ok? ==> r.value == env.parallel(block, store, env.cpus).value.0
    ensures r.Err? ==> r.error == env.parallel(block, store, env.cpus).error
  {
    match env.parallel(block, store, env.cpus)
    case Ok(pair) => Ok(pair.0)
    case Err(e) => Err(e)
  }

  /** Before execution: one state snapshot into `data`, then one file per transaction into `input`. */
  function RecordInputs(files: Listing, td: TracePath, store: Store, block: seq<Transaction>): (r: Traced<TraceSeqMapping>)
    ensures r.outcome.Returned? ==> r.outcome.value.outputs == []
    ensures Dir(td, Data) !in files ==> r == Traced(Panicked(TraceDirUnreadable), files)
  {
    var data := TraceStep(files, Dir(td, Data), StateSnapshot(store));
    if data.outcome.Panicked? then Traced(Panicked(data.outcome.reason), data.files)
    else
      var inputs := TracePrefix(data.files, Dir(td, Input), InputItems(block), |block|);
      if inputs.outcome.Panicked? then Traced(Panicked(inputs.outcome.reason), inputs.files)
      else Traced(Returned(TraceSeqMapping(data.outcome.value, inputs.outcome.value, [])), inputs.files)
  }

  /** After execution: the outputs, or the `error` file; then the sequence mapping into `meta`. */
  function RecordResults(files: Listing, td: TracePath, output: BlockResult, traceMap: TraceSeqMapping): (r: Traced<()>)
    ensures output.Err? && (Dir(td, Top) !in files || ERROR_FILE in files[Dir(td, Top)]) ==>
              r == Traced(Panicked(ErrorFileNotCreated), files)
  {
    var recorded: Traced<TraceSeqMapping> :=
      match output
      case Ok(results) =>
        var outputs := TracePrefix(files, Dir(td, Output), OutputItems(results), |results|);
        if outputs.outcome.Panicked? then Traced(Panicked(outputs.outcome.reason), outputs.files)
        else Traced(Returned(traceMap.(outputs := outputs.outcome.value)), outputs.files)
      case Err(e) =>
        var error := CreateErrorFile(files, td, e);
        if error.outcome.Panicked? then Traced(Panicked(error.outcome.reason), error.files)
        else Traced(Returned(traceMap), error.files);
    if recorded.outcome.Panicked? then Traced(Panicked(recorded.outcome.reason), recorded.files)
    else
      var meta := TraceStep(recorded.files, Dir(td, Meta), MetaRecord(recorded.outcome.value));
      if meta.outcome.Panicked? then Traced(Panicked(meta.outcome.reason), meta.files)
      else Traced(Returned(()), meta.files)
  }

  /**
   * `execute_transaction_block` on a store and trace directory: record the
   * inputs, run both engines on the same store, panic if they disagree, record
   * the results and return the sequential engine's result.
   */
  function ExecuteTransactionBlockSpec(env: Collaborators, store: Store, traceDir: Option<TracePath>,
                                       files: Listing, block: seq<Transaction>): (r: Traced<BlockResult>)
    ensures r.outcome.Returned? ==>
              r.outcome.value == env.sequential(block, store) &&
              env.sequential(block, store) == ExecuteParallel(env, block, store)
    ensures traceDir.None? ==> r.files == files
    ensures traceDir.None? ==>
              r.outcome == if env.sequential(block, store) == ExecuteParallel(env, block, store)
                           then Returned(env.sequential(block, store)) else Panicked(OutputsDiffer)
  {
    var before :=
      if traceDir.Some? then RecordInputs(files, traceDir.value, store, block)
      else Traced(Returned(TraceSeqMapping(0, [], [])), files);
    if before.outcome.Panicked? then Traced(Panicked(before.outcome.reason), before.files)
    else
      var output := env.sequential(block, store);
      if output != ExecuteParallel(env, block, store) then Traced(Panicked(OutputsDiffer), before.files)
      else if traceDir.None? then Traced(Returned(output), before.files)
      else
        var after := RecordResults(before.files, traceDir.value, output, before.outcome.value);
        if after.outcome.Panicked? then Traced(Panicked(after.outcome.reason), after.files)
        else Traced(Returned(output), after.files)
  }

  /** The block run of `execute_transaction` and `execute_and_apply`: the one transaction as a user block. */
  function SingleRun(env: Collaborators, store: Store, traceDir: Option<TracePath>,
                     files: Listing, txn: SignedTransaction): Traced<BlockResult> {
    ExecuteTransactionBlockSpec(env, store, traceDir, files, UserBlock([txn]))
  }

  /** What `execute_transaction` makes of a run: its last output (`pop`), panicking on a VM error or no output. */
  function LastOutput(run: Traced<BlockResult>): (r: Traced<TransactionOutput>)
    ensures r.files == run.files
    ensures r.outcome.Returned? <==> run.outcome.Returned? && run.outcome.value.Ok? && run.outcome.value.value != []
    ensures r.outcome.Returned? ==> r.outcome.value == run.outcome.value.value[|run.outcome.value.value| - 1]
    ensures run.outcome.Returned? && run.outcome.value.Err? ==> r.outcome == Panicked(VmFailed(run.outcome.value.error))
    ensures run.outcome.Returned? && run.outcome.value == Ok([]) ==> r.outcome == Panicked(NoOutput)
    ensures run.outcome.Panicked? ==> r.outcome == Panicked(run.outcome.reason)
  {
    match run.outcome
    case Panicked(p) => Traced(Panicked(p), run.files)
    case Returned(Err(e)) => Traced(Panicked(VmFailed(e)), run.files)
    case Returned(Ok(outputs)) =>
      if outputs == [] then Traced(Panicked(NoOutput), run.files)
      else Traced(Returned(outputs[|outputs| - 1]), run.files)
  }

  /** `execute_transaction`. */
  function ExecuteTransactionSpec(env: Collaborators, store: Store, traceDir: Option<TracePath>,
                                  files: Listing, txn: SignedTransaction): (r: Traced<TransactionOutput>)
    ensures r.outcome.Returned? ==>
              var results := env.sequential(UserBlock([txn]), store);
              && results == ExecuteParallel(env, UserBlock([txn]), store)
              && results.Ok? && results.value != []
              && r.outcome.value == results.value[|results.value| - 1]
    ensures traceDir.None? ==> r.files == files
  {
    LastOutput(SingleRun(env, store, traceDir, files, txn))
  }

  /** The single output of a run that returned `Ok` with exactly one output. */
  predicate ReturnedOne(run: Traced<BlockResult>) {
    run.outcome.Returned? && run.outcome.value.Ok? && |run.outcome.value.value| == 1
  }

  /**
   * What `execute_and_apply` makes of a run: the write set is applied exactly
   * when the one output is `Keep`, and the call returns exactly when it is
   * `Keep(Success)`.
   */
  function ApplyOutput(store: Store, run: Traced<BlockResult>): (r: Applied<TransactionOutput>)
    ensures r.files == run.files
    ensures r.store == (if ReturnedOne(run) && run.outcome.value.value[0].status.Keep?
                        then AddWriteSet(store, run.outcome.value.value[0].writeSet) else store)
    ensures r.outcome.Returned? <==> ReturnedOne(run) && run.outcome.value.value[0].status == Keep(Success)
    ensures r.outcome.Returned? ==> r.outcome.value == run.outcome.value.value[0]
    ensures ReturnedOne(run) && run.outcome.value.value[0].status.Keep? &&
            run.outcome.value.value[0].status.execution != Success ==>
              r.outcome == Panicked(TransactionFailed(run.outcome.value.value[0].status.execution))
    ensures ReturnedOne(run) && run.outcome.value.value[0].status.Discard? ==>
              r.outcome == Panicked(TransactionDiscarded(run.outcome.value.value[0].status.discarded))
    ensures ReturnedOne(run) && run.outcome.value.value[0].status.Retry? ==> r.outcome == Panicked(TransactionRetry)
    ensures run.outcome.Returned? && run.outcome.value.Ok? && !ReturnedOne(run) ==> r.outcome == Panicked(OutputCountMismatch)
    ensures run.outcome.Returned? && run.outcome.value.Err? ==> r.outcome == Panicked(VmFailed(run.outcome.value.error))
  {
    match run.outcome
    case Panicked(p) => Applied(Panicked(p), store, run.files)
    case Returned(Err(e)) => Applied(Panicked(VmFailed(e)), store, run.files)
    case Returned(Ok(outputs)) =>
      if |outputs| != 1 then Applied(Panicked(OutputCountMismatch), store, run.files)
      else
        var output := outputs[0];
        match output.status
        case Keep(status) =>
          Applied(if status == Success then Returned(output) else Panicked(TransactionFailed(status)),
                  AddWriteSet(store, output.writeSet), run.files)
        case Discard(code) => Applied(Panicked(TransactionDiscarded(code)), store, run.files)
        case Retry => Applied(Panicked(TransactionRetry), store, run.files)
  }

  /** `execute_and_apply`. */
  function ExecuteAndApplySpec(env: Collaborators, store: Store, traceDir: Option<TracePath>,
                               files: Listing, txn: SignedTransaction): (r: Applied<TransactionOutput>)
    ensures r.outcome.Returned? ==>
              && env.sequential(UserBlock([txn]), store) == Ok([r.outcome.value])
              && r.outcome.value.status == Keep(Success)
              && r.store == AddWriteSet(store, r.outcome.value.writeSet)
    ensures r.outcome.Panicked? && r.store != store ==>
              && env.sequential(UserBlock([txn]), store).Ok?
              && |env.sequential(UserBlock([txn]), store).value| == 1
              && env.sequential(UserBlock([txn]), store).value[0].status.Keep?
    ensures traceDir.None? ==> r.files == files
  {
    var run := SingleRun(env, store, traceDir, files, txn);
    assert ReturnedOne(run) ==> run.outcome.value.value == [run.outcome.value.value[0]];
    ApplyOutput(store, run)
  }

  /** One `false` per validator. */
  function NoVotes(validators: seq<ValidatorInfo>): (votes: seq<bool>)
    ensures |votes| == |validators|
    ensures forall i :: 0 <= i < |votes| ==> !votes[i]
    decreases |validators|
  {
    if validators == [] then [] else [false] + NoVotes(validators[1..])
  }

  /** The block prologue of `new_block_with_timestamp`. */
  function NewBlockMetadata(validators: seq<ValidatorInfo>, timestamp: u64): (m: BlockMetadata)
    ensures |m.previousBlockVotes| == 1 + |validators|
    ensures forall i :: 0 <= i < |m.previousBlockVotes| ==> !m.previousBlockVotes[i]
    ensures m.timestampUsecs == timestamp
    ensures m.id == ZERO_HASH && m.epoch == 0 && m.round == 0 && m.proposer == 1
  {
    BlockMetadata(ZERO_HASH, 0, 0, [false] + NoVotes(validators), 1, timestamp)
  }

  /** The checks on the prologue's result: the last output, whose first event is a well-formed new-block event. */
  function CheckPrologue(env: Collaborators, run: Outcome<BlockResult>): (r: Outcome<TransactionOutput>)
    ensures r.Returned? ==>
              && run.Returned? && run.value.Ok? && run.value.value != []
              && r.value == run.value.value[|run.value.value| - 1]
              && r.value.events != []
              && r.value.events[0].key == env.newBlockEventKey
              && env.parsesAsNewBlockEvent(r.value.events[0].eventData)
    ensures run.Returned? && run.value.Ok? && run.value.value != [] ==>
              var last := run.value.value[|run.value.value| - 1];
              (r.Returned? <==> last.events != [] && last.events[0].key == env.newBlockEventKey
                                && env.parsesAsNewBlockEvent(last.events[0].eventData))
  {
    match run
    case Panicked(p) => Panicked(p)
    case Returned(Err(e)) => Panicked(VmFailed(e))
    case Returned(Ok(outputs)) =>
      if outputs == [] then Panicked(NoOutput)
      else
        var output := outputs[|outputs| - 1];
        if output.events == [] then Panicked(NoEvents)
        else if output.events[0].key != env.newBlockEventKey then Panicked(UnexpectedEventKey)
        else if !env.parsesAsNewBlockEvent(output.events[0].eventData) then Panicked(MalformedNewBlockEvent)
        else Returned(output)
  }

  /** The prologue block run by `new_block_with_timestamp` once the validator set is known. */
  function PrologueRun(env: Collaborators, store: Store, traceDir: Option<TracePath>, files: Listing,
                       validators: seq<ValidatorInfo>, timestamp: u64): Traced<BlockResult> {
    ExecuteTransactionBlockSpec(env, store, traceDir, files,
                                [BlockMetadataTransaction(NewBlockMetadata(validators, timestamp))])
  }

  /**
   * `new_block_with_timestamp(t)`: fetch the validator set, set the block time
   * to t, run the prologue, check its event and apply its write set.
   */
  function NewBlockWithTimestampSpec(env: Collaborators, store: Store, blockTime: u64, traceDir: Option<TracePath>,
                                     files: Listing, timestamp: u64): (r: Advanced)
    ensures env.validatorSet(store).None? ==>
              r == Advanced(Panicked(ValidatorSetUnavailable), store, blockTime, files)
    ensures env.validatorSet(store).Some? ==>
              var run := PrologueRun(env, store, traceDir, files, env.validatorSet(store).value, timestamp);
              var checked := CheckPrologue(env, run.outcome);
              && r.blockTime == timestamp
              && r.files == run.files
              && (r.outcome.Returned? <==> checked.Returned?)
              && r.store == (if checked.Returned? then AddWriteSet(store, checked.value.writeSet) else store)
  {
    match env.validatorSet(store)
    case None => Advanced(Panicked(ValidatorSetUnavailable), store, blockTime, files)
    case Some(validators) =>
      var run := PrologueRun(env, store, traceDir, files, validators, timestamp);
      match CheckPrologue(env, run.outcome)
      case Panicked(p) => Advanced(Panicked(p), store, timestamp, run.files)
      case Returned(output) => Advanced(Returned(()), AddWriteSet(store, output.writeSet), timestamp, run.files)
  }

  /** `new_block`: `new_block_with_timestamp(block_time + 1)`, the addition checked for overflow. */
  function NewBlockSpec(env: Collaborators, store: Store, blockTime: u64, traceDir: Option<TracePath>,
                        files: Listing): (r: Advanced)
    ensures blockTime as int == U64_MAX ==> r == Advanced(Panicked(BlockTimeOverflow), store, blockTime, files)
    ensures r.outcome.Returned? ==> r.blockTime as int == blockTime as int + 1
  {
    if blockTime as int == U64_MAX then Advanced(Panicked(BlockTimeOverflow), store, blockTime, files)
    else NewBlockWithTimestampSpec(env, store, blockTime, traceDir, files, blockTime + 1)
  }

  /** `FakeExecutor::module`: a module under the core code address. */
  function ModuleNamed(env: Collaborators, name: string): (r: Outcome<ModuleId>)
    ensures r.Returned? <==> env.isIdentifier(name)
    ensures r.Returned? ==> r.value == ModuleId(CORE_CODE_ADDRESS, Identifier(name))
    ensures r.Panicked? ==> r.reason == InvalidIdentifier(name)
  {
    if env.isIdentifier(name) then Returned(ModuleId(CORE_CODE_ADDRESS, Identifier(name)))
    else Panicked(InvalidIdentifier(name))
  }

  /** `FakeExecutor::name`. */
  function IdentifierNamed(env: Collaborators, name: string): (r: Outcome<Identifier>)
    ensures r.Returned? <==> env.isIdentifier(name)
    ensures r.Returned? ==> r.value == Identifier(name)
    ensures r.Panicked? ==> r.reason == InvalidIdentifier(name)
  {
    if env.isIdentifier(name) then Returned(Identifier(name)) else Panicked(InvalidIdentifier(name))
  }

  /** The session that both `exec` and `try_exec` open, once the VM started and both names are identifiers. */
  function CallSession(env: Collaborators, store: Store, moduleName: string, functionName: string,
                       typeParams: seq<TypeTag>, args: seq<Bytes>): SessionOutcome {
    env.session(store, ModuleId(CORE_CODE_ADDRESS, Identifier(moduleName)), Identifier(functionName), typeParams, args)
  }

  /** The preconditions of the call itself in `exec` and `try_exec`, in evaluation order. */
  function CallSetup(env: Collaborators, moduleName: string, functionName: string): (r: Outcome<()>)
    ensures r.Returned? <==> env.vmStarts && env.isIdentifier(moduleName) && env.isIdentifier(functionName)
  {
    if !env.vmStarts then Panicked(VmStartFailed)
    else match ModuleNamed(env, moduleName)
      case Panicked(p) => Panicked(p)
      case Returned(_) =>
        match IdentifierNamed(env, functionName)
        case Panicked(p) => Panicked(p)
        case Returned(_) => Returned(())
  }

  /**
   * `try_exec`: a call error is returned as `Err`, a finished session's write
   * set is returned as `Ok` and is not applied.
   */
  function TryExecSpec(env: Collaborators, store: Store, moduleName: string, functionName: string,
                       typeParams: seq<TypeTag>, args: seq<Bytes>): (r: Outcome<Result<WriteSet, VMStatus>>)
    ensures CallSetup(env, moduleName, functionName).Panicked? ==> r == Panicked(CallSetup(env, moduleName, functionName).reason)
    ensures r.Returned? && r.value.Ok? ==>
              && CallSession(env, store, moduleName, functionName, typeParams, args).Finished?
              && CallSession(env, store, moduleName, functionName, typeParams, args).writeSet == r.value.value
    ensures r.Returned? && r.value.Err? ==>
              CallSession(env, store, moduleName, functionName, typeParams, args) == CallFailed(r.value.error)
    ensures CallSetup(env, moduleName, functionName).Returned? ==>
              var session := CallSession(env, store, moduleName, functionName, typeParams, args);
              && (session.CallFailed? ==> r == Returned(Err(session.callStatus)))
              && (session.Finished? ==> r == Returned(Ok(session.writeSet)))
              && (session.FinishFailed? ==> r == Panicked(SessionFinishFailed))
              && (session.ChangeSetFailed? ==> r == Panicked(ChangeSetNotGenerated))
  {
    match CallSetup(env, moduleName, functionName)
    case Panicked(p) => Panicked(p)
    case Returned(_) =>
      match CallSession(env, store, moduleName, functionName, typeParams, args)
      case CallFailed(status) => Returned(Err(status))
      case FinishFailed => Panicked(SessionFinishFailed)
      case ChangeSetFailed => Panicked(ChangeSetNotGenerated)
      case Finished(writeSet, _) => Returned(Ok(writeSet))
  }

  /** `exec`: the same session, panicking on a call error and applying the write set. */
  function ExecSpec(env: Collaborators, store: Store, moduleName: string, functionName: string,
                    typeParams: seq<TypeTag>, args: seq<Bytes>): (r: (Outcome<()>, Store))
    ensures r.0.Panicked? ==> r.1 == store
    ensures CallSetup(env, moduleName, functionName).Panicked? ==>
              r.0 == Panicked(CallSetup(env, moduleName, functionName).reason)
    ensures CallSetup(env, moduleName, functionName).Returned? ==>
              var session := CallSession(env, store, moduleName, functionName, typeParams, args);
              && (session.Finished? ==> r == (Returned(()), AddWriteSet(store, session.writeSet)))
              && (session.CallFailed? ==> r == (Panicked(CallPanicked(session.callStatus)), store))
              && (session.FinishFailed? ==> r.0 == Panicked(SessionFinishFailed))
              && (session.ChangeSetFailed? ==> r.0 == Panicked(ChangeSetNotGenerated))
  {
    match CallSetup(env, moduleName, functionName)
    case Panicked(p) => (Panicked(p), store)
    case Returned(_) =>
      match CallSession(env, store, moduleName, functionName, typeParams, args)
      case CallFailed(status) => (Panicked(CallPanicked(status)), store)
      case FinishFailed => (Panicked(SessionFinishFailed), store)
      case ChangeSetFailed => (Panicked(ChangeSetNotGenerated), store)
      case Finished(writeSet, _) => (Returned(()), AddWriteSet(store, writeSet))
  }

  class FakeExecutor {
    var dataStore: Store
    var blockTime: u64
    /** The golden-output file name; the logging itself is not modelled. */
    var executedOutput: Option<string>
    var traceDir: Option<TracePath>

    /** `from_genesis`: an empty store with the genesis write set applied. */
    constructor FromGenesis(writeSet: WriteSet)
      ensures dataStore == AddWriteSet(map[], writeSet)
      ensures blockTime == 0 && executedOutput == None && traceDir == None
    {
      dataStore := map[];
      blockTime := 0;
      executedOutput := None;
      traceDir := None;
      new;
      ApplyWriteSet(writeSet);
    }

    /** `no_genesis`. */
    constructor NoGenesis()
      ensures dataStore == map[]
      ensures blockTime == 0 && executedOutput == None && traceDir == None
    {
      dataStore := map[];
      blockTime := 0;
      executedOutput := None;
      traceDir := None;
    }

    /** `apply_write_set`. */
    method ApplyWriteSet(writeSet: WriteSet)
      modifies this
      ensures dataStore == AddWriteSet(old(dataStore), writeSet)
      ensures blockTime == old(blockTime) && executedOutput == old(executedOutput) && traceDir == old(traceDir)
    {
      dataStore := AddWriteSet(dataStore, writeSet);
    }

    /**
     * `set_golden_file`: with a trace root, the trace directory is laid out
     * afresh and tracing is on from now on; without one, nothing is traced.
     */
    method SetGoldenFile(env: Collaborators, fs: TraceFs, traceRoot: Option<string>, testName: string)
      modifies this, fs
      ensures executedOutput == Some(SanitizeFileName(testName))
      ensures dataStore == old(dataStore) && blockTime == old(blockTime)
      ensures traceRoot.None? ==> traceDir == old(traceDir) && fs.files == old(fs.files)
      ensures traceRoot.Some? ==>
                var td := TracePath(traceRoot.value, SanitizeFileName(testName));
                && traceDir == Some(td)
                && fs.files == FreshTraceDir(old(fs.files), td, NameFileText(testName, AptosVersion(env, dataStore)))
    {
      var fileName := SanitizeFileName(testName);
      executedOutput := Some(fileName);
      if traceRoot.Some? {
        var version := AptosVersion(env, dataStore);
        var td := TracePath(traceRoot.value, fileName);
        fs.ResetTraceDir(td, NameFileText(testName, version));
        traceDir := Some(td);
      }
    }

    /** `execute_block`: the signed transactions as a block of user transactions. */
    method ExecuteBlock(env: Collaborators, fs: TraceFs, txnBlock: seq<SignedTransaction>) returns (out: Outcome<BlockResult>)
      modifies fs
      ensures Traced(out, fs.files) == ExecuteTransactionBlockSpec(env, dataStore, traceDir, old(fs.files), UserBlock(txnBlock))
    {
      out := ExecuteTransactionBlock(env, fs, UserBlock(txnBlock));
    }

    /** `execute_transaction_block`; the executor itself is not modified. */
    method ExecuteTransactionBlock(env: Collaborators, fs: TraceFs, txnBlock: seq<Transaction>) returns (out: Outcome<BlockResult>)
      modifies fs
      ensures Traced(out, fs.files) == ExecuteTransactionBlockSpec(env, dataStore, traceDir, old(fs.files), txnBlock)
    {
      var traceMap := TraceSeqMapping(0, [], []);
      if traceDir.Some? {
        var recorded := RecordBlockInputs(fs, traceDir.value, txnBlock);
        if recorded.Panicked? {
          return Panicked(recorded.reason);
        }
        traceMap := recorded.value;
      }
      var output := env.sequential(txnBlock, dataStore);
      var parallelOutput := ExecuteParallel(env, txnBlock, dataStore);
      if output != parallelOutput {
        return Panicked(OutputsDiffer);
      }
      if traceDir.Some? {
        var recorded := RecordBlockResults(fs, traceDir.value, output, traceMap);
        if recorded.Panicked? {
          return Panicked(recorded.reason);
        }
      }
      return Returned(output);
    }

    /** The recording before execution in `execute_transaction_block`. */
    method RecordBlockInputs(fs: TraceFs, td: TracePath, txnBlock: seq<Transaction>) returns (r: Outcome<TraceSeqMapping>)
      modifies fs
      ensures Traced(r, fs.files) == RecordInputs(old(fs.files), td, dataStore, txnBlock)
    {
      var dataSeq := fs.Trace(Dir(td, Data), StateSnapshot(dataStore));
      if dataSeq.Panicked? {
        return Panicked(dataSeq.reason);
      }
      var inputSeqs := fs.TraceEach(Dir(td, Input), InputItems(txnBlock));
      if inputSeqs.Panicked? {
        return Panicked(inputSeqs.reason);
      }
      return Returned(TraceSeqMapping(dataSeq.value, inputSeqs.value, []));
    }

    /** The recording after execution in `execute_transaction_block`. */
    method RecordBlockResults(fs: TraceFs, td: TracePath, output: BlockResult, traceMap: TraceSeqMapping) returns (r: Outcome<()>)
      modifies fs
      ensures Traced(r, fs.files) == RecordResults(old(fs.files), td, output, traceMap)
    {
      var mapping := traceMap;
      match output {
        case Ok(results) =>
          var outputSeqs := fs.TraceEach(Dir(td, Output), OutputItems(results));
          if outputSeqs.Panicked? {
            return Panicked(outputSeqs.reason);
          }
          mapping := mapping.(outputs := outputSeqs.value);
        case Err(e) =>
          var created := fs.WriteErrorFile(td, e);
          if created.Panicked? {
            return Panicked(created.reason);
          }
      }
      var metaSeq := fs.Trace(Dir(td, Meta), MetaRecord(mapping));
      if metaSeq.Panicked? {
        return Panicked(metaSeq.reason);
      }
      return Returned(());
    }

    /** `execute_transaction`. */
    method ExecuteTransaction(env: Collaborators, fs: TraceFs, txn: SignedTransaction) returns (out: Outcome<TransactionOutput>)
      modifies fs
      ensures Traced(out, fs.files) == ExecuteTransactionSpec(env, dataStore, traceDir, old(fs.files), txn)
    {
      var outputs := ExecuteBlock(env, fs, [txn]);
      if outputs.Panicked? {
        return Panicked(outputs.reason);
      }
      if outputs.value.Err? {
        return Panicked(VmFailed(outputs.value.error));
      }
      var results := outputs.value.value;
      if results == [] {
        return Panicked(NoOutput);
      }
      return Returned(results[|results| - 1]);
    }

    /** `execute_and_apply`. */
    method ExecuteAndApply(env: Collaborators, fs: TraceFs, transaction: SignedTransaction) returns (out: Outcome<TransactionOutput>)
      modifies this, fs
      ensures Applied(out, dataStore, fs.files) ==
              ExecuteAndApplySpec(env, old(dataStore), old(traceDir), old(fs.files), transaction)
      ensures blockTime == old(blockTime) && executedOutput == old(executedOutput) && traceDir == old(traceDir)
    {
      var outputs := ExecuteBlock(env, fs, [transaction]);
      if outputs.Panicked? {
        return Panicked(outputs.reason);
      }
      if outputs.value.Err? {
        return Panicked(VmFailed(outputs.value.error));
      }
      var results := outputs.value.value;
      if |results| != 1 {
        return Panicked(OutputCountMismatch);
      }
      var output := results[0];
      match output.status {
        case Keep(status) =>
          ApplyWriteSet(output.writeSet);
          if status != Success {
            return Panicked(TransactionFailed(status));
          }
          return Returned(output);
        case Discard(code) =>
          return Panicked(TransactionDiscarded(code));
        case Retry =>
          return Panicked(TransactionRetry);
      }
    }

    /** `new_block`. */
    method NewBlock(env: Collaborators, fs: TraceFs) returns (out: Outcome<()>)
      modifies this, fs
      ensures Advanced(out, dataStore, blockTime, fs.files) ==
              NewBlockSpec(env, old(dataStore), old(blockTime), old(traceDir), old(fs.files))
      ensures executedOutput == old(executedOutput) && traceDir == old(traceDir)
    {
      if blockTime as int == U64_MAX {
        return Panicked(BlockTimeOverflow);
      }
      out := NewBlockWithTimestamp(env, fs, blockTime + 1);
    }

    /** `new_block_with_timestamp`. */
    method NewBlockWithTimestamp(env: Collaborators, fs: TraceFs, timeStamp: u64) returns (out: Outcome<()>)
      modifies this, fs
      ensures Advanced(out, dataStore, blockTime, fs.files) ==
              NewBlockWithTimestampSpec(env, old(dataStore), old(blockTime), old(traceDir), old(fs.files), timeStamp)
      ensures executedOutput == old(executedOutput) && traceDir == old(traceDir)
    {
      var validatorSet := env.validatorSet(dataStore);
      if validatorSet.None? {
        return Panicked(ValidatorSetUnavailable);
      }
      blockTime := timeStamp;
      var newBlock := NewBlockMetadata(validatorSet.value, blockTime);
      var result := ExecuteTransactionBlock(env, fs, [BlockMetadataTransaction(newBlock)]);
      if result.Panicked? {
        return Panicked(result.reason);
      }
      if result.value.Err? {
        return Panicked(VmFailed(result.value.error));
      }
      var outputs := result.value.value;
      if outputs == [] {
        return Panicked(NoOutput);
      }
      var output := outputs[|outputs| - 1];
      if output.events == [] {
        return Panicked(NoEvents);
      }
      var event := output.events[0];
      if event.key != env.newBlockEventKey {
        return Panicked(UnexpectedEventKey);
      }
      if !env.parsesAsNewBlockEvent(event.eventData) {
        return Panicked(MalformedNewBlockEvent);
      }
      ApplyWriteSet(output.writeSet);
      return Returned(());
    }

    /** `set_block_time`: any value, with no monotonicity check. */
    method SetBlockTime(newBlockTime: u64)
      modifies this
      ensures blockTime == newBlockTime
      ensures dataStore == old(dataStore) && executedOutput == old(executedOutput) && traceDir == old(traceDir)
    {
      blockTime := newBlockTime;
    }

    /** `exec`. */
    method Exec(env: Collaborators, moduleName: string, functionName: string,
                typeParams: seq<TypeTag>, args: seq<Bytes>) returns (out: Outcome<()>)
      modifies this
      ensures (out, dataStore) == ExecSpec(env, old(dataStore), moduleName, functionName, typeParams, args)
      ensures blockTime == old(blockTime) && executedOutput == old(executedOutput) && traceDir == old(traceDir)
    {
      var setup := CallSetup(env, moduleName, functionName);
      if setup.Panicked? {
        return Panicked(setup.reason);
      }
      var session := CallSession(env, dataStore, moduleName, functionName, typeParams, args);
      match session {
        case CallFailed(status) => return Panicked(CallPanicked(status));
        case FinishFailed => return Panicked(SessionFinishFailed);
        case ChangeSetFailed => return Panicked(ChangeSetNotGenerated);
        case Finished(writeSet, _) =>
          dataStore := AddWriteSet(dataStore, writeSet);
          return Returned(());
      }
    }

    /** `try_exec`: it changes nothing. */
    method TryExec(env: Collaborators, moduleName: string, functionName: string,
                   typeParams: seq<TypeTag>, args: seq<Bytes>) returns (out: Outcome<Result<WriteSet, VMStatus>>)
      ensures out == TryExecSpec(env, dataStore, moduleName, functionName, typeParams, args)
    {
      var setup := CallSetup(env, moduleName, functionName);
      if setup.Panicked? {
        return Panicked(setup.reason);
      }
      var session := CallSession(env, dataStore, moduleName, functionName, typeParams, args);
      match session {
        case CallFailed(status) => return Returned(Err(status));
        case FinishFailed => return Panicked(SessionFinishFailed);
        case ChangeSetFailed => return Panicked(ChangeSetNotGenerated);
        case Finished(writeSet, _) => return Returned(Ok(writeSet));
      }
    }
  }
}

# FakeExecutor, modelled in Dafny

This project models `FakeExecutor` from `aptos-move/e2e-tests`: the in-memory
executor that end-to-end Move tests run transactions through. It models four
parts.

- **Trace recorder.** `trace` names each new file after the number of
  entries already in its directory and creates it with create-new semantics.
  `execute_transaction_block` records, in order:
  - one state snapshot into `data`;
  - one file per transaction into `input`;
  - then one file per output into `output`, or a single `error` file;
  - then one `(data, inputs, outputs)` sequence mapping into `meta`.

  `set_golden_file` lays out a fresh trace tree.
- **Dual-path execution.** A block runs on the sequential engine and on the
  parallel engine over the same store. The executor panics when the two
  disagree and returns the sequential result otherwise.
- **Success-asserting forms.** `execute_transaction` and `execute_and_apply`
  run a one-transaction block and return its output. `execute_and_apply` also
  dispatches on `Keep`, `Discard` or `Retry` and applies the write set.
- **Block progression and direct calls.**
  - `new_block` and `new_block_with_timestamp` build the block prologue,
    check its event and apply its write set.
  - `set_block_time` overwrites the block time.
  - `exec` and `try_exec` call a Move function in a VM session.

## Files

- `types.dfy`, module `Types`:
  - the values the executor exchanges (store, write sets, transactions,
    outputs, statuses);
  - `Panic`, every way the executor aborts a test;
  - `Outcome`, a value or a panic;
  - `Collaborators`, the foreign code the executor calls, taken as
    parameters: the two engines, the CPU count, the on-chain config fetches,
    the new-block event key, the new-block event check, the VM session and
    the identifier check.
- `decimal.dfy`, module `Decimal`: the decimal names of trace files and the
  version in the `name` file.
- `trace.dfy`, module `TraceFiles`:
  - the trace tree as a listing `map<Dir, map<FileName, Entry>>`;
  - `trace` and the `error` file as functions;
  - the class `TraceFs`, whose methods change the listing one file at a time
    and are proved to follow those functions;
  - the numbering lemmas.
- `executor.dfy`, module `Executor`:
  - one specification function per operation, mapping the old state (store,
    block time, trace directory, listing) to the outcome and the new state;
  - the class `FakeExecutor` with the fields `dataStore`, `blockTime`,
    `executedOutput` and `traceDir`. Each method ensures that its outcome and
    new state are what its specification function gives for the old state.
- `properties.dfy`, module `ExecutorProperties`: what the executor guarantees
  across calls.
  - The layout a traced block leaves: which file holds what, which
    directories only grew, and that nothing else changed.
  - When recording panics.
  - How the convenience forms relate to the block they run.
  - How the block time moves.
  - How `exec` relates to `try_exec`.

A panic is a value (`Panicked(reason)`). The state it leaves is part of each
contract.

In the source, `execute_and_apply` applies a `Keep` write set before it
asserts success. `new_block_with_timestamp` sets the block time before it runs
the prologue. The model keeps the effects that happen before each panic.

## Where the code may surprise a reader

The model follows the code in each case.

- **Prologue votes.** One might expect the vote bitmap to mark validators
  as having participated. The code builds `false` for every flag
  (`executor.rs:463-465`). The proposer argument is `1`.
- **Number of outputs.**
  - `execute_transaction` and `new_block_with_timestamp` take the last output
    (`pop`). They fail only on an empty block result, not when there is more
    than one output (`executor.rs:416-418`, `:472-473`).
  - Only `execute_and_apply` requires exactly one output (`:334`).
- **Block time.** One might expect the block time never to decrease. The
  code does not enforce that:
  - `set_block_time` takes any value;
  - `new_block_with_timestamp(t)` takes any `t` (`TimestampMaySetTimeBack`).
  - The block time is set before the prologue runs, so a panicking prologue
    still moves it (`NewBlockAdvancesTimeEvenOnPanic`).
- **Second failed block.** The `error` file is created with create-new
  semantics and is never removed. A second block that fails in the same
  traced test therefore panics (`SecondFailedBlockPanics`).

## Model

| member | source | states |
|---|---|---|
| Decimal.Dec | aptos-move/e2e-tests/src/executor.rs:429 | `to_string` of a sequence number is a non-empty run of decimal digits, one digit long exactly for numbers below ten |
| Decimal.DecInjective | aptos-move/e2e-tests/src/executor.rs:429 | distinct sequence numbers give distinct file names |
| TraceFiles.RenderInjective | aptos-move/e2e-tests/src/executor.rs:429 | two names that are not decimal numerals, or two numbered files, coincide on disk only if they are the same name |
| TraceFiles.FixedNamesConventional | aptos-move/e2e-tests/src/executor.rs:55-60 | `name`, `error`, `meta`, `data`, `input` and `output` are not decimal numerals, so no trace file can collide with them |
| TraceFiles.TraceStep | aptos-move/e2e-tests/src/executor.rs:421-434 | a missing directory panics, and so does an existing file named by the entry count. On success, `trace` returns the number of entries already present, a name that was free, and changes nothing on panic |
| TraceFiles.TraceStepRecords | aptos-move/e2e-tests/src/executor.rs:423-433 | a successful `trace` adds exactly one entry, named by the returned number and holding the item; no other file or directory changes |
| TraceFiles.TraceCollides | aptos-move/e2e-tests/src/executor.rs:423-430 | in a directory holding files `0` and `2`, `trace` derives `2` from the count and panics on the existing file, changing nothing |
| TraceFiles.TraceIntoDense | aptos-move/e2e-tests/src/executor.rs:421-434 | tracing into a directory holding exactly files `0..m-1` returns `m`, leaves exactly `0..m`, and file `m` holds the item |
| TraceFiles.TracePrefixDense | aptos-move/e2e-tests/src/executor.rs:372-375 | recording n items into a directory holding exactly `0..m-1` returns `[m, ..., m+n-1]` and leaves exactly `0..m+n-1` |
| TraceFiles.TracePrefixKeeps | aptos-move/e2e-tests/src/executor.rs:372-375 | recording n items changes no other directory and no file already in the target directory |
| TraceFiles.TraceStepKeepsEntry | aptos-move/e2e-tests/src/executor.rs:426-431 | a successful `trace` leaves every file already in the directory as it was |
| TraceFiles.TracePrefixHolds | aptos-move/e2e-tests/src/executor.rs:372-375 | after recording n items from `m` on, any one file `m+i` with i < n holds the i-th item |
| TraceFiles.TracePrefixContents | aptos-move/e2e-tests/src/executor.rs:372-375 | after recording n items from `m` on, file `m+i` holds the i-th item, in order |
| TraceFiles.TracePrefixIntoMissingDir | aptos-move/e2e-tests/src/executor.rs:372-375 | recording into a directory that does not exist changes nothing, and it panics exactly when there is at least one item |
| TraceFiles.TracePrefixPanicSticky | aptos-move/e2e-tests/src/executor.rs:430 | once one `trace` in the loop panics, the later items change nothing |
| TraceFiles.CreateErrorFile | aptos-move/e2e-tests/src/executor.rs:396-403 | the `error` file is created exactly when the trace directory exists and holds no `error` file yet; otherwise the call panics and nothing changes |
| TraceFiles.ErrorFileRecorded | aptos-move/e2e-tests/src/executor.rs:396-403 | a created `error` file holds the failure and is the only new entry of the trace directory; nothing else changes |
| TraceFiles.FreshTraceDir | aptos-move/e2e-tests/src/executor.rs:154-174 | the re-created trace directory has the `name` file with the given text, no `error` file and four empty subdirectories; directories of other tests are unchanged and no new ones appear |
| TraceFiles.TraceFs.Trace | aptos-move/e2e-tests/src/executor.rs:421-434 | outcome and new listing are those of `TraceStep` on the old listing |
| TraceFiles.TraceFs.TraceEach | aptos-move/e2e-tests/src/executor.rs:372-375 | the loop's sequence numbers and listing are those of tracing every item in order, stopping at the first panic |
| TraceFiles.TraceFs.WriteErrorFile | aptos-move/e2e-tests/src/executor.rs:396-403 | outcome and new listing are those of `CreateErrorFile` |
| TraceFiles.TraceFs.ResetTraceDir | aptos-move/e2e-tests/src/executor.rs:155-174 | the new listing is `FreshTraceDir` of the old one |
| Executor.SanitizeFileName | aptos-move/e2e-tests/src/executor.rs:144 | every `:` becomes `_`, every other character and the length are kept, and no `:` remains |
| Executor.UserBlock | aptos-move/e2e-tests/src/executor.rs:307-312 | the block wraps each signed transaction, in order, as a user transaction |
| Executor.ExecuteParallel | aptos-move/e2e-tests/src/executor.rs:351-359 | the parallel engine's outputs with its second component dropped, or its error unchanged |
| Executor.NameFileText | aptos-move/e2e-tests/src/executor.rs:164 | the `name` file's text is the test name, then `::`, then the version's decimal digits and nothing else |
| Executor.AptosVersion | aptos-move/e2e-tests/src/executor.rs:151-152 | the major version of the on-chain config, or 0 when it cannot be read |
| Executor.RecordInputs | aptos-move/e2e-tests/src/executor.rs:368-376 | the mapping recorded before execution has no outputs yet; a missing `data` directory panics before anything is written |
| Executor.RecordResults | aptos-move/e2e-tests/src/executor.rs:387-407 | a failed block whose trace directory is missing, or already holds an `error` file, panics on create-new with nothing written |
| Executor.ExecuteTransactionBlockSpec | aptos-move/e2e-tests/src/executor.rs:361-409 | a returned result is the sequential engine's, and the parallel engine agreed with it. Untraced, no file changes, and the call returns the sequential result exactly when the engines agree; otherwise it panics |
| Executor.LastOutput | aptos-move/e2e-tests/src/executor.rs:411-419 | `execute_transaction` returns exactly when the run returned a non-empty `Ok`, and then the last output; a VM error or an empty result panics |
| Executor.ExecuteTransactionSpec | aptos-move/e2e-tests/src/executor.rs:411-419 | a returning `execute_transaction` ran a block on which both engines agreed with a non-empty `Ok`, and it returns that block's last output; untraced, no file changes |
| Executor.ApplyOutput | aptos-move/e2e-tests/src/executor.rs:332-349 | the write set is applied exactly when the single output is `Keep`. The call returns exactly on `Keep(Success)`; `Keep` with a failure, `Discard`, `Retry`, an output count other than one and a VM error each panic with their own reason |
| Executor.ExecuteAndApplySpec | aptos-move/e2e-tests/src/executor.rs:332-349 | a return means the sequential engine produced exactly that one output, with status `Keep(Success)`, and its write set was applied. A panic that changed the store came from a single `Keep` output; untraced, no file changes |
| Executor.NoVotes | aptos-move/e2e-tests/src/executor.rs:463-465 | one flag per validator, every one `false` |
| Executor.NewBlockMetadata | aptos-move/e2e-tests/src/executor.rs:459-468 | the prologue has a zero id, epoch and round 0, proposer 1, the timestamp, and a vote bitmap of 1 + validator-count flags, all false |
| Executor.CheckPrologue | aptos-move/e2e-tests/src/executor.rs:469-477 | the check passes exactly when the last output's first event exists, has the new-block key and parses as a new-block event, and it returns that output |
| Executor.NewBlockWithTimestampSpec | aptos-move/e2e-tests/src/executor.rs:455-479 | a missing validator set panics with nothing changed. Otherwise the block time becomes t, the listing is the prologue run's, the call returns exactly when the prologue check passes, and only then is the write set applied |
| Executor.NewBlockSpec | aptos-move/e2e-tests/src/executor.rs:451-453 | `block_time + 1` overflowing panics with nothing changed; a returning call advances the block time by exactly one |
| Executor.ModuleNamed | aptos-move/e2e-tests/src/executor.rs:481-483 | a module under the core code address exactly when the name is an identifier, else a panic naming it |
| Executor.IdentifierNamed | aptos-move/e2e-tests/src/executor.rs:485-487 | the identifier exactly when the name is valid, else a panic naming it |
| Executor.CallSetup | aptos-move/e2e-tests/src/executor.rs:506-512 | the call can be made exactly when the VM starts and both names are identifiers |
| Executor.TryExecSpec | aptos-move/e2e-tests/src/executor.rs:535-561 | setup panics propagate. After setup, a failed call returns `Err` with its status and a finished session returns `Ok` with its write set; a session that cannot finish or yields no change set panics with that reason. An `Ok` or `Err` comes only from those sessions |
| Executor.ExecSpec | aptos-move/e2e-tests/src/executor.rs:497-533 | setup panics propagate. After setup, a finished session returns with its write set applied to the store; a failed call panics with its status; a session that cannot finish or yields no change set panics with that reason. Every panic leaves the store unchanged |
| Executor.FakeExecutor.FromGenesis | aptos-move/e2e-tests/src/executor.rs:79-89 | the store is the genesis write set applied to an empty store, with block time 0, no golden file and no tracing |
| Executor.FakeExecutor.NoGenesis | aptos-move/e2e-tests/src/executor.rs:131-139 | empty store, block time 0, no golden file and no tracing |
| Types.AddWriteSet | aptos-move/e2e-tests/src/executor.rs:243 | the last operation of a write set decides its key: a value leaves the key holding it, a deletion leaves it absent |
| Executor.FakeExecutor.ApplyWriteSet | aptos-move/e2e-tests/src/executor.rs:242-244 | the write set is applied to the store and no other field changes |
| Executor.FakeExecutor.SetGoldenFile | aptos-move/e2e-tests/src/executor.rs:141-177 | the golden name is the sanitized test name; store and block time are kept. Without a trace root nothing else changes; with one, tracing targets `<root>/<sanitized name>`, laid out afresh with `"<test name>::<version>"` in its `name` file |
| Executor.FakeExecutor.ExecuteBlock | aptos-move/e2e-tests/src/executor.rs:303-313 | outcome and listing are `execute_transaction_block`'s on the transactions wrapped as user transactions; the executor is not modified |
| Executor.FakeExecutor.ExecuteTransactionBlock | aptos-move/e2e-tests/src/executor.rs:361-409 | outcome and listing are those of `ExecuteTransactionBlockSpec` on the current store and trace directory; the executor is not modified |
| Executor.FakeExecutor.RecordBlockInputs | aptos-move/e2e-tests/src/executor.rs:368-376 | the snapshot, then the inputs are recorded by the loop; the mapping and listing are those of the recording before execution |
| Executor.FakeExecutor.RecordBlockResults | aptos-move/e2e-tests/src/executor.rs:387-407 | the outputs or the `error` file, then the mapping, as the recording after execution |
| Executor.FakeExecutor.ExecuteTransaction | aptos-move/e2e-tests/src/executor.rs:411-419 | outcome and listing are the last output of the one-transaction run; the executor is not modified |
| Executor.FakeExecutor.ExecuteAndApply | aptos-move/e2e-tests/src/executor.rs:332-349 | outcome, store and listing are `ApplyOutput` of the one-transaction run on the old state; block time, golden name and trace directory are kept |
| Executor.FakeExecutor.NewBlock | aptos-move/e2e-tests/src/executor.rs:451-453 | outcome, store, block time and listing follow `NewBlockSpec` on the old state |
| Executor.FakeExecutor.NewBlockWithTimestamp | aptos-move/e2e-tests/src/executor.rs:455-479 | outcome, store, block time and listing follow `NewBlockWithTimestampSpec` on the old state |
| Executor.FakeExecutor.SetBlockTime | aptos-move/e2e-tests/src/executor.rs:489-491 | the block time becomes the given value, whatever it was, and nothing else changes |
| Executor.FakeExecutor.Exec | aptos-move/e2e-tests/src/executor.rs:497-533 | outcome and store follow `ExecSpec` on the old store; the other fields are kept |
| Executor.FakeExecutor.TryExec | aptos-move/e2e-tests/src/executor.rs:535-561 | the outcome is `TryExecSpec` on the current store, and nothing is modified |
| ExecutorProperties.StepRecorded | aptos-move/e2e-tests/src/executor.rs:421-434 | one `trace` into a directory holding exactly `0..m-1` returns m, leaves exactly `0..m`, puts the item in file m, and only that directory grew |
| ExecutorProperties.PrefixRecorded | aptos-move/e2e-tests/src/executor.rs:372-375 | the recording loop over k items into a directory holding exactly `0..m-1` returns `[m, ..., m+k-1]`, puts the items there in order, and only that directory grew |
| ExecutorProperties.InputsRecorded | aptos-move/e2e-tests/src/executor.rs:365-376 | with `data` holding a files and `input` holding b, the mapping starts as `(a, [b, ..., b+k-1], [])`. The next `data` file holds the snapshot and input files `b..` hold the transactions in order; only `data` and `input` grew, and nothing else changed |
| ExecutorProperties.OutputsRecorded | aptos-move/e2e-tests/src/executor.rs:388-395 | on `Ok(results)`, output files `c, c+1, ...` hold the results in order and the mapping gains `[c, ..., c+n-1]`. That mapping is the one new `meta` file; no `error` file is created and only `output` and `meta` grew |
| ExecutorProperties.FailureRecorded | aptos-move/e2e-tests/src/executor.rs:396-406 | on `Err(e)`, the `error` file holding e is the one new top-level entry. The unchanged mapping is the one new `meta` file, and `output`, `data` and `input` are untouched |
| ExecutorProperties.BlockRecordedOnOk | aptos-move/e2e-tests/src/executor.rs:361-409 | a traced block that both engines run to the same `Ok` returns it. It adds one snapshot, its inputs, its outputs, and a mapping to exactly those numbers; the four subdirectories only grew and nothing else changed |
| ExecutorProperties.BlockRecordedOnErr | aptos-move/e2e-tests/src/executor.rs:361-409 | a traced block that both engines fail alike returns the failure. It records the snapshot, the inputs, the `error` file and a mapping with no outputs, and leaves `output` untouched |
| ExecutorProperties.BlockPanicsOnDivergence | aptos-move/e2e-tests/src/executor.rs:368-380 | engines that disagree panic the test after the inputs were recorded, and before any output or mapping |
| ExecutorProperties.FailurePanicsOnceErrorFileExists | aptos-move/e2e-tests/src/executor.rs:396-401 | a failing block whose trace directory already has an `error` file panics with its inputs recorded and no mapping written |
| ExecutorProperties.SecondFailedBlockPanics | aptos-move/e2e-tests/src/executor.rs:396-401 | in one traced test, the first block that fails on both engines returns its failure; the next such block panics |
| ExecutorProperties.BlockOkListing | aptos-move/e2e-tests/src/executor.rs:361-409 | the listing a successful traced block leaves is laid out as `BlockRecordedOnOk` states, from the counts before the block |
| ExecutorProperties.ConsecutiveBlocks | aptos-move/e2e-tests/src/executor.rs:370-406 | after two successful blocks, the counts have advanced by one snapshot, both blocks' inputs and outputs, and two mappings. The second mapping's numbers continue where the first stopped, and the first mapping file survives |
| ExecutorProperties.FirstBlockAfterSetGoldenFile | aptos-move/e2e-tests/src/executor.rs:154-175 | the first successful block after `set_golden_file` takes data number 0 and numbers its inputs and outputs from 0, and the `name` file is untouched |
| ExecutorProperties.ExecuteAndApplyReturnsKeptOutput | aptos-move/e2e-tests/src/executor.rs:332-349 | a returning `execute_and_apply` ran exactly one output, on which both engines agreed, with status `Keep(Success)`. It applied that output's write set and returns what `execute_transaction` returns on the same state |
| ExecutorProperties.FailedKeepIsAppliedBeforePanic | aptos-move/e2e-tests/src/executor.rs:337-343 | a `Keep` output with a failed status panics, but its write set has already been applied |
| ExecutorProperties.NewBlockSucceeded | aptos-move/e2e-tests/src/executor.rs:451-479 | a returning `new_block` had no overflow and a readable validator set, and ran the prologue at `block_time + 1`. Its last output begins with a new-block event, and that output's write set was applied |
| ExecutorProperties.NewBlockAdvancesTimeEvenOnPanic | aptos-move/e2e-tests/src/executor.rs:455-458 | with a readable validator set and no overflow, `new_block` advances the block time by one even when the prologue then panics, and a panic leaves the store as it was |
| ExecutorProperties.TimestampMaySetTimeBack | aptos-move/e2e-tests/src/executor.rs:455-458 | `new_block_with_timestamp` with an earlier timestamp moves the block time back |
| ExecutorProperties.ExecAgreesWithTryExec | aptos-move/e2e-tests/src/executor.rs:497-561 | `exec` returns exactly when `try_exec` returns a write set, which `exec` applies. A call error that `try_exec` returns is the one `exec` panics with, and the converse holds; every other panic is shared and leaves the store unchanged |
| ExecutorProperties.SanitizeIdempotent | aptos-move/e2e-tests/src/executor.rs:144 | sanitizing a sanitized name changes nothing |
| ExecutorProperties.AddWriteSetConcat | aptos-move/e2e-tests/src/executor.rs:242-244 | applying two write sets in turn is applying their concatenation |
| ExecutorProperties.AddWriteSetUntouched | aptos-move/e2e-tests/src/executor.rs:242-244 | a key that no operation names keeps its slot exactly: present or absent, with the same value |
| ExecutorProperties.NameFileVersionDetermined | aptos-move/e2e-tests/src/executor.rs:164 | for one test name, the `name` file's text determines the version |
| ExecutorProperties.GenesisThenWriteSet | aptos-move/e2e-tests/src/executor.rs:79-89 | `from_genesis` and then `apply_write_set` leave the store that genesis followed by the write set gives |

## Left out

- The sequential and parallel engines, `num_cpus`, the on-chain config
  fetches, the VM session and BCS are foreign code. They are the fields of
  `Collaborators`. A trace file holds the item itself rather than its BCS
  bytes. The new-block payload check is the predicate
  `parsesAsNewBlockEvent`.
- `FakeDataStore` lives in `data_store.rs`, which is not part of this model.
  `add_write_set` is modelled as applying each operation in order: a value
  upserts and a deletion removes.
- The real filesystem and the `TRACE` environment variable are modelled as
  follows:
  - the filesystem is a listing of directories;
  - the variable is the optional trace root passed to `SetGoldenFile`;
  - `remove_dir_all`, `create_dir_all`, the `name` file and the four
    `create_dir` calls are one step, `ResetTraceDir`, so their individual
    I/O failures are not modelled;
  - I/O errors of `read_dir`, `write_all` and serialisation are not modelled
    beyond a missing directory.
- File names are `SeqFile(n) | NamedFile(text)`. `RenderInjective` ties
  them to the names on disk for names that are not decimal numerals. A
  named entry that is itself a numeral is not modelled.
- The golden-output logging (`executor.rs:382-384`) only writes a log. The
  model keeps just the golden file name.
- Accounts and key generation (`create_accounts`, `create_raw_account*`,
  `add_account_data`, `add_module`) are left out. So are resource reads,
  `read_from_access_path`, `verify_transaction`,
  `execute_block_and_keep_vm_status`, the genesis variants other than
  `from_genesis` and `no_genesis`, and `get_block_time`. These are foreign
  calls, deserialisation or plain getters.
- NewBlockSpec: `block_time + 1` on `u64` is a panic when it overflows (Rust
  debug builds check this). Release builds would wrap around to 0, and that
  is not modelled.
- InputsRecorded, OutputsRecorded, FailureRecorded, BlockRecordedOnOk,
  BlockRecordedOnErr: they state the layout for subdirectories that hold
  exactly the files `0..m-1`. `set_golden_file` creates that layout and each
  block keeps it. For other contents only the per-call contract of
  `TraceStep` applies.
- ConsecutiveBlocks: it takes the two listings that `BlockOkListing`
  describes for the two blocks, rather than the two block runs themselves.
  `BlockOkListing` gives the first layout from the counts before the first
  block, and those layouts' counts are what the second call needs.

/**
 * What the executor guarantees across calls: how a traced block lays out its
 * files and sequence numbers, when recording panics, how the success-asserting
 * forms relate to the block they run, block-time progression, and the
 * agreement of `exec` with `try_exec`.
 */
module ExecutorProperties {
  import opened Types
  import opened Decimal
  import opened TraceFiles
  import opened Executor

  /** The files lo, lo + 1, ... of `listing` hold the items in order. */
  predicate Holds(listing: map<FileName, Entry>, lo: nat, items: seq<TraceItem>) {
    forall j :: lo <= j < lo + |items| ==> SeqFile(j) in listing && listing[SeqFile(j)] == Record(items[j - lo])
  }

  /** `dir` exists after exactly when it existed before, with the same entries. */
  predicate Unchanged(before: Listing, after: Listing, dir: Dir) {
    && (dir in before <==> dir in after)
    && (dir in before ==> after[dir] == before[dir])
  }

  /** Every entry of `before` is still in `after`, unchanged. */
  ghost predicate Extends(before: map<FileName, Entry>, after: map<FileName, Entry>) {
    forall name :: name in before ==> name in after && after[name] == before[name]
  }

  /** `dir` exists on both sides and only gained entries. */
  ghost predicate Grown(before: Listing, after: Listing, dir: Dir) {
    dir in before && dir in after && Extends(before[dir], after[dir])
  }

  /** No directory outside the trace directory `td` appeared, vanished or changed. */
  ghost predicate Outside(before: Listing, after: Listing, td: TracePath) {
    forall dir: Dir :: dir.trace != td ==> Unchanged(before, after, dir)
  }

  /**
   * What recording a block's inputs leaves: the next `data` file holds the
   * store, the next |block| `input` files hold the transactions, `data` and
   * `input` only grew, and nothing else changed.
   */
  ghost predicate InputsLaidOut(before: Listing, after: Listing, td: TracePath, store: Store, block: seq<Transaction>,
                                a: nat, b: nat, c: nat, d: nat) {
    && Numbered(after, td, a + 1, b + |block|, c, d)
    && after[Dir(td, Data)][SeqFile(a)] == Record(StateSnapshot(store))
    && Holds(after[Dir(td, Input)], b, InputItems(block))
    && Grown(before, after, Dir(td, Data)) && Grown(before, after, Dir(td, Input))
    && Unchanged(before, after, Dir(td, Top)) && Unchanged(before, after, Dir(td, Output))
    && Unchanged(before, after, Dir(td, Meta))
    && Outside(before, after, td)
  }

  /** What recording a block's outputs and then its mapping leaves. */
  ghost predicate OutputsLaidOut(before: Listing, after: Listing, td: TracePath, results: seq<TransactionOutput>,
                                 mapping: TraceItem, c: nat, d: nat) {
    && Dir(td, Output) in after && Dense(after[Dir(td, Output)], c + |results|)
    && Dir(td, Meta) in after && Dense(after[Dir(td, Meta)], d + 1)
    && Holds(after[Dir(td, Output)], c, OutputItems(results))
    && after[Dir(td, Meta)][SeqFile(d)] == Record(mapping)
    && Grown(before, after, Dir(td, Output)) && Grown(before, after, Dir(td, Meta))
    && Unchanged(before, after, Dir(td, Top)) && Unchanged(before, after, Dir(td, Data))
    && Unchanged(before, after, Dir(td, Input))
    && Outside(before, after, td)
  }

  /** What recording a failure and then the mapping leaves: the `error` file is the one new top-level entry. */
  ghost predicate FailureLaidOut(before: Listing, after: Listing, td: TracePath, e: VMStatus, mapping: TraceItem, d: nat) {
    && Dir(td, Top) in before && Dir(td, Top) in after
    && after[Dir(td, Top)] == before[Dir(td, Top)][ERROR_FILE := ErrorFile(e)]
    && Dir(td, Meta) in after && Dense(after[Dir(td, Meta)], d + 1)
    && after[Dir(td, Meta)][SeqFile(d)] == Record(mapping)
    && Grown(before, after, Dir(td, Meta))
    && Unchanged(before, after, Dir(td, Data)) && Unchanged(before, after, Dir(td, Input))
    && Unchanged(before, after, Dir(td, Output))
    && Outside(before, after, td)
  }

  /**
   * What a traced block that succeeded leaves: one snapshot, the inputs and
   * the outputs at consecutive numbers, and the mapping that ties them
   * together in the next meta file; the four numbered directories only grew
   * and nothing else changed.
   */
  ghost predicate BlockOkLaidOut(before: Listing, after: Listing, td: TracePath, store: Store, block: seq<Transaction>,
                                 results: seq<TransactionOutput>, a: nat, b: nat, c: nat, d: nat) {
    && Numbered(after, td, a + 1, b + |block|, c + |results|, d + 1)
    && after[Dir(td, Data)][SeqFile(a)] == Record(StateSnapshot(store))
    && Holds(after[Dir(td, Input)], b, InputItems(block))
    && Holds(after[Dir(td, Output)], c, OutputItems(results))
    && after[Dir(td, Meta)][SeqFile(d)] ==
       Record(MetaRecord(TraceSeqMapping(a, Consecutive(b, |block|), Consecutive(c, |results|))))
    && Grown(before, after, Dir(td, Data)) && Grown(before, after, Dir(td, Input))
    && Grown(before, after, Dir(td, Output)) && Grown(before, after, Dir(td, Meta))
    && Unchanged(before, after, Dir(td, Top))
    && Outside(before, after, td)
  }

  /**
   * What a traced block that failed leaves: the snapshot and inputs, the
   * `error` file, and a mapping without outputs; `output` is untouched.
   */
  ghost predicate BlockErrLaidOut(before: Listing, after: Listing, td: TracePath, store: Store, block: seq<Transaction>,
                                  e: VMStatus, a: nat, b: nat, c: nat, d: nat) {
    && Numbered(after, td, a + 1, b + |block|, c, d + 1)
    && Dir(td, Top) in before && Dir(td, Top) in after
    && after[Dir(td, Top)] == before[Dir(td, Top)][ERROR_FILE := ErrorFile(e)]
    && after[Dir(td, Data)][SeqFile(a)] == Record(StateSnapshot(store))
    && Holds(after[Dir(td, Input)], b, InputItems(block))
    && after[Dir(td, Meta)][SeqFile(d)] == Record(MetaRecord(TraceSeqMapping(a, Consecutive(b, |block|), [])))
    && Grown(before, after, Dir(td, Data)) && Grown(before, after, Dir(td, Input))
    && Grown(before, after, Dir(td, Meta))
    && Unchanged(before, after, Dir(td, Output))
    && Outside(before, after, td)
  }

  /** A step that `Keeps` everything but `dir` leaves the other directories unchanged... */
  lemma KeepsUnchanged(before: Listing, after: Listing, dir: Dir, other: Dir)
    requires Keeps(before, after, dir) && other != dir
    ensures Unchanged(before, after, other)
  {
  }

  /** ... and touches no other trace directory. */
  lemma KeepsOutside(before: Listing, after: Listing, dir: Dir)
    requires Keeps(before, after, dir)
    ensures Outside(before, after, dir.trace)
  {
    forall other: Dir | other.trace != dir.trace
      ensures Unchanged(before, after, other)
    {
      KeepsUnchanged(before, after, dir, other);
    }
  }

  /** `dir` only gained entries, and no other directory appeared, vanished or changed. */
  ghost predicate OnlyGrew(before: Listing, after: Listing, dir: Dir) {
    && Grown(before, after, dir)
    && Outside(before, after, dir.trace)
    && (dir.sub != Top ==> Unchanged(before, after, Dir(dir.trace, Top)))
    && (dir.sub != Meta ==> Unchanged(before, after, Dir(dir.trace, Meta)))
    && (dir.sub != Data ==> Unchanged(before, after, Dir(dir.trace, Data)))
    && (dir.sub != Input ==> Unchanged(before, after, Dir(dir.trace, Input)))
    && (dir.sub != Output ==> Unchanged(before, after, Dir(dir.trace, Output)))
  }

  lemma KeepsFrame(before: Listing, after: Listing, dir: Dir)
    requires Keeps(before, after, dir) && dir in before
    ensures OnlyGrew(before, after, dir)
  {
    KeepsOutside(before, after, dir);
  }

  /** One `trace` into a directory holding exactly 0, ..., m - 1. */
  lemma StepRecorded(files: Listing, dir: Dir, item: TraceItem, m: nat)
    requires dir in files && Dense(files[dir], m)
    ensures var r := TraceStep(files, dir, item);
            && r.outcome == Returned(m) && dir in r.files && Dense(r.files[dir], m + 1)
            && r.files[dir][SeqFile(m)] == Record(item)
            && OnlyGrew(files, r.files, dir)
  {
    TraceIntoDense(files, dir, item, m);
    TraceStepRecords(files, dir, item);
    KeepsFrame(files, TraceStep(files, dir, item).files, dir);
  }

  /** The recording loop over all items, into a directory holding exactly 0, ..., m - 1. */
  lemma PrefixRecorded(files: Listing, dir: Dir, items: seq<TraceItem>, m: nat)
    requires dir in files && Dense(files[dir], m)
    ensures var r := TracePrefix(files, dir, items, |items|);
            && r.outcome == Returned(Consecutive(m, |items|)) && dir in r.files && Dense(r.files[dir], m + |items|)
            && Holds(r.files[dir], m, items)
            && OnlyGrew(files, r.files, dir)
  {
    TracePrefixDense(files, dir, items, |items|, m);
    TracePrefixKeeps(files, dir, items, |items|, m);
    TracePrefixContents(files, dir, items, |items|, m);
    KeepsFrame(files, TracePrefix(files, dir, items, |items|).files, dir);
  }

  lemma GrownTransitive(a: Listing, b: Listing, c: Listing, dir: Dir)
    requires Grown(a, b, dir) && Grown(b, c, dir)
    ensures Grown(a, c, dir)
  {
  }

  lemma OutsideTransitive(a: Listing, b: Listing, c: Listing, td: TracePath)
    requires Outside(a, b, td) && Outside(b, c, td)
    ensures Outside(a, c, td)
  {
    forall dir: Dir | dir.trace != td
      ensures Unchanged(a, c, dir)
    {
      assert Unchanged(a, b, dir) && Unchanged(b, c, dir);
    }
  }

  /** Inputs, then outputs and mapping, make a successful block. */
  lemma OkLaidOut(files: Listing, mid: Listing, after: Listing, td: TracePath, store: Store, block: seq<Transaction>,
                  results: seq<TransactionOutput>, a: nat, b: nat, c: nat, d: nat)
    requires InputsLaidOut(files, mid, td, store, block, a, b, c, d)
    requires OutputsLaidOut(mid, after, td, results,
                            MetaRecord(TraceSeqMapping(a, Consecutive(b, |block|), Consecutive(c, |results|))), c, d)
    ensures BlockOkLaidOut(files, after, td, store, block, results, a, b, c, d)
  {
    GrownTransitive(files, mid, after, Dir(td, Output));
    GrownTransitive(files, mid, after, Dir(td, Meta));
    OutsideTransitive(files, mid, after, td);
  }

  /** Inputs, then the `error` file and mapping, make a failed block. */
  lemma ErrLaidOut(files: Listing, mid: Listing, after: Listing, td: TracePath, store: Store, block: seq<Transaction>,
                   e: VMStatus, a: nat, b: nat, c: nat, d: nat)
    requires InputsLaidOut(files, mid, td, store, block, a, b, c, d)
    requires FailureLaidOut(mid, after, td, e, MetaRecord(TraceSeqMapping(a, Consecutive(b, |block|), [])), d)
    ensures BlockErrLaidOut(files, after, td, store, block, e, a, b, c, d)
  {
    GrownTransitive(files, mid, after, Dir(td, Meta));
    OutsideTransitive(files, mid, after, td);
  }

  /** Recording the inputs of a block into numbered subdirectories. */
  lemma InputsRecorded(files: Listing, td: TracePath, store: Store, block: seq<Transaction>, a: nat, b: nat, c: nat, d: nat)
    requires Numbered(files, td, a, b, c, d)
    ensures var r := RecordInputs(files, td, store, block);
            && r.outcome == Returned(TraceSeqMapping(a, Consecutive(b, |block|), []))
            && InputsLaidOut(files, r.files, td, store, block, a, b, c, d)
  {
    var data := TraceStep(files, Dir(td, Data), StateSnapshot(store));
    var inputs := TracePrefix(data.files, Dir(td, Input), InputItems(block), |block|);
    StepRecorded(files, Dir(td, Data), StateSnapshot(store), a);
    PrefixRecorded(data.files, Dir(td, Input), InputItems(block), b);
    assert RecordInputs(files, td, store, block) == Traced(Returned(TraceSeqMapping(a, Consecutive(b, |block|), [])), inputs.files);
    OutsideTransitive(files, data.files, inputs.files, td);
  }

  /** Recording a successful block's outputs and its sequence mapping. */
  lemma OutputsRecorded(files: Listing, td: TracePath, results: seq<TransactionOutput>, mapping: TraceSeqMapping, c: nat, d: nat)
    requires Dir(td, Output) in files && Dense(files[Dir(td, Output)], c)
    requires Dir(td, Meta) in files && Dense(files[Dir(td, Meta)], d)
    ensures var r := RecordResults(files, td, Ok(results), mapping);
            && r.outcome == Returned(())
            && OutputsLaidOut(files, r.files, td, results, MetaRecord(mapping.(outputs := Consecutive(c, |results|))), c, d)
  {
    var outputs := TracePrefix(files, Dir(td, Output), OutputItems(results), |results|);
    var record := MetaRecord(mapping.(outputs := Consecutive(c, |results|)));
    var meta := TraceStep(outputs.files, Dir(td, Meta), record);
    PrefixRecorded(files, Dir(td, Output), OutputItems(results), c);
    StepRecorded(outputs.files, Dir(td, Meta), record, d);
    assert RecordResults(files, td, Ok(results), mapping) == Traced(Returned(()), meta.files);
    OutsideTransitive(files, outputs.files, meta.files, td);
  }

  /** Recording a failed block: the `error` file, then the mapping, whose outputs stay empty. */
  lemma FailureRecorded(files: Listing, td: TracePath, e: VMStatus, mapping: TraceSeqMapping, d: nat)
    requires Dir(td, Top) in files && ERROR_FILE !in files[Dir(td, Top)]
    requires Dir(td, Meta) in files && Dense(files[Dir(td, Meta)], d)
    ensures var r := RecordResults(files, td, Err(e), mapping);
            && r.outcome == Returned(())
            && FailureLaidOut(files, r.files, td, e, MetaRecord(mapping), d)
  {
    var error := CreateErrorFile(files, td, e);
    var meta := TraceStep(error.files, Dir(td, Meta), MetaRecord(mapping));
    assert && error.outcome == Returned(())
           && error.files[Dir(td, Top)] == files[Dir(td, Top)][ERROR_FILE := ErrorFile(e)]
           && Keeps(files, error.files, Dir(td, Top)) by {
      ErrorFileRecorded(files, td, e);
    }
    KeepsFrame(files, error.files, Dir(td, Top));
    StepRecorded(error.files, Dir(td, Meta), MetaRecord(mapping), d);
    assert RecordResults(files, td, Err(e), mapping) == Traced(Returned(()), meta.files);
    OutsideTransitive(files, error.files, meta.files, td);
  }

  /** A traced block that both engines run to the same `Ok` returns it and is laid out in order. */
  lemma BlockRecordedOnOk(env: Collaborators, store: Store, td: TracePath, files: Listing, block: seq<Transaction>,
                          a: nat, b: nat, c: nat, d: nat)
    requires Numbered(files, td, a, b, c, d)
    requires env.sequential(block, store) == ExecuteParallel(env, block, store)
    requires env.sequential(block, store).Ok?
    ensures var results := env.sequential(block, store).value;
            var r := ExecuteTransactionBlockSpec(env, store, Some(td), files, block);
            && r.outcome == Returned(Ok(results))
            && BlockOkLaidOut(files, r.files, td, store, block, results, a, b, c, d)
  {
    var results := env.sequential(block, store).value;
    var mapping := TraceSeqMapping(a, Consecutive(b, |block|), []);
    var before := RecordInputs(files, td, store, block);
    var after := RecordResults(before.files, td, Ok(results), mapping);
    assert && before.outcome == Returned(mapping)
           && InputsLaidOut(files, before.files, td, store, block, a, b, c, d) by {
      InputsRecorded(files, td, store, block, a, b, c, d);
    }
    assert && after.outcome == Returned(())
           && OutputsLaidOut(before.files, after.files, td, results,
                             MetaRecord(TraceSeqMapping(a, Consecutive(b, |block|), Consecutive(c, |results|))), c, d) by {
      OutputsRecorded(before.files, td, results, mapping, c, d);
    }
    assert ExecuteTransactionBlockSpec(env, store, Some(td), files, block) == Traced(Returned(Ok(results)), after.files);
    OkLaidOut(files, before.files, after.files, td, store, block, results, a, b, c, d);
  }

  /** A traced block that both engines fail with the same status returns the failure and is laid out in order. */
  lemma BlockRecordedOnErr(env: Collaborators, store: Store, td: TracePath, files: Listing, block: seq<Transaction>,
                           a: nat, b: nat, c: nat, d: nat)
    requires Numbered(files, td, a, b, c, d)
    requires Dir(td, Top) in files && ERROR_FILE !in files[Dir(td, Top)]
    requires env.sequential(block, store) == ExecuteParallel(env, block, store)
    requires env.sequential(block, store).Err?
    ensures var r := ExecuteTransactionBlockSpec(env, store, Some(td), files, block);
            && r.outcome == Returned(env.sequential(block, store))
            && BlockErrLaidOut(files, r.files, td, store, block, env.sequential(block, store).error, a, b, c, d)
  {
    var e := env.sequential(block, store).error;
    var mapping := TraceSeqMapping(a, Consecutive(b, |block|), []);
    var before := RecordInputs(files, td, store, block);
    var after := RecordResults(before.files, td, Err(e), mapping);
    assert && before.outcome == Returned(mapping)
           && InputsLaidOut(files, before.files, td, store, block, a, b, c, d) by {
      InputsRecorded(files, td, store, block, a, b, c, d);
    }
    assert && after.outcome == Returned(())
           && FailureLaidOut(before.files, after.files, td, e, MetaRecord(TraceSeqMapping(a, Consecutive(b, |block|), [])), d) by {
      assert before.files[Dir(td, Top)] == files[Dir(td, Top)];
      FailureRecorded(before.files, td, e, mapping, d);
    }
    assert ExecuteTransactionBlockSpec(env, store, Some(td), files, block) == Traced(Returned(Err(e)), after.files);
    ErrLaidOut(files, before.files, after.files, td, store, block, e, a, b, c, d);
  }

  /** Engines that disagree: the inputs were already recorded, then the executor panics. */
  lemma BlockPanicsOnDivergence(env: Collaborators, store: Store, td: TracePath, files: Listing, block: seq<Transaction>,
                                a: nat, b: nat, c: nat, d: nat)
    requires Numbered(files, td, a, b, c, d)
    requires env.sequential(block, store) != ExecuteParallel(env, block, store)
    ensures var r := ExecuteTransactionBlockSpec(env, store, Some(td), files, block);
            && r.outcome == Panicked(OutputsDiffer)
            && InputsLaidOut(files, r.files, td, store, block, a, b, c, d)
  {
    InputsRecorded(files, td, store, block, a, b, c, d);
  }

  /** A failed block once an `error` file exists: its creation fails and no mapping is written. */
  lemma FailurePanicsOnceErrorFileExists(env: Collaborators, store: Store, td: TracePath, files: Listing,
                                         block: seq<Transaction>, a: nat, b: nat, c: nat, d: nat)
    requires Numbered(files, td, a, b, c, d)
    requires Dir(td, Top) in files && ERROR_FILE in files[Dir(td, Top)]
    requires env.sequential(block, store) == ExecuteParallel(env, block, store)
    requires env.sequential(block, store).Err?
    ensures var r := ExecuteTransactionBlockSpec(env, store, Some(td), files, block);
            && r.outcome == Panicked(ErrorFileNotCreated)
            && InputsLaidOut(files, r.files, td, store, block, a, b, c, d)
  {
    var before := RecordInputs(files, td, store, block);
    assert && before.outcome == Returned(TraceSeqMapping(a, Consecutive(b, |block|), []))
           && InputsLaidOut(files, before.files, td, store, block, a, b, c, d) by {
      InputsRecorded(files, td, store, block, a, b, c, d);
    }
    assert Dir(td, Top) in before.files && before.files[Dir(td, Top)] == files[Dir(td, Top)];
  }

  /** In one traced test, the second block that fails on both engines panics the test. */
  lemma SecondFailedBlockPanics(env: Collaborators, store1: Store, store2: Store, td: TracePath, files: Listing,
                                block1: seq<Transaction>, block2: seq<Transaction>, a: nat, b: nat, c: nat, d: nat)
    requires Numbered(files, td, a, b, c, d)
    requires Dir(td, Top) in files && ERROR_FILE !in files[Dir(td, Top)]
    requires env.sequential(block1, store1) == ExecuteParallel(env, block1, store1)
    requires env.sequential(block1, store1).Err?
    requires env.sequential(block2, store2) == ExecuteParallel(env, block2, store2)
    requires env.sequential(block2, store2).Err?
    ensures var first := ExecuteTransactionBlockSpec(env, store1, Some(td), files, block1);
            && first.outcome == Returned(env.sequential(block1, store1))
            && ExecuteTransactionBlockSpec(env, store2, Some(td), first.files, block2).outcome == Panicked(ErrorFileNotCreated)
  {
    var first := ExecuteTransactionBlockSpec(env, store1, Some(td), files, block1);
    assert && first.outcome == Returned(env.sequential(block1, store1))
           && BlockErrLaidOut(files, first.files, td, store1, block1, env.sequential(block1, store1).error, a, b, c, d) by {
      BlockRecordedOnErr(env, store1, td, files, block1, a, b, c, d);
    }
    FailurePanicsOnceErrorFileExists(env, store2, td, first.files, block2, a + 1, b + |block1|, c, d + 1);
  }

  /** `BlockRecordedOnOk`, about the listing that a successful traced block leaves. */
  lemma BlockOkListing(env: Collaborators, store: Store, td: TracePath, files: Listing, block: seq<Transaction>,
                       after: Listing, a: nat, b: nat, c: nat, d: nat)
    requires Numbered(files, td, a, b, c, d)
    requires env.sequential(block, store) == ExecuteParallel(env, block, store) && env.sequential(block, store).Ok?
    requires after == ExecuteTransactionBlockSpec(env, store, Some(td), files, block).files
    ensures BlockOkLaidOut(files, after, td, store, block, env.sequential(block, store).value, a, b, c, d)
  {
    BlockRecordedOnOk(env, store, td, files, block, a, b, c, d);
  }

  /**
   * Two successful traced blocks in a row, each laid out as `BlockOkListing`
   * states (the second one from the counts the first one leaves): the
   * second one's numbers continue where the first one's stopped, and the
   * first block's mapping file survives the second.
   */
  lemma ConsecutiveBlocks(files: Listing, first: Listing, second: Listing, td: TracePath, store1: Store, store2: Store,
                          block1: seq<Transaction>, block2: seq<Transaction>,
                          results1: seq<TransactionOutput>, results2: seq<TransactionOutput>, a: nat, b: nat, c: nat, d: nat)
    requires BlockOkLaidOut(files, first, td, store1, block1, results1, a, b, c, d)
    requires BlockOkLaidOut(first, second, td, store2, block2, results2, a + 1, b + |block1|, c + |results1|, d + 1)
    ensures && Numbered(second, td, a + 2, b + |block1| + |block2|, c + |results1| + |results2|, d + 2)
            && second[Dir(td, Meta)][SeqFile(d)] ==
               Record(MetaRecord(TraceSeqMapping(a, Consecutive(b, |block1|), Consecutive(c, |results1|))))
            && second[Dir(td, Meta)][SeqFile(d + 1)] ==
               Record(MetaRecord(TraceSeqMapping(a + 1, Consecutive(b + |block1|, |block2|), Consecutive(c + |results1|, |results2|))))
  {
    assert SeqFile(d) in first[Dir(td, Meta)];
  }

  /** The first block after `set_golden_file` gets data number 0 and numbers its inputs and outputs from 0. */
  lemma FirstBlockAfterSetGoldenFile(env: Collaborators, store: Store, files: Listing, td: TracePath,
                                     nameText: string, block: seq<Transaction>)
    requires env.sequential(block, store) == ExecuteParallel(env, block, store)
    requires env.sequential(block, store).Ok?
    ensures var reset := FreshTraceDir(files, td, nameText);
            var r := ExecuteTransactionBlockSpec(env, store, Some(td), reset, block);
            && r.outcome == Returned(env.sequential(block, store))
            && BlockOkLaidOut(reset, r.files, td, store, block, env.sequential(block, store).value, 0, 0, 0, 0)
            && r.files[Dir(td, Top)] == TopListing(nameText)
  {
    var reset := FreshTraceDir(files, td, nameText);
    assert Dir(td, Top) in reset && reset[Dir(td, Top)] == TopListing(nameText);
    BlockRecordedOnOk(env, store, td, reset, block, 0, 0, 0, 0);
  }

  /**
   * A returning `execute_and_apply` ran exactly one transaction that both
   * engines kept with success, applied its write set, and returned what
   * `execute_transaction` returns on the same state.
   */
  lemma ExecuteAndApplyReturnsKeptOutput(env: Collaborators, store: Store, traceDir: Option<TracePath>,
                                         files: Listing, txn: SignedTransaction)
    requires ExecuteAndApplySpec(env, store, traceDir, files, txn).outcome.Returned?
    ensures var applied := ExecuteAndApplySpec(env, store, traceDir, files, txn);
            var output := applied.outcome.value;
            && env.sequential(UserBlock([txn]), store) == Ok([output])
            && ExecuteParallel(env, UserBlock([txn]), store) == Ok([output])
            && output.status == Keep(Success)
            && applied.store == AddWriteSet(store, output.writeSet)
            && ExecuteTransactionSpec(env, store, traceDir, files, txn) == Traced(Returned(output), applied.files)
  {
    var run := SingleRun(env, store, traceDir, files, txn);
    var output := ExecuteAndApplySpec(env, store, traceDir, files, txn).outcome.value;
    assert ReturnedOne(run);
    var outputs := run.outcome.value.value;
    assert outputs == [output];
    assert run.outcome.value == env.sequential(UserBlock([txn]), store);
    assert LastOutput(run).outcome == Returned(outputs[0]);
  }

  /** A `Keep` output that failed still changes the store, and is then reported by a panic. */
  lemma FailedKeepIsAppliedBeforePanic(env: Collaborators, store: Store, traceDir: Option<TracePath>,
                                       files: Listing, txn: SignedTransaction, output: TransactionOutput)
    requires SingleRun(env, store, traceDir, files, txn).outcome == Returned(Ok([output]))
    requires output.status.Keep? && output.status.execution != Success
    ensures var applied := ExecuteAndApplySpec(env, store, traceDir, files, txn);
            && applied.outcome == Panicked(TransactionFailed(output.status.execution))
            && applied.store == AddWriteSet(store, output.writeSet)
  {
  }

  /**
   * `new_block` when it returns: the prologue block ran at `block_time + 1`
   * with votes all false, its last output carried a new-block event, and that
   * output's write set was applied.
   */
  lemma NewBlockSucceeded(env: Collaborators, store: Store, blockTime: u64, traceDir: Option<TracePath>, files: Listing)
    requires NewBlockSpec(env, store, blockTime, traceDir, files).outcome.Returned?
    ensures var r := NewBlockSpec(env, store, blockTime, traceDir, files);
            && blockTime as int < U64_MAX
            && env.validatorSet(store).Some?
            && var meta := NewBlockMetadata(env.validatorSet(store).value, blockTime + 1);
               var result := env.sequential([BlockMetadataTransaction(meta)], store);
               && meta.timestampUsecs == r.blockTime
               && result.Ok? && result.value != []
               && var last := result.value[|result.value| - 1];
                  && last.events != [] && last.events[0].key == env.newBlockEventKey
                  && r.store == AddWriteSet(store, last.writeSet)
  {
    var t := blockTime + 1;
    var vs := env.validatorSet(store).value;
    var run := PrologueRun(env, store, traceDir, files, vs, t);
    assert CheckPrologue(env, run.outcome).Returned?;
  }

  /** Once the validator set is readable, `new_block` moves the block time on even if the prologue then panics. */
  lemma NewBlockAdvancesTimeEvenOnPanic(env: Collaborators, store: Store, blockTime: u64, traceDir: Option<TracePath>,
                                        files: Listing)
    requires blockTime as int < U64_MAX && env.validatorSet(store).Some?
    ensures var r := NewBlockSpec(env, store, blockTime, traceDir, files);
            && r.blockTime as int == blockTime as int + 1
            && (r.outcome.Panicked? ==> r.store == store)
  {
  }

  /** `new_block_with_timestamp` may set the block time back: nothing keeps it monotone. */
  lemma TimestampMaySetTimeBack(env: Collaborators, store: Store, blockTime: u64, traceDir: Option<TracePath>,
                                files: Listing, t: u64)
    requires env.validatorSet(store).Some? && t < blockTime
    ensures NewBlockWithTimestampSpec(env, store, blockTime, traceDir, files, t).blockTime < blockTime
  {
  }

  /**
   * `exec` and `try_exec` run the same session: `exec` returns exactly when
   * `try_exec` returns a write set, which `exec` applies; a call error that
   * `try_exec` returns is the one `exec` panics with; every other panic is
   * shared.
   */
  lemma ExecAgreesWithTryExec(env: Collaborators, store: Store, moduleName: string, functionName: string,
                              typeParams: seq<TypeTag>, args: seq<Bytes>)
    ensures var tried := TryExecSpec(env, store, moduleName, functionName, typeParams, args);
            var done := ExecSpec(env, store, moduleName, functionName, typeParams, args);
            && (done.0.Returned? <==> tried.Returned? && tried.value.Ok?)
            && (done.0.Returned? ==> done.1 == AddWriteSet(store, tried.value.value))
            && (tried.Returned? && tried.value.Err? ==> done == (Panicked(CallPanicked(tried.value.error)), store))
            && (done.0.Panicked? && done.0.reason.CallPanicked? ==> tried == Returned(Err(done.0.reason.callStatus)))
            && (tried.Panicked? ==> done == (Panicked(tried.reason), store))
  {
    var setup := CallSetup(env, moduleName, functionName);
    if setup.Returned? {
      var session := CallSession(env, store, moduleName, functionName, typeParams, args);
      assert session.CallFailed? || session.FinishFailed? || session.ChangeSetFailed? || session.Finished?;
    }
  }

  /** Sanitizing a name twice changes nothing more. */
  lemma SanitizeIdempotent(testName: string)
    ensures SanitizeFileName(SanitizeFileName(testName)) == SanitizeFileName(testName)
  {
    var once := SanitizeFileName(testName);
    var twice := SanitizeFileName(once);
    assert forall i :: 0 <= i < |twice| ==> twice[i] == once[i];
  }

  /** Applying two write sets one after the other is applying their concatenation. */
  lemma {:induction false} AddWriteSetConcat(store: Store, ws1: WriteSet, ws2: WriteSet)
    ensures AddWriteSet(AddWriteSet(store, ws1), ws2) == AddWriteSet(store, ws1 + ws2)
    decreases |ws2|
  {
    if ws2 == [] {
      assert ws1 + ws2 == ws1;
    } else {
      var k := |ws2| - 1;
      assert (ws1 + ws2)[..|ws1 + ws2| - 1] == ws1 + ws2[..k];
      assert (ws1 + ws2)[|ws1 + ws2| - 1] == ws2[k];
      AddWriteSetConcat(store, ws1, ws2[..k]);
    }
  }

  /** A key that no operation of the write set names keeps its slot exactly as it was. */
  lemma {:induction false} AddWriteSetUntouched(store: Store, ws: WriteSet, key: StateKey)
    requires forall i :: 0 <= i < |ws| ==> ws[i].0 != key
    ensures key in AddWriteSet(store, ws) <==> key in store
    ensures key in store ==> AddWriteSet(store, ws)[key] == store[key]
    decreases |ws|
  {
    if ws != [] {
      AddWriteSetUntouched(store, ws[..|ws| - 1], key);
    }
  }

  /** The version in the `name` file is recoverable: one test name with two versions gives two texts. */
  lemma NameFileVersionDetermined(testName: string, v1: nat, v2: nat)
    requires NameFileText(testName, v1) == NameFileText(testName, v2)
    ensures v1 == v2
  {
    var t1, t2 := NameFileText(testName, v1), NameFileText(testName, v2);
    assert t1[|testName| + 2..] == Dec(v1);
    assert t2[|testName| + 2..] == Dec(v2);
    DecInjective(v1, v2);
  }

  /** `from_genesis` followed by `apply_write_set` is genesis over the concatenated write sets. */
  method GenesisThenWriteSet(genesis: WriteSet, ws: WriteSet) returns (executor: FakeExecutor)
    ensures executor.dataStore == AddWriteSet(map[], genesis + ws)
  {
    executor := new FakeExecutor.FromGenesis(genesis);
    executor.ApplyWriteSet(ws);
    AddWriteSetConcat(map[], genesis, ws);
  }
}

/**
 * The trace recorder's view of the filesystem: one listing per directory of a
 * test's trace tree, `trace` (a file per call, named by the directory's entry
 * count, created with create-new semantics), the `error` file, and the fresh
 * tree that `set_golden_file` lays out.
 */
module TraceFiles {
  import opened Types
  import opened Decimal

  const TRACE_FILE_NAME: string := "name"
  const TRACE_FILE_ERROR: string := "error"
  const TRACE_DIR_META: string := "meta"
  const TRACE_DIR_DATA: string := "data"
  const TRACE_DIR_INPUT: string := "input"
  const TRACE_DIR_OUTPUT: string := "output"

  /** A directory entry's name: a sequence-numbered trace file, or any other name. */
  datatype FileName = SeqFile(seqNo: nat) | NamedFile(text: string)

  /** The name on disk: `n.to_string()` for the file numbered n. */
  function Render(f: FileName): string {
    match f
    case SeqFile(n) => Dec(n)
    case NamedFile(text) => text
  }

  /** A name that is not a decimal numeral, so it names no numbered file. */
  ghost predicate Conventional(f: FileName) {
    f.NamedFile? ==> forall n: nat :: Dec(n) != f.text
  }

  /** Distinct conventional names are distinct on disk. */
  lemma RenderInjective(f: FileName, g: FileName)
    requires Conventional(f) && Conventional(g) && Render(f) == Render(g)
    ensures f == g
  {
    if f.SeqFile? && g.SeqFile? {
      DecInjective(f.seqNo, g.seqNo);
    }
  }

  const NAME_FILE: FileName := NamedFile(TRACE_FILE_NAME)
  const ERROR_FILE: FileName := NamedFile(TRACE_FILE_ERROR)
  const META_DIR: FileName := NamedFile(TRACE_DIR_META)
  const DATA_DIR: FileName := NamedFile(TRACE_DIR_DATA)
  const INPUT_DIR: FileName := NamedFile(TRACE_DIR_INPUT)
  const OUTPUT_DIR: FileName := NamedFile(TRACE_DIR_OUTPUT)

  /** The fixed names of a trace directory start with a letter, so no numbered file can take them. */
  lemma FixedNamesConventional()
    ensures Conventional(NAME_FILE) && Conventional(ERROR_FILE)
    ensures Conventional(META_DIR) && Conventional(DATA_DIR) && Conventional(INPUT_DIR) && Conventional(OUTPUT_DIR)
  {
    forall n: nat
      ensures Dec(n) != TRACE_FILE_NAME && Dec(n) != TRACE_FILE_ERROR && Dec(n) != TRACE_DIR_META
      ensures Dec(n) != TRACE_DIR_DATA && Dec(n) != TRACE_DIR_INPUT && Dec(n) != TRACE_DIR_OUTPUT
    {
      assert '0' <= Dec(n)[0] <= '9';
    }
  }

  /** `<trace root>/<sanitized test name>`. */
  datatype TracePath = TracePath(root: string, test: string)

  /** The trace directory itself (`Top`) or one of its four subdirectories. */
  datatype SubDir = Top | Meta | Data | Input | Output

  datatype Dir = Dir(trace: TracePath, sub: SubDir)

  /** Block N's data sequence number, then its input and output sequence numbers. */
  datatype TraceSeqMapping = TraceSeqMapping(data: nat, inputs: seq<nat>, outputs: seq<nat>)

  /** What a trace file records; the BCS bytes are represented by the value itself. */
  datatype TraceItem =
    | StateSnapshot(store: Store)
    | InputRecord(txn: Transaction)
    | OutputRecord(output: TransactionOutput)
    | MetaRecord(mapping: TraceSeqMapping)

  datatype Entry = Folder | NameFile(text: string) | ErrorFile(status: VMStatus) | Record(item: TraceItem)

  /** Each existing directory's entries, by name. */
  type Listing = map<Dir, map<FileName, Entry>>

  /** A filesystem step's outcome together with the listing it leaves. */
  datatype Traced<+T> = Traced(outcome: Outcome<T>, files: Listing)

  /** The numbered files 0, ..., m - 1. */
  function Names(m: nat): set<FileName>
    decreases m
  {
    if m == 0 then {} else Names(m - 1) + {SeqFile(m - 1)}
  }

  lemma NamesMembership(m: nat, name: FileName)
    ensures name in Names(m) <==> name.SeqFile? && name.seqNo < m
    decreases m
  {
    if m > 0 {
      NamesMembership(m - 1, name);
    }
  }

  lemma {:induction false} NamesCardinality(m: nat)
    ensures |Names(m)| == m
    decreases m
  {
    if m > 0 {
      NamesCardinality(m - 1);
      NamesMembership(m - 1, SeqFile(m - 1));
    }
  }

  /** The directory holds exactly the numbered files 0, ..., m - 1. */
  ghost predicate Dense(listing: map<FileName, Entry>, m: nat) {
    forall name :: name in listing <==> name.SeqFile? && name.seqNo < m
  }

  lemma DenseNames(listing: map<FileName, Entry>, m: nat)
    requires Dense(listing, m)
    ensures listing.Keys == Names(m)
  {
    forall name | name in Names(m) || name in listing ensures name in listing <==> name in Names(m) {
      NamesMembership(m, name);
    }
  }

  /** The four subdirectories of `td` are dense with the given counts. */
  ghost predicate Numbered(files: Listing, td: TracePath, data: nat, input: nat, output: nat, meta: nat) {
    && Dir(td, Data) in files && Dense(files[Dir(td, Data)], data)
    && Dir(td, Input) in files && Dense(files[Dir(td, Input)], input)
    && Dir(td, Output) in files && Dense(files[Dir(td, Output)], output)
    && Dir(td, Meta) in files && Dense(files[Dir(td, Meta)], meta)
  }

  /** Every directory outside `dir`'s own listing is as before, and `dir` only grew. */
  predicate Keeps(before: Listing, after: Listing, dir: Dir) {
    && before.Keys == after.Keys
    && (forall d :: d in before && d != dir ==> after[d] == before[d])
    && (dir in before ==> forall name :: name in before[dir] ==> name in after[dir] && after[dir][name] == before[dir][name])
  }

  /**
   * `trace(dir, item)`: the sequence number is the number of entries already
   * in `dir`; the file of that name is created new and holds the item.
   */
  function TraceStep(files: Listing, dir: Dir, item: TraceItem): (r: Traced<nat>)
    ensures dir !in files ==> r == Traced(Panicked(TraceDirUnreadable), files)
    ensures dir in files ==> (r.outcome == Panicked(TraceFileExists) <==> SeqFile(|files[dir]|) in files[dir])
    ensures r.outcome.Panicked? ==> r.files == files
    ensures r.outcome.Returned? ==>
              && dir in files
              && r.outcome.value == |files[dir]|
              && SeqFile(r.outcome.value) !in files[dir]
  {
    if dir !in files then Traced(Panicked(TraceDirUnreadable), files)
    else
      var n := |files[dir]|;
      if SeqFile(n) in files[dir] then Traced(Panicked(TraceFileExists), files)
      else Traced(Returned(n), files[dir := files[dir][SeqFile(n) := Record(item)]])
  }

  /** `trace` for each of the first n items, in order, stopping at the first panic. */
  function TracePrefix(files: Listing, dir: Dir, items: seq<TraceItem>, n: nat): Traced<seq<nat>>
    requires n <= |items|
    decreases n
  {
    if n == 0 then Traced(Returned([]), files)
    else
      var prefix := TracePrefix(files, dir, items, n - 1);
      if prefix.outcome.Panicked? then Traced(Panicked(prefix.outcome.reason), prefix.files)
      else
        var last := TraceStep(prefix.files, dir, items[n - 1]);
        if last.outcome.Panicked? then Traced(Panicked(last.outcome.reason), last.files)
        else Traced(Returned(prefix.outcome.value + [last.outcome.value]), last.files)
  }

  /** The sequence numbers lo, lo + 1, ..., lo + n - 1. */
  function Consecutive(lo: nat, n: nat): (r: seq<nat>)
    ensures |r| == n
    ensures forall i :: 0 <= i < n ==> r[i] == lo + i
    decreases n
  {
    if n == 0 then [] else Consecutive(lo, n - 1) + [lo + n - 1]
  }

  /** The `error` file of block execution, created new in the trace directory. */
  function CreateErrorFile(files: Listing, td: TracePath, e: VMStatus): (r: Traced<()>)
    ensures r.outcome.Returned? <==> Dir(td, Top) in files && ERROR_FILE !in files[Dir(td, Top)]
    ensures r.outcome.Panicked? ==> r == Traced(Panicked(ErrorFileNotCreated), files)
  {
    var top := Dir(td, Top);
    if top !in files || ERROR_FILE in files[top] then Traced(Panicked(ErrorFileNotCreated), files)
    else Traced(Returned(()), files[top := files[top][ERROR_FILE := ErrorFile(e)]])
  }

  /** The trace directory right after it is created: the name file and four empty subdirectories. */
  function TopListing(nameText: string): map<FileName, Entry> {
    map[NAME_FILE := NameFile(nameText),
        META_DIR := Folder, DATA_DIR := Folder,
        INPUT_DIR := Folder, OUTPUT_DIR := Folder]
  }

  /**
   * `set_golden_file`'s filesystem work: remove any old tree at `td`, create
   * it again with the name file and the four empty subdirectories.
   */
  function FreshTraceDir(files: Listing, td: TracePath, nameText: string): (r: Listing)
    ensures Numbered(r, td, 0, 0, 0, 0)
    ensures Dir(td, Top) in r && NAME_FILE in r[Dir(td, Top)]
    ensures r[Dir(td, Top)][NAME_FILE] == NameFile(nameText)
    ensures ERROR_FILE !in r[Dir(td, Top)]
    ensures forall d :: d in files && d.trace != td ==> d in r && r[d] == files[d]
    ensures forall d :: d in r && d.trace != td ==> d in files
  {
    var kept := map d | d in files && d.trace != td :: files[d];
    kept[Dir(td, Top) := TopListing(nameText)]
        [Dir(td, Meta) := map[]][Dir(td, Data) := map[]]
        [Dir(td, Input) := map[]][Dir(td, Output) := map[]]
  }

  /** The filesystem, which the recorder changes one file at a time. */
  class TraceFs {
    var files: Listing

    constructor (initial: Listing)
      ensures files == initial
    {
      files := initial;
    }

    /** `FakeExecutor::trace`. */
    method Trace(dir: Dir, item: TraceItem) returns (r: Outcome<nat>)
      modifies this
      ensures Traced(r, files) == TraceStep(old(files), dir, item)
    {
      if dir !in files {
        return Panicked(TraceDirUnreadable);
      }
      var n := |files[dir]|;
      var name := SeqFile(n);
      if name in files[dir] {
        return Panicked(TraceFileExists);
      }
      files := files[dir := files[dir][name := Record(item)]];
      return Returned(n);
    }

    /** The recording loops of block execution: `trace` for each item, returning the sequence numbers. */
    method TraceEach(dir: Dir, items: seq<TraceItem>) returns (r: Outcome<seq<nat>>)
      modifies this
      ensures Traced(r, files) == TracePrefix(old(files), dir, items, |items|)
    {
      var numbers := [];
      var i := 0;
      while i < |items|
        invariant 0 <= i <= |items|
        invariant TracePrefix(old(files), dir, items, i) == Traced(Returned(numbers), files)
      {
        var n := Trace(dir, items[i]);
        if n.Panicked? {
          TracePrefixPanicSticky(old(files), dir, items, i + 1, |items|);
          return Panicked(n.reason);
        }
        numbers := numbers + [n.value];
        i := i + 1;
      }
      return Returned(numbers);
    }

    /** Opening `<trace>/error` with create-new and writing the failure into it. */
    method WriteErrorFile(td: TracePath, e: VMStatus) returns (r: Outcome<()>)
      modifies this
      ensures Traced(r, files) == CreateErrorFile(old(files), td, e)
    {
      var top := Dir(td, Top);
      if top !in files || ERROR_FILE in files[top] {
        return Panicked(ErrorFileNotCreated);
      }
      files := files[top := files[top][ERROR_FILE := ErrorFile(e)]];
      return Returned(());
    }

    /** `remove_dir_all`, `create_dir_all`, the name file and the four `create_dir` calls. */
    method ResetTraceDir(td: TracePath, nameText: string)
      modifies this
      ensures files == FreshTraceDir(old(files), td, nameText)
    {
      files := map d | d in files && d.trace != td :: files[d];
      var topListing := map[NAME_FILE := NameFile(nameText)];
      topListing := topListing[META_DIR := Folder];
      topListing := topListing[DATA_DIR := Folder];
      topListing := topListing[INPUT_DIR := Folder];
      topListing := topListing[OUTPUT_DIR := Folder];
      assert topListing == TopListing(nameText);
      files := files[Dir(td, Top) := topListing][Dir(td, Meta) := map[]][Dir(td, Data) := map[]]
                    [Dir(td, Input) := map[]][Dir(td, Output) := map[]];
    }
  }

  /**
   * A successful `trace` adds exactly the one new file, holding the item, and
   * changes nothing else.
   */
  lemma TraceStepRecords(files: Listing, dir: Dir, item: TraceItem)
    requires TraceStep(files, dir, item).outcome.Returned?
    ensures var r := TraceStep(files, dir, item);
            && Keeps(files, r.files, dir)
            && r.files[dir].Keys == files[dir].Keys + {SeqFile(r.outcome.value)}
            && r.files[dir][SeqFile(r.outcome.value)] == Record(item)
            && |r.files[dir]| == |files[dir]| + 1
  {
  }

  /** A successful `trace` leaves every entry already in its directory as it was. */
  lemma TraceStepKeepsEntry(files: Listing, dir: Dir, item: TraceItem, name: FileName)
    requires TraceStep(files, dir, item).outcome.Returned? && name in files[dir]
    ensures var r := TraceStep(files, dir, item);
            dir in r.files && name in r.files[dir] && r.files[dir][name] == files[dir][name]
  {
  }

  /** A created `error` file holds the failure, and nothing else changes. */
  lemma ErrorFileRecorded(files: Listing, td: TracePath, e: VMStatus)
    requires CreateErrorFile(files, td, e).outcome.Returned?
    ensures var r := CreateErrorFile(files, td, e);
            && Keeps(files, r.files, Dir(td, Top))
            && r.files[Dir(td, Top)] == files[Dir(td, Top)][ERROR_FILE := ErrorFile(e)]
            && r.files[Dir(td, Top)].Keys == files[Dir(td, Top)].Keys + {ERROR_FILE}
  {
  }

  /** Tracing into a dense directory of m files returns m and leaves it dense with m + 1. */
  lemma TraceIntoDense(files: Listing, dir: Dir, item: TraceItem, m: nat)
    requires dir in files && Dense(files[dir], m)
    ensures var r := TraceStep(files, dir, item);
            && r.outcome == Returned(m)
            && dir in r.files
            && Dense(r.files[dir], m + 1)
            && r.files[dir][SeqFile(m)] == Record(item)
  {
    NamesCardinality(m);
    DenseNames(files[dir], m);
    assert |files[dir]| == |files[dir].Keys| == m;
    TraceStepRecords(files, dir, item);
  }

  /** A numbered collision: the count names a file that is already there. */
  lemma TraceCollides(files: Listing, dir: Dir, item: TraceItem)
    requires dir in files && files[dir].Keys == {SeqFile(0), SeqFile(2)}
    ensures TraceStep(files, dir, item) == Traced(Panicked(TraceFileExists), files)
  {
    assert |files[dir]| == |files[dir].Keys| == 2;
  }

  lemma KeepsTransitive(a: Listing, b: Listing, c: Listing, dir: Dir)
    requires Keeps(a, b, dir) && Keeps(b, c, dir)
    ensures Keeps(a, c, dir)
  {
  }

  /** Recording n items into a dense directory of m files numbers them m, ..., m + n - 1. */
  lemma {:induction false} TracePrefixDense(files: Listing, dir: Dir, items: seq<TraceItem>, n: nat, m: nat)
    requires n <= |items| && dir in files && Dense(files[dir], m)
    ensures var r := TracePrefix(files, dir, items, n);
            && r.outcome == Returned(Consecutive(m, n))
            && dir in r.files
            && Dense(r.files[dir], m + n)
    decreases n
  {
    if n > 0 {
      var prefix := TracePrefix(files, dir, items, n - 1);
      TracePrefixDense(files, dir, items, n - 1, m);
      TraceIntoDense(prefix.files, dir, items[n - 1], m + n - 1);
    }
  }

  /** ... and touches no other directory nor any file already in `dir`. */
  lemma {:induction false} TracePrefixKeeps(files: Listing, dir: Dir, items: seq<TraceItem>, n: nat, m: nat)
    requires n <= |items| && dir in files && Dense(files[dir], m)
    ensures Keeps(files, TracePrefix(files, dir, items, n).files, dir)
    decreases n
  {
    if n > 0 {
      var prefix := TracePrefix(files, dir, items, n - 1);
      TracePrefixDense(files, dir, items, n - 1, m);
      TracePrefixKeeps(files, dir, items, n - 1, m);
      TraceIntoDense(prefix.files, dir, items[n - 1], m + n - 1);
      var last := TraceStep(prefix.files, dir, items[n - 1]);
      TraceStepRecords(prefix.files, dir, items[n - 1]);
      KeepsTransitive(files, prefix.files, last.files, dir);
    }
  }

  /** Recording into a missing directory changes nothing, and panics as soon as there is an item. */
  lemma {:induction false} TracePrefixIntoMissingDir(files: Listing, dir: Dir, items: seq<TraceItem>, n: nat)
    requires n <= |items| && dir !in files
    ensures var r := TracePrefix(files, dir, items, n);
            r.files == files && (r.outcome.Returned? <==> n == 0)
    decreases n
  {
    if n > 0 {
      TracePrefixIntoMissingDir(files, dir, items, n - 1);
    }
  }

  /** ... and the file numbered j holds item j - m ... */
  lemma {:induction false} TracePrefixHolds(files: Listing, dir: Dir, items: seq<TraceItem>, n: nat, m: nat, j: nat)
    requires n <= |items| && dir in files && Dense(files[dir], m) && m <= j < m + n
    ensures var r := TracePrefix(files, dir, items, n);
            dir in r.files && SeqFile(j) in r.files[dir] && r.files[dir][SeqFile(j)] == Record(items[j - m])
    decreases n
  {
    var prefix := TracePrefix(files, dir, items, n - 1);
    var last := TraceStep(prefix.files, dir, items[n - 1]);
    assert prefix.outcome.Returned? && dir in prefix.files && Dense(prefix.files[dir], m + n - 1) by {
      TracePrefixDense(files, dir, items, n - 1, m);
    }
    assert last.outcome.Returned? && last.files[dir][SeqFile(m + n - 1)] == Record(items[n - 1]) by {
      TraceIntoDense(prefix.files, dir, items[n - 1], m + n - 1);
    }
    assert TracePrefix(files, dir, items, n).files == last.files;
    if j < m + n - 1 {
      TracePrefixHolds(files, dir, items, n - 1, m, j);
      TraceStepKeepsEntry(prefix.files, dir, items[n - 1], SeqFile(j));
    }
  }

  /** ... so the files m, ..., m + n - 1 hold the items in order. */
  lemma TracePrefixContents(files: Listing, dir: Dir, items: seq<TraceItem>, n: nat, m: nat)
    requires n <= |items| && dir in files && Dense(files[dir], m)
    ensures var r := TracePrefix(files, dir, items, n);
            && dir in r.files
            && (forall j :: m <= j < m + n ==>
                  SeqFile(j) in r.files[dir] && r.files[dir][SeqFile(j)] == Record(items[j - m]))
  {
    var r := TracePrefix(files, dir, items, n);
    TracePrefixDense(files, dir, items, n, m);
    forall j | m <= j < m + n
      ensures SeqFile(j) in r.files[dir] && r.files[dir][SeqFile(j)] == Record(items[j - m])
    {
      TracePrefixHolds(files, dir, items, n, m, j);
    }
  }

  /** Once the first k items panic, recording more of them changes nothing. */
  lemma {:induction false} TracePrefixPanicSticky(files: Listing, dir: Dir, items: seq<TraceItem>, k: nat, n: nat)
    requires k <= n <= |items| && TracePrefix(files, dir, items, k).outcome.Panicked?
    ensures TracePrefix(files, dir, items, n) == TracePrefix(files, dir, items, k)
    decreases n
  {
    if k < n {
      TracePrefixPanicSticky(files, dir, items, k, n - 1);
    }
  }
}

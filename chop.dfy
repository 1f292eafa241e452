/**
 * The `chop` command's `runChop`: validate the options, open the target store,
 * read the index, optionally drop every chunk named by an ignore index, and hand
 * the remaining chunks to the chopping engine; the store is closed on every
 * path after it was opened.
 *
 * The calls `runChop` makes into code outside this model (opening the store,
 * reading an index file, chopping the file) are parameters, and the method
 * returns, beside Go's `error`, the sequence of those calls in the order made.
 */
module Chop {
  import opened Wrappers
  import opened ChunkIndex
  import opened IgnoreFilter

  /** Go's `error` values as created with `errors.New`. */
  datatype Error = Error(msg: string)

  const KeyCertMismatch := Error("--client-key and --client-cert options need to be provided together")
  const NoTargetStore := Error("no target store provided")

  /** The store-related options shared by the commands (only the fields `chop` uses). */
  datatype StoreOptions = StoreOptions(n: int, clientCert: string, clientKey: string)

  /** The options of the chop command. */
  datatype ChopOptions = ChopOptions(storeOptions: StoreOptions, store: string, ignoreIndexes: seq<string>)

  /** The handle of an opened writable store. */
  datatype Store = Store(handle: nat)

  /** The arguments of one call into the chopping engine. */
  datatype ChopRequest = ChopRequest(dataFile: string, chunks: seq<IndexChunk>, store: Store, n: int)

  /** A call into code outside the model, as it appears in the trace. */
  datatype Call =
    | OpenStore(location: string)
    | ReadIndex(path: string)
    | ChopFile(request: ChopRequest)
    | CloseStore(store: Store)

  /** The option checks made before anything else: key and certificate together, then a store. */
  function ValidateOptions(opt: ChopOptions): (r: Option<Error>)
    ensures r == None <==>
      (opt.storeOptions.clientKey == "") == (opt.storeOptions.clientCert == "") && opt.store != ""
    ensures (opt.storeOptions.clientKey == "") != (opt.storeOptions.clientCert == "") ==>
      r == Some(KeyCertMismatch)
    ensures r == Some(NoTargetStore) <==>
      (opt.storeOptions.clientKey == "") == (opt.storeOptions.clientCert == "") && opt.store == ""
  {
    if (opt.storeOptions.clientKey == "") != (opt.storeOptions.clientCert == "") then
      Some(KeyCertMismatch)
    else if opt.store == "" then
      Some(NoTargetStore)
    else
      None
  }

  /**
   * The chunk lists of the ignore indexes that are read successfully before the
   * first one whose reading fails (all of them when none fails).
   */
  function IgnoredIndexes(paths: seq<string>, opts: StoreOptions,
                          readIndex: (string, StoreOptions) -> Result<Index, Error>): (r: seq<seq<IndexChunk>>)
    ensures |r| <= |paths|
    ensures forall j :: 0 <= j < |r| ==> readIndex(paths[j], opts) == Success(Index(r[j]))
    ensures |r| < |paths| ==> readIndex(paths[|r|], opts).Failure?
  {
    if paths == [] || readIndex(paths[0], opts).Failure? then []
    else [readIndex(paths[0], opts).value.chunks] + IgnoredIndexes(paths[1..], opts, readIndex)
  }

  /** The trace of reading the given index files in order. */
  function ReadCalls(paths: seq<string>): (r: seq<Call>)
  {
    if paths == [] then [] else ReadCalls(paths[..|paths| - 1]) + [ReadIndex(paths[|paths| - 1])]
  }

  lemma ReadCallsStep(paths: seq<string>, j: nat)
    requires j < |paths|
    ensures ReadCalls(paths[..j + 1]) == ReadCalls(paths[..j]) + [ReadIndex(paths[j])]
  {
    assert paths[..j + 1][..j] == paths[..j];
  }

  /** One more successful ignore index read extends the ignored identities by its own. */
  lemma IgnoredIDsStep(g: seq<seq<IndexChunk>>, j: nat)
    requires j < |g|
    ensures IgnoredIDs(g[..j + 1]) == IgnoredIDs(g[..j]) + IDs(g[j])
  {
    assert g[..j + 1][..j] == g[..j];
  }

  /**
   * Read the ignore indexes in order and delete each one's identities from the
   * map, stopping at the first index that cannot be read.
   */
  method DropIgnored(m: map<ChunkID, IndexChunk>, paths: seq<string>, opts: StoreOptions,
                     readIndex: (string, StoreOptions) -> Result<Index, Error>)
    returns (r: Result<map<ChunkID, IndexChunk>, Error>, calls: seq<Call>)
    ensures var g := IgnoredIndexes(paths, opts, readIndex);
      |g| < |paths| ==>
        r == Failure(readIndex(paths[|g|], opts).error) && calls == ReadCalls(paths[..|g| + 1])
    ensures var g := IgnoredIndexes(paths, opts, readIndex);
      |g| == |paths| ==>
        r == Success(m - IgnoredIDs(g)) && calls == ReadCalls(paths)
  {
    ghost var g := IgnoredIndexes(paths, opts, readIndex);
    var cur := m;
    calls := [];
    for j := 0 to |paths|
      invariant j <= |g|
      invariant cur == m - IgnoredIDs(g[..j])
      invariant calls == ReadCalls(paths[..j])
    {
      var i := readIndex(paths[j], opts);
      ReadCallsStep(paths, j);
      calls := calls + [ReadIndex(paths[j])];
      if i.Failure? {
        assert j == |g|;
        return Failure(i.error), calls;
      }
      assert j < |g| && g[j] == i.value.chunks;
      IgnoredIDsStep(g, j);
      cur := DeleteIDs(cur, i.value.chunks);
    }
    assert paths[..|paths|] == paths && g[..|g|] == g;
    r := Success(cur);
  }

  /**
   * Skip every chunk referenced by an ignore index: with no ignore index the
   * primary chunk list is kept as it is; otherwise it is deduplicated through a
   * map, the ignore indexes are read and deleted from it in order, and the
   * survivors are listed.
   */
  method SkipIgnored(primary: seq<IndexChunk>, paths: seq<string>, opts: StoreOptions,
                     readIndex: (string, StoreOptions) -> Result<Index, Error>)
    returns (r: Result<seq<IndexChunk>, Error>, calls: seq<Call>)
    ensures paths == [] ==> r == Success(primary) && calls == []
    ensures var g := IgnoredIndexes(paths, opts, readIndex);
      |g| < |paths| ==>
        r == Failure(readIndex(paths[|g|], opts).error) && calls == ReadCalls(paths[..|g| + 1])
    ensures var g := IgnoredIndexes(paths, opts, readIndex);
      paths != [] && |g| == |paths| ==>
        r.Success? && IsFilterOf(primary, g, r.value) && calls == ReadCalls(paths)
  {
    if |paths| == 0 {
      return Success(primary), [];
    }
    var m := ChunkMapOf(primary);
    var dropped;
    dropped, calls := DropIgnored(m, paths, opts, readIndex);
    if dropped.Failure? {
      return Failure(dropped.error), calls;
    }
    ghost var g := IgnoredIndexes(paths, opts, readIndex);
    var survivors := MapValues(dropped.value);
    MapValuesIsFilter(primary, g, dropped.value, survivors);
    r := Success(survivors);
  }

  /**
   * The part of the chop command that runs while the target store is open: read
   * the index, skip the ignored chunks and call the chopping engine.
   */
  method ChopWithStore(s: Store, opt: ChopOptions, indexFile: string, dataFile: string,
                       readIndex: (string, StoreOptions) -> Result<Index, Error>,
                       chopFile: ChopRequest -> Option<Error>)
    returns (err: Option<Error>, calls: seq<Call>)
    // An unreadable index is reported and nothing is chopped.
    ensures readIndex(indexFile, opt.storeOptions).Failure? ==>
      err == Some(readIndex(indexFile, opt.storeOptions).error) && calls == [ReadIndex(indexFile)]
    // The first unreadable ignore index is reported, no later one is read and nothing is chopped.
    ensures readIndex(indexFile, opt.storeOptions).Success? ==>
      var g := IgnoredIndexes(opt.ignoreIndexes, opt.storeOptions, readIndex);
      |g| < |opt.ignoreIndexes| ==>
        && err == Some(readIndex(opt.ignoreIndexes[|g|], opt.storeOptions).error)
        && calls == [ReadIndex(indexFile)] + ReadCalls(opt.ignoreIndexes[..|g| + 1])
    // Otherwise the engine is called last and its error is returned. It gets the index's own
    // chunk list when there is no ignore index, and a filter result when there is one.
    ensures readIndex(indexFile, opt.storeOptions).Success? ==>
      var primary := readIndex(indexFile, opt.storeOptions).value.chunks;
      var g := IgnoredIndexes(opt.ignoreIndexes, opt.storeOptions, readIndex);
      |g| == |opt.ignoreIndexes| ==>
        && |calls| >= 1 && calls[|calls| - 1].ChopFile?
        && var req := calls[|calls| - 1].request;
        && calls == [ReadIndex(indexFile)] + ReadCalls(opt.ignoreIndexes) + [ChopFile(req)]
        && req.dataFile == dataFile && req.store == s && req.n == opt.storeOptions.n
        && err == chopFile(req)
        && (opt.ignoreIndexes == [] ==> req.chunks == primary)
        && (opt.ignoreIndexes != [] ==> IsFilterOf(primary, g, req.chunks))
  {
    var c := readIndex(indexFile, opt.storeOptions);
    calls := [ReadIndex(indexFile)];
    if c.Failure? {
      return Some(c.error), calls;
    }
    var chunks, ignoreReads := SkipIgnored(c.value.chunks, opt.ignoreIndexes, opt.storeOptions, readIndex);
    calls := calls + ignoreReads;
    if chunks.Failure? {
      return Some(chunks.error), calls;
    }
    var req := ChopRequest(dataFile, chunks.value, s, opt.storeOptions.n);
    err := chopFile(req);
    calls := calls + [ChopFile(req)];
  }

  /**
   * The chop command. `openStore`, `readIndex` and `chopFile` stand for the
   * store-opening, index-reading and chopping code the command calls; the
   * result is the error returned (`None` for `nil`) and the calls made.
   */
  method RunChop(opt: ChopOptions, args: seq<string>,
                 openStore: (string, StoreOptions) -> Result<Store, Error>,
                 readIndex: (string, StoreOptions) -> Result<Index, Error>,
                 chopFile: ChopRequest -> Option<Error>)
    returns (err: Option<Error>, calls: seq<Call>)
    requires ValidateOptions(opt) == None ==> |args| >= 2
    // Invalid options are reported before any store is opened or file read.
    ensures ValidateOptions(opt) != None ==> err == ValidateOptions(opt) && calls == []
    // A store that cannot be opened is reported and nothing else is done.
    ensures ValidateOptions(opt) == None && openStore(opt.store, opt.storeOptions).Failure? ==>
      err == Some(openStore(opt.store, opt.storeOptions).error) && calls == [OpenStore(opt.store)]
    // An unreadable index is reported, the store is closed and nothing is chopped.
    ensures ValidateOptions(opt) == None && openStore(opt.store, opt.storeOptions).Success? &&
            readIndex(args[0], opt.storeOptions).Failure? ==>
      var s := openStore(opt.store, opt.storeOptions).value;
      && err == Some(readIndex(args[0], opt.storeOptions).error)
      && calls == [OpenStore(opt.store)] + [ReadIndex(args[0])] + [CloseStore(s)]
    // The first unreadable ignore index is reported, no later one is read, the store is
    // closed and nothing is chopped.
    ensures ValidateOptions(opt) == None && openStore(opt.store, opt.storeOptions).Success? &&
            readIndex(args[0], opt.storeOptions).Success? ==>
      var s := openStore(opt.store, opt.storeOptions).value;
      var g := IgnoredIndexes(opt.ignoreIndexes, opt.storeOptions, readIndex);
      |g| < |opt.ignoreIndexes| ==>
        && err == Some(readIndex(opt.ignoreIndexes[|g|], opt.storeOptions).error)
        && calls == [OpenStore(opt.store)] +
                    ([ReadIndex(args[0])] + ReadCalls(opt.ignoreIndexes[..|g| + 1])) + [CloseStore(s)]
    // Otherwise the engine is called once, the store is closed after it and the engine's
    // error is returned. The engine gets the index's own chunk list when there is no ignore
    // index, and a filter result when there is one.
    ensures ValidateOptions(opt) == None && openStore(opt.store, opt.storeOptions).Success? &&
            readIndex(args[0], opt.storeOptions).Success? ==>
      var s := openStore(opt.store, opt.storeOptions).value;
      var primary := readIndex(args[0], opt.storeOptions).value.chunks;
      var g := IgnoredIndexes(opt.ignoreIndexes, opt.storeOptions, readIndex);
      |g| == |opt.ignoreIndexes| ==>
        && |calls| >= 2 && calls[|calls| - 2].ChopFile?
        && var req := calls[|calls| - 2].request;
        && calls == [OpenStore(opt.store)] +
                    ([ReadIndex(args[0])] + ReadCalls(opt.ignoreIndexes) + [ChopFile(req)]) + [CloseStore(s)]
        && req.dataFile == args[1] && req.store == s && req.n == opt.storeOptions.n
        && err == chopFile(req)
        && (opt.ignoreIndexes == [] ==> req.chunks == primary)
        && (opt.ignoreIndexes != [] ==> IsFilterOf(primary, g, req.chunks))
  {
    var invalid := ValidateOptions(opt);
    if invalid.Some? {
      return invalid, [];
    }
    var indexFile, dataFile := args[0], args[1];

    var st := openStore(opt.store, opt.storeOptions);
    calls := [OpenStore(opt.store)];
    if st.Failure? {
      return Some(st.error), calls;
    }
    var s := st.value;

    err, calls := ChopWithStore(s, opt, indexFile, dataFile, readIndex, chopFile);
    calls := [OpenStore(opt.store)] + calls + [CloseStore(s)];
  }
}

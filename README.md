# desync `chop`: option checks and the ignore-index filter

`desync chop <index> <file>` reads a caibx index and cuts the file into the
chunks the index lists, then writes them into a target chunk store. With
`--ignore`, every chunk named by any of the given ignore indexes is skipped.
This project models `runChop` (`cmd/desync/chop.go`) in Dafny and proves
properties of the model:

- the option checks: key and certificate must be given together, then a
  target store must be named, and both checks run before the store is opened;
- the ignore filter. The primary chunk list is put into a map keyed by chunk
  identity, where a later entry overwrites an earlier one. Every identity of
  every ignore index is deleted from the map. The surviving entries are copied
  out in the map's (unspecified) order. With no ignore index, the list goes
  through untouched;
- the order of the calls `runChop` makes into code outside the model:
  opening the store, reading index files, chopping, and the deferred close.

Files:

- `wrappers.dfy` (`Wrappers`): `Option`, which stands for Go's `error`
  with `None` as `nil`, and `Result` for a `(value, error)` pair.
- `index.dfy` (`ChunkIndex`): `ChunkID` (32 bytes), `IndexChunk {id, start, size}`,
  `Index`, the identity set `IDs`, and the predicates `DistinctIDs` and
  `IsLastOccurrence` with their lemmas.
- `filter.dfy` (`IgnoreFilter`): the three loops of the filter as methods
  (`ChunkMapOf`, `DeleteIDs`, `MapValues`). It also holds the union of ignored
  identities `IgnoredIDs` and the predicate `IsFilterOf`, which says what a
  filter result is: one entry per surviving identity, that entry being the last
  one in the primary list, in any order. Lemmas about it follow.
- `chop.dfy` (`Chop`): the options, `ValidateOptions`, reading the ignore
  indexes with early exit (`DropIgnored`), the filter block (`SkipIgnored`),
  the work done while the store is open (`ChopWithStore`) and `RunChop` itself.

`WritableStore`, `readCaibxFile` and `desync.ChopFile` are function
parameters of `RunChop` (`openStore`, `readIndex`, `chopFile`). Each returns
a success or an error. `RunChop` returns the error that `runChop` returns,
together with the list of those calls in the order they are made. The
readers' second argument is `opt.cmdStoreOptions`, as in the source.

Go's map iteration order is unspecified. `MapValues` picks the next key with
`:|`, so its contract, and everything built on it, holds for every iteration
order.

Two entries of the primary index with the same identity are reduced to the
last one when at least one ignore index is given (`m[c.ID] = c`, line 76).
With no ignore index both stay (line 73).
`IgnoreFilter.EmptyIgnoreIndexDeduplicates` and
`IgnoreFilter.RepeatedIDsNeverFiltered` make the difference explicit.

## Model

| member | source | states |
|---|---|---|
| `Chop.ValidateOptions` | cmd/desync/chop.go:48-53 | no error iff key and certificate are both given or both absent and a store is named; a key/certificate mismatch is reported whenever it occurs, so it takes precedence over a missing store; the missing-store error occurs iff key/cert agree and the store is empty |
| `Chop.RunChop` | cmd/desync/chop.go:47-98 | invalid options return the validation error with no call made at all (before any store is opened); a store-open failure returns that error after the one call; after the store opened, every exit closes it as the last call; an unreadable index or ignore index returns its error and the engine is never called, and no ignore index after the failing one is read; otherwise the engine is called exactly once with the data file, the store and the concurrency, and its error is returned; the chunks it gets are the index's own list (same order, duplicates kept) when there is no ignore index and a filter result (`IsFilterOf`) otherwise |
| `Chop.ChopWithStore` | cmd/desync/chop.go:65-97 | with the store open: an unreadable index is reported with only its read made; the first unreadable ignore index is reported and nothing is chopped; otherwise the reads are followed by one engine call whose chunks are the unfiltered list (no ignore index) or a filter result, and whose error is returned |
| `Chop.SkipIgnored` | cmd/desync/chop.go:70-91 | no ignore index: the primary list unchanged and nothing read; a failing ignore read: that error and the reads up to and including it; otherwise a filter result of the primary list by all ignore indexes |
| `Chop.DropIgnored` | cmd/desync/chop.go:78-86 | ignore indexes are read in order until the first failure, whose error is returned; when all are read the map has lost exactly the identities of all of them (`m - IgnoredIDs`) |
| `Chop.IgnoredIndexes` | cmd/desync/chop.go:78-82 | the chunk lists of the ignore indexes read successfully before the first failing read: each is what the reader returned for that path, and the next path (if any) fails |
| `IgnoreFilter.ChunkMapOf` | cmd/desync/chop.go:74-77 | the map's keys are exactly the primary list's identities, each key maps to an entry with that identity, and that entry is the last one in the list with the identity |
| `IgnoreFilter.DeleteIDs` | cmd/desync/chop.go:83-85 | the result is the map without the identities of one ignore index |
| `IgnoreFilter.MapValues` | cmd/desync/chop.go:87-90 | one entry per key of the map, in some order: as many entries as keys, identities pairwise distinct, each entry being the map's value for its identity |
| `IgnoreFilter.MapValuesIsFilter` | cmd/desync/chop.go:74-90 | the map built, reduced and enumerated as above is an admissible filter result |
| `IgnoreFilter.IgnoredIDsIsUnion` | cmd/desync/chop.go:78-86 | an identity is ignored iff some single ignore index contains it |
| `IgnoreFilter.IgnoredIDsOrderIndependent` | cmd/desync/chop.go:78-86 | reordering or repeating the ignore indexes leaves the ignored identities unchanged |
| `IgnoreFilter.FilterOrderIndependent` | cmd/desync/chop.go:78-86 | two lists of ignore indexes that hold the same indexes, in any order and with any repetition, admit exactly the same filter results |
| `IgnoreFilter.FilterIDs` | cmd/desync/chop.go:74-90 | the identities of a filter result are exactly those of the primary list minus all ignored ones |
| `IgnoreFilter.FilterLength` | cmd/desync/chop.go:74-90 | a filter result has one entry per surviving identity and is no longer than the primary list |
| `IgnoreFilter.FilterUniqueUpToOrder` | cmd/desync/chop.go:87-90 | two filter results of the same inputs are permutations of each other: only the map's iteration order is free |
| `IgnoreFilter.PassThroughIsFilterWhenDistinct` | cmd/desync/chop.go:70-73 | a primary list without repeated identities passed through untouched is also a valid filter result |
| `IgnoreFilter.RepeatedIDsNeverFiltered` | cmd/desync/chop.go:73-77 | a primary list with a repeated identity is never a filter result, so the pass-through and filtering branches differ on it |
| `IgnoreFilter.EmptyIgnoreIndexDeduplicates` | cmd/desync/chop.go:73-77 | one ignore index with no chunks still reduces two same-identity entries to the later one |
| `IgnoreFilter.ThreeChunkScenario` | cmd/desync/chop.go:74-90 | three chunks over [0,100), [100,250), [250,400) with the middle one ignored: exactly the other two remain |
| `ChunkIndex.LastOccurrenceUnique` | cmd/desync/chop.go:76 | each identity has one last entry, the value the map keeps for it |
| `ChunkIndex.IDsCardinality` | cmd/desync/chop.go:74-77 | a list has at most as many identities as entries, exactly as many when no identity repeats |

## Left out

- `desync.ChopFile` (cmd/desync/chop.go:97) is library code in package `desync`, outside cmd/desync/chop.go, and is not modelled. The call passes it the cancellation context `ctx`, the store, the number of concurrent goroutines `opt.n` (line 40) and a progress bar, so it does concurrent work and store writes. It appears only as the `chopFile` parameter and the `ChopFile` call in the trace.
- `WritableStore` and `readCaibxFile` (cmd/desync/chop.go:59, 66, 79) are defined in other files of package `main`, not in chop.go, and are not modelled. They appear as the `openStore` and `readIndex` parameters, and whatever checks they make on a store location or an index file is not modelled.
- `readIndex` is modelled as a deterministic function of (path, options). Repeated reads of one path therefore return the same index, which the source does not promise: a second read of standard input ("-", cmd/desync/chop.go:29), or of a file that changes between reads (cmd/desync/chop.go:66, 79), may return something else.
- `s.Close()` (cmd/desync/chop.go:63) is recorded as the last call. Its own error is discarded by `defer` in the source, and the model does not observe it either.
- The `ctx` cancellation context and the progress bar `NewProgressBar` (cmd/desync/chop.go:94) are not modelled: one is concurrency, the other is terminal output.
- `cmdStoreOptions` is defined in another file of package `main`. The model keeps only the fields `runChop` reads: `n`, `clientCert` and `clientKey`.
- `newChopCommand` (cmd/desync/chop.go:17-45) is left out. It is flag wiring, including the process-wide `desync.TrustInsecure` flag. Its `cobra.ExactArgs(2)` becomes `RunChop`'s requirement of at least two arguments once the options pass.
- cmd/desync/main.go is left out: signal handling with a goroutine, command registration, JSON printing and process exit.
- cmd/desync/tar_test.go is left out: it compares files on disk for another command.
- Errors are the values `errors.New` would create, a message string each. Errors from the foreign calls are passed through unchanged, as `return err` does.

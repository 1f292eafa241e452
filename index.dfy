/**
 * Chunk identity and index entries: the records that `runChop` reads from a
 * caibx index and hands on to the chopping engine.
 */
module ChunkIndex {

  newtype byte = b: int | 0 <= b < 0x100

  /** A 64-bit unsigned field of an index entry. */
  newtype uint64 = x: int | 0 <= x < 0x1_0000_0000_0000_0000

  /** A chunk's identity: a 32-byte content digest (Go's `[32]byte`). */
  type ChunkID = s: seq<byte> | |s| == 32 witness seq(32, _ => 0)

  /** One entry of an index: the byte range [start, start + size) has identity `id`. */
  datatype IndexChunk = IndexChunk(id: ChunkID, start: uint64, size: uint64)

  /** A parsed index; only its chunk list is used by the chop command. */
  datatype Index = Index(chunks: seq<IndexChunk>)

  /** The identities occurring in a chunk list. */
  function IDs(chunks: seq<IndexChunk>): (r: set<ChunkID>)
  {
    set c | c in chunks :: c.id
  }

  /** No identity occurs twice in the list. */
  ghost predicate DistinctIDs(chunks: seq<IndexChunk>)
  {
    forall i, j :: 0 <= i < j < |chunks| ==> chunks[i].id != chunks[j].id
  }

  /** `c` is an entry of `chunks` and no later entry has the same identity. */
  ghost predicate IsLastOccurrence(chunks: seq<IndexChunk>, c: IndexChunk)
  {
    exists j :: 0 <= j < |chunks| && chunks[j] == c &&
      forall k :: j < k < |chunks| ==> chunks[k].id != c.id
  }

  /** Appending an entry makes it the last occurrence of its identity. */
  lemma LastOccurrenceOfAppended(chunks: seq<IndexChunk>, x: IndexChunk)
    ensures IsLastOccurrence(chunks + [x], x)
  {
    var s := chunks + [x];
    assert s[|chunks|] == x;
  }

  /** Appending an entry with another identity keeps earlier last occurrences. */
  lemma LastOccurrenceKept(chunks: seq<IndexChunk>, c: IndexChunk, x: IndexChunk)
    requires IsLastOccurrence(chunks, c) && x.id != c.id
    ensures IsLastOccurrence(chunks + [x], c)
  {
    var j :| 0 <= j < |chunks| && chunks[j] == c &&
      forall k :: j < k < |chunks| ==> chunks[k].id != c.id;
    var s := chunks + [x];
    assert s[j] == c;
    assert forall k :: j < k < |s| ==> s[k].id != c.id by {
      forall k | j < k < |s| ensures s[k].id != c.id {
        if k < |chunks| { assert s[k] == chunks[k]; } else { assert s[k] == x; }
      }
    }
  }

  /** Each identity has exactly one last occurrence. */
  lemma LastOccurrenceUnique(chunks: seq<IndexChunk>, a: IndexChunk, b: IndexChunk)
    requires IsLastOccurrence(chunks, a) && IsLastOccurrence(chunks, b)
    requires a.id == b.id
    ensures a == b
  {
  }

  /** A list has at most as many identities as entries, exactly as many when they are distinct. */
  lemma {:induction false} IDsCardinality(chunks: seq<IndexChunk>)
    ensures |IDs(chunks)| <= |chunks|
    ensures DistinctIDs(chunks) ==> |IDs(chunks)| == |chunks|
  {
    if chunks != [] {
      var init, x := chunks[..|chunks| - 1], chunks[|chunks| - 1];
      assert chunks == init + [x];
      IDsCardinality(init);
      assert IDs(chunks) == IDs(init) + {x.id};
      if DistinctIDs(chunks) {
        assert DistinctIDs(init) by {
          forall i, j | 0 <= i < j < |init| ensures init[i].id != init[j].id {
            assert init[i] == chunks[i] && init[j] == chunks[j];
          }
        }
        assert x.id !in IDs(init) by {
          forall i | 0 <= i < |init| ensures init[i].id != x.id {
            assert init[i] == chunks[i];
          }
        }
      }
    }
  }

  /** In a list without repeated identities each entry occurs once. */
  lemma {:induction false} DistinctMultiplicity(chunks: seq<IndexChunk>, c: IndexChunk)
    requires DistinctIDs(chunks)
    ensures multiset(chunks)[c] == if c in chunks then 1 else 0
  {
    if chunks != [] {
      var rest := chunks[1..];
      assert chunks == [chunks[0]] + rest;
      assert DistinctIDs(rest) by {
        forall i, j | 0 <= i < j < |rest| ensures rest[i].id != rest[j].id {
          assert rest[i] == chunks[i + 1] && rest[j] == chunks[j + 1];
        }
      }
      DistinctMultiplicity(rest, c);
      assert chunks[0] !in rest by {
        forall i | 0 <= i < |rest| ensures rest[i].id != chunks[0].id {
          assert rest[i] == chunks[i + 1];
        }
      }
      assert multiset(chunks) == multiset{chunks[0]} + multiset(rest);
    }
  }
}

/**
 * The ignore-index filter of `runChop`: the primary chunk list is turned into a
 * map keyed by identity, every identity of every ignore index is deleted from
 * it, and the surviving entries are copied out in the map's iteration order.
 */
module IgnoreFilter {
  import opened ChunkIndex

  /** The identities of all ignore indexes together. */
  function IgnoredIDs(ignored: seq<seq<IndexChunk>>): (r: set<ChunkID>)
  {
    if ignored == [] then {}
    else IgnoredIDs(ignored[..|ignored| - 1]) + IDs(ignored[|ignored| - 1])
  }

  /** Every key of the map is the identity of the entry it maps to. */
  ghost predicate KeyedByID(m: map<ChunkID, IndexChunk>)
  {
    forall id :: id in m ==> m[id].id == id
  }

  /**
   * `out` is an admissible result of filtering `primary` by `ignored`: one entry
   * per identity of `primary` that no ignore index has, that entry being the
   * last one of `primary` with the identity, in any order.
   */
  ghost predicate IsFilterOf(primary: seq<IndexChunk>, ignored: seq<seq<IndexChunk>>, out: seq<IndexChunk>)
  {
    && DistinctIDs(out)
    && (forall i :: 0 <= i < |out| ==> IsLastOccurrence(primary, out[i]) && out[i].id !in IgnoredIDs(ignored))
    && (forall id :: id in IDs(primary) && id !in IgnoredIDs(ignored) ==> id in IDs(out))
  }

  /** Fill a map from the chunk list; a later entry overwrites an earlier one with the same identity. */
  method ChunkMapOf(chunks: seq<IndexChunk>) returns (m: map<ChunkID, IndexChunk>)
    ensures m.Keys == IDs(chunks)
    ensures KeyedByID(m)
    ensures forall id :: id in m ==> IsLastOccurrence(chunks, m[id])
  {
    m := map[];
    for i := 0 to |chunks|
      invariant m.Keys == IDs(chunks[..i])
      invariant KeyedByID(m)
      invariant forall id :: id in m ==> IsLastOccurrence(chunks[..i], m[id])
    {
      var c := chunks[i];
      assert chunks[..i + 1] == chunks[..i] + [c];
      forall id | id in m && id != c.id
        ensures IsLastOccurrence(chunks[..i + 1], m[id])
      {
        LastOccurrenceKept(chunks[..i], m[id], c);
      }
      LastOccurrenceOfAppended(chunks[..i], c);
      m := m[c.id := c];
    }
    assert chunks[..|chunks|] == chunks;
  }

  /** Delete from the map every identity occurring in one ignore index. */
  method DeleteIDs(m: map<ChunkID, IndexChunk>, chunks: seq<IndexChunk>) returns (r: map<ChunkID, IndexChunk>)
    ensures r == m - IDs(chunks)
  {
    r := m;
    for i := 0 to |chunks|
      invariant r == m - IDs(chunks[..i])
    {
      assert chunks[..i + 1] == chunks[..i] + [chunks[i]];
      assert IDs(chunks[..i + 1]) == IDs(chunks[..i]) + {chunks[i].id};
      r := r - {chunks[i].id};
    }
    assert chunks[..|chunks|] == chunks;
  }

  /** Copy the map's entries into a fresh list, one per key, in an unspecified order. */
  method MapValues(m: map<ChunkID, IndexChunk>) returns (out: seq<IndexChunk>)
    requires KeyedByID(m)
    ensures |out| == |m|
    ensures DistinctIDs(out)
    ensures forall i :: 0 <= i < |out| ==> out[i].id in m && m[out[i].id] == out[i]
  {
    out := [];
    var rest := m;
    while rest != map[]
      invariant rest.Keys <= m.Keys
      invariant forall id :: id in rest ==> rest[id] == m[id]
      invariant |out| + |rest| == |m|
      invariant DistinctIDs(out)
      invariant forall i :: 0 <= i < |out| ==> out[i].id in m && m[out[i].id] == out[i] && out[i].id !in rest
      decreases |rest|
    {
      var id :| id in rest;
      assert |rest.Keys - {id}| == |rest.Keys| - 1;
      out := out + [rest[id]];
      rest := rest - {id};
    }
  }

  /** An identity is ignored exactly when some one ignore index has it. */
  lemma {:induction false} IgnoredIDsIsUnion(ignored: seq<seq<IndexChunk>>, id: ChunkID)
    ensures id in IgnoredIDs(ignored) <==> exists i :: 0 <= i < |ignored| && id in IDs(ignored[i])
  {
    if ignored != [] {
      var init := ignored[..|ignored| - 1];
      IgnoredIDsIsUnion(init, id);
      assert forall i :: 0 <= i < |init| ==> init[i] == ignored[i];
    }
  }

  /** Reordering or repeating the ignore indexes does not change the ignored identities. */
  lemma IgnoredIDsOrderIndependent(g1: seq<seq<IndexChunk>>, g2: seq<seq<IndexChunk>>)
    requires forall x :: x in g1 <==> x in g2
    ensures IgnoredIDs(g1) == IgnoredIDs(g2)
  {
    forall id ensures id in IgnoredIDs(g1) <==> id in IgnoredIDs(g2) {
      IgnoredIDsIsUnion(g1, id);
      IgnoredIDsIsUnion(g2, id);
      if id in IgnoredIDs(g1) {
        var i :| 0 <= i < |g1| && id in IDs(g1[i]);
        assert g1[i] in g2;
        var j :| 0 <= j < |g2| && g2[j] == g1[i];
      }
      if id in IgnoredIDs(g2) {
        var j :| 0 <= j < |g2| && id in IDs(g2[j]);
        assert g2[j] in g1;
        var i :| 0 <= i < |g1| && g1[i] == g2[j];
      }
    }
  }

  /** The filter's admissible results do not depend on the order or repetition of the ignore indexes. */
  lemma FilterOrderIndependent(primary: seq<IndexChunk>, g1: seq<seq<IndexChunk>>, g2: seq<seq<IndexChunk>>, out: seq<IndexChunk>)
    requires forall x :: x in g1 <==> x in g2
    ensures IsFilterOf(primary, g1, out) <==> IsFilterOf(primary, g2, out)
  {
    IgnoredIDsOrderIndependent(g1, g2);
  }

  /** The identities of a filter result are those of the primary list minus the ignored ones. */
  lemma FilterIDs(primary: seq<IndexChunk>, ignored: seq<seq<IndexChunk>>, out: seq<IndexChunk>)
    requires IsFilterOf(primary, ignored, out)
    ensures IDs(out) == IDs(primary) - IgnoredIDs(ignored)
  {
  }

  /** A filter result has one entry per surviving identity, so it is no longer than the primary list. */
  lemma FilterLength(primary: seq<IndexChunk>, ignored: seq<seq<IndexChunk>>, out: seq<IndexChunk>)
    requires IsFilterOf(primary, ignored, out)
    ensures |out| == |IDs(primary) - IgnoredIDs(ignored)|
    ensures |out| <= |primary|
  {
    FilterIDs(primary, ignored, out);
    IDsCardinality(out);
    IDsCardinality(primary);
    assert IDs(primary) - IgnoredIDs(ignored) <= IDs(primary);
  }

  /** Two filter results of the same inputs differ only in order. */
  lemma FilterUniqueUpToOrder(primary: seq<IndexChunk>, ignored: seq<seq<IndexChunk>>, a: seq<IndexChunk>, b: seq<IndexChunk>)
    requires IsFilterOf(primary, ignored, a) && IsFilterOf(primary, ignored, b)
    ensures multiset(a) == multiset(b)
  {
    FilterIDs(primary, ignored, a);
    FilterIDs(primary, ignored, b);
    forall c ensures multiset(a)[c] == multiset(b)[c] {
      DistinctMultiplicity(a, c);
      DistinctMultiplicity(b, c);
      if c in a {
        InFilterFromOther(primary, ignored, a, b, c);
      }
      if c in b {
        InFilterFromOther(primary, ignored, b, a, c);
      }
    }
  }

  /** An entry of one filter result is an entry of any other. */
  lemma InFilterFromOther(primary: seq<IndexChunk>, ignored: seq<seq<IndexChunk>>, a: seq<IndexChunk>, b: seq<IndexChunk>, c: IndexChunk)
    requires IsFilterOf(primary, ignored, a) && IsFilterOf(primary, ignored, b)
    requires c in a
    ensures c in b
  {
  }

  /** A list without repeated identities passes the filter unchanged when nothing is ignored. */
  lemma PassThroughIsFilterWhenDistinct(primary: seq<IndexChunk>)
    requires DistinctIDs(primary)
    ensures IsFilterOf(primary, [], primary)
  {
  }

  /** A list with a repeated identity is never a filter result, whatever is ignored. */
  lemma RepeatedIDsNeverFiltered(primary: seq<IndexChunk>, ignored: seq<seq<IndexChunk>>)
    requires !DistinctIDs(primary)
    ensures !IsFilterOf(primary, ignored, primary)
  {
  }

  /** The pieces `runChop` computes, composed, give an admissible filter result. */
  lemma {:induction false} MapValuesIsFilter(primary: seq<IndexChunk>, ignored: seq<seq<IndexChunk>>,
                                             m: map<ChunkID, IndexChunk>, out: seq<IndexChunk>)
    requires m.Keys == IDs(primary) - IgnoredIDs(ignored)
    requires forall id :: id in m ==> IsLastOccurrence(primary, m[id])
    requires |out| == |m| && DistinctIDs(out)
    requires forall i :: 0 <= i < |out| ==> out[i].id in m && m[out[i].id] == out[i]
    ensures IsFilterOf(primary, ignored, out)
  {
    assert IDs(out) <= m.Keys;
    IDsCardinality(out);
    SubsetOfEqualSize(IDs(out), m.Keys);
  }

  /** Three distinct identities for the scenario below. */
  const IdA: ChunkID := seq(32, _ => 1)
  const IdB: ChunkID := seq(32, _ => 2)
  const IdC: ChunkID := seq(32, _ => 3)

  /**
   * Three chunks covering [0,100), [100,250) and [250,400) of a 400-byte file,
   * with one ignore index holding the middle chunk: exactly the first and the
   * last chunk remain.
   */
  lemma ThreeChunkScenario(out: seq<IndexChunk>)
    requires IsFilterOf([IndexChunk(IdA, 0, 100), IndexChunk(IdB, 100, 150), IndexChunk(IdC, 250, 150)],
                        [[IndexChunk(IdB, 100, 150)]], out)
    ensures |out| == 2
    ensures multiset(out) == multiset{IndexChunk(IdA, 0, 100), IndexChunk(IdC, 250, 150)}
  {
    var c1, c2, c3 := IndexChunk(IdA, 0, 100), IndexChunk(IdB, 100, 150), IndexChunk(IdC, 250, 150);
    var primary, ignored := [c1, c2, c3], [[c2]];
    ThreeChunkExpected();
    FilterUniqueUpToOrder(primary, ignored, out, [c1, c3]);
    FilterLength(primary, ignored, out);
    assert IDs(primary) - IgnoredIDs(ignored) == {IdA, IdC};
  }

  lemma ThreeChunkExpected()
    ensures IdA != IdB && IdB != IdC && IdA != IdC
    ensures IDs([IndexChunk(IdA, 0, 100), IndexChunk(IdB, 100, 150), IndexChunk(IdC, 250, 150)]) == {IdA, IdB, IdC}
    ensures IgnoredIDs([[IndexChunk(IdB, 100, 150)]]) == {IdB}
    ensures IsFilterOf([IndexChunk(IdA, 0, 100), IndexChunk(IdB, 100, 150), IndexChunk(IdC, 250, 150)],
                       [[IndexChunk(IdB, 100, 150)]], [IndexChunk(IdA, 0, 100), IndexChunk(IdC, 250, 150)])
  {
    assert IdA[0] == 1 && IdB[0] == 2 && IdC[0] == 3;
    var c1, c2, c3 := IndexChunk(IdA, 0, 100), IndexChunk(IdB, 100, 150), IndexChunk(IdC, 250, 150);
    var primary, ignored := [c1, c2, c3], [[c2]];
    assert ignored[..0] == [];
    assert primary[0] == c1 && primary[2] == c3;
    assert IsLastOccurrence(primary, c1);
    assert IsLastOccurrence(primary, c3);
    var expected := [c1, c3];
    assert IgnoredIDs(ignored) == {IdB};
    assert DistinctIDs(expected);
    assert forall i :: 0 <= i < |expected| ==>
      IsLastOccurrence(primary, expected[i]) && expected[i].id !in IgnoredIDs(ignored);
    assert IDs(primary) - IgnoredIDs(ignored) == {IdA, IdC} == IDs(expected);
  }

  /**
   * Two entries with the same identity and one ignore index with no chunks:
   * only the later entry remains, while with no ignore index both stay.
   */
  lemma EmptyIgnoreIndexDeduplicates(x: IndexChunk, y: IndexChunk, out: seq<IndexChunk>)
    requires x.id == y.id
    requires IsFilterOf([x, y], [[]], out)
    ensures out == [y]
  {
    var primary, ignored: seq<seq<IndexChunk>> := [x, y], [[]];
    assert IgnoredIDs(ignored) == {} by {
      assert ignored[..0] == [];
    }
    assert IsLastOccurrence(primary, y) by {
      assert primary[1] == y;
    }
    assert IDs([y]) == {y.id};
    assert IsFilterOf(primary, ignored, [y]);
    FilterUniqueUpToOrder(primary, ignored, out, [y]);
    FilterLength(primary, ignored, out);
    assert |out| == 1;
    assert out[0] in multiset(out);
  }

  lemma SubsetOfEqualSize<T>(a: set<T>, b: set<T>)
    requires a <= b && |a| == |b|
    ensures a == b
  {
    assert |b - a| == |b| - |a|;
  }
}

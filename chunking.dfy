/**
 * Splitting the wire entries of one run into POST payloads (`_add_results`,
 * first loop).  An entry is appended to the open chunk and the chunk is
 * flushed right after the append that makes its measured size exceed
 * 512 KiB; the last chunk is always sent, even when empty.
 */
module Chunking {
  import opened Records
  import opened Comment

  const ChunkLimit := 512 * 1024

  /**
   * `sys.getsizeof(str({'results': chunk}))`, a property of the Python
   * runtime, taken as a parameter.
   */
  type Measure = seq<WireEntry> -> nat

  /** The chunks produced from an open chunk `cur` and the entries still to come. */
  function ChunkFrom(cur: seq<WireEntry>, rest: seq<WireEntry>, size: Measure): seq<seq<WireEntry>>
    decreases |rest|
  {
    if rest == [] then [cur]
    else
      var next := cur + [rest[0]];
      if size(next) > ChunkLimit then [next] + ChunkFrom([], rest[1..], size)
      else ChunkFrom(next, rest[1..], size)
  }

  /** The chunks `_add_results` posts for `entries`. */
  function Chunks(entries: seq<WireEntry>, size: Measure): seq<seq<WireEntry>> {
    ChunkFrom([], entries, size)
  }

  function Concat(cs: seq<seq<WireEntry>>): seq<WireEntry>
    decreases |cs|
  {
    if cs == [] then [] else cs[0] + Concat(cs[1..])
  }

  /** No non-empty prefix of `c` exceeds the limit: an open chunk was never flushed. */
  predicate FitsAll(c: seq<WireEntry>, size: Measure) {
    forall j :: 1 <= j <= |c| ==> size(c[..j]) <= ChunkLimit
  }

  /** `c` exceeds the limit, and only since its last entry was appended. */
  predicate Flushed(c: seq<WireEntry>, size: Measure) {
    |c| >= 1 && size(c) > ChunkLimit && forall j :: 1 <= j < |c| ==> size(c[..j]) <= ChunkLimit
  }

  /**
   * The flush rule stated on its own: the chunks concatenate to the entries,
   * every chunk but the last was flushed at its last entry, and the last one
   * never reached the limit.
   */
  predicate IsChunking(cs: seq<seq<WireEntry>>, entries: seq<WireEntry>, size: Measure) {
    |cs| >= 1 && Concat(cs) == entries &&
    (forall i :: 0 <= i < |cs| - 1 ==> Flushed(cs[i], size)) &&
    FitsAll(cs[|cs| - 1], size)
  }

  lemma ConcatCons(c: seq<WireEntry>, cs: seq<seq<WireEntry>>)
    ensures Concat([c] + cs) == c + Concat(cs)
  {
    assert ([c] + cs)[1..] == cs;
  }

  lemma {:induction false} ChunkFromIsChunking(cur: seq<WireEntry>, rest: seq<WireEntry>, size: Measure)
    requires FitsAll(cur, size)
    ensures IsChunking(ChunkFrom(cur, rest, size), cur + rest, size)
    decreases |rest|
  {
    if rest == [] {
      ConcatCons(cur, []);
    } else {
      var next := cur + [rest[0]];
      assert next + rest[1..] == cur + rest;
      forall j | 1 <= j < |next| ensures next[..j] == cur[..j] { }
      if size(next) > ChunkLimit {
        ChunkFromIsChunking([], rest[1..], size);
        var tail := ChunkFrom([], rest[1..], size);
        ConcatCons(next, tail);
        var cs := [next] + tail;
        assert Flushed(next, size);
        forall i | 1 <= i < |cs| - 1 ensures Flushed(cs[i], size) {
          assert cs[i] == tail[i - 1];
        }
      } else {
        assert FitsAll(next, size) by {
          forall j | 1 <= j <= |next| ensures size(next[..j]) <= ChunkLimit {
            if j == |next| { assert next[..j] == next; }
          }
        }
        ChunkFromIsChunking(next, rest[1..], size);
      }
    }
  }

  /** An entry is in the concatenation exactly when it is in one of the chunks. */
  lemma {:induction false} ConcatMembers(cs: seq<seq<WireEntry>>, e: WireEntry)
    ensures e in Concat(cs) <==> exists i :: 0 <= i < |cs| && e in cs[i]
    decreases |cs|
  {
    if cs != [] {
      ConcatMembers(cs[1..], e);
      assert forall i :: 0 < i < |cs| ==> cs[i] == cs[1..][i - 1];
      if e in Concat(cs[1..]) {
        var i :| 0 <= i < |cs[1..]| && e in cs[1..][i];
        assert e in cs[i + 1];
      }
    }
  }

  /** The chunks posted satisfy the flush rule. */
  lemma ChunksAreChunking(entries: seq<WireEntry>, size: Measure)
    ensures IsChunking(Chunks(entries, size), entries, size)
  {
    ChunkFromIsChunking([], entries, size);
  }

  /** The first chunk starts the entries and the others chunk the remainder. */
  lemma ChunkingFirst(cs: seq<seq<WireEntry>>, entries: seq<WireEntry>, size: Measure)
    requires IsChunking(cs, entries, size)
    ensures |cs[0]| <= |entries| && entries[..|cs[0]|] == cs[0]
    ensures |cs| > 1 ==> IsChunking(cs[1..], entries[|cs[0]|..], size)
  {
    ConcatCons(cs[0], cs[1..]);
    assert cs == [cs[0]] + cs[1..];
    if |cs| > 1 {
      var rest := cs[1..];
      forall i | 0 <= i < |rest| - 1 ensures Flushed(rest[i], size) {
        assert rest[i] == cs[i + 1];
      }
    }
  }

  /** No non-empty prefix of a never-flushed chunk could have been flushed. */
  lemma OpenPrefixNotFlushed(open: seq<WireEntry>, c: seq<WireEntry>, size: Measure)
    requires FitsAll(open, size)
    requires 1 <= |c| <= |open| && open[..|c|] == c
    ensures !Flushed(c, size)
  {
    assert size(open[..|c|]) <= ChunkLimit;
  }

  /** No proper non-empty prefix of a flushed chunk could have been flushed. */
  lemma FlushedPrefix(c: seq<WireEntry>, d: seq<WireEntry>, size: Measure)
    requires Flushed(d, size)
    requires 1 <= |c| < |d| && d[..|c|] == c
    ensures !Flushed(c, size)
  {
    assert size(d[..|c|]) <= ChunkLimit;
  }

  /** The flush rule admits one chunking only, so it specifies the chunks completely. */
  lemma {:induction false} ChunkingUnique(a: seq<seq<WireEntry>>, b: seq<seq<WireEntry>>,
                                          entries: seq<WireEntry>, size: Measure)
    requires IsChunking(a, entries, size) && IsChunking(b, entries, size)
    ensures a == b
    decreases |a|
  {
    ChunkingFirst(a, entries, size);
    ChunkingFirst(b, entries, size);
    if |a| == 1 || |b| == 1 {
      ConcatCons(a[0], []);
      ConcatCons(b[0], []);
      assert a == [a[0]] || b == [b[0]];
      if |a| == 1 && |b| > 1 {
        OpenPrefixNotFlushed(a[0], b[0], size);
      } else if |b| == 1 && |a| > 1 {
        OpenPrefixNotFlushed(b[0], a[0], size);
      }
      assert a == [a[0]] && b == [b[0]];
    } else {
      if |a[0]| < |b[0]| {
        FlushedPrefix(a[0], b[0], size);
      } else if |b[0]| < |a[0]| {
        FlushedPrefix(b[0], a[0], size);
      }
      ChunkingUnique(a[1..], b[1..], entries[|a[0]|..], size);
      assert a == [a[0]] + a[1..] && b == [b[0]] + b[1..];
    }
  }

  /** A chunking into a single chunk never reached the limit. */
  lemma SingleChunkFits(cs: seq<seq<WireEntry>>, entries: seq<WireEntry>, size: Measure)
    requires IsChunking(cs, entries, size) && |cs| == 1 && entries != []
    ensures size(entries) <= ChunkLimit
  {
    ConcatCons(cs[0], []);
    assert cs == [cs[0]];
    assert Concat([]) == [];
    assert [cs[0]] + [] == cs;
    assert entries == cs[0];
    var last := cs[|cs| - 1];
    assert last == entries && FitsAll(last, size);
    assert last[..|last|] == last;
    assert size(last[..|last|]) <= ChunkLimit;
  }

  /** More than one POST is needed whenever the whole payload would be over the limit. */
  lemma ExceedingSplits(entries: seq<WireEntry>, size: Measure)
    requires entries != [] && size(entries) > ChunkLimit
    ensures |Chunks(entries, size)| >= 2
  {
    ChunksAreChunking(entries, size);
    if |Chunks(entries, size)| == 1 {
      SingleChunkFits(Chunks(entries, size), entries, size);
    }
  }

  /**
   * The first loop of `_add_results`: builds each result's wire entry,
   * appends it to the open chunk and flushes after an append that takes
   * the chunk over the limit; the open chunk is appended at the end.
   */
  method PackChunks(results: seq<ResultEntry>, s: Session, commentLimit: nat, size: Measure)
    returns (chunks: seq<seq<WireEntry>>)
    ensures chunks == Chunks(WireEntries(results, s, commentLimit), size)
    ensures IsChunking(chunks, WireEntries(results, s, commentLimit), size)
  {
    ghost var entries := WireEntries(results, s, commentLimit);
    chunks := [];
    var cur: seq<WireEntry> := [];
    for i := 0 to |results|
      invariant chunks + ChunkFrom(cur, entries[i..], size) == Chunks(entries, size)
    {
      var entry := WireEntryOf(results[i], s, commentLimit);
      assert entries[i..][0] == entry && entries[i..][1..] == entries[i + 1..];
      cur := cur + [entry];
      if size(cur) > ChunkLimit {
        chunks := chunks + [cur];
        cur := [];
      }
    }
    assert entries[|results|..] == [];
    chunks := chunks + [cur];
    ChunksAreChunking(entries, size);
  }
}

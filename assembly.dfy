/**
 * How upload-finalize turns a session's chunk table into one file:
 * `Object.keys(chunks).map(Number).sort((a, b) => a - b)`, a lookup of each
 * index and `Buffer.concat`. There is no check that the indices are
 * contiguous: whatever indices were written are concatenated in ascending
 * order, and an empty table gives an empty file.
 *
 * A chunk table is keyed by the number `Number(chunkIndex)` produced; the
 * key NaN (from a non-numeric index) is kept apart and placed last.
 */
module Assembly {
  import opened Common
  import opened Js
  import opened Http

  type Chunks = map<JsNumber, Bytes>

  /** One upload-chunk call as it lands in a session: `chunks[index] = bytes`. */
  datatype ChunkWrite = ChunkWrite(index: JsNumber, bytes: Bytes)

  predicate StrictlyAscending(s: seq<int>) {
    forall i, j :: 0 <= i < j < |s| ==> s[i] < s[j]
  }

  /** The keys of a chunk table that are integers. */
  function IntKeys(chunks: Chunks): (r: set<JsNumber>)
    ensures forall k :: k in r <==> k in chunks && k.Int?
  {
    set k | k in chunks && k.Int?
  }

  predicate AllInt(s: set<JsNumber>) {
    forall k :: k in s ==> k.Int?
  }

  lemma {:induction false} MinExists(s: set<JsNumber>)
    requires s != {} && AllInt(s)
    ensures exists m :: m in s && forall y :: y in s ==> m.i <= y.i
  {
    var x :| x in s;
    var t := s - {x};
    if t == {} {
      forall y | y in s ensures y == x {
        assert y in t || y == x;
      }
    } else {
      MinExists(t);
      var m' :| m' in t && forall y :: y in t ==> m'.i <= y.i;
      var m := if x.i < m'.i then x else m';
      assert forall y :: y in s ==> y == x || y in t;
      assert m in s && forall y :: y in s ==> m.i <= y.i;
    }
  }

  /** The smallest of a non-empty set of integer keys. */
  function Min(s: set<JsNumber>): (m: JsNumber)
    requires s != {} && AllInt(s)
    ensures m in s && forall y :: y in s ==> m.i <= y.i
  {
    MinExists(s);
    var m :| m in s && forall y :: y in s ==> m.i <= y.i;
    m
  }

  /** The integer keys in ascending numeric order: what sorting `Object.keys(chunks).map(Number)` with `(a, b) => a - b` yields. */
  function Ascending(s: set<JsNumber>): (r: seq<int>)
    requires AllInt(s)
    ensures StrictlyAscending(r)
    ensures forall x :: x in r <==> Int(x) in s
    decreases s
  {
    if s == {} then []
    else
      var m := Min(s);
      var rest := Ascending(s - {m});
      assert forall x :: x in rest ==> m.i < x;
      [m.i] + rest
  }

  /** `order.map(idx => chunks[idx])` concatenated. */
  function ConcatAt(chunks: Chunks, order: seq<int>): Bytes
    requires forall x :: x in order ==> Int(x) in chunks
  {
    if order == [] then [] else chunks[Int(order[0])] + ConcatAt(chunks, order[1..])
  }

  /** The payload stored under the key NaN, if any. */
  function NaNPart(chunks: Chunks): Bytes {
    if NaN in chunks then chunks[NaN] else []
  }

  /** The assembled file. */
  function Assemble(chunks: Chunks): Bytes {
    ConcatAt(chunks, Ascending(IntKeys(chunks))) + NaNPart(chunks)
  }

  /** Two strictly ascending sequences with the same elements are the same sequence. */
  lemma {:induction false} AscendingUnique(a: seq<int>, b: seq<int>)
    requires StrictlyAscending(a) && StrictlyAscending(b)
    requires forall x :: x in a <==> x in b
    ensures a == b
  {
    if a != [] {
      assert a[0] in a;
    }
    if b != [] {
      assert b[0] in b;
    }
    if a != [] && b != [] {
      var i :| 0 <= i < |b| && b[i] == a[0];
      var j :| 0 <= j < |a| && a[j] == b[0];
      assert b[0] <= b[i] && a[0] <= a[j];
      forall x ensures x in a[1..] <==> x in b[1..] {
        if x in a[1..] {
          assert x in b && x != b[0];
        }
        if x in b[1..] {
          assert x in a && x != a[0];
        }
      }
      AscendingUnique(a[1..], b[1..]);
    }
  }

  /**
   * The assembled file is the chunks taken in ascending index order, for ANY
   * strictly ascending listing of the integer indices: the order in which
   * the chunks were written plays no part.
   */
  lemma AssembleInIndexOrder(chunks: Chunks, order: seq<int>)
    requires StrictlyAscending(order)
    requires forall x :: x in order <==> Int(x) in chunks
    ensures Assemble(chunks) == ConcatAt(chunks, order) + NaNPart(chunks)
  {
    AscendingUnique(order, Ascending(IntKeys(chunks)));
  }

  /** The chunk table after a series of upload-chunk calls, applied in order. */
  function Written(chunks: Chunks, writes: seq<ChunkWrite>): Chunks {
    if writes == [] then chunks
    else
      var last := writes[|writes| - 1];
      Written(chunks, writes[..|writes| - 1])[last.index := last.bytes]
  }

  /** The payload of the last write to `index`, if any write touched it. */
  function LastWrite(writes: seq<ChunkWrite>, index: JsNumber): Option<Bytes> {
    if writes == [] then None
    else if writes[|writes| - 1].index == index then Some(writes[|writes| - 1].bytes)
    else LastWrite(writes[..|writes| - 1], index)
  }

  /** The integer indices that some write in `writes` used. */
  function WrittenIntIndices(writes: seq<ChunkWrite>): set<JsNumber> {
    set i | 0 <= i < |writes| && writes[i].index.Int? :: writes[i].index
  }

  /**
   * The indices finalize reads back are exactly the integer indices the
   * table held before plus those written since: no write is lost and none
   * appears from nowhere.
   */
  lemma {:induction false} IntKeysWritten(chunks: Chunks, writes: seq<ChunkWrite>)
    ensures IntKeys(Written(chunks, writes)) == IntKeys(chunks) + WrittenIntIndices(writes)
  {
    if writes != [] {
      var init := writes[..|writes| - 1];
      var last := writes[|writes| - 1];
      IntKeysWritten(chunks, init);
      assert WrittenIntIndices(writes) ==
        WrittenIntIndices(init) + (if last.index.Int? then {last.index} else {}) by {
        forall k | k in WrittenIntIndices(writes)
          ensures k in WrittenIntIndices(init) || k == last.index
        {
          var i :| 0 <= i < |writes| && writes[i].index.Int? && writes[i].index == k;
          if i < |writes| - 1 { assert init[i] == writes[i]; }
        }
        forall k | k in WrittenIntIndices(init)
          ensures k in WrittenIntIndices(writes)
        {
          var i :| 0 <= i < |init| && init[i].index.Int? && init[i].index == k;
          assert writes[i] == init[i];
        }
      }
    }
  }

  /** Last write wins: each index holds the payload of the last write to it, or what it held before if no write touched it. */
  lemma {:induction false} WrittenAt(chunks: Chunks, writes: seq<ChunkWrite>, index: JsNumber)
    ensures LastWrite(writes, index).Some? ==>
      index in Written(chunks, writes) && Written(chunks, writes)[index] == LastWrite(writes, index).value
    ensures LastWrite(writes, index).None? ==>
      (index in Written(chunks, writes) <==> index in chunks)
      && (index in chunks ==> Written(chunks, writes)[index] == chunks[index])
  {
    if writes != [] {
      WrittenAt(chunks, writes[..|writes| - 1], index);
    }
  }

  predicate DistinctIndices(writes: seq<ChunkWrite>) {
    forall i, j :: 0 <= i < j < |writes| ==> writes[i].index != writes[j].index
  }

  lemma {:induction false} LastWriteOfDistinct(writes: seq<ChunkWrite>, index: JsNumber, bytes: Bytes)
    requires DistinctIndices(writes)
    ensures LastWrite(writes, index) == Some(bytes) <==> ChunkWrite(index, bytes) in writes
    ensures LastWrite(writes, index) == None <==> forall w :: w in writes ==> w.index != index
  {
    if writes != [] {
      var init := writes[..|writes| - 1];
      LastWriteOfDistinct(init, index, bytes);
      if writes[|writes| - 1].index == index {
        forall w | w in init ensures w.index != index {
          var i :| 0 <= i < |init| && init[i] == w;
        }
      }
    }
  }

  /**
   * Chunks written to distinct indices give the same table, and so the same
   * file, whatever order the calls arrived in.
   */
  lemma ArrivalOrderIrrelevant(chunks: Chunks, writes: seq<ChunkWrite>, arrival: seq<ChunkWrite>)
    requires DistinctIndices(writes) && DistinctIndices(arrival)
    requires multiset(writes) == multiset(arrival)
    ensures Written(chunks, writes) == Written(chunks, arrival)
    ensures Assemble(Written(chunks, writes)) == Assemble(Written(chunks, arrival))
  {
    var a, b := Written(chunks, writes), Written(chunks, arrival);
    forall w ensures w in writes <==> w in arrival {
      assert w in writes <==> w in multiset(writes);
      assert w in arrival <==> w in multiset(arrival);
    }
    forall index ensures (index in a <==> index in b) && (index in a ==> a[index] == b[index]) {
      WrittenAt(chunks, writes, index);
      WrittenAt(chunks, arrival, index);
      LastWriteOfDistinct(writes, index, []);
      LastWriteOfDistinct(arrival, index, []);
      match LastWrite(writes, index)
      case Some(bytes) =>
        LastWriteOfDistinct(writes, index, bytes);
        LastWriteOfDistinct(arrival, index, bytes);
      case None =>
    }
  }

  /** The sum of the payload lengths in a chunk table, summed in no particular order. */
  ghost function TotalLength(chunks: Chunks): nat
    decreases chunks.Keys
  {
    if chunks == map[] then 0
    else
      var k :| k in chunks;
      |chunks[k]| + TotalLength(chunks - {k})
  }

  lemma {:induction false} TotalLengthRemove(chunks: Chunks, k: JsNumber)
    requires k in chunks
    ensures TotalLength(chunks) == |chunks[k]| + TotalLength(chunks - {k})
    decreases chunks.Keys
  {
    var j :| j in chunks && TotalLength(chunks) == |chunks[j]| + TotalLength(chunks - {j});
    if j != k {
      var rest := chunks - {j} - {k};
      assert chunks - {k} - {j} == rest;
      TotalLengthRemove(chunks - {j}, k);
      TotalLengthRemove(chunks - {k}, j);
    }
  }

  lemma {:induction false} ConcatAtIgnores(chunks: Chunks, order: seq<int>, k: JsNumber)
    requires forall x :: x in order ==> Int(x) in chunks
    requires forall x :: x in order ==> Int(x) != k
    ensures forall x :: x in order ==> Int(x) in chunks - {k}
    ensures ConcatAt(chunks, order) == ConcatAt(chunks - {k}, order)
  {
    if order != [] {
      ConcatAtIgnores(chunks, order[1..], k);
    }
  }

  lemma {:induction false} ConcatLength(chunks: Chunks, order: seq<int>)
    requires StrictlyAscending(order)
    requires forall x :: x in order <==> Int(x) in chunks
    ensures |ConcatAt(chunks, order)| + |NaNPart(chunks)| == TotalLength(chunks)
    decreases |order|
  {
    if order == [] {
      forall k | k in chunks ensures k == NaN {
        match k
        case NaN =>
        case Int(_) => assert false;
      }
      if NaN in chunks {
        assert chunks - {NaN} == map[];
        TotalLengthRemove(chunks, NaN);
      } else {
        assert chunks == map[];
      }
    } else {
      var x := order[0];
      var rest := chunks - {Int(x)};
      assert forall y :: y in order[1..] ==> y in order && y > x;
      ConcatAtIgnores(chunks, order[1..], Int(x));
      forall y ensures y in order[1..] <==> Int(y) in rest {
        if Int(y) in rest {
          assert Int(y) in chunks && y != x;
          assert y in order;
        }
      }
      ConcatLength(rest, order[1..]);
      TotalLengthRemove(chunks, Int(x));
      assert NaNPart(rest) == NaNPart(chunks);
    }
  }

  /** The assembled file is exactly as long as all the stored chunks together. */
  lemma AssembleLength(chunks: Chunks)
    ensures |Assemble(chunks)| == TotalLength(chunks)
  {
    ConcatLength(chunks, Ascending(IntKeys(chunks)));
  }

  /** Writing chunk 1 and then chunk 0 assembles chunk 0's bytes followed by chunk 1's. */
  lemma OutOfOrderPair(first: Bytes, second: Bytes)
    ensures Assemble(Written(map[], [ChunkWrite(Int(1), second), ChunkWrite(Int(0), first)])) == first + second
  {
    var writes := [ChunkWrite(Int(1), second), ChunkWrite(Int(0), first)];
    assert writes[..1] == [ChunkWrite(Int(1), second)];
    assert writes[..1][..0] == [];
    assert Written(map[], writes[..1]) == map[Int(1) := second];
    var chunks := Written(map[], writes);
    assert chunks == map[Int(1) := second, Int(0) := first];
    AssembleInIndexOrder(chunks, [0, 1]);
    assert ConcatAt(chunks, [0, 1]) == first + ConcatAt(chunks, [1]);
  }

  /** There is no contiguity check: indices missing between two chunks are skipped. */
  lemma GapsSkipped(low: Bytes, high: Bytes, n: int)
    requires n > 0
    ensures Assemble(map[Int(0) := low, Int(n) := high]) == low + high
  {
    var chunks := map[Int(0) := low, Int(n) := high];
    AssembleInIndexOrder(chunks, [0, n]);
    assert [0, n][1..] == [n] && [n][1..] == [];
    assert ConcatAt(chunks, [n]) == high;
    assert ConcatAt(chunks, [0, n]) == low + high;
    assert NaN !in chunks;
  }

  /** A session that received no chunks assembles an empty file. */
  lemma NoChunksEmpty()
    ensures Assemble(map[]) == []
  {
    AssembleLength(map[]);
  }
}

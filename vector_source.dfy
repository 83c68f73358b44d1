/**
 * The insert batch buffer of VectorSource.cpp: a fixed batch of vectors
 * (float or binary data, optional caller ids) and a cursor that counts how
 * many have been handed to segment writers so far. Each Add hands over at
 * most what is left. The segment writer and the id generator are abstract:
 * their results enter as parameters, and the write the buffer asks for is
 * returned as a value (which data, at which offset, how many bytes, which
 * ids) instead of being performed.
 */
module VectorSource {
  import opened Wrappers

  newtype uint16 = x: int | 0 <= x < 0x1_0000

  /** FLOAT_TYPE_SIZE, sizeof(float). */
  const FLOAT_TYPE_SIZE: nat := 4

  datatype DataKind = FloatVectors | BinaryVectors

  /**
   * One AddVectors call on the segment writer: the data it reads starts
   * `offset` elements into the float or binary data and is `byteSize` bytes
   * long, with one id per vector.
   */
  datatype WriteRequest = WriteRequest(kind: DataKind, offset: nat, byteSize: nat, ids: seq<int>)

  /**
   * num_vectors_added: the requested count when it fits in what is left,
   * otherwise exactly what is left.
   */
  function AddCount(cursor: nat, vectorCount: nat, toAdd: nat): (added: nat)
    requires cursor <= vectorCount
    ensures added <= toAdd && added <= vectorCount - cursor
    ensures added == toAdd || added == vectorCount - cursor
  {
    if cursor + toAdd <= vectorCount then toAdd else vectorCount - cursor
  }

  /** The cursor after a run of Add calls that all succeed, one requested count per call. */
  function CursorAfter(cursor: nat, vectorCount: nat, batches: seq<nat>): (c: nat)
    requires cursor <= vectorCount
    ensures cursor <= c <= vectorCount
    decreases |batches|
  {
    if batches == [] then cursor
    else CursorAfter(cursor + AddCount(cursor, vectorCount, batches[0]), vectorCount, batches[1..])
  }

  /** Successful Adds that each ask for at least one vector reach the end after at most as many calls as vectors remain. */
  lemma {:induction false} CursorReachesEnd(cursor: nat, vectorCount: nat, batches: seq<nat>)
    requires cursor <= vectorCount
    requires |batches| >= vectorCount - cursor
    requires forall i :: 0 <= i < |batches| ==> batches[i] >= 1
    ensures CursorAfter(cursor, vectorCount, batches) == vectorCount
    decreases |batches|
  {
    if batches != [] {
      var next := cursor + AddCount(cursor, vectorCount, batches[0]);
      if next == vectorCount {
        EndIsFixed(next, vectorCount, batches[1..]);
      } else {
        assert next >= cursor + 1;
        CursorReachesEnd(next, vectorCount, batches[1..]);
      }
    }
  }

  /** Once every vector is added, further Adds add nothing. */
  lemma {:induction false} EndIsFixed(cursor: nat, vectorCount: nat, batches: seq<nat>)
    requires cursor == vectorCount
    ensures CursorAfter(cursor, vectorCount, batches) == vectorCount
    decreases |batches|
  {
    if batches != [] {
      assert AddCount(cursor, vectorCount, batches[0]) == 0;
      EndIsFixed(cursor, vectorCount, batches[1..]);
    }
  }

  class VectorSource {
    const vectorCount: nat
    const floatData: seq<real>
    const binaryData: seq<bv8>
    const idArray: seq<int>
    var cursor: nat
    var vectorIds: seq<int>

    /**
     * The cursor never passes the batch; caller ids, when present, cover the
     * batch, and then the ids handed over so far are exactly their prefix.
     */
    predicate Valid()
      reads this
    {
      && cursor <= vectorCount
      && (idArray == [] || |idArray| >= vectorCount)
      && (idArray != [] ==> vectorIds == idArray[..cursor])
    }

    constructor (vectorCount: nat, floatData: seq<real>, binaryData: seq<bv8>, idArray: seq<int>)
      requires idArray == [] || |idArray| >= vectorCount
      ensures Valid()
      ensures this.vectorCount == vectorCount && this.floatData == floatData
      ensures this.binaryData == binaryData && this.idArray == idArray
      ensures cursor == 0 && vectorIds == []
    {
      this.vectorCount := vectorCount;
      this.floatData := floatData;
      this.binaryData := binaryData;
      this.idArray := idArray;
      cursor := 0;
      vectorIds := [];
    }

    function GetNumVectorsAdded(): (n: nat)
      reads this
      requires Valid()
      ensures n <= vectorCount
    {
      cursor
    }

    function AllAdded(): (b: bool)
      reads this
      requires Valid()
      ensures b <==> GetNumVectorsAdded() == vectorCount
      ensures !b ==> GetNumVectorsAdded() < vectorCount
    {
      cursor == vectorCount
    }

    function GetVectorIds(): (ids: seq<int>)
      reads this
      requires Valid()
      ensures idArray != [] ==> ids == idArray[..GetNumVectorsAdded()]
    {
      vectorIds
    }

    /** Bytes per vector: float data first, then binary data (eight dimensions per byte), else nothing. */
    function SingleVectorSize(dim: uint16): (size: nat)
      reads this
      ensures floatData != [] ==> size == dim as nat * FLOAT_TYPE_SIZE
      ensures floatData == [] && binaryData != [] ==> size * 8 <= dim as nat < size * 8 + 8
      ensures floatData == [] && binaryData == [] ==> size == 0
    {
      if floatData != [] then dim as nat * FLOAT_TYPE_SIZE
      else if binaryData != [] then dim as nat / 8
      else 0
    }

    /**
     * The write an Add starting at `start` asks for: float data at
     * start * dim floats, binary data at start * SingleVectorSize(dim)
     * bytes, each `added` vectors long; nothing when the batch holds neither.
     */
    function WriteFor(dim: uint16, start: nat, added: nat, ids: seq<int>): (w: Option<WriteRequest>)
      reads this
      ensures w.None? <==> floatData == [] && binaryData == []
      ensures w.Some? ==> w.value.ids == ids
      ensures w.Some? && floatData != [] ==>
        && w.value.kind == FloatVectors
        && w.value.offset == start * dim as nat
        && w.value.byteSize == added * (dim as nat * FLOAT_TYPE_SIZE)
      ensures w.Some? && floatData == [] ==>
        && w.value.kind == BinaryVectors
        && w.value.offset == start * SingleVectorSize(dim)
        && w.value.byteSize == added * SingleVectorSize(dim)
    {
      if floatData != [] then
        Some(WriteRequest(FloatVectors, start * dim as nat, added * dim as nat * FLOAT_TYPE_SIZE, ids))
      else if binaryData != [] then
        Some(WriteRequest(BinaryVectors, start * SingleVectorSize(dim), added * SingleVectorSize(dim), ids))
      else None
    }

    /**
     * Add: take at most what is left; ids come from the generator when the
     * batch has none (a generator failure returns before anything else), or
     * are copied from the caller's ids at the cursor. The writer's status,
     * or OK when there was nothing to write, decides whether the cursor
     * advances and the ids are recorded.
     */
    method Add(dim: uint16, toAdd: nat, generated: Result<seq<int>, string>, writeStatus: Outcome<string>)
      returns (status: Outcome<string>, added: nat, write: Option<WriteRequest>)
      requires Valid()
      modifies this
      ensures Valid()
      ensures added == AddCount(old(cursor), vectorCount, toAdd)
      ensures idArray == [] && generated.Failure? ==>
        status == Fail(generated.error) && write == None && cursor == old(cursor) && vectorIds == old(vectorIds)
      ensures idArray != [] || generated.Success? ==>
        var ids := if idArray == [] then generated.value else idArray[old(cursor)..old(cursor) + added];
        && write == WriteFor(dim, old(cursor), added, ids)
        && status == (if write.Some? then writeStatus else Pass)
        && (status.Pass? ==> cursor == old(cursor) + added && vectorIds == old(vectorIds) + ids)
        && (status.Fail? ==> cursor == old(cursor) && vectorIds == old(vectorIds))
    {
      added := AddCount(cursor, vectorCount, toAdd);
      var ids: seq<int>;
      if idArray == [] {
        if generated.Failure? {
          return Fail(generated.error), added, None;
        }
        ids := generated.value;
      } else {
        ids := [];
        var pos := cursor;
        while pos < cursor + added
          invariant cursor <= pos <= cursor + added
          invariant ids == idArray[cursor..pos]
        {
          ids := ids + [idArray[pos]];
          pos := pos + 1;
        }
      }
      write := WriteFor(dim, cursor, added, ids);
      status := if write.Some? then writeStatus else Pass;
      if status.Pass? {
        if idArray != [] {
          assert idArray[..cursor + added] == idArray[..cursor] + idArray[cursor..cursor + added];
        }
        cursor := cursor + added;
        vectorIds := vectorIds + ids;
      }
    }
  }
}

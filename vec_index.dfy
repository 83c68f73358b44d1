/**
 * The metadata a knowhere vector index keeps (VecIndex.h) and the two
 * overrides of IndexIDMAP.h and IndexNSG.h: the type tag and mode set by the
 * constructors, the optional offset-to-uid table with its in-place remapping
 * of search results, and the size accounting. The C++ subclasses become one
 * class whose constant `kind` says which constructor made it; the faiss
 * index behind IDMAP (its Count() and Dim()) is abstract and enters as
 * parameters.
 */
module VecIndex {
  import opened Wrappers

  datatype IndexMode = ModeCpu | ModeGpu

  /** Which class built the index: another VecIndex subclass, IDMAP, or NSG with its gpu number. */
  datatype Kind = OtherKind | IdMapKind | NsgKind(gpu: int)

  /** IndexEnum::INDEX_FAISS_IDMAP and IndexEnum::INDEX_NSG: distinct, non-empty tags. */
  const INDEX_FAISS_IDMAP: string := "IDMAP"
  const INDEX_NSG: string := "NSG"

  /** sizeof(IDType), IDType being int64_t. */
  const ID_TYPE_SIZE: nat := 8
  /** sizeof(FloatType), FloatType being float. */
  const FLOAT_TYPE_SIZE: nat := 4

  /** index_size_ before anyone sets it. */
  const UNSET_INDEX_SIZE: int := -1

  const INDEX_SIZE_NOT_SET: string := "Index size not set"
  const NSG_TRAIN_UNSUPPORTED: string := "NSG not support build item dynamically, please invoke BuildAll interface."
  const NSG_ADD_UNSUPPORTED: string := "Incremental index NSG is not supported"

  class VecIndex {
    const kind: Kind
    var indexType: string
    var indexMode: IndexMode
    var uids: Option<seq<int>>
    var indexSize: int

    /** A subclass that sets no tag of its own: the member defaults of VecIndex. */
    constructor ()
      ensures kind == OtherKind && indexType == "" && indexMode == ModeCpu
      ensures uids == None && indexSize == UNSET_INDEX_SIZE
    {
      kind := OtherKind;
      indexType := "";
      indexMode := ModeCpu;
      uids := None;
      indexSize := UNSET_INDEX_SIZE;
    }

    /** Either IDMAP constructor: the IDMAP tag, the mode left at its CPU default. */
    constructor IdMap()
      ensures kind == IdMapKind && indexType == INDEX_FAISS_IDMAP && indexMode == ModeCpu
      ensures uids == None && indexSize == UNSET_INDEX_SIZE
    {
      kind := IdMapKind;
      indexType := INDEX_FAISS_IDMAP;
      indexMode := ModeCpu;
      uids := None;
      indexSize := UNSET_INDEX_SIZE;
    }

    /** NSG(gpu_num = -1): GPU mode for any gpu number >= 0, otherwise the CPU default; always the NSG tag. */
    constructor Nsg(gpuNum: int := -1)
      ensures kind == NsgKind(gpuNum) && indexType == INDEX_NSG
      ensures indexMode == if gpuNum >= 0 then ModeGpu else ModeCpu
      ensures uids == None && indexSize == UNSET_INDEX_SIZE
    {
      kind := NsgKind(gpuNum);
      indexMode := ModeCpu;
      if gpuNum >= 0 {
        indexMode := ModeGpu;
      }
      indexType := INDEX_NSG;
      uids := None;
      indexSize := UNSET_INDEX_SIZE;
    }

    method GetUids() returns (u: Option<seq<int>>)
      ensures u == uids
    {
      u := uids;
    }

    method SetUids(u: Option<seq<int>>)
      modifies this
      ensures uids == u
      ensures indexType == old(indexType) && indexMode == old(indexMode) && indexSize == old(indexSize)
    {
      uids := u;
    }

    method SetIndexSize(size: int)
      modifies this
      ensures indexSize == size
      ensures indexType == old(indexType) && indexMode == old(indexMode) && uids == old(uids)
    {
      indexSize := size;
    }

    /** UidsSize: no table costs nothing, a table costs eight bytes per uid. */
    function UidsSize(): (r: nat)
      reads this
      ensures uids.None? ==> r == 0
      ensures uids.Some? ==> r == |uids.value| * ID_TYPE_SIZE
    {
      match uids
      case None => 0
      case Some(u) => |u| * ID_TYPE_SIZE
    }

    /**
     * IndexSize: for IDMAP the raw vectors, count * dim * sizeof(float), which
     * never fails; for every other index the recorded size, which throws
     * while it is still unset (-1).
     */
    function IndexSize(count: int, dim: int): (r: Result<int, string>)
      reads this
      ensures kind == IdMapKind ==> r == Success(count * dim * FLOAT_TYPE_SIZE)
      ensures kind != IdMapKind ==> (r.Failure? <==> indexSize == UNSET_INDEX_SIZE)
      ensures kind != IdMapKind && r.Failure? ==> r.error == INDEX_SIZE_NOT_SET
      ensures kind != IdMapKind && r.Success? ==> r.value == indexSize
    {
      if kind == IdMapKind then Success(count * dim * FLOAT_TYPE_SIZE)
      else if indexSize == UNSET_INDEX_SIZE then Failure(INDEX_SIZE_NOT_SET)
      else Success(indexSize)
    }

    /** Size: the uid table plus the index, failing exactly when IndexSize fails. */
    function Size(count: int, dim: int): (r: Result<int, string>)
      reads this
      ensures r.Failure? <==> IndexSize(count, dim).Failure?
      ensures r.Success? ==> r.value == UidsSize() + IndexSize(count, dim).value
    {
      match IndexSize(count, dim)
      case Failure(e) => Failure(e)
      case Success(s) => Success(UidsSize() + s)
    }

    /**
     * Train. NSG always throws; for the other kinds the body is not part of
     * this model and `trained` is what it did.
     */
    method Train(trained: Outcome<string>) returns (r: Outcome<string>)
      ensures kind.NsgKind? ==> r == Fail(NSG_TRAIN_UNSUPPORTED)
      ensures !kind.NsgKind? ==> r == trained
    {
      if kind.NsgKind? {
        return Fail(NSG_TRAIN_UNSUPPORTED);
      }
      r := trained;
    }

    /** AddWithoutIds. NSG always throws; otherwise `added` is what the unshown body did. */
    method AddWithoutIds(added: Outcome<string>) returns (r: Outcome<string>)
      ensures kind.NsgKind? ==> r == Fail(NSG_ADD_UNSUPPORTED)
      ensures !kind.NsgKind? ==> r == added
    {
      if kind.NsgKind? {
        return Fail(NSG_ADD_UNSUPPORTED);
      }
      r := added;
    }

    /**
     * BuildAll as a caller of the index reaches it. IndexNSG.h declares its
     * own override, whose body is not part of this model: `nsgBuilt` is what
     * it did. Every other kind runs the base VecIndex::BuildAll, Train and
     * then AddWithoutIds.
     */
    method RunBuildAll(trained: Outcome<string>, added: Outcome<string>, nsgBuilt: Outcome<string>)
      returns (r: Outcome<string>)
      ensures kind.NsgKind? ==> r == nsgBuilt
      ensures !kind.NsgKind? ==> r == BuildAll(trained, added).outcome
      ensures !kind.NsgKind? ==> (r.Pass? <==> trained.Pass? && added.Pass?)
    {
      if kind.NsgKind? {
        return nsgBuilt;
      }
      var train := Train(trained);
      if train.Fail? {
        return train;
      }
      r := AddWithoutIds(added);
    }

    /**
     * MapOffsetToUid(id, n): without a table the array is left as it is;
     * with one, every non-negative id[i] (i < n) becomes uids[id[i]] and
     * negative ids stay. `uids->at` throws on the first offset outside the
     * table: the entries before it are already rewritten and the rest are
     * untouched.
     */
    method MapOffsetToUid(id: array<int>, n: nat) returns (r: Outcome<nat>)
      requires n <= id.Length
      modifies id
      ensures uids.None? ==> r == Pass && id[..] == old(id[..])
      ensures uids.Some? ==> (r.Pass? <==> forall i :: 0 <= i < n ==> old(id[i]) < |uids.value|)
      ensures uids.Some? && r.Pass? ==> |id[..]| == |old(id[..])| && forall i :: 0 <= i < id.Length ==>
        id[i] == if i < n && old(id[i]) >= 0 then uids.value[old(id[i])] else old(id[i])
      ensures r.Fail? ==> uids.Some? && r.error < n && old(id[r.error]) >= |uids.value|
      ensures r.Fail? ==> forall i :: 0 <= i < r.error ==> old(id[i]) < |uids.value|
      ensures r.Fail? ==> forall i :: 0 <= i < id.Length ==>
        id[i] == if i < r.error && old(id[i]) >= 0 then uids.value[old(id[i])] else old(id[i])
    {
      if uids.None? {
        return Pass;
      }
      var table := uids.value;
      var i := 0;
      while i < n
        invariant 0 <= i <= n
        invariant forall k :: 0 <= k < i ==> old(id[k]) < |table|
        invariant forall k :: 0 <= k < id.Length ==>
          id[k] == if k < i && old(id[k]) >= 0 then table[old(id[k])] else old(id[k])
      {
        if id[i] >= 0 {
          if id[i] >= |table| {
            return Fail(i);
          }
          id[i] := table[id[i]];
        }
        i := i + 1;
      }
      r := Pass;
    }
  }

  /** What a BuildAll run of Train then AddWithoutIds did: whether Add was reached, and the outcome. */
  datatype BuildTrace = BuildTrace(addCalled: bool, outcome: Outcome<string>)

  /**
   * VecIndex::BuildAll: Train, then AddWithoutIds; an exception from Train
   * stops it before AddWithoutIds, and either exception is BuildAll's.
   */
  function BuildAll(train: Outcome<string>, add: Outcome<string>): (t: BuildTrace)
    ensures t.addCalled <==> train.Pass?
    ensures t.outcome.Pass? <==> train.Pass? && add.Pass?
    ensures train.Fail? ==> t.outcome == train
    ensures train.Pass? ==> t.outcome == add
  {
    if train.Fail? then BuildTrace(false, train) else BuildTrace(true, add)
  }

  /** Setting the index size makes IndexSize and Size succeed for callers of any kind. */
  method SetThenSize(v: VecIndex, size: int, count: int, dim: int) returns (r: Result<int, string>)
    requires size != UNSET_INDEX_SIZE
    modifies v
    ensures v.kind != IdMapKind ==> r == Success(v.UidsSize() + size)
    ensures v.kind == IdMapKind ==> r == Success(v.UidsSize() + count * dim * FLOAT_TYPE_SIZE)
  {
    v.SetIndexSize(size);
    r := v.Size(count, dim);
  }

  /** SetUids then GetUids returns the same table, and UidsSize follows it. */
  method SetThenGetUids(v: VecIndex, u: seq<int>) returns (got: Option<seq<int>>, size: nat)
    modifies v
    ensures got == Some(u)
    ensures size == |u| * ID_TYPE_SIZE
  {
    v.SetUids(Some(u));
    got := v.GetUids();
    size := v.UidsSize();
  }
}

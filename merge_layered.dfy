/**
 * The layered merge planner (MergeLayeredStrategy::RegroupFiles): from the
 * segment files a FilesHolder holds, choose groups of files to merge and
 * release the files that need no merge. The plan is built in phases:
 * order by size (largest first), pick one priority pair, distribute the
 * rest into eight size layers (below 4MB, 16MB, ..., 64GB) or the huge
 * bucket, carry a lone file that is old enough into the next non-empty
 * layer, then emit every layer with two or more files as a group and
 * release the layers with one. Each phase is a function here; the method
 * RegroupFiles runs the loops of the source and is proved to produce what
 * the functions describe.
 */
module MergeLayered {
  import opened Wrappers

  /** FORCE_MERGE_THREASHOLD: a lone file older than this many seconds is force-merged. */
  const FORCE_MERGE_THRESHOLD: int := 300

  /** The upper bounds of the layers, in bytes: 1 << 22, 1 << 24, ..., 1 << 36. */
  const LAYER_BOUNDS: seq<nat> := [
    0x40_0000, 0x100_0000, 0x400_0000, 0x1000_0000,
    0x4000_0000, 0x1_0000_0000, 0x4_0000_0000, 0x10_0000_0000]

  const LAYER_COUNT: nat := 8

  /** Files of at least this size (64GB) belong to no layer. */
  const HUGE_SIZE: nat := 0x10_0000_0000

  /** 2^64: the (size_t) reading of a negative int64 adds this. */
  const UINT64_RANGE: int := 0x1_0000_0000_0000_0000

  /** The fields of a segment file the planner reads; `id` tells files apart. */
  datatype Segment = Segment(id: int, fileSize: nat, indexFileSize: int, createdOn: int)

  // ---------------------------------------------------------------------
  // Sequences of groups

  function Flatten(groups: seq<seq<Segment>>): (r: seq<Segment>)
    ensures groups == [] ==> r == []
    decreases |groups|
  {
    if groups == [] then [] else groups[0] + Flatten(groups[1..])
  }

  lemma {:induction false} FlattenAppend(a: seq<seq<Segment>>, b: seq<seq<Segment>>)
    ensures Flatten(a + b) == Flatten(a) + Flatten(b)
    decreases |a|
  {
    if a != [] {
      assert (a + b)[0] == a[0];
      assert (a + b)[1..] == a[1..] + b;
      FlattenAppend(a[1..], b);
      calc {
        Flatten(a + b);
        a[0] + Flatten(a[1..] + b);
        a[0] + (Flatten(a[1..]) + Flatten(b));
      }
    } else {
      assert a + b == b;
    }
  }

  lemma FlattenOne(g: seq<Segment>)
    ensures Flatten([g]) == g
  {
    assert [g][1..] == [];
  }

  /** Replacing one layer replaces its files in the multiset of all files. */
  lemma {:induction false} FlattenUpdate(layers: seq<seq<Segment>>, k: nat, x: seq<Segment>)
    requires k < |layers|
    ensures multiset(Flatten(layers[k := x])) + multiset(layers[k]) == multiset(Flatten(layers)) + multiset(x)
    decreases |layers|
  {
    var updated := layers[k := x];
    if k == 0 {
      assert updated[1..] == layers[1..];
      assert Flatten(updated) == x + Flatten(layers[1..]);
    } else {
      var rest := layers[1..];
      assert updated[1..] == rest[k - 1 := x];
      assert rest[k - 1] == layers[k];
      FlattenUpdate(rest, k - 1, x);
      calc {
        multiset(Flatten(updated)) + multiset(layers[k]);
        multiset(layers[0] + Flatten(rest[k - 1 := x])) + multiset(layers[k]);
        multiset(layers[0]) + (multiset(Flatten(rest[k - 1 := x])) + multiset(rest[k - 1]));
        multiset(layers[0]) + (multiset(Flatten(rest)) + multiset(x));
        multiset(layers[0] + Flatten(rest)) + multiset(x);
        multiset(Flatten(layers)) + multiset(x);
      }
    }
  }

  lemma MultisetCancel(a: multiset<Segment>, b: multiset<Segment>, c: multiset<Segment>)
    requires a + c == b + c
    ensures a == b
  {
    forall e | true
      ensures a[e] == b[e]
    {
      assert (a + c)[e] == (b + c)[e];
    }
  }

  /** The layer prefix [..k + 1] adds layer k to the flattened prefix [..k]. */
  lemma FlattenPrefix(layers: seq<seq<Segment>>, k: nat)
    requires k < |layers|
    ensures Flatten(layers[..k + 1]) == Flatten(layers[..k]) + layers[k]
  {
    assert layers[..k + 1] == layers[..k] + [layers[k]];
    FlattenAppend(layers[..k], [layers[k]]);
    FlattenOne(layers[k]);
  }

  // ---------------------------------------------------------------------
  // Ordering by size

  predicate SortedBySizeDesc(s: seq<Segment>)
  {
    forall i, j :: 0 <= i < j < |s| ==> s[i].fileSize >= s[j].fileSize
  }

  function InsertBySize(f: Segment, s: seq<Segment>): (r: seq<Segment>)
    requires SortedBySizeDesc(s)
    ensures SortedBySizeDesc(r)
    ensures multiset(r) == multiset(s) + multiset{f}
    ensures |r| == |s| + 1
    ensures r[0] == f || (s != [] && r[0] == s[0])
    decreases |s|
  {
    if s == [] || f.fileSize >= s[0].fileSize then [f] + s
    else
      var tail := InsertBySize(f, s[1..]);
      assert s == [s[0]] + s[1..];
      assert tail[0].fileSize <= s[0].fileSize;
      [s[0]] + tail
  }

  /**
   * The std::sort of RegroupFiles: largest file first. std::sort leaves the
   * order of equal sizes unspecified; this one keeps them in holding order.
   */
  function SortBySizeDesc(s: seq<Segment>): (r: seq<Segment>)
    ensures SortedBySizeDesc(r)
    ensures multiset(r) == multiset(s)
    ensures |r| == |s|
    decreases |s|
  {
    if s == [] then []
    else
      assert s == [s[0]] + s[1..];
      InsertBySize(s[0], SortBySizeDesc(s[1..]))
  }

  // ---------------------------------------------------------------------
  // The priority pair

  /** The (size_t) value of an int64 in a mixed comparison: negatives wrap to 2^64 + x. */
  function AsUnsigned(x: int): (u: int)
    ensures x >= 0 ==> u == x
    ensures x < 0 ==> u == x + UINT64_RANGE
  {
    if x < 0 then x + UINT64_RANGE else x
  }

  /** Would merging `f` with the largest file give more than the largest file's index_file_size? */
  predicate Exceeds(f: Segment, biggest: Segment)
  {
    f.fileSize + biggest.fileSize > AsUnsigned(biggest.indexFileSize)
  }

  /**
   * The priority scan from position j down to position 2 (position 1 is
   * never tried): the first file, from the small end, that exceeds the
   * largest file's index size when merged with it.
   */
  function PriorityScan(s: seq<Segment>, j: nat): (r: Option<nat>)
    requires j < |s|
    ensures r.Some? ==> 2 <= r.value <= j && Exceeds(s[r.value], s[0])
    ensures r.Some? ==> forall i :: r.value < i <= j ==> !Exceeds(s[i], s[0])
    ensures r.None? ==> forall i :: 2 <= i <= j ==> !Exceeds(s[i], s[0])
    decreases j
  {
    if j <= 1 then None
    else if Exceeds(s[j], s[0]) then Some(j)
    else PriorityScan(s, j - 1)
  }

  function PriorityIndex(s: seq<Segment>): (r: Option<nat>)
    requires |s| >= 2
  {
    PriorityScan(s, |s| - 1)
  }

  /** With exactly two files the scan has nothing to try. */
  lemma TwoFilesHaveNoPriorityPair(s: seq<Segment>)
    requires |s| == 2
    ensures PriorityIndex(s) == None
  {
  }

  /** The files left for the layers: both members of the pair removed, everything else in order. */
  function WithoutPair(s: seq<Segment>, j: nat): (r: seq<Segment>)
    requires 1 <= j < |s|
    ensures |r| == |s| - 2
    ensures multiset(r) + multiset{s[0], s[j]} == multiset(s)
  {
    assert s == [s[0]] + s[1..j] + [s[j]] + s[j + 1..];
    s[1..j] + s[j + 1..]
  }

  // ---------------------------------------------------------------------
  // Layers and the huge bucket

  /** The first layer from k on whose bound is above the size; None when there is none. */
  function LayerFrom(size: nat, k: nat): (r: Option<nat>)
    requires k <= LAYER_COUNT
    ensures r.Some? ==> k <= r.value < LAYER_COUNT && size < LAYER_BOUNDS[r.value]
    ensures r.Some? ==> forall i :: k <= i < r.value ==> size >= LAYER_BOUNDS[i]
    ensures r.None? ==> forall i :: k <= i < LAYER_COUNT ==> size >= LAYER_BOUNDS[i]
    decreases LAYER_COUNT - k
  {
    if k == LAYER_COUNT then None
    else if size < LAYER_BOUNDS[k] then Some(k)
    else LayerFrom(size, k + 1)
  }

  function LayerOf(size: nat): Option<nat>
  {
    LayerFrom(size, 0)
  }

  /** A file belongs to no layer exactly when it is at least 64GB. */
  lemma HugeIffNoLayer(size: nat)
    ensures LayerOf(size).None? <==> size >= HUGE_SIZE
  {
    if size >= HUGE_SIZE {
      assert forall i :: 0 <= i < LAYER_COUNT ==> LAYER_BOUNDS[i] <= HUGE_SIZE;
    }
  }

  /** A layer holds files from its own bound's quarter: at least the previous bound, below its own. */
  lemma LayerRange(size: nat)
    requires LayerOf(size).Some?
    ensures var k := LayerOf(size).value;
      size < LAYER_BOUNDS[k] && (k == 0 || size >= LAYER_BOUNDS[k - 1])
  {
  }

  /** A file whose size is above its positive index_file_size: it needs no merge. */
  predicate Oversized(f: Segment)
  {
    f.indexFileSize > 0 && f.fileSize > f.indexFileSize
  }

  /** All files are eligible for a layer or the huge bucket and each one's size is below `bound`. */
  predicate AllBelow(s: seq<Segment>, bound: nat)
  {
    forall i :: 0 <= i < |s| ==> !Oversized(s[i]) && s[i].fileSize < bound
  }

  /** Every file in layer k is eligible and below layer k's bound. */
  predicate LayersBounded(layers: seq<seq<Segment>>)
  {
    && |layers| == LAYER_COUNT
    && forall k :: 0 <= k < LAYER_COUNT ==> AllBelow(layers[k], LAYER_BOUNDS[k])
  }

  predicate AllHuge(s: seq<Segment>)
  {
    forall i :: 0 <= i < |s| ==> !Oversized(s[i]) && s[i].fileSize >= HUGE_SIZE
  }

  datatype Buckets = Buckets(layers: seq<seq<Segment>>, huge: seq<Segment>, released: seq<Segment>)

  const EMPTY_LAYERS: seq<seq<Segment>> := [[], [], [], [], [], [], [], []]

  /** One step of the bucketing loop: release, add to a layer, or add to the huge bucket. */
  function Place(b: Buckets, f: Segment): (r: Buckets)
    requires |b.layers| == LAYER_COUNT
    ensures |r.layers| == LAYER_COUNT
  {
    if Oversized(f) then b.(released := b.released + [f])
    else match LayerOf(f.fileSize)
      case Some(k) => b.(layers := b.layers[k := b.layers[k] + [f]])
      case None => b.(huge := b.huge + [f])
  }

  /**
   * The bucketing loop, which walks the files from the small end: the last
   * file is placed first, s[0] last.
   */
  function Distribute(s: seq<Segment>): (b: Buckets)
    ensures |b.layers| == LAYER_COUNT
    decreases |s|
  {
    if s == [] then Buckets(EMPTY_LAYERS, [], [])
    else Place(Distribute(s[1..]), s[0])
  }

  /** Buckets as the bucketing loop leaves them: each file where its size and index size send it. */
  predicate WellBucketed(b: Buckets)
  {
    && LayersBounded(b.layers)
    && AllHuge(b.huge)
    && forall i :: 0 <= i < |b.released| ==> Oversized(b.released[i])
  }

  function BucketFiles(b: Buckets): multiset<Segment>
  {
    multiset(Flatten(b.layers)) + multiset(b.huge) + multiset(b.released)
  }

  /**
   * Bucketing loses no file and puts every file where it belongs: oversized
   * files released, the others in the first layer whose bound is above their
   * size, or in the huge bucket.
   */
  lemma {:induction false} DistributeKeeps(s: seq<Segment>)
    ensures WellBucketed(Distribute(s))
    ensures BucketFiles(Distribute(s)) == multiset(s)
    decreases |s|
  {
    if s == [] {
      EmptyBuckets();
    } else {
      DistributeKeeps(s[1..]);
      PlaceKeeps(Distribute(s[1..]), s[0]);
      assert s == [s[0]] + s[1..];
    }
  }

  lemma EmptyBuckets()
    ensures WellBucketed(Buckets(EMPTY_LAYERS, [], []))
    ensures BucketFiles(Buckets(EMPTY_LAYERS, [], [])) == multiset{}
  {
    assert Flatten(EMPTY_LAYERS) == [];
  }

  lemma BoundedUpdate(layers: seq<seq<Segment>>, k: nat, x: seq<Segment>)
    requires LayersBounded(layers) && k < LAYER_COUNT
    requires AllBelow(x, LAYER_BOUNDS[k])
    ensures LayersBounded(layers[k := x])
  {
  }

  lemma PlaceKeeps(b: Buckets, f: Segment)
    requires WellBucketed(b)
    ensures WellBucketed(Place(b, f))
    ensures BucketFiles(Place(b, f)) == BucketFiles(b) + multiset{f}
  {
    if Oversized(f) {
      PlaceReleased(b, f);
    } else if LayerOf(f.fileSize).Some? {
      PlaceInLayer(b, f, LayerOf(f.fileSize).value);
    } else {
      HugeIffNoLayer(f.fileSize);
      PlaceInHuge(b, f);
    }
  }

  lemma PlaceReleased(b: Buckets, f: Segment)
    requires WellBucketed(b) && Oversized(f)
    ensures WellBucketed(b.(released := b.released + [f]))
    ensures BucketFiles(b.(released := b.released + [f])) == BucketFiles(b) + multiset{f}
  {
  }

  lemma PlaceInLayer(b: Buckets, f: Segment, k: nat)
    requires WellBucketed(b) && !Oversized(f)
    requires k < LAYER_COUNT && f.fileSize < LAYER_BOUNDS[k]
    ensures WellBucketed(b.(layers := b.layers[k := b.layers[k] + [f]]))
    ensures BucketFiles(b.(layers := b.layers[k := b.layers[k] + [f]])) == BucketFiles(b) + multiset{f}
  {
    var x := b.layers[k] + [f];
    var nb := b.(layers := b.layers[k := x]);
    assert AllBelow(b.layers[k], LAYER_BOUNDS[k]);
    assert AllBelow(x, LAYER_BOUNDS[k]);
    BoundedUpdate(b.layers, k, x);
    FlattenUpdate(b.layers, k, x);
    assert multiset(x) == multiset(b.layers[k]) + multiset{f};
    MultisetCancel(multiset(Flatten(nb.layers)), multiset(Flatten(b.layers)) + multiset{f}, multiset(b.layers[k]));
  }

  lemma PlaceInHuge(b: Buckets, f: Segment)
    requires WellBucketed(b) && !Oversized(f) && f.fileSize >= HUGE_SIZE
    ensures WellBucketed(b.(huge := b.huge + [f]))
    ensures BucketFiles(b.(huge := b.huge + [f])) == BucketFiles(b) + multiset{f}
  {
  }

  // ---------------------------------------------------------------------
  // Force merge of lone old files

  datatype Carry = Carry(layers: seq<seq<Segment>>, forced: seq<Segment>)

  predicate IsOld(f: Segment, now: int, usPs: int)
  {
    now - f.createdOn > FORCE_MERGE_THRESHOLD * usPs
  }

  /**
   * One step of the force-merge loop on layer k: an empty layer is skipped;
   * otherwise the carried file joins it, and a layer left with one old file
   * gives that file up as the new carry.
   */
  function ForceStep(c: Carry, k: nat, now: int, usPs: int): (r: Carry)
    requires k < |c.layers|
    ensures |r.layers| == |c.layers|
  {
    if c.layers[k] == [] then c
    else
      var layer := c.layers[k] + c.forced;
      if |layer| == 1 && IsOld(layer[0], now, usPs) then Carry(c.layers[k := []], [layer[0]])
      else Carry(c.layers[k := layer], [])
  }

  /** The force-merge loop over the first k layers, smallest bound first. */
  function ForcePass(layers: seq<seq<Segment>>, k: nat, now: int, usPs: int): (r: Carry)
    requires k <= |layers|
    ensures |r.layers| == |layers|
    decreases k
  {
    if k == 0 then Carry(layers, [])
    else ForceStep(ForcePass(layers, k - 1, now, usPs), k - 1, now, usPs)
  }

  lemma BoundsIncrease(i: nat, j: nat)
    requires i < j < LAYER_COUNT
    ensures LAYER_BOUNDS[i] < LAYER_BOUNDS[j]
  {
  }

  /**
   * What the force-merge loop keeps after the first k layers of `layers`:
   * at most one carried file, old and from a layer already passed; every
   * file within its layer's bound (a carried file only moves to a larger
   * layer); the layers not yet visited untouched; and no file lost.
   */
  predicate CarryKeeps(c: Carry, layers: seq<seq<Segment>>, k: nat, now: int, usPs: int)
  {
    && LayersBounded(c.layers)
    && |layers| == LAYER_COUNT
    && k <= LAYER_COUNT
    && |c.forced| <= 1
    && (c.forced != [] ==> k > 0 && AllBelow(c.forced, LAYER_BOUNDS[k - 1]) && IsOld(c.forced[0], now, usPs))
    && (forall i :: k <= i < LAYER_COUNT ==> c.layers[i] == layers[i])
    && multiset(Flatten(c.layers)) + multiset(c.forced) == multiset(Flatten(layers))
  }

  lemma ForceStepKeeps(c: Carry, layers: seq<seq<Segment>>, k: nat, now: int, usPs: int)
    requires CarryKeeps(c, layers, k, now, usPs) && k < LAYER_COUNT
    ensures CarryKeeps(ForceStep(c, k, now, usPs), layers, k + 1, now, usPs)
  {
    if c.layers[k] == [] {
      SkipKeeps(c, layers, k, now, usPs);
    } else if |c.layers[k] + c.forced| == 1 && IsOld((c.layers[k] + c.forced)[0], now, usPs) {
      TakeOutKeeps(c, layers, k, now, usPs);
    } else {
      JoinKeeps(c, layers, k, now, usPs);
    }
  }

  /** An empty layer is skipped, and the carry moves on. */
  lemma SkipKeeps(c: Carry, layers: seq<seq<Segment>>, k: nat, now: int, usPs: int)
    requires CarryKeeps(c, layers, k, now, usPs) && k < LAYER_COUNT && c.layers[k] == []
    ensures CarryKeeps(c, layers, k + 1, now, usPs)
  {
    if c.forced != [] {
      BoundsIncrease(k - 1, k);
    }
  }

  /** A lone old file leaves its layer and is carried. */
  lemma TakeOutKeeps(c: Carry, layers: seq<seq<Segment>>, k: nat, now: int, usPs: int)
    requires CarryKeeps(c, layers, k, now, usPs) && k < LAYER_COUNT && c.layers[k] != []
    requires |c.layers[k] + c.forced| == 1 && IsOld((c.layers[k] + c.forced)[0], now, usPs)
    ensures CarryKeeps(Carry(c.layers[k := []], [c.layers[k][0]]), layers, k + 1, now, usPs)
  {
    var f := c.layers[k][0];
    assert c.layers[k] == [f];
    assert AllBelow(c.layers[k], LAYER_BOUNDS[k]);
    FlattenUpdate(c.layers, k, []);
    BoundedUpdate(c.layers, k, []);
  }

  /** Otherwise the carried file, if any, joins the layer and nothing is carried. */
  lemma JoinKeeps(c: Carry, layers: seq<seq<Segment>>, k: nat, now: int, usPs: int)
    requires CarryKeeps(c, layers, k, now, usPs) && k < LAYER_COUNT
    ensures CarryKeeps(Carry(c.layers[k := c.layers[k] + c.forced], []), layers, k + 1, now, usPs)
  {
    var layer := c.layers[k] + c.forced;
    if c.forced != [] {
      BoundsIncrease(k - 1, k);
    }
    assert AllBelow(c.layers[k], LAYER_BOUNDS[k]);
    assert AllBelow(layer, LAYER_BOUNDS[k]);
    FlattenUpdate(c.layers, k, layer);
    BoundedUpdate(c.layers, k, layer);
    MultisetCancel(multiset(Flatten(c.layers[k := layer])), multiset(Flatten(c.layers)) + multiset(c.forced), multiset(c.layers[k]));
  }

  lemma {:induction false} ForcePassKeeps(layers: seq<seq<Segment>>, k: nat, now: int, usPs: int)
    requires LayersBounded(layers)
    requires k <= LAYER_COUNT
    ensures CarryKeeps(ForcePass(layers, k, now, usPs), layers, k, now, usPs)
    decreases k
  {
    if k > 0 {
      ForcePassKeeps(layers, k - 1, now, usPs);
      ForceStepKeeps(ForcePass(layers, k - 1, now, usPs), layers, k - 1, now, usPs);
    }
  }

  // ---------------------------------------------------------------------
  // Emitting groups

  datatype Emitted = Emitted(groups: seq<seq<Segment>>, released: seq<Segment>)

  /**
   * The emission loop over the first k layers: one file is released, two
   * or more become a group, an empty layer gives nothing.
   */
  function EmitLayers(layers: seq<seq<Segment>>, k: nat): (e: Emitted)
    requires k <= |layers|
    decreases k
  {
    if k == 0 then Emitted([], []) else EmitStep(EmitLayers(layers, k - 1), layers[k - 1])
  }

  /** One layer of the emission loop. */
  function EmitStep(e: Emitted, layer: seq<Segment>): Emitted
  {
    if |layer| == 1 then Emitted(e.groups, e.released + [layer[0]])
    else if |layer| > 1 then Emitted(e.groups + [layer], e.released)
    else e
  }

  /** One emission step adds exactly the layer's files, and only groups of two or more. */
  lemma EmitStepKeeps(e: Emitted, layer: seq<Segment>)
    ensures (forall g :: g in e.groups ==> |g| >= 2) ==> forall g :: g in EmitStep(e, layer).groups ==> |g| >= 2
    ensures multiset(Flatten(EmitStep(e, layer).groups)) + multiset(EmitStep(e, layer).released)
      == multiset(Flatten(e.groups)) + multiset(e.released) + multiset(layer)
  {
    if |layer| == 1 {
      assert layer == [layer[0]];
    } else if |layer| > 1 {
      FlattenAppend(e.groups, [layer]);
      FlattenOne(layer);
    }
  }

  /** Every emitted group has two or more files. */
  lemma {:induction false} EmitLayersSized(layers: seq<seq<Segment>>, k: nat)
    requires k <= |layers|
    ensures forall g :: g in EmitLayers(layers, k).groups ==> |g| >= 2
    decreases k
  {
    if k > 0 {
      EmitLayersSized(layers, k - 1);
      EmitStepKeeps(EmitLayers(layers, k - 1), layers[k - 1]);
    }
  }

  /** The first k layers are split between groups and releases, none lost. */
  lemma {:induction false} EmitLayersKeeps(layers: seq<seq<Segment>>, k: nat)
    requires k <= |layers|
    ensures multiset(Flatten(EmitLayers(layers, k).groups)) + multiset(EmitLayers(layers, k).released)
      == multiset(Flatten(layers[..k]))
    decreases k
  {
    if k == 0 {
      assert layers[..0] == [];
    } else {
      var e := EmitLayers(layers, k - 1);
      var r := EmitStep(e, layers[k - 1]);
      EmitLayersKeeps(layers, k - 1);
      EmitStepKeeps(e, layers[k - 1]);
      FlattenPrefix(layers, k - 1);
      calc {
        multiset(Flatten(r.groups)) + multiset(r.released);
        multiset(Flatten(e.groups)) + multiset(e.released) + multiset(layers[k - 1]);
        multiset(Flatten(layers[..k - 1])) + multiset(layers[k - 1]);
        multiset(Flatten(layers[..k - 1]) + layers[k - 1]);
        multiset(Flatten(layers[..k]));
      }
    }
  }

  /** Files of a layer group are eligible files below the last layer bound, so never huge files. */
  lemma {:induction false} EmittedGroupsBelowHuge(layers: seq<seq<Segment>>, k: nat)
    requires LayersBounded(layers)
    requires k <= LAYER_COUNT
    ensures forall g :: g in EmitLayers(layers, k).groups ==> AllBelow(g, HUGE_SIZE)
    decreases k
  {
    if k > 0 {
      EmittedGroupsBelowHuge(layers, k - 1);
      assert AllBelow(layers[k - 1], LAYER_BOUNDS[k - 1]);
      assert LAYER_BOUNDS[k - 1] <= HUGE_SIZE;
    }
  }

  /** What happens to the huge bucket and the carried file. */
  datatype HugeOutcome = HugeOutcome(groups: seq<seq<Segment>>, released: seq<Segment>, kept: seq<Segment>)

  /**
   * The end of RegroupFiles. The carried file joins a non-empty huge
   * bucket; a bucket of two or more becomes a group; with the bucket empty
   * the carried file is released. A bucket of exactly one file and no
   * carried file: huge_files was swapped into temp_files before the
   * release loop runs over huge_files, so that file is neither grouped nor
   * released and stays held (`kept`).
   */
  function SettleHuge(huge: seq<Segment>, forced: seq<Segment>): (h: HugeOutcome)
  {
    var joined := if forced != [] && huge != [] then huge + forced else huge;
    var carry := if forced != [] && huge != [] then [] else forced;
    if |joined| >= 1 then
      var temp := joined + carry;
      if |temp| >= 2 then HugeOutcome([temp], [], [])
      else HugeOutcome([], [] + carry, joined)
    else HugeOutcome([], carry, [])
  }

  lemma SettleHugeSpec(huge: seq<Segment>, forced: seq<Segment>)
    ensures var h := SettleHuge(huge, forced);
      && (forall g :: g in h.groups ==> |g| >= 2)
      && |h.groups| <= 1
      && (h.groups != [] <==> |huge| + |forced| >= 2 && huge != [])
      && (h.groups != [] ==> h.groups[0] == huge + forced)
      && (huge == [] ==> h.released == forced && h.kept == [])
      && (h.kept != [] <==> |huge| == 1 && forced == [])
      && (h.kept != [] ==> h.kept == huge && h.released == [])
      && multiset(Flatten(h.groups)) + multiset(h.released) + multiset(h.kept)
         == multiset(huge) + multiset(forced)
  {
    var h := SettleHuge(huge, forced);
    if h.groups != [] {
      FlattenOne(h.groups[0]);
    }
  }

  // ---------------------------------------------------------------------
  // The whole plan

  /**
   * The plan for files already ordered largest first: the priority pair
   * (zero or one group), the layer groups, the huge group (zero or one),
   * the files released in release order, and the file left held.
   */
  datatype Plan = Plan(
    priority: seq<seq<Segment>>,
    layerGroups: seq<seq<Segment>>,
    hugeGroups: seq<seq<Segment>>,
    released: seq<Segment>,
    kept: seq<Segment>)
  {
    function Groups(): seq<seq<Segment>>
    {
      priority + layerGroups + hugeGroups
    }
  }

  /** The files left for bucketing once the priority pair, if any, is taken out. */
  function Remaining(sorted: seq<Segment>): (r: seq<Segment>)
    requires |sorted| >= 2
  {
    match PriorityIndex(sorted)
    case None => sorted
    case Some(j) => WithoutPair(sorted, j)
  }

  /** The plan for the files left after the priority pair: bucketing, force merge, emission, the huge bucket. */
  function PlanRest(rest: seq<Segment>, now: int, usPs: int): (p: Plan)
  {
    var b := Distribute(rest);
    var c := ForcePass(b.layers, LAYER_COUNT, now, usPs);
    var e := EmitLayers(c.layers, LAYER_COUNT);
    var h := SettleHuge(b.huge, c.forced);
    Plan([], e.groups, h.groups, b.released + e.released + h.released, h.kept)
  }

  function PlanSorted(sorted: seq<Segment>, now: int, usPs: int): (p: Plan)
    requires |sorted| >= 2
  {
    var pair := PriorityIndex(sorted);
    var priority := if pair.Some? then [[sorted[0], sorted[pair.value]]] else [];
    PlanRest(Remaining(sorted), now, usPs).(priority := priority)
  }

  /** RegroupFiles on the held files: nothing for fewer than two, otherwise the plan of the sorted files. */
  function PlanFor(held: seq<Segment>, now: int, usPs: int): (p: Plan)
  {
    if |held| < 2 then Plan([], [], [], [], [])
    else PlanSorted(SortBySizeDesc(held), now, usPs)
  }

  /** The priority group is the largest file with the first file, from the small end, past position 1 whose merge with it exceeds its index size. */
  lemma PriorityPair(sorted: seq<Segment>, now: int, usPs: int)
    requires |sorted| >= 2
    ensures var p := PlanSorted(sorted, now, usPs);
      && (p.priority == [] <==> forall i :: 2 <= i < |sorted| ==> !Exceeds(sorted[i], sorted[0]))
      && (p.priority != [] ==>
            exists j :: (2 <= j < |sorted| && p.priority == [[sorted[0], sorted[j]]]
              && Exceeds(sorted[j], sorted[0]) && (forall i :: j < i < |sorted| ==> !Exceeds(sorted[i], sorted[0]))))
  {
    var pair := PriorityIndex(sorted);
    if pair.Some? {
      var j := pair.value;
      assert PlanSorted(sorted, now, usPs).priority == [[sorted[0], sorted[j]]];
    }
  }

  /** The bookkeeping of RestPartition, phase by phase, as plain multiset arithmetic. */
  lemma AssemblePartition(rest: multiset<Segment>, layers: multiset<Segment>, huge: multiset<Segment>, br: multiset<Segment>,
                          carried: multiset<Segment>, forced: multiset<Segment>,
                          eg: multiset<Segment>, er: multiset<Segment>,
                          hg: multiset<Segment>, hr: multiset<Segment>, hk: multiset<Segment>)
    requires rest == layers + huge + br
    requires carried + forced == layers
    requires eg + er == carried
    requires hg + hr + hk == huge + forced
    ensures eg + hg + (br + er + hr) + hk == rest
  {
    forall x | true
      ensures (eg + hg + (br + er + hr) + hk)[x] == rest[x]
    {
      assert (layers + huge + br)[x] == rest[x];
      assert (carried + forced)[x] == layers[x];
      assert (eg + er)[x] == carried[x];
      assert (hg + hr + hk)[x] == (huge + forced)[x];
    }
  }

  /** The files left after the priority pair are all grouped, released or kept, as often as they occur. */
  lemma RestPartition(rest: seq<Segment>, now: int, usPs: int)
    ensures var p := PlanRest(rest, now, usPs);
      multiset(Flatten(p.layerGroups)) + multiset(Flatten(p.hugeGroups)) + multiset(p.released) + multiset(p.kept)
        == multiset(rest)
  {
    var b := Distribute(rest);
    var c := ForcePass(b.layers, LAYER_COUNT, now, usPs);
    var e := EmitLayers(c.layers, LAYER_COUNT);
    var h := SettleHuge(b.huge, c.forced);
    DistributeKeeps(rest);
    ForcePassKeeps(b.layers, LAYER_COUNT, now, usPs);
    EmitLayersKeeps(c.layers, LAYER_COUNT);
    assert c.layers[..LAYER_COUNT] == c.layers;
    SettleHugeSpec(b.huge, c.forced);
    AssemblePartition(multiset(rest),
      multiset(Flatten(b.layers)), multiset(b.huge), multiset(b.released),
      multiset(Flatten(c.layers)), multiset(c.forced),
      multiset(Flatten(e.groups)), multiset(e.released),
      multiset(Flatten(h.groups)), multiset(h.released), multiset(h.kept));
  }

  /** The flattened groups of a plan are the priority, layer and huge groups in that order. */
  lemma FlattenGroups(p: Plan)
    ensures multiset(Flatten(p.Groups()))
      == multiset(Flatten(p.priority)) + multiset(Flatten(p.layerGroups)) + multiset(Flatten(p.hugeGroups))
  {
    FlattenAppend(p.priority, p.layerGroups);
    FlattenAppend(p.priority + p.layerGroups, p.hugeGroups);
  }

  /** The priority pair and the files left for the layers are the sorted files. */
  lemma PriorityKeeps(sorted: seq<Segment>, now: int, usPs: int)
    requires |sorted| >= 2
    ensures multiset(Flatten(PlanSorted(sorted, now, usPs).priority)) + multiset(Remaining(sorted)) == multiset(sorted)
  {
    var pair := PriorityIndex(sorted);
    if pair.Some? {
      FlattenOne([sorted[0], sorted[pair.value]]);
    } else {
      assert PlanSorted(sorted, now, usPs).priority == [];
    }
  }

  /** The files of the plan: groups, releases and the kept file together are exactly the sorted files. */
  lemma PlanSortedPartition(sorted: seq<Segment>, now: int, usPs: int)
    requires |sorted| >= 2
    ensures var p := PlanSorted(sorted, now, usPs);
      multiset(Flatten(p.Groups())) + multiset(p.released) + multiset(p.kept) == multiset(sorted)
  {
    var p := PlanSorted(sorted, now, usPs);
    var rest := Remaining(sorted);
    var q := PlanRest(rest, now, usPs);
    PriorityKeeps(sorted, now, usPs);
    RestPartition(rest, now, usPs);
    FlattenGroups(p);
    assert p.layerGroups == q.layerGroups && p.hugeGroups == q.hugeGroups;
    assert p.released == q.released && p.kept == q.kept;
    MultisetRegroup(multiset(Flatten(p.priority)), multiset(Flatten(q.layerGroups)), multiset(Flatten(q.hugeGroups)),
      multiset(q.released), multiset(q.kept));
  }

  lemma MultisetRegroup(a: multiset<Segment>, b: multiset<Segment>, c: multiset<Segment>, d: multiset<Segment>, e: multiset<Segment>)
    ensures a + b + c + d + e == a + (b + c + d + e)
  {
    forall x | true
      ensures (a + b + c + d + e)[x] == (a + (b + c + d + e))[x]
    {
    }
  }

  /** RegroupFiles loses no file and invents none: every held file is grouped, released or kept, as often as it is held. */
  lemma PlanPartition(held: seq<Segment>, now: int, usPs: int)
    ensures var p := PlanFor(held, now, usPs);
      && (|held| >= 2 ==> multiset(Flatten(p.Groups())) + multiset(p.released) + multiset(p.kept) == multiset(held))
      && (|held| < 2 ==> p.Groups() == [] && p.released == [] && p.kept == [])
  {
    if |held| >= 2 {
      PlanSortedPartition(SortBySizeDesc(held), now, usPs);
    }
  }

  /** Every group of the plan has two files or more; the priority group has exactly two. */
  lemma {:induction false} PlanGroupsHaveTwoOrMore(held: seq<Segment>, now: int, usPs: int)
    ensures var p := PlanFor(held, now, usPs);
      && (forall g :: g in p.Groups() ==> |g| >= 2)
      && |p.priority| <= 1
      && (forall g :: g in p.priority ==> |g| == 2)
  {
    if |held| >= 2 {
      var sorted := SortBySizeDesc(held);
      var b := Distribute(Remaining(sorted));
      var c := ForcePass(b.layers, LAYER_COUNT, now, usPs);
      EmitLayersSized(c.layers, LAYER_COUNT);
      SettleHugeSpec(b.huge, c.forced);
    }
  }

  /** No file of the group needs no merge. */
  predicate NoneOversized(g: seq<Segment>)
  {
    forall i :: 0 <= i < |g| ==> !Oversized(g[i])
  }

  /**
   * Files that need no merge (index_file_size > 0 and file_size above it)
   * among those left after the priority pair are all released.
   */
  lemma OversizedReleased(sorted: seq<Segment>, now: int, usPs: int)
    requires |sorted| >= 2
    ensures var p := PlanSorted(sorted, now, usPs);
      var rest := Remaining(sorted);
      forall i :: 0 <= i < |rest| && Oversized(rest[i]) ==> rest[i] in p.released
  {
    var rest := Remaining(sorted);
    forall i | 0 <= i < |rest| && Oversized(rest[i])
      ensures rest[i] in Distribute(rest).released
    {
      DistributePlaces(rest, i);
    }
  }

  /**
   * The priority pair is chosen before oversized files are set aside: when
   * the largest of three or more files is oversized, its sum with the
   * smallest exceeds its own index size, so the two are merged.
   */
  lemma OversizedLargestJoinsPriorityPair(sorted: seq<Segment>, now: int, usPs: int)
    requires |sorted| >= 3 && Oversized(sorted[0])
    ensures PriorityIndex(sorted) == Some(|sorted| - 1)
    ensures var p := PlanSorted(sorted, now, usPs);
      p.priority == [[sorted[0], sorted[|sorted| - 1]]] && Oversized(p.Groups()[0][0])
  {
  }

  /** No layer group and no huge group holds a file that needs no merge. */
  lemma OversizedNeverMerged(sorted: seq<Segment>, now: int, usPs: int)
    requires |sorted| >= 2
    ensures var p := PlanSorted(sorted, now, usPs);
      forall g :: g in p.layerGroups + p.hugeGroups ==> NoneOversized(g)
  {
    var p := PlanSorted(sorted, now, usPs);
    var b := Distribute(Remaining(sorted));
    var c := ForcePass(b.layers, LAYER_COUNT, now, usPs);
    DistributeKeeps(Remaining(sorted));
    ForcePassKeeps(b.layers, LAYER_COUNT, now, usPs);
    EmittedGroupsBelowHuge(c.layers, LAYER_COUNT);
    SettleHugeSpec(b.huge, c.forced);
    forall g | g in p.hugeGroups
      ensures NoneOversized(g)
    {
      assert g == b.huge + c.forced;
    }
  }

  /** Where the bucketing loop sends one file: released, the first layer whose bound is above its size, or the huge bucket. */
  predicate PlacedIn(b: Buckets, f: Segment)
    requires |b.layers| == LAYER_COUNT
  {
    if Oversized(f) then f in b.released
    else match LayerOf(f.fileSize)
      case Some(k) => f in b.layers[k]
      case None => f in b.huge
  }

  /** Placing a file keeps every file already placed where it was. */
  lemma PlaceGrows(b: Buckets, f: Segment, x: Segment)
    requires |b.layers| == LAYER_COUNT && PlacedIn(b, x)
    ensures PlacedIn(Place(b, f), x)
  {
  }

  /** Every file of the bucketing loop ends up where its size and index size send it. */
  lemma {:induction false} DistributePlaces(s: seq<Segment>, i: nat)
    requires i < |s|
    ensures PlacedIn(Distribute(s), s[i])
    decreases |s|
  {
    if i > 0 {
      DistributePlaces(s[1..], i - 1);
      PlaceGrows(Distribute(s[1..]), s[0], s[i]);
    }
  }

  /** Layer groups hold only eligible files below 64GB, so never a huge file. */
  lemma LayerGroupsBelowHuge(rest: seq<Segment>, now: int, usPs: int)
    ensures forall g :: g in PlanRest(rest, now, usPs).layerGroups ==> AllBelow(g, HUGE_SIZE)
  {
    var b := Distribute(rest);
    DistributeKeeps(rest);
    ForcePassKeeps(b.layers, LAYER_COUNT, now, usPs);
    EmittedGroupsBelowHuge(ForcePass(b.layers, LAYER_COUNT, now, usPs).layers, LAYER_COUNT);
  }

  /** The huge group, when there is one, is the huge files (each at least 64GB) followed by the carried file. */
  lemma HugeGroupContents(rest: seq<Segment>, now: int, usPs: int)
    ensures var b := Distribute(rest);
      var c := ForcePass(b.layers, LAYER_COUNT, now, usPs);
      var p := PlanRest(rest, now, usPs);
      && AllHuge(b.huge)
      && (p.hugeGroups != [] ==> p.hugeGroups == [b.huge + c.forced])
  {
    var b := Distribute(rest);
    DistributeKeeps(rest);
    SettleHugeSpec(b.huge, ForcePass(b.layers, LAYER_COUNT, now, usPs).forced);
  }

  /**
   * The fate of a file still carried after the last layer: it joins the
   * huge group when there are huge files, and is released last otherwise.
   */
  lemma CarriedFileFate(sorted: seq<Segment>, now: int, usPs: int)
    requires |sorted| >= 2
    ensures var p := PlanSorted(sorted, now, usPs);
      var b := Distribute(Remaining(sorted));
      var c := ForcePass(b.layers, LAYER_COUNT, now, usPs);
      && (c.forced != [] && b.huge != [] ==> p.hugeGroups == [b.huge + c.forced])
      && (c.forced != [] && b.huge == [] ==> p.hugeGroups == [] && p.released[|p.released| - |c.forced|..] == c.forced)
  {
    var b := Distribute(Remaining(sorted));
    var c := ForcePass(b.layers, LAYER_COUNT, now, usPs);
    SettleHugeSpec(b.huge, c.forced);
  }

  /**
   * The single-huge-file case: with exactly one huge file and no carried
   * file, no huge group is made and the release loop over the emptied
   * huge_files releases nothing, so the file stays held, in no group and
   * not released.
   */
  lemma SingleHugeFileKept(sorted: seq<Segment>, now: int, usPs: int)
    requires |sorted| >= 2
    ensures var p := PlanSorted(sorted, now, usPs);
      var b := Distribute(Remaining(sorted));
      var c := ForcePass(b.layers, LAYER_COUNT, now, usPs);
      && (p.kept != [] <==> |b.huge| == 1 && c.forced == [])
      && (p.kept != [] ==> p.kept == b.huge && p.hugeGroups == [])
      && (p.kept != [] ==> p.released == b.released + EmitLayers(c.layers, LAYER_COUNT).released)
  {
    var b := Distribute(Remaining(sorted));
    var c := ForcePass(b.layers, LAYER_COUNT, now, usPs);
    SettleHugeSpec(b.huge, c.forced);
  }

  // ---------------------------------------------------------------------
  // The files holder and RegroupFiles

  /**
   * The part of meta::FilesHolder that RegroupFiles uses: the files it
   * holds, and the files handed back with UnmarkFile, in call order. What
   * the holder does with an unmarked file is not part of this model.
   */
  class FilesHolder {
    var held: seq<Segment>
    var unmarked: seq<Segment>

    constructor (files: seq<Segment>)
      ensures held == files && unmarked == []
    {
      held := files;
      unmarked := [];
    }

    method HoldFiles() returns (files: seq<Segment>)
      ensures files == held
    {
      files := held;
    }

    method UnmarkFile(f: Segment)
      modifies this
      ensures unmarked == old(unmarked) + [f] && held == old(held)
    {
      unmarked := unmarked + [f];
    }
  }

  lemma AppendThree<T>(x: seq<T>, a: seq<T>, b: seq<T>, c: seq<T>)
    ensures x + a + b + c == x + (a + b + c)
  {
  }

  /** A for loop calling UnmarkFile on each file in order. */
  method UnmarkAll(holder: FilesHolder, files: seq<Segment>)
    modifies holder
    ensures holder.unmarked == old(holder.unmarked) + files && holder.held == old(holder.held)
  {
    var i := 0;
    while i < |files|
      invariant 0 <= i <= |files|
      invariant holder.unmarked == old(holder.unmarked) + files[..i]
      invariant holder.held == old(holder.held)
    {
      holder.UnmarkFile(files[i]);
      assert files[..i + 1] == files[..i] + [files[i]];
      i := i + 1;
    }
    assert files[..|files|] == files;
  }

  /** A for loop pushing each file of `src` onto `dst`. */
  method AppendAll(dst: seq<Segment>, src: seq<Segment>) returns (r: seq<Segment>)
    ensures r == dst + src
  {
    r := dst;
    var i := 0;
    while i < |src|
      invariant 0 <= i <= |src|
      invariant r == dst + src[..i]
    {
      assert src[..i + 1] == src[..i] + [src[i]];
      r := r + [src[i]];
      i := i + 1;
    }
    assert src[..|src|] == src;
  }

  /** The priority loop: from the last file down to, not including, the second. */
  method FindPriority(s: seq<Segment>) returns (pair: Option<nat>)
    requires |s| >= 2
    ensures pair == PriorityIndex(s)
  {
    var j := |s| - 1;
    while j != 1
      invariant 1 <= j < |s|
      invariant PriorityScan(s, j) == PriorityIndex(s)
      decreases j
    {
      if Exceeds(s[j], s[0]) {
        return Some(j);
      }
      j := j - 1;
    }
    return None;
  }

  /** The walk over the layers in ascending bound order, stopping at the first bound above the size. */
  method FindLayer(size: nat) returns (layer: Option<nat>)
    ensures layer == LayerOf(size)
  {
    var k := 0;
    while k < LAYER_COUNT
      invariant 0 <= k <= LAYER_COUNT
      invariant LayerFrom(size, k) == LayerOf(size)
    {
      if size < LAYER_BOUNDS[k] {
        return Some(k);
      }
      k := k + 1;
    }
    return None;
  }

  /** The bucketing loop, over the files from the last to the first. */
  method DistributeFiles(holder: FilesHolder, files: seq<Segment>) returns (layers: seq<seq<Segment>>, huge: seq<Segment>)
    modifies holder
    ensures layers == Distribute(files).layers && huge == Distribute(files).huge
    ensures holder.unmarked == old(holder.unmarked) + Distribute(files).released
    ensures holder.held == old(holder.held)
  {
    layers := EMPTY_LAYERS;
    huge := [];
    var i := |files|;
    while i > 0
      invariant 0 <= i <= |files|
      invariant layers == Distribute(files[i..]).layers && huge == Distribute(files[i..]).huge
      invariant holder.unmarked == old(holder.unmarked) + Distribute(files[i..]).released
      invariant holder.held == old(holder.held)
    {
      i := i - 1;
      var f := files[i];
      assert files[i..][1..] == files[i + 1..];
      if Oversized(f) {
        holder.UnmarkFile(f);
        continue;
      }
      var layer := FindLayer(f.fileSize);
      match layer
      case Some(k) =>
        layers := layers[k := layers[k] + [f]];
      case None =>
        huge := huge + [f];
    }
    assert files[0..] == files;
  }

  /** The force-merge loop over the layers. */
  method ForceMerge(layers0: seq<seq<Segment>>, now: int, usPs: int) returns (layers: seq<seq<Segment>>, forced: seq<Segment>)
    requires |layers0| == LAYER_COUNT
    ensures Carry(layers, forced) == ForcePass(layers0, LAYER_COUNT, now, usPs)
  {
    layers := layers0;
    forced := [];
    var k := 0;
    while k < LAYER_COUNT
      invariant 0 <= k <= LAYER_COUNT
      invariant Carry(layers, forced) == ForcePass(layers0, k, now, usPs)
    {
      assert ForcePass(layers0, k + 1, now, usPs) == ForceStep(Carry(layers, forced), k, now, usPs);
      if layers[k] == [] {
        k := k + 1;
        continue;
      }
      ghost var c := Carry(layers, forced);
      var layer := layers[k];
      if forced != [] {
        layer := AppendAll(layer, forced);
        forced := [];
      } else {
        assert layer == layer + forced;
      }
      assert layer == c.layers[k] + c.forced && forced == [];
      if |layer| == 1 && IsOld(layer[0], now, usPs) {
        forced := forced + [layer[0]];
        layer := [];
      }
      layers := layers[k := layer];
      k := k + 1;
    }
  }

  /** The result loop over the layers: release a lone file, append a group of two or more. */
  method EmitGroups(holder: FilesHolder, layers: seq<seq<Segment>>, groups0: seq<seq<Segment>>)
    returns (groups: seq<seq<Segment>>)
    requires |layers| == LAYER_COUNT
    modifies holder
    ensures groups == groups0 + EmitLayers(layers, LAYER_COUNT).groups
    ensures holder.unmarked == old(holder.unmarked) + EmitLayers(layers, LAYER_COUNT).released
    ensures holder.held == old(holder.held)
  {
    groups := groups0;
    var k := 0;
    while k < LAYER_COUNT
      invariant 0 <= k <= LAYER_COUNT
      invariant groups == groups0 + EmitLayers(layers, k).groups
      invariant holder.unmarked == old(holder.unmarked) + EmitLayers(layers, k).released
      invariant holder.held == old(holder.held)
    {
      if |layers[k]| == 1 {
        holder.UnmarkFile(layers[k][0]);
      } else if |layers[k]| > 1 {
        groups := groups + [layers[k]];
      }
      k := k + 1;
    }
  }

  /**
   * The end of RegroupFiles: the carried file joins a non-empty huge
   * bucket, then the bucket becomes a group or its files and the carried
   * file are released.
   */
  method SettleHugeFiles(holder: FilesHolder, huge0: seq<Segment>, forced0: seq<Segment>, groups0: seq<seq<Segment>>)
    returns (groups: seq<seq<Segment>>)
    modifies holder
    ensures groups == groups0 + SettleHuge(huge0, forced0).groups
    ensures holder.unmarked == old(holder.unmarked) + SettleHuge(huge0, forced0).released
    ensures holder.held == old(holder.held)
  {
    groups := groups0;
    var huge := huge0;
    var forced := forced0;
    if forced != [] && huge != [] {
      huge := AppendAll(huge, forced);
      forced := [];
    }
    if |huge| >= 1 {
      var temp := huge;
      huge := [];
      temp := AppendAll(temp, forced);
      if |temp| >= 2 {
        groups := groups + [temp];
      } else {
        UnmarkAll(holder, huge);
        UnmarkAll(holder, forced);
      }
    } else {
      UnmarkAll(holder, forced);
    }
  }

  /** Everything after the priority pair, on the files left for the layers. */
  method LayerPhases(holder: FilesHolder, rest: seq<Segment>, groups0: seq<seq<Segment>>, now: int, usPs: int)
    returns (groups: seq<seq<Segment>>)
    modifies holder
    ensures groups == groups0 + PlanRest(rest, now, usPs).layerGroups + PlanRest(rest, now, usPs).hugeGroups
    ensures holder.unmarked == old(holder.unmarked) + PlanRest(rest, now, usPs).released
    ensures holder.held == old(holder.held)
  {
    ghost var b := Distribute(rest);
    ghost var c := ForcePass(b.layers, LAYER_COUNT, now, usPs);
    ghost var e := EmitLayers(c.layers, LAYER_COUNT);
    ghost var h := SettleHuge(b.huge, c.forced);
    var layers, huge := DistributeFiles(holder, rest);
    var forced;
    layers, forced := ForceMerge(layers, now, usPs);
    groups := EmitGroups(holder, layers, groups0);
    groups := SettleHugeFiles(holder, huge, forced, groups);
    AppendThree(old(holder.unmarked), b.released, e.released, h.released);
  }

  /**
   * RegroupFiles: appends the groups of PlanFor(held) to files_groups and
   * unmarks its released files, in order; the held files stay as they are
   * and the status is always OK.
   */
  method RegroupFiles(holder: FilesHolder, groups0: seq<seq<Segment>>, now: int, usPs: int)
    returns (status: Outcome<string>, groups: seq<seq<Segment>>)
    modifies holder
    ensures status == Pass
    ensures groups == groups0 + PlanFor(old(holder.held), now, usPs).Groups()
    ensures holder.unmarked == old(holder.unmarked) + PlanFor(old(holder.held), now, usPs).released
    ensures holder.held == old(holder.held)
  {
    groups := groups0;
    var sortFiles := holder.HoldFiles();
    if |sortFiles| < 2 {
      return Pass, groups;
    }
    sortFiles := SortBySizeDesc(sortFiles);
    ghost var sorted := sortFiles;
    var pair := FindPriority(sortFiles);
    if pair.Some? {
      var j := pair.value;
      groups := groups + [[sortFiles[0], sortFiles[j]]];
      sortFiles := sortFiles[..j] + sortFiles[j + 1..];
      sortFiles := sortFiles[1..];
      assert sortFiles == WithoutPair(sorted, j);
    }
    ghost var plan := PlanSorted(sorted, now, usPs);
    assert groups == groups0 + plan.priority;
    assert sortFiles == Remaining(sorted);
    groups := LayerPhases(holder, sortFiles, groups, now, usPs);
    AppendThree(groups0, plan.priority, plan.layerGroups, plan.hugeGroups);
    status := Pass;
  }
}

/**
 * The scheduler pass that places brute-force (FAISS_IDMAP) search tasks on
 * the CPU or on a GPU (FaissFlatPass.cpp). Init reads two configuration
 * values, Run walks an ordered chain of conditions and labels the task with
 * the resource it picked. The configuration reads, the resource manager and
 * PickResource are abstract: they enter as parameters.
 */
module FaissFlatPass {
  import opened Wrappers

  newtype uint64 = x: int | 0 <= x < 0x1_0000_0000_0000_0000
  newtype int64 = x: int | -0x8000_0000_0000_0000 <= x < 0x8000_0000_0000_0000

  /** std::numeric_limits<int32_t>::max(), the threshold used when none can be read. */
  const INT32_MAX: int64 := 2147483647

  /** (int)engine::EngineType::FAISS_IDMAP; the enum is not part of this model, only equality with it is used. */
  const FAISS_IDMAP: int := 1

  const PASS_IDENTITY: string := "FaissFlatPass"

  /** The (uint64_t) cast of a signed 64-bit value: negatives wrap to the top of the range. */
  function AsUint64(x: int64): (u: uint64)
    ensures x >= 0 ==> u as int == x as int
    ensures x < 0 ==> u as int == x as int + 0x1_0000_0000_0000_0000
    ensures x < 0 ==> u as int >= 0x8000_0000_0000_0000
  {
    if x >= 0 then x as int as uint64 else (x as int + 0x1_0000_0000_0000_0000) as uint64
  }

  datatype TaskType = SearchTask | OtherTask

  /** The resource a label names: the "cpu" resource, or whatever PickResource chose among the search gpus. */
  datatype Resource = Cpu | Picked(gpu: int)

  /** What Run does with a task: leave it (and return false), or label it for the CPU or a GPU. */
  datatype Placement = NotHandled | OnCpu | OnGpu

  /**
   * The decision chain of Run: the two filters (search task, FAISS_IDMAP
   * engine), then the three CPU conditions in order (gpu disabled, nq below
   * the threshold read as unsigned, topk above GPU_QUERY_MAX_NPROBE), and the
   * GPU otherwise.
   */
  function Decide(taskType: TaskType, engineType: int, gpuEnable: bool, nq: uint64, topk: uint64,
                  threshold: int64, maxNprobe: uint64): (p: Placement)
    ensures p == NotHandled <==> taskType != SearchTask || engineType != FAISS_IDMAP
    ensures p == OnGpu <==>
      taskType == SearchTask && engineType == FAISS_IDMAP && gpuEnable
      && nq >= AsUint64(threshold) && topk <= maxNprobe
    ensures p == OnCpu <==>
      taskType == SearchTask && engineType == FAISS_IDMAP
      && (!gpuEnable || nq < AsUint64(threshold) || topk > maxNprobe)
  {
    if taskType != SearchTask then NotHandled
    else if engineType != FAISS_IDMAP then NotHandled
    else if !gpuEnable then OnCpu
    else if nq < AsUint64(threshold) then OnCpu
    else if topk > maxNprobe then OnCpu
    else OnGpu
  }

  /** A negative threshold wraps above every nq a job can report, so no task ever reaches a GPU. */
  lemma NegativeThresholdNeverGpu(taskType: TaskType, engineType: int, gpuEnable: bool, nq: uint64,
                                  topk: uint64, threshold: int64, maxNprobe: uint64)
    requires threshold < 0
    requires nq as int < 0x8000_0000_0000_0000
    ensures Decide(taskType, engineType, gpuEnable, nq, topk, threshold, maxNprobe) != OnGpu
  {
  }

  /** With the INT32_MAX fallback, any batch of fewer than 2^31 - 1 queries stays on the CPU. */
  lemma FallbackThresholdKeepsSmallBatchesOnCpu(gpuEnable: bool, nq: uint64, topk: uint64, maxNprobe: uint64)
    requires nq < 2147483647
    ensures Decide(SearchTask, FAISS_IDMAP, gpuEnable, nq, topk, INT32_MAX, maxNprobe) == OnCpu
  {
  }

  /** A GPU placement survives more queries and a smaller topk: the GPU region is upward closed in nq and downward in topk. */
  lemma GpuPlacementMonotone(taskType: TaskType, engineType: int, gpuEnable: bool, nq: uint64, topk: uint64,
                             nq': uint64, topk': uint64, threshold: int64, maxNprobe: uint64)
    requires Decide(taskType, engineType, gpuEnable, nq, topk, threshold, maxNprobe) == OnGpu
    requires nq <= nq' && topk' <= topk
    ensures Decide(taskType, engineType, gpuEnable, nq', topk', threshold, maxNprobe) == OnGpu
  {
  }

  /** A scheduler task as the pass sees it: its type, its file's engine, its job's nq and topk, and its label. */
  class Task {
    const taskType: TaskType
    const engineType: int
    const nq: uint64
    const topk: uint64
    var resourceLabel: Option<Resource>

    constructor (taskType: TaskType, engineType: int, nq: uint64, topk: uint64)
      ensures this.taskType == taskType && this.engineType == engineType
      ensures this.nq == nq && this.topk == topk && resourceLabel == None
    {
      this.taskType := taskType;
      this.engineType := engineType;
      this.nq := nq;
      this.topk := topk;
      resourceLabel := None;
    }
  }

  class FaissFlatPass {
    var threshold: int64
    var searchGpus: seq<int>
    var gpuEnable: bool
    var identity: string

    /** gpuEnable is what the gpu-enable listener last delivered; the listeners are not part of this model. */
    constructor (gpuEnable: bool)
      ensures this.gpuEnable == gpuEnable && threshold == 0 && searchGpus == [] && identity == ""
    {
      this.gpuEnable := gpuEnable;
      threshold := 0;
      searchGpus := [];
      identity := "";
    }

    /**
     * Init: a failed threshold read falls back to INT32_MAX; a failed read
     * of the search resources throws, after the threshold was already set
     * and before the identity is.
     */
    method Init(thresholdRead: Option<int64>, resourcesRead: Option<seq<int>>) returns (r: Outcome<string>)
      modifies this
      ensures threshold == if thresholdRead.Some? then thresholdRead.value else INT32_MAX
      ensures r.Fail? <==> resourcesRead.None?
      ensures resourcesRead.None? ==> searchGpus == old(searchGpus) && identity == old(identity)
      ensures resourcesRead.Some? ==> searchGpus == resourcesRead.value && identity == PASS_IDENTITY
      ensures gpuEnable == old(gpuEnable)
    {
      if thresholdRead.Some? {
        threshold := thresholdRead.value;
      } else {
        threshold := INT32_MAX;
      }
      if resourcesRead.None? {
        return Fail("search resources not readable");
      }
      searchGpus := resourcesRead.value;
      identity := PASS_IDENTITY;
      r := Pass;
    }

    /**
     * Run: false and no label for tasks the pass does not handle; otherwise
     * exactly one label, the CPU or the resource `pick` chose among the
     * search gpus, and true.
     */
    method Run(task: Task, maxNprobe: uint64, pick: seq<int> -> int) returns (handled: bool)
      modifies task
      ensures var p := Decide(task.taskType, task.engineType, gpuEnable, task.nq, task.topk, threshold, maxNprobe);
        && (handled <==> p != NotHandled)
        && (p == NotHandled ==> task.resourceLabel == old(task.resourceLabel))
        && (p == OnCpu ==> task.resourceLabel == Some(Cpu))
        && (p == OnGpu ==> task.resourceLabel == Some(Picked(pick(searchGpus))))
    {
      if task.taskType != SearchTask {
        return false;
      }
      if task.engineType != FAISS_IDMAP {
        return false;
      }
      var res: Resource;
      if !gpuEnable {
        res := Cpu;
      } else if task.nq < AsUint64(threshold) {
        res := Cpu;
      } else if task.topk > maxNprobe {
        res := Cpu;
      } else {
        res := Picked(pick(searchGpus));
      }
      task.resourceLabel := Some(res);
      handled := true;
    }
  }
}

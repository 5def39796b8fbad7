/**
 * The resource monitor window of cineboard/ui/resource_monitor.py: three
 * rolling histories that start empty, each fed by its own signal and kept to
 * the newest 60 readings, and the two-field nvidia-smi reading with its zero
 * fallback.
 */
module CineboardMonitor {
  import opened Wrappers
  import opened RollingWindow

  /** What nvidia-smi gave: nothing (the call raised), or its fields, each read by int() or not readable. */
  datatype GpuQuery = QueryFailed | Reply(fields: seq<Option<int>>)

  /**
   * GpuMonitorThread.get_gpu_usage: exactly two readable fields give
   * (gpu_util, mem_used); anything else gives (0, 0).
   */
  function GetGpuUsage(q: GpuQuery): (r: (int, int))
    ensures q.Reply? && |q.fields| == 2 && q.fields[0].Some? && q.fields[1].Some? ==>
      r == (q.fields[0].value, q.fields[1].value)
    ensures !(q.Reply? && |q.fields| == 2 && q.fields[0].Some? && q.fields[1].Some?) ==> r == (0, 0)
  {
    match q
    case QueryFailed => (0, 0)
    case Reply(fields) =>
      if |fields| == 2 && fields[0].Some? && fields[1].Some? then (fields[0].value, fields[1].value)
      else (0, 0)
  }

  class ResourceMonitor {
    var cpuUsageData: seq<int>
    var gpuUsageData: seq<int>
    var cudaMemData: seq<int>
    /** Every reading each slot received, oldest first. */
    ghost var cpuHistory: seq<int>
    ghost var gpuHistory: seq<int>
    ghost var cudaHistory: seq<int>
    /** The values last passed to the three progress bars. */
    var cpuBar: int
    var gpuBar: int
    var cudaBar: int

    /** Each buffer holds the newest 60 readings its slot received. */
    ghost predicate Valid()
      reads this
    {
      && cpuUsageData == Window(cpuHistory, MaxDataPoints)
      && gpuUsageData == Window(gpuHistory, MaxDataPoints)
      && cudaMemData == Window(cudaHistory, MaxDataPoints)
    }

    /** The buffers start empty. */
    constructor ()
      ensures Valid()
      ensures cpuUsageData == [] && gpuUsageData == [] && cudaMemData == []
    {
      cpuUsageData, gpuUsageData, cudaMemData := [], [], [];
      cpuHistory, gpuHistory, cudaHistory := [], [], [];
      cpuBar, gpuBar, cudaBar := 0, 0, 0;
    }

    /** update_cpu_usage: the reading goes to the bar and, unclamped, to the CPU buffer only. */
    method UpdateCpuUsage(cpuUtil: int)
      requires Valid()
      modifies this
      ensures Valid()
      ensures cpuBar == cpuUtil && cpuHistory == old(cpuHistory) + [cpuUtil]
      ensures cpuUsageData == Pushed(old(cpuUsageData), cpuUtil, MaxDataPoints)
      ensures gpuUsageData == old(gpuUsageData) && cudaMemData == old(cudaMemData)
      ensures gpuHistory == old(gpuHistory) && cudaHistory == old(cudaHistory)
      ensures gpuBar == old(gpuBar) && cudaBar == old(cudaBar)
    {
      PushedWindow(cpuHistory, cpuUtil, MaxDataPoints);
      cpuBar := cpuUtil;
      cpuUsageData := Pushed(cpuUsageData, cpuUtil, MaxDataPoints);
      cpuHistory := cpuHistory + [cpuUtil];
    }

    /** update_gpu_usage: the same for the GPU buffer. */
    method UpdateGpuUsage(gpuUtil: int)
      requires Valid()
      modifies this
      ensures Valid()
      ensures gpuBar == gpuUtil && gpuHistory == old(gpuHistory) + [gpuUtil]
      ensures gpuUsageData == Pushed(old(gpuUsageData), gpuUtil, MaxDataPoints)
      ensures cpuUsageData == old(cpuUsageData) && cudaMemData == old(cudaMemData)
      ensures cpuHistory == old(cpuHistory) && cudaHistory == old(cudaHistory)
      ensures cpuBar == old(cpuBar) && cudaBar == old(cudaBar)
    {
      PushedWindow(gpuHistory, gpuUtil, MaxDataPoints);
      gpuBar := gpuUtil;
      gpuUsageData := Pushed(gpuUsageData, gpuUtil, MaxDataPoints);
      gpuHistory := gpuHistory + [gpuUtil];
    }

    /** update_cuda_mem: the same for the CUDA memory buffer. */
    method UpdateCudaMem(cudaMem: int)
      requires Valid()
      modifies this
      ensures Valid()
      ensures cudaBar == cudaMem && cudaHistory == old(cudaHistory) + [cudaMem]
      ensures cudaMemData == Pushed(old(cudaMemData), cudaMem, MaxDataPoints)
      ensures cpuUsageData == old(cpuUsageData) && gpuUsageData == old(gpuUsageData)
      ensures cpuHistory == old(cpuHistory) && gpuHistory == old(gpuHistory)
      ensures cpuBar == old(cpuBar) && gpuBar == old(gpuBar)
    {
      PushedWindow(cudaHistory, cudaMem, MaxDataPoints);
      cudaBar := cudaMem;
      cudaMemData := Pushed(cudaMemData, cudaMem, MaxDataPoints);
      cudaHistory := cudaHistory + [cudaMem];
    }

    /** One pass of GpuMonitorThread.run: both signals, GPU first, from one sample. */
    method GpuTick(q: GpuQuery)
      requires Valid()
      modifies this
      ensures Valid()
      ensures gpuHistory == old(gpuHistory) + [GetGpuUsage(q).0]
      ensures cudaHistory == old(cudaHistory) + [GetGpuUsage(q).1]
      ensures gpuUsageData == Pushed(old(gpuUsageData), GetGpuUsage(q).0, MaxDataPoints)
      ensures cudaMemData == Pushed(old(cudaMemData), GetGpuUsage(q).1, MaxDataPoints)
      ensures gpuBar == GetGpuUsage(q).0 && cudaBar == GetGpuUsage(q).1
      ensures cpuUsageData == old(cpuUsageData) && cpuHistory == old(cpuHistory) && cpuBar == old(cpuBar)
    {
      var (gpuUtil, cudaMem) := GetGpuUsage(q);
      UpdateGpuUsage(gpuUtil);
      UpdateCudaMem(cudaMem);
    }
  }

  /**
   * After n readings a buffer holds min(n, 60) of them, ending with the newest:
   * what the plot shows never grows past the last minute.
   */
  lemma WindowOfHistory(history: seq<int>)
    requires |history| >= 1
    ensures |Window(history, MaxDataPoints)| == if |history| < MaxDataPoints then |history| else MaxDataPoints
    ensures Window(history, MaxDataPoints)[|Window(history, MaxDataPoints)| - 1] == history[|history| - 1]
  {
  }
}

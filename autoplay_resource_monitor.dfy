/**
 * The resource monitor window of autoplay/ui/resource_monitor.py: five
 * non-negative rolling histories fed by the CPU and GPU sampling threads,
 * the nvidia-smi reading with its zero fallback, and the clamped inputs of
 * the two pie charts.
 */
module AutoplayMonitor {
  import opened Wrappers
  import opened Text
  import opened Numeric
  import opened RollingWindow

  /** The keys of self.data. */
  datatype Series = CpuUsage | GpuUsage | CudaMem | GpuWattage | CudaCores

  const AllSeries: set<Series> := {CpuUsage, GpuUsage, CudaMem, GpuWattage, CudaCores}

  /** total_cores: the CUDA core count of the card the monitor assumes. */
  const TotalCores: nat := 16384
  /** The card's memory in MB. */
  const TotalMemory: nat := 24576

  /**
   * What nvidia-smi gave: nothing (the call raised), or its comma-separated
   * fields, each read by float() or not readable (None).
   */
  datatype GpuQuery = QueryFailed | Reply(fields: seq<Option<real>>)

  /** (gpu_util, cuda_mem, gpu_wattage, cuda_cores) */
  datatype GpuReading = GpuReading(util: int, memUsed: int, wattage: int, cores: int)

  /** int((mem_util / 100) * total_cores) */
  function CoresEstimate(memUtil: real): (c: int)
    ensures 0.0 <= memUtil <= 100.0 ==> 0 <= c <= TotalCores
  {
    var cores := (memUtil / 100.0) * TotalCores as real;
    assert 0.0 <= memUtil <= 100.0 ==> 0.0 <= cores <= TotalCores as real;
    Trunc(cores)
  }

  predicate Readable(fields: seq<Option<real>>) {
    |fields| == 4 && forall i :: 0 <= i < 4 ==> fields[i].Some?
  }

  /**
   * GpuMonitorThread.get_gpu_usage: four readable fields give their truncated
   * values and the cores estimate; a failed call, a wrong field count or an
   * unreadable field gives (0, 0, 0, 0).
   */
  function GetGpuUsage(q: GpuQuery): (r: GpuReading)
    ensures !(q.Reply? && Readable(q.fields)) ==> r == GpuReading(0, 0, 0, 0)
    ensures q.Reply? && Readable(q.fields) ==>
      && r.util == Trunc(q.fields[0].value)
      && r.memUsed == Trunc(q.fields[1].value)
      && r.wattage == Trunc(q.fields[2].value)
      && r.cores == CoresEstimate(q.fields[3].value)
    ensures q.Reply? && Readable(q.fields) && 0.0 <= q.fields[3].value <= 100.0 ==> 0 <= r.cores <= TotalCores
  {
    match q
    case QueryFailed => GpuReading(0, 0, 0, 0)
    case Reply(fields) =>
      if |fields| != 4 || fields[0].None? || fields[1].None? || fields[2].None? || fields[3].None? then
        GpuReading(0, 0, 0, 0)
      else
        GpuReading(Trunc(fields[0].value), Trunc(fields[1].value), Trunc(fields[2].value),
                   CoresEstimate(fields[3].value))
  }

  /** The first pie: [cpu, 100 - cpu, gpu, 100 - gpu] with both readings clamped to [0, 100]. */
  function UsagePie(cpu: int, gpu: int): (slices: seq<int>)
    ensures |slices| == 4
    ensures forall i :: 0 <= i < 4 ==> 0 <= slices[i] <= 100
    ensures slices[0] + slices[1] == 100 && slices[2] + slices[3] == 100
    ensures 0 <= cpu <= 100 ==> slices[0] == cpu
    ensures 0 <= gpu <= 100 ==> slices[2] == gpu
  {
    var c := Clamp(cpu, 0, 100);
    var g := Clamp(gpu, 0, 100);
    [c, 100 - c, g, 100 - g]
  }

  /** The second pie: memory and cores used and free, each clamped to the card's capacity. */
  function CudaPie(mem: int, cores: int): (slices: seq<int>)
    ensures |slices| == 4
    ensures forall i :: 0 <= i < 4 ==> slices[i] >= 0
    ensures slices[0] + slices[1] == TotalMemory && slices[2] + slices[3] == TotalCores
    ensures 0 <= mem <= TotalMemory ==> slices[0] == mem
    ensures 0 <= cores <= TotalCores ==> slices[2] == cores
  {
    var m := Clamp(mem, 0, TotalMemory);
    var c := Clamp(cores, 0, TotalCores);
    [m, TotalMemory - m, c, TotalCores - c]
  }

  /** y + [0] * (n - len(y)) */
  function PadTo(y: seq<int>, n: nat): (r: seq<int>)
    requires |y| <= n
    ensures |r| == n
    ensures r[..|y|] == y
    ensures forall i :: |y| <= i < n ==> r[i] == 0
  {
    y + seq(n - |y|, _ => 0)
  }

  /** len(max(series, key=len)): the length of the longest list. */
  function Longest(series: seq<seq<int>>): (n: nat)
    ensures forall i :: 0 <= i < |series| ==> |series[i]| <= n
    ensures series != [] ==> exists i :: 0 <= i < |series| && |series[i]| == n
    decreases |series|
  {
    if series == [] then 0
    else
      var rest := Longest(series[1..]);
      assert forall i :: 1 <= i < |series| ==> series[i] == series[1..][i - 1];
      if |series[0]| >= rest then |series[0]| else rest
  }

  /**
   * The y values update_line_plot draws: every series padded with zeros to
   * the longest one, so that all of them share the x axis.
   */
  function LinePlot(series: seq<seq<int>>): (ys: seq<seq<int>>)
    ensures |ys| == |series|
    ensures forall i :: 0 <= i < |ys| ==> |ys[i]| == Longest(series) && ys[i][..|series[i]|] == series[i]
  {
    var n := Longest(series);
    seq(|series|, i requires 0 <= i < |series| => PadTo(series[i], n))
  }

  /** The largest entry of a non-empty list: max(data). */
  function MaxOf(s: seq<int>): (m: int)
    requires |s| >= 1
    ensures forall i :: 0 <= i < |s| ==> s[i] <= m
    ensures exists i :: 0 <= i < |s| && s[i] == m
    decreases |s|
  {
    if |s| == 1 then s[0]
    else
      var rest := MaxOf(s[1..]);
      assert forall i :: 1 <= i < |s| ==> s[i] == s[1..][i - 1];
      if s[0] >= rest then s[0] else rest
  }

  /**
   * max(max(max(data) for data in ...), 100): the top of the line plot's y
   * axis before the 10% headroom; at least 100 and at least every plotted value.
   */
  function PlotTop(series: seq<seq<int>>): (top: int)
    requires forall i :: 0 <= i < |series| ==> |series[i]| >= 1
    ensures top >= 100
    ensures forall i, j :: 0 <= i < |series| && 0 <= j < |series[i]| ==> series[i][j] <= top
    ensures top == 100 || exists i, j :: 0 <= i < |series| && 0 <= j < |series[i]| && series[i][j] == top
    decreases |series|
  {
    if series == [] then 100
    else
      var rest := PlotTop(series[1..]);
      var m := MaxOf(series[0]);
      assert forall i :: 1 <= i < |series| ==> series[i] == series[1..][i - 1];
      if m >= rest then m else rest
  }

  predicate NonNegative(s: seq<int>) {
    forall i :: 0 <= i < |s| ==> s[i] >= 0
  }

  /** One series' buffer holds the newest 60 entries of its non-empty, non-negative history. */
  ghost predicate TracksOne(data: map<Series, seq<int>>, history: map<Series, seq<int>>, k: Series) {
    && k in data && k in history
    && |history[k]| >= 1
    && NonNegative(history[k])
    && data[k] == Window(history[k], MaxDataPoints)
  }

  /** Every series is tracked, and there are no other keys. */
  ghost predicate Tracks(data: map<Series, seq<int>>, history: map<Series, seq<int>>) {
    && data.Keys == AllSeries && history.Keys == AllSeries
    && TracksOne(data, history, CpuUsage) && TracksOne(data, history, GpuUsage)
    && TracksOne(data, history, CudaMem) && TracksOne(data, history, GpuWattage)
    && TracksOne(data, history, CudaCores)
  }

  /** Pushing a non-negative reading onto one series keeps every buffer tracking its history. */
  lemma PushTracks(data: map<Series, seq<int>>, history: map<Series, seq<int>>, key: Series, v: int)
    requires Tracks(data, history) && v >= 0
    ensures Tracks(data[key := Pushed(data[key], v, MaxDataPoints)], history[key := history[key] + [v]])
  {
    PushedWindow(history[key], v, MaxDataPoints);
  }

  class ResourceMonitor {
    /** self.data */
    var data: map<Series, seq<int>>
    /** Every value update_data was given for a series, after the clamp, oldest first. */
    ghost var history: map<Series, seq<int>>
    /** The values last passed to the CPU, GPU and CUDA-memory progress bars. */
    var cpuBar: int
    var gpuBar: int
    var memoryBar: int
    var wattageLabel: string
    var coresLabel: string

    /**
     * Each buffer holds the newest (at most 60) entries of its history, and
     * every entry is non-negative.
     */
    ghost predicate Valid()
      reads this
    {
      Tracks(data, history)
    }

    /** __init__: setup_ui's labels and setup_data's five buffers holding [0]. */
    constructor ()
      ensures Valid()
      ensures forall k :: k in AllSeries ==> data[k] == [0]
      ensures wattageLabel == "GPU Power Usage: 0 W" && coresLabel == "Estimated CUDA Cores in Use: 0"
    {
      data := map[CpuUsage := [0], GpuUsage := [0], CudaMem := [0], GpuWattage := [0], CudaCores := [0]];
      history := map[CpuUsage := [0], GpuUsage := [0], CudaMem := [0], GpuWattage := [0], CudaCores := [0]];
      cpuBar, gpuBar, memoryBar := 0, 0, 0;
      wattageLabel := "GPU Power Usage: 0 W";
      coresLabel := "Estimated CUDA Cores in Use: 0";
    }

    /** Appends max(0, value) to one buffer and drops its oldest entry past 60; the others stay. */
    method UpdateData(key: Series, value: int)
      requires Valid()
      modifies this
      ensures Valid()
      ensures var v := if value > 0 then value else 0;
        && history == old(history)[key := old(history)[key] + [v]]
        && data == old(data)[key := Pushed(old(data)[key], v, MaxDataPoints)]
      ensures cpuBar == old(cpuBar) && gpuBar == old(gpuBar) && memoryBar == old(memoryBar)
      ensures wattageLabel == old(wattageLabel) && coresLabel == old(coresLabel)
    {
      var v := if value > 0 then value else 0;
      PushTracks(data, history, key, v);
      data := data[key := Pushed(data[key], v, MaxDataPoints)];
      history := history[key := history[key] + [v]];
    }

    /** The CPU thread's slot. */
    method UpdateCpuUsage(cpuUtil: int)
      requires Valid()
      modifies this
      ensures Valid()
      ensures cpuBar == cpuUtil
      ensures data == old(data)[CpuUsage := Pushed(old(data)[CpuUsage], if cpuUtil > 0 then cpuUtil else 0, MaxDataPoints)]
      ensures gpuBar == old(gpuBar) && memoryBar == old(memoryBar)
      ensures wattageLabel == old(wattageLabel) && coresLabel == old(coresLabel)
    {
      cpuBar := cpuUtil;
      UpdateData(CpuUsage, cpuUtil);
    }

    /**
     * The GPU thread's slot: the bars and labels show the reading (memory
     * capped at 24576 MB) and each of the four values goes to its own buffer.
     */
    method UpdateGpuData(reading: GpuReading)
      requires Valid()
      modifies this
      ensures Valid()
      ensures gpuBar == reading.util
      ensures memoryBar == if reading.memUsed < TotalMemory then reading.memUsed else TotalMemory
      ensures wattageLabel == "GPU Power Usage: " + IntToString(reading.wattage) + " W"
      ensures coresLabel == "Estimated CUDA Cores in Use: " + IntToString(reading.cores)
      ensures cpuBar == old(cpuBar)
      ensures data[CpuUsage] == old(data)[CpuUsage]
      ensures data[GpuUsage] == Pushed(old(data)[GpuUsage], if reading.util > 0 then reading.util else 0, MaxDataPoints)
      ensures data[CudaMem] == Pushed(old(data)[CudaMem], if reading.memUsed > 0 then reading.memUsed else 0, MaxDataPoints)
      ensures data[GpuWattage] == Pushed(old(data)[GpuWattage], if reading.wattage > 0 then reading.wattage else 0, MaxDataPoints)
      ensures data[CudaCores] == Pushed(old(data)[CudaCores], if reading.cores > 0 then reading.cores else 0, MaxDataPoints)
    {
      ShowReading(reading);
      PushReading(reading);
    }

    /** The bars and labels of update_gpu_data; the buffers stay. */
    method ShowReading(reading: GpuReading)
      modifies this
      ensures gpuBar == reading.util
      ensures memoryBar == if reading.memUsed < TotalMemory then reading.memUsed else TotalMemory
      ensures wattageLabel == "GPU Power Usage: " + IntToString(reading.wattage) + " W"
      ensures coresLabel == "Estimated CUDA Cores in Use: " + IntToString(reading.cores)
      ensures cpuBar == old(cpuBar) && data == old(data) && history == old(history)
    {
      gpuBar := reading.util;
      memoryBar := if reading.memUsed < TotalMemory then reading.memUsed else TotalMemory;
      wattageLabel := "GPU Power Usage: " + IntToString(reading.wattage) + " W";
      coresLabel := "Estimated CUDA Cores in Use: " + IntToString(reading.cores);
    }

    /** The four update_data calls of update_gpu_data, one buffer each; the bars and labels stay. */
    method PushReading(reading: GpuReading)
      requires Valid()
      modifies this
      ensures Valid()
      ensures cpuBar == old(cpuBar) && gpuBar == old(gpuBar) && memoryBar == old(memoryBar)
      ensures wattageLabel == old(wattageLabel) && coresLabel == old(coresLabel)
      ensures data[CpuUsage] == old(data)[CpuUsage]
      ensures data[GpuUsage] == Pushed(old(data)[GpuUsage], if reading.util > 0 then reading.util else 0, MaxDataPoints)
      ensures data[CudaMem] == Pushed(old(data)[CudaMem], if reading.memUsed > 0 then reading.memUsed else 0, MaxDataPoints)
      ensures data[GpuWattage] == Pushed(old(data)[GpuWattage], if reading.wattage > 0 then reading.wattage else 0, MaxDataPoints)
      ensures data[CudaCores] == Pushed(old(data)[CudaCores], if reading.cores > 0 then reading.cores else 0, MaxDataPoints)
    {
      UpdateData(GpuUsage, reading.util);
      UpdateData(CudaMem, reading.memUsed);
      UpdateData(GpuWattage, reading.wattage);
      UpdateData(CudaCores, reading.cores);
    }

    /** One pass of GpuMonitorThread.run: sample nvidia-smi and deliver the reading. */
    method GpuTick(q: GpuQuery)
      requires Valid()
      modifies this
      ensures Valid()
      ensures gpuBar == GetGpuUsage(q).util && cpuBar == old(cpuBar)
      ensures memoryBar == if GetGpuUsage(q).memUsed < TotalMemory then GetGpuUsage(q).memUsed else TotalMemory
      ensures wattageLabel == "GPU Power Usage: " + IntToString(GetGpuUsage(q).wattage) + " W"
      ensures coresLabel == "Estimated CUDA Cores in Use: " + IntToString(GetGpuUsage(q).cores)
      ensures data[CpuUsage] == old(data)[CpuUsage]
      ensures data[GpuUsage] == Pushed(old(data)[GpuUsage], (if GetGpuUsage(q).util > 0 then GetGpuUsage(q).util else 0), MaxDataPoints)
      ensures data[CudaMem] == Pushed(old(data)[CudaMem], (if GetGpuUsage(q).memUsed > 0 then GetGpuUsage(q).memUsed else 0), MaxDataPoints)
      ensures data[GpuWattage] == Pushed(old(data)[GpuWattage], (if GetGpuUsage(q).wattage > 0 then GetGpuUsage(q).wattage else 0), MaxDataPoints)
      ensures data[CudaCores] == Pushed(old(data)[CudaCores], (if GetGpuUsage(q).cores > 0 then GetGpuUsage(q).cores else 0), MaxDataPoints)
    {
      UpdateGpuData(GetGpuUsage(q));
    }

    /** The two pies, from the newest entry of each buffer. */
    function PieCharts(): (pies: (seq<int>, seq<int>))
      requires Valid()
      reads this
      ensures |pies.0| == 4 && |pies.1| == 4
      ensures forall i :: 0 <= i < 4 ==> pies.0[i] >= 0 && pies.1[i] >= 0
    {
      var cpu, gpu := data[CpuUsage], data[GpuUsage];
      var mem, cores := data[CudaMem], data[CudaCores];
      (UsagePie(cpu[|cpu| - 1], gpu[|gpu| - 1]), CudaPie(mem[|mem| - 1], cores[|cores| - 1]))
    }

    /** The five lists update_line_plot draws, in legend order. */
    function PlotData(): (ys: seq<seq<int>>)
      requires Valid()
      reads this
      ensures |ys| == 5
      ensures forall i :: 0 <= i < 5 ==> |ys[i]| <= MaxDataPoints
    {
      var series := [data[CpuUsage], data[GpuUsage], data[CudaMem], data[GpuWattage], data[CudaCores]];
      LinePlot(series)
    }
  }

  /** Every buffer stays within 60 entries and holds only non-negative values. */
  lemma BuffersBounded(data: map<Series, seq<int>>, history: map<Series, seq<int>>, k: Series)
    requires k in data && k in history && NonNegative(history[k])
    requires data[k] == Window(history[k], MaxDataPoints)
    ensures |data[k]| <= MaxDataPoints
    ensures NonNegative(data[k])
  {
    var h := history[k];
    if |h| > MaxDataPoints {
      forall i | 0 <= i < |data[k]| ensures data[k][i] >= 0 {
        assert data[k][i] == h[|h| - MaxDataPoints + i];
      }
    }
  }
}

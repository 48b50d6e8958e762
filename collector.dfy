/**
 * The collector object (`Model` in model.py): the state the three collection
 * loops keep between passes, and one pass of each loop.  File access goes
 * through the `Proc` snapshot, and the clock is the reading `now` taken for
 * the pass.
 */
module Collector {
  import opened Text
  import opened Wrappers
  import opened Records
  import opened ProcFs
  import opened Helpers
  import opened StatusFile
  import opened CpuRate
  import opened Rounding
  import opened Subscriptions
  import opened Ticks
  import opened SystemStats

  class Model {
    /** `_prev_proc_data`: baselines of processes, shared by the general and the specific loop. */
    var prevProc: map<nat, Baseline>
    /** `_prev_thrd_data`: baselines of threads. */
    var prevThrd: map<nat, Baseline>
    /** `_processes_dict` */
    var processes: map<nat, ProcessRow>
    /** `_specific_processes_dict` */
    var specific: Subs
    /** `_general_stats_list` */
    var generalStats: GeneralStats
    /** `specific_processes_req_queue`, shared with the view. */
    const requests: RequestQueue

    predicate Valid()
      reads this
    {
      specific.Valid()
    }

    constructor (requests: RequestQueue)
      ensures Valid() && this.requests == requests
      ensures prevProc == map[] && prevThrd == map[] && processes == map[]
      ensures specific == NoSubs && generalStats == NoStats
    {
      this.requests := requests;
      prevProc, prevThrd, processes := map[], map[], map[];
      specific, generalStats := NoSubs, NoStats;
    }

    /**
     * `_get_cpu_usage_process`: the CPU percentage of `id` since its last
     * sample, replacing the baseline of `id` in the process or thread table.
     */
    method CpuUsageProcess(id: nat, totalTime: int, now: real, isThread: bool) returns (cpuUsage: real)
      modifies this
      ensures cpuUsage == CpuPercent(if isThread then old(prevThrd) else old(prevProc), id, totalTime, now)
      ensures prevThrd == if isThread then old(prevThrd)[id := Baseline(totalTime, now)] else old(prevThrd)
      ensures prevProc == if isThread then old(prevProc) else old(prevProc)[id := Baseline(totalTime, now)]
      ensures processes == old(processes) && specific == old(specific) && generalStats == old(generalStats)
    {
      var prev := if isThread then prevThrd else prevProc;
      var b := if id in prev then prev[id] else Baseline(0, now);
      var deltaCpuTime := (totalTime - b.ticks) as real / ClockTicksPerSecond as real;
      var elapsedTime := now - b.time;
      if isThread {
        prevThrd := prevThrd[id := Baseline(totalTime, now)];
      } else {
        prevProc := prevProc[id := Baseline(totalTime, now)];
      }
      if elapsedTime <= 0.0 {
        return 0.0;
      }
      cpuUsage := Round2(deltaCpuTime / elapsedTime * 100.0);
    }

    /** `_get_processes_data`: one pass of the general process list. */
    method GetProcessesData(fs: Proc, now: real) returns (rows: map<nat, ProcessRow>)
      requires ProcessFilesWellFormed(fs)
      modifies this
      ensures ProcScan(processes, prevProc) == ProcessesScan(fs, now, old(prevProc), ListDir(fs, ProcRoot))
      ensures rows == processes
      ensures prevThrd == old(prevThrd) && specific == old(specific) && generalStats == old(generalStats)
    {
      processes := map[];
      var entries := ListDirectory(fs, ProcRoot);
      for i := 0 to |entries|
        invariant ProcScan(processes, prevProc) == ProcessesScan(fs, now, old(prevProc), entries[..i])
        invariant prevThrd == old(prevThrd) && specific == old(specific) && generalStats == old(generalStats)
      {
        PrefixStep(entries, i);
        ProcessEntry(fs, now, entries[i]);
      }
      assert entries[..|entries|] == entries;
      rows := processes;
    }

    /** The body of the loop of `_get_processes_data` for one entry of /proc. */
    method ProcessEntry(fs: Proc, now: real, entry: string)
      requires ProcessFilesWellFormed(fs)
      modifies this
      ensures ProcScan(processes, prevProc) == ProcessStep(fs, now, old(ProcScan(processes, prevProc)), entry)
      ensures prevThrd == old(prevThrd) && specific == old(specific) && generalStats == old(generalStats)
    {
      if IsDigits(entry) && StatusPath(entry) in fs.files {
        assert ProcessEntryWellFormed(fs, entry);
        var pid := ParseNat(entry);
        var info := ScanStatus(Lines(ReadFile(fs, StatusPath(entry))));
        if StatPath(entry) in fs.files {
          var data := ReadFile(fs, StatPath(entry));
          var priority := StatPriority(data);
          var totalTime := StatTicks(data);
          assert totalTime == ProcessTicks(fs, entry);
          var cpuUsage := CpuUsageProcess(pid, totalTime, now, false);
          var row := ProcessRow(pid, info.name.GetOr("N/A"), UserOf(fs, info.uid), priority,
                                QuantityOf(info.vmRss), cpuUsage, info.state.GetOr("N/A"));
          assert row == ProcessRowOf(fs, entry, cpuUsage);
          processes := processes[pid := row];
        }
      }
    }

    /** `_get_threads_data`: the threads of `pid`, each sampled against its own baseline. */
    method GetThreadsData(fs: Proc, now: real, pid: nat) returns (threads: seq<ThreadRow>)
      requires TaskFilesWellFormed(fs, NatToString(pid))
      modifies this
      ensures ThreadScan(threads, prevThrd) == ThreadsScan(fs, now, NatToString(pid), old(prevThrd), ListDir(fs, TaskDir(pid)))
      ensures prevProc == old(prevProc) && processes == old(processes)
      ensures specific == old(specific) && generalStats == old(generalStats)
    {
      threads := [];
      var pidText := NatToString(pid);
      var entries := ListDirectory(fs, TaskDir(pid));
      for i := 0 to |entries|
        invariant ThreadScan(threads, prevThrd) == ThreadsScan(fs, now, pidText, old(prevThrd), entries[..i])
        invariant prevProc == old(prevProc) && processes == old(processes)
        invariant specific == old(specific) && generalStats == old(generalStats)
      {
        PrefixStep(entries, i);
        threads := ThreadEntry(fs, now, pidText, threads, entries[i]);
      }
      assert entries[..|entries|] == entries;
    }

    /** The body of the loop of `_get_threads_data` for one entry of the task directory. */
    method ThreadEntry(fs: Proc, now: real, pidText: string, threads: seq<ThreadRow>, entry: string)
      returns (threads': seq<ThreadRow>)
      requires TaskFilesWellFormed(fs, pidText)
      modifies this
      ensures ThreadScan(threads', prevThrd) == ThreadStep(fs, now, pidText, ThreadScan(threads, old(prevThrd)), entry)
      ensures prevProc == old(prevProc) && processes == old(processes)
      ensures specific == old(specific) && generalStats == old(generalStats)
    {
      threads' := threads;
      if IsDigits(entry) && ThreadStatusPath(pidText, entry) in fs.files {
        assert ThreadEntryWellFormed(fs, pidText, entry);
        var tid := ParseNat(entry);
        var info := ScanStatus(Lines(ReadFile(fs, ThreadStatusPath(pidText, entry))));
        var statPath := ThreadStatPath(pidText, NatToString(tid));
        if statPath in fs.files {
          assert ThreadEntryWellFormed(fs, pidText, NatToString(tid));
          var totalTime := StatTicks(ReadFile(fs, statPath));
          assert totalTime == ThreadTicks(fs, pidText, entry);
          var cpuUsage := CpuUsageProcess(tid, totalTime, now, true);
          var row := ThreadRow(tid, info.name.value, UidToUsername(fs, info.uid.value),
                               KbToQuantity(info.vmRss.value), cpuUsage, info.state.value);
          assert row == ThreadRowFor(fs, pidText, entry, cpuUsage);
          threads' := threads + [row];
        }
      }
    }

    /**
     * The `try` block of `_get_specific_processes_data` for one pid: the full
     * record when cmdline, status and stat all open, else the tombstone.
     */
    method ReadPid(fs: Proc, now: real, pid: nat) returns (entry: DetailEntry)
      requires PidFilesWellFormed(fs, pid)
      modifies this
      ensures PidRead(entry, prevProc, prevThrd) == ReadTracked(fs, now, pid, old(prevProc), old(prevThrd))
      ensures processes == old(processes) && specific == old(specific) && generalStats == old(generalStats)
    {
      var t := NatToString(pid);
      entry := Tombstone;
      if CmdlinePath(t) in fs.files {
        var command := CommandText(ReadFile(fs, CmdlinePath(t)));
        if StatusPath(t) in fs.files {
          assert ProcessEntryWellFormed(fs, t);
          var info := ScanStatus(Lines(ReadFile(fs, StatusPath(t))));
          if StatPath(t) in fs.files {
            var data := ReadFile(fs, StatPath(t));
            var totalTime := StatTicks(data);
            var cpuUsage := CpuUsageProcess(pid, totalTime, now, false);
            var processorTime := SecondsToHhmmss(totalTime as real / ClockTicksPerSecond as real);
            var priority := StatPriority(data);
            var nice := StatNice(data);
            var threads := GetThreadsData(fs, now, pid);
            entry := Detail(ProcessDetail(
              pid, info.ppid, info.name.GetOr("N/A"), UserOf(fs, info.uid), cpuUsage,
              info.state.GetOr("N/A"), info.threads.GetOr(0), priority, nice, processorTime, command,
              QuantityOf(info.vmSize), QuantityOf(info.vmRss), QuantityOf(info.rssShmem),
              QuantityOf(info.vmExe), QuantityOf(info.vmData), QuantityOf(info.vmStk), threads));
            assert entry == Detail(DetailOf(fs, pid, cpuUsage, threads));
          }
        }
      }
    }

    /** `_get_specific_processes_data`: one pass over the tracked pids, in insertion order. */
    method GetSpecificProcessesData(fs: Proc, now: real) returns (entries: map<nat, DetailEntry>)
      requires Valid() && TrackedFilesWellFormed(fs, specific.order)
      modifies this
      ensures Valid()
      ensures var r := SpecificScan(fs, now, old(specific.order), old(prevProc), old(prevThrd));
        specific == Subs(old(specific.order), r.entries) && prevProc == r.prevProc && prevThrd == r.prevThrd
      ensures entries == specific.entries
      ensures processes == old(processes) && generalStats == old(generalStats)
    {
      var pids := specific.order;
      specific := NoSubs;
      for i := 0 to |pids|
        invariant var r := SpecificScan(fs, now, pids[..i], old(prevProc), old(prevThrd));
          specific == Subs(pids[..i], r.entries) && prevProc == r.prevProc && prevThrd == r.prevThrd
        invariant processes == old(processes) && generalStats == old(generalStats)
      {
        var pid := pids[i];
        PrefixStep(pids, i);
        ghost var before := SpecificScan(fs, now, pids[..i], old(prevProc), old(prevThrd));
        var entry := ReadPid(fs, now, pid);
        ghost var step := ReadTracked(fs, now, pid, before.prevProc, before.prevThrd);
        assert SpecificScan(fs, now, pids[..i + 1], old(prevProc), old(prevThrd))
            == SpecScan(before.entries[pid := step.entry], step.prevProc, step.prevThrd);
        specific := Subs(specific.order + [pid], specific.entries[pid := entry]);
      }
      assert pids[..|pids|] == pids;
      entries := specific.entries;
    }

    /** The drain loop at the top of each pass of `_list_specific_processes`. */
    method DrainRequests()
      requires Valid()
      modifies this, requests
      ensures Valid()
      ensures specific == ApplyRequests(old(specific), old(requests.items))
      ensures requests.items == []
      ensures prevProc == old(prevProc) && prevThrd == old(prevThrd)
      ensures processes == old(processes) && generalStats == old(generalStats)
    {
      while requests.items != []
        invariant Valid()
        invariant ApplyRequests(specific, requests.items) == ApplyRequests(old(specific), old(requests.items))
        invariant prevProc == old(prevProc) && prevThrd == old(prevThrd)
        invariant processes == old(processes) && generalStats == old(generalStats)
        decreases |requests.items|
      {
        ghost var before := specific;
        var r := requests.Get();
        if r.op == AddOp {
          if r.pid !in specific.entries {
            specific := Subs(specific.order + [r.pid], specific.entries[r.pid := Pending]);
          }
        } else if r.op == RemoveOp {
          if r.pid in specific.entries {
            specific := Subs(Without(specific.order, r.pid), specific.entries - {r.pid});
          }
        }
        assert specific == ApplyRequest(before, r);
      }
    }

    /** One pass of `_list_specific_processes`: drain the requests, then read every tracked pid. */
    method SpecificPass(fs: Proc, now: real) returns (entries: map<nat, DetailEntry>)
      requires Valid() && TrackedFilesWellFormed(fs, ApplyRequests(specific, requests.items).order)
      modifies this, requests
      ensures Valid() && requests.items == []
      ensures var drained := ApplyRequests(old(specific), old(requests.items));
        var r := SpecificScan(fs, now, drained.order, old(prevProc), old(prevThrd));
        specific == Subs(drained.order, r.entries) && prevProc == r.prevProc && prevThrd == r.prevThrd
      ensures entries == specific.entries
    {
      DrainRequests();
      entries := GetSpecificProcessesData(fs, now);
    }

    /** `_get_general_stats_data`: the eleven system figures, or `[]` when a system file is missing. */
    method GetGeneralStatsData(fs: Proc) returns (stats: GeneralStats)
      requires SystemFilesWellFormed(fs)
      modifies this
      ensures generalStats == GeneralStatsOf(fs) && stats == generalStats
      ensures prevProc == old(prevProc) && prevThrd == old(prevThrd)
      ensures processes == old(processes) && specific == old(specific)
    {
      stats := ReadGeneralStats(fs);
      generalStats := stats;
    }
  }

  /** The reads and the arithmetic of `_get_general_stats_data`, in the order the source does them. */
  method ReadGeneralStats(fs: Proc) returns (stats: GeneralStats)
    requires SystemFilesWellFormed(fs)
    ensures stats == GeneralStatsOf(fs)
  {
    if MeminfoPath !in fs.files {
      return NoStats;
    }
    assert MeminfoWellFormed(fs.files[MeminfoPath]);
    var mem := ScanMeminfo(Lines(ReadFile(fs, MeminfoPath)));
    var figures := MemoryFiguresOf(mem);
    if LoadavgPath !in fs.files {
      return NoStats;
    }
    var loadAvg := LoadAvgOf(ReadFile(fs, LoadavgPath));
    if UptimePath !in fs.files {
      return NoStats;
    }
    var uptime := UptimeOf(ReadFile(fs, UptimePath));
    var cpuUsage := GetCpuUsageSystem(fs);
    var numProcs, numThreads := GetTotalThrProcs(fs);
    stats := Stats(
      KbToQuantity(figures.totalMemory), KbToQuantity(figures.usedMemory), figures.memoryUsage,
      KbToQuantity(figures.totalSwap), KbToQuantity(figures.usedSwap), figures.swapUsage,
      cpuUsage, numProcs, numThreads, loadAvg, uptime);
  }
}

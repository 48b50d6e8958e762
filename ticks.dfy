/**
 * What one pass of each collection loop computes, written as folds over the
 * directory entries (or tracked pids) in order.  Each fold carries the CPU
 * baselines along, since every sampled process or thread updates its own
 * baseline before the next one is read.
 */
module Ticks {
  import opened Text
  import opened Wrappers
  import opened Records
  import opened ProcFs
  import opened Helpers
  import opened StatusFile
  import opened CpuRate
  import Subscriptions

  /** A memory size read from a status line, "N/A" when the line was absent. */
  function QuantityOf(kb: Option<int>): Quantity {
    if kb.Some? then KbToQuantity(kb.value) else NotAvailable
  }

  /** The user name for the uid of a status file, "N/A" when it had no `Uid:` line. */
  function UserOf(fs: Proc, uid: Option<string>): string {
    if uid.Some? then UidToUsername(fs, uid.value) else "N/A"
  }

  // ------------------------------------------------------ general process list

  /** An entry `_get_processes_data` reports: numeric, with status and stat files present. */
  predicate Reported(fs: Proc, e: string) {
    IsDigits(e) && StatusPath(e) in fs.files && StatPath(e) in fs.files
  }

  /** The row of one reported process. */
  function ProcessRowOf(fs: Proc, e: string, cpu: real): (row: ProcessRow)
    requires ProcessEntryWellFormed(fs, e) && Reported(fs, e)
    ensures row.pid == ParseNat(e) && row.cpu == cpu
  {
    var info := ScanLines(Lines(fs.files[StatusPath(e)]));
    ProcessRow(ParseNat(e), info.name.GetOr("N/A"), UserOf(fs, info.uid),
               StatPriority(fs.files[StatPath(e)]), QuantityOf(info.vmRss), cpu, info.state.GetOr("N/A"))
  }

  /** `int(data[13]) + int(data[14])` of a reported process's stat file. */
  function ProcessTicks(fs: Proc, e: string): int
    requires ProcessEntryWellFormed(fs, e) && StatPath(e) in fs.files
  {
    StatTicks(fs.files[StatPath(e)])
  }

  datatype ProcScan = ProcScan(rows: map<nat, ProcessRow>, prev: map<nat, Baseline>)

  /** One entry of /proc in `_get_processes_data`: a row and a fresh baseline for a reported process. */
  function ProcessStep(fs: Proc, now: real, r: ProcScan, e: string): (s: ProcScan)
    requires ProcessFilesWellFormed(fs)
    ensures !Reported(fs, e) ==> s == r
    ensures Reported(fs, e) ==>
      && ProcessEntryWellFormed(fs, e)
      && s.rows.Keys == r.rows.Keys + {ParseNat(e)}
      && s.prev == r.prev[ParseNat(e) := Baseline(ProcessTicks(fs, e), now)]
      && s.rows[ParseNat(e)].cpu == CpuPercent(r.prev, ParseNat(e), ProcessTicks(fs, e), now)
      && (forall k :: k in r.rows && k != ParseNat(e) ==> s.rows[k] == r.rows[k])
    ensures (forall k :: k in r.rows ==> r.rows[k].pid == k) ==> forall k :: k in s.rows ==> s.rows[k].pid == k
  {
    if !Reported(fs, e) then r
    else
      assert ProcessEntryWellFormed(fs, e);
      var pid := ParseNat(e);
      var ticks := ProcessTicks(fs, e);
      var row := ProcessRowOf(fs, e, CpuPercent(r.prev, pid, ticks, now));
      ProcScan(r.rows[pid := row], r.prev[pid := Baseline(ticks, now)])
  }

  /**
   * `_get_processes_data` over the entries of /proc at clock `now`: the rows
   * and the process baselines afterwards.  Every row is keyed by its own pid.
   */
  function ProcessesScan(fs: Proc, now: real, prev: map<nat, Baseline>, entries: seq<string>): (r: ProcScan)
    requires ProcessFilesWellFormed(fs)
    ensures forall k :: k in r.rows ==> r.rows[k].pid == k
  {
    if entries == [] then ProcScan(map[], prev)
    else ProcessStep(fs, now, ProcessesScan(fs, now, prev, entries[..|entries| - 1]), entries[|entries| - 1])
  }

  /**
   * Every reported pid gets a fresh baseline taken at `now`; the baselines of
   * all other pids are kept as they were.
   */
  lemma {:induction false} ProcessesScanBaselines(fs: Proc, now: real, prev: map<nat, Baseline>, entries: seq<string>)
    requires ProcessFilesWellFormed(fs)
    ensures var r := ProcessesScan(fs, now, prev, entries);
      && r.prev.Keys == prev.Keys + r.rows.Keys
      && (forall k :: k in r.rows ==> r.prev[k].time == now)
      && (forall k :: k in prev && k !in r.rows ==> r.prev[k] == prev[k])
  {
    if entries != [] {
      var init := entries[..|entries| - 1];
      ProcessesScanBaselines(fs, now, prev, init);
      assert ProcessesScan(fs, now, prev, entries)
          == ProcessStep(fs, now, ProcessesScan(fs, now, prev, init), entries[|entries| - 1]);
    }
  }

  /**
   * A pid has a row exactly when some numeric entry names it and both its
   * status and stat files could be opened; vanished processes are left out.
   */
  lemma {:induction false} ProcessesScanKeys(fs: Proc, now: real, prev: map<nat, Baseline>, entries: seq<string>, pid: nat)
    requires ProcessFilesWellFormed(fs)
    ensures pid in ProcessesScan(fs, now, prev, entries).rows <==>
      exists j :: 0 <= j < |entries| && Reported(fs, entries[j]) && ParseNat(entries[j]) == pid
  {
    if entries != [] {
      var init := entries[..|entries| - 1];
      ProcessesScanKeys(fs, now, prev, init, pid);
      assert ProcessesScan(fs, now, prev, entries)
          == ProcessStep(fs, now, ProcessesScan(fs, now, prev, init), entries[|entries| - 1]);
      if exists j :: 0 <= j < |init| && Reported(fs, init[j]) && ParseNat(init[j]) == pid {
        var j :| 0 <= j < |init| && Reported(fs, init[j]) && ParseNat(init[j]) == pid;
        assert entries[j] == init[j];
      }
      if exists j :: 0 <= j < |entries| && Reported(fs, entries[j]) && ParseNat(entries[j]) == pid {
        var j :| 0 <= j < |entries| && Reported(fs, entries[j]) && ParseNat(entries[j]) == pid;
        if j < |init| {
          assert init[j] == entries[j];
        }
      }
    }
  }

  // ---------------------------------------------------------------- threads

  /** A thread entry `_get_threads_data` reports: numeric, with status and stat files present. */
  predicate ThreadReported(fs: Proc, pidText: string, e: string) {
    IsDigits(e) && ThreadStatusPath(pidText, e) in fs.files
    && ThreadStatPath(pidText, NatToString(ParseNat(e))) in fs.files
  }

  /** The row of one reported thread. */
  function ThreadRowOf(fs: Proc, tid: nat, info: StatusInfo, cpu: real): (row: ThreadRow)
    requires info.name.Some? && info.state.Some? && info.uid.Some? && info.vmRss.Some?
    ensures row.tid == tid && row.cpu == cpu
  {
    ThreadRow(tid, info.name.value, UidToUsername(fs, info.uid.value),
              KbToQuantity(info.vmRss.value), cpu, info.state.value)
  }

  datatype ThreadScan = ThreadScan(rows: seq<ThreadRow>, prev: map<nat, Baseline>)

  /** `int(data[13]) + int(data[14])` of a reported thread's stat file. */
  function ThreadTicks(fs: Proc, pidText: string, e: string): int
    requires TaskFilesWellFormed(fs, pidText) && ThreadReported(fs, pidText, e)
  {
    var statPath := ThreadStatPath(pidText, NatToString(ParseNat(e)));
    assert ThreadEntryWellFormed(fs, pidText, NatToString(ParseNat(e)));
    StatTicks(fs.files[statPath])
  }

  /** The row of a reported thread, sampled at `cpu` percent. */
  function ThreadRowFor(fs: Proc, pidText: string, e: string, cpu: real): (row: ThreadRow)
    requires TaskFilesWellFormed(fs, pidText) && ThreadReported(fs, pidText, e)
    ensures row.tid == ParseNat(e) && row.cpu == cpu
  {
    assert ThreadEntryWellFormed(fs, pidText, e);
    ThreadRowOf(fs, ParseNat(e), ScanLines(Lines(fs.files[ThreadStatusPath(pidText, e)])), cpu)
  }

  /** One entry of the task directory in `_get_threads_data`: a row and a fresh baseline for a reported thread. */
  function ThreadStep(fs: Proc, now: real, pidText: string, r: ThreadScan, e: string): (s: ThreadScan)
    requires TaskFilesWellFormed(fs, pidText)
    ensures !ThreadReported(fs, pidText, e) ==> s == r
    ensures ThreadReported(fs, pidText, e) ==>
      && |s.rows| == |r.rows| + 1 && s.rows == r.rows + [s.rows[|r.rows|]] && s.rows[|r.rows|].tid == ParseNat(e)
      && s.prev == r.prev[ParseNat(e) := Baseline(ThreadTicks(fs, pidText, e), now)]
      && s.rows[|r.rows|] == ThreadRowFor(fs, pidText, e, CpuPercent(r.prev, ParseNat(e), ThreadTicks(fs, pidText, e), now))
  {
    if !ThreadReported(fs, pidText, e) then r
    else
      var tid := ParseNat(e);
      var ticks := ThreadTicks(fs, pidText, e);
      var row := ThreadRowFor(fs, pidText, e, CpuPercent(r.prev, tid, ticks, now));
      ThreadScan(r.rows + [row], r.prev[tid := Baseline(ticks, now)])
  }

  /**
   * `_get_threads_data` over the entries of `/proc/<pid>/task`: the rows,
   * in directory order, and the thread baselines afterwards.
   */
  function ThreadsScan(fs: Proc, now: real, pidText: string, prev: map<nat, Baseline>, entries: seq<string>): (r: ThreadScan)
    requires TaskFilesWellFormed(fs, pidText)
    ensures |r.rows| <= |entries|
    ensures forall k :: 0 <= k < |r.rows| ==> r.rows[k].tid in r.prev && r.prev[r.rows[k].tid].time == now
    ensures forall t :: t in prev ==> t in r.prev
  {
    if entries == [] then ThreadScan([], prev)
    else
      var r := ThreadsScan(fs, now, pidText, prev, entries[..|entries| - 1]);
      var e := entries[|entries| - 1];
      var s := ThreadStep(fs, now, pidText, r, e);
      assert forall k :: 0 <= k < |s.rows| ==> s.rows[k].tid in s.prev && s.prev[s.rows[k].tid].time == now by {
        if ThreadReported(fs, pidText, e) {
          forall k | 0 <= k < |s.rows|
            ensures s.rows[k].tid in s.prev && s.prev[s.rows[k].tid].time == now
          {
            if k < |r.rows| {
              assert s.rows[k] == r.rows[k];
            }
          }
        }
      }
      s
  }

  /** The thread ids of the reported entries, in directory order: the reference the rows are checked against. */
  function ReportedTids(fs: Proc, pidText: string, entries: seq<string>): seq<nat> {
    if entries == [] then []
    else
      var rest := ReportedTids(fs, pidText, entries[..|entries| - 1]);
      var e := entries[|entries| - 1];
      if ThreadReported(fs, pidText, e) then rest + [ParseNat(e)] else rest
  }

  function TidsOf(rows: seq<ThreadRow>): (tids: seq<nat>)
    ensures |tids| == |rows|
    ensures forall k :: 0 <= k < |rows| ==> tids[k] == rows[k].tid
  {
    if rows == [] then [] else TidsOf(rows[..|rows| - 1]) + [rows[|rows| - 1].tid]
  }

  /** One row per reported thread entry, in directory order; vanished threads are left out. */
  lemma {:induction false} ThreadsScanTids(fs: Proc, now: real, pidText: string, prev: map<nat, Baseline>, entries: seq<string>)
    requires TaskFilesWellFormed(fs, pidText)
    ensures TidsOf(ThreadsScan(fs, now, pidText, prev, entries).rows) == ReportedTids(fs, pidText, entries)
  {
    if entries != [] {
      var init := entries[..|entries| - 1];
      ThreadsScanTids(fs, now, pidText, prev, init);
      var r := ThreadsScan(fs, now, pidText, prev, init);
      var e := entries[|entries| - 1];
      if ThreadReported(fs, pidText, e) {
        var rows := ThreadStep(fs, now, pidText, r, e).rows;
        assert rows == r.rows + [rows[|r.rows|]];
      }
    }
  }

  // ------------------------------------------------------- tracked processes

  /** The three files of a tracked process that the specific tick opens. */
  predicate Readable(fs: Proc, pid: nat) {
    var t := NatToString(pid);
    CmdlinePath(t) in fs.files && StatusPath(t) in fs.files && StatPath(t) in fs.files
  }

  /** The 18 fields of a tracked process whose three files could be read. */
  function DetailOf(fs: Proc, pid: nat, cpu: real, threads: seq<ThreadRow>): (d: ProcessDetail)
    requires ProcessEntryWellFormed(fs, NatToString(pid)) && Readable(fs, pid)
    ensures d.pid == pid && d.cpu == cpu && d.threads == threads
  {
    var t := NatToString(pid);
    var info := ScanLines(Lines(fs.files[StatusPath(t)]));
    var stat := fs.files[StatPath(t)];
    ProcessDetail(
      pid, info.ppid, info.name.GetOr("N/A"), UserOf(fs, info.uid), cpu,
      info.state.GetOr("N/A"), info.threads.GetOr(0), StatPriority(stat), StatNice(stat),
      SecondsToHhmmss(StatTicks(stat) as real / ClockTicksPerSecond as real),
      CommandText(fs.files[CmdlinePath(t)]),
      QuantityOf(info.vmSize), QuantityOf(info.vmRss), QuantityOf(info.rssShmem),
      QuantityOf(info.vmExe), QuantityOf(info.vmData), QuantityOf(info.vmStk),
      threads)
  }

  /** What reading one tracked pid yields: its entry and the baselines afterwards. */
  datatype PidRead = PidRead(entry: DetailEntry, prevProc: map<nat, Baseline>, prevThrd: map<nat, Baseline>)

  /**
   * The `try` block of `_get_specific_processes_data` for one pid: the full
   * record when cmdline, status and stat can all be opened (sampling the
   * process and then its threads), otherwise the tombstone, with no
   * baseline touched.
   */
  function ReadTracked(fs: Proc, now: real, pid: nat, prevProc: map<nat, Baseline>, prevThrd: map<nat, Baseline>): (res: PidRead)
    requires PidFilesWellFormed(fs, pid)
    ensures res.entry.Tombstone? <==> !Readable(fs, pid)
    ensures !res.entry.Pending?
    ensures res.entry.Detail? ==> res.entry.detail.pid == pid
    ensures !Readable(fs, pid) ==> res.prevProc == prevProc && res.prevThrd == prevThrd
    ensures Readable(fs, pid) ==>
      var t := NatToString(pid);
      var ticks := ProcessTicks(fs, t);
      var ts := ThreadsScan(fs, now, t, prevThrd, ListDir(fs, TaskDir(pid)));
      && res.prevProc == prevProc[pid := Baseline(ticks, now)]
      && res.prevThrd == ts.prev
      && res.entry == Detail(DetailOf(fs, pid, CpuPercent(prevProc, pid, ticks, now), ts.rows))
  {
    if !Readable(fs, pid) then PidRead(Tombstone, prevProc, prevThrd)
    else
      var t := NatToString(pid);
      var ticks := ProcessTicks(fs, t);
      var cpu := CpuPercent(prevProc, pid, ticks, now);
      var threads := ThreadsScan(fs, now, t, prevThrd, ListDir(fs, TaskDir(pid)));
      PidRead(Detail(DetailOf(fs, pid, cpu, threads.rows)), prevProc[pid := Baseline(ticks, now)], threads.prev)
  }

  datatype SpecScan = SpecScan(entries: map<nat, DetailEntry>, prevProc: map<nat, Baseline>, prevThrd: map<nat, Baseline>)

  /**
   * `_get_specific_processes_data` over the tracked pids in order: a fresh
   * map with the same keys, each holding the full record, or the tombstone
   * when one of the three files is gone.  Nothing stays pending.
   */
  function SpecificScan(fs: Proc, now: real, pids: seq<nat>, prevProc: map<nat, Baseline>, prevThrd: map<nat, Baseline>): (r: SpecScan)
    requires TrackedFilesWellFormed(fs, pids)
    ensures r.entries.Keys == set p | p in pids
    ensures forall p :: p in r.entries ==> !r.entries[p].Pending?
    ensures forall p :: p in r.entries ==> (r.entries[p].Tombstone? <==> !Readable(fs, p))
    ensures forall p :: p in r.entries && r.entries[p].Detail? ==> r.entries[p].detail.pid == p
  {
    if pids == [] then SpecScan(map[], prevProc, prevThrd)
    else
      var r := SpecificScan(fs, now, pids[..|pids| - 1], prevProc, prevThrd);
      var pid := pids[|pids| - 1];
      assert forall p :: p in pids <==> p in pids[..|pids| - 1] || p == pid;
      var res := ReadTracked(fs, now, pid, r.prevProc, r.prevThrd);
      SpecScan(r.entries[pid := res.entry], res.prevProc, res.prevThrd)
  }

  /** The process ticks of a tracked pid whose three files could be read. */
  function TrackedTicks(fs: Proc, pid: nat): int
    requires PidFilesWellFormed(fs, pid) && Readable(fs, pid)
  {
    ProcessTicks(fs, NatToString(pid))
  }

  /** The tracked pids before the last one are distinct and do not hold it. */
  lemma DistinctInit(pids: seq<nat>)
    requires pids != [] && Subscriptions.Distinct(pids)
    ensures Subscriptions.Distinct(pids[..|pids| - 1]) && pids[|pids| - 1] !in pids[..|pids| - 1]
  {
    var init := pids[..|pids| - 1];
    forall i | 0 <= i < |init|
      ensures init[i] != pids[|pids| - 1]
    {
      assert init[i] == pids[i];
    }
  }

  /** What one tracked pid's read does to the baselines, without the record itself. */
  lemma ReadTrackedBaselines(fs: Proc, now: real, pid: nat, prevProc: map<nat, Baseline>, prevThrd: map<nat, Baseline>)
    requires PidFilesWellFormed(fs, pid)
    ensures var res := ReadTracked(fs, now, pid, prevProc, prevThrd);
      && (!Readable(fs, pid) ==> res.prevProc == prevProc && res.entry.Tombstone?)
      && (Readable(fs, pid) ==>
            && res.prevProc == prevProc[pid := Baseline(TrackedTicks(fs, pid), now)]
            && res.entry.Detail?
            && res.entry.detail.cpu == CpuPercent(prevProc, pid, TrackedTicks(fs, pid), now))
      && (forall t :: t in prevThrd ==> t in res.prevThrd)
  {
  }

  /** The pass over the tracked pids is the pass over all but the last, then a read of the last. */
  lemma SpecificScanLast(fs: Proc, now: real, pids: seq<nat>, prevProc: map<nat, Baseline>, prevThrd: map<nat, Baseline>)
    requires pids != [] && TrackedFilesWellFormed(fs, pids)
    ensures TrackedFilesWellFormed(fs, pids[..|pids| - 1]) && PidFilesWellFormed(fs, pids[|pids| - 1])
    ensures var r := SpecificScan(fs, now, pids[..|pids| - 1], prevProc, prevThrd);
      var res := ReadTracked(fs, now, pids[|pids| - 1], r.prevProc, r.prevThrd);
      SpecificScan(fs, now, pids, prevProc, prevThrd)
        == SpecScan(r.entries[pids[|pids| - 1] := res.entry], res.prevProc, res.prevThrd)
  {
    assert forall p :: p in pids[..|pids| - 1] ==> p in pids;
  }

  /**
   * The process baselines after a pass over distinct tracked pids: every
   * readable pid holds a baseline taken now and every other baseline is kept.
   */
  lemma {:induction false} SpecificScanProcBaselines(fs: Proc, now: real, pids: seq<nat>, prevProc: map<nat, Baseline>, prevThrd: map<nat, Baseline>)
    requires TrackedFilesWellFormed(fs, pids) && Subscriptions.Distinct(pids)
    ensures var r := SpecificScan(fs, now, pids, prevProc, prevThrd);
      && (forall p :: p in pids && Readable(fs, p) ==> p in r.prevProc && r.prevProc[p] == Baseline(TrackedTicks(fs, p), now))
      && (forall k :: k in r.prevProc ==> k in prevProc || (k in pids && Readable(fs, k)))
      && (forall k :: k in prevProc && !(k in pids && Readable(fs, k)) ==> k in r.prevProc && r.prevProc[k] == prevProc[k])
      && (forall t :: t in prevThrd ==> t in r.prevThrd)
  {
    if pids != [] {
      var init := pids[..|pids| - 1];
      var pid := pids[|pids| - 1];
      DistinctInit(pids);
      SpecificScanLast(fs, now, pids, prevProc, prevThrd);
      SpecificScanProcBaselines(fs, now, init, prevProc, prevThrd);
      var r := SpecificScan(fs, now, init, prevProc, prevThrd);
      ReadTrackedBaselines(fs, now, pid, r.prevProc, r.prevThrd);
      var res := ReadTracked(fs, now, pid, r.prevProc, r.prevThrd);
      var after := SpecificScan(fs, now, pids, prevProc, prevThrd).prevProc;
      assert after == res.prevProc;
      forall p | p in pids && Readable(fs, p)
        ensures p in after && after[p] == Baseline(TrackedTicks(fs, p), now)
      {
        if p != pid {
          assert p in init;
        }
      }
      forall k | k in after
        ensures k in prevProc || (k in pids && Readable(fs, k))
      {
        if k != pid {
          assert k in r.prevProc;
          assert k in init ==> k in pids;
        }
      }
      forall k | k in prevProc && !(k in pids && Readable(fs, k))
        ensures k in after && after[k] == prevProc[k]
      {
        assert k !in init || !Readable(fs, k);
      }
    }
  }

  /**
   * Over distinct tracked pids, the record of every readable pid carries the
   * percentage measured against the baseline it had before the pass.
   */
  lemma {:induction false} SpecificScanCpu(fs: Proc, now: real, pids: seq<nat>, prevProc: map<nat, Baseline>, prevThrd: map<nat, Baseline>)
    requires TrackedFilesWellFormed(fs, pids) && Subscriptions.Distinct(pids)
    ensures var r := SpecificScan(fs, now, pids, prevProc, prevThrd);
      forall p :: p in pids && Readable(fs, p) ==>
        && r.entries[p].Detail?
        && r.entries[p].detail.cpu == CpuPercent(prevProc, p, TrackedTicks(fs, p), now)
  {
    if pids != [] {
      var init := pids[..|pids| - 1];
      var pid := pids[|pids| - 1];
      DistinctInit(pids);
      SpecificScanLast(fs, now, pids, prevProc, prevThrd);
      SpecificScanCpu(fs, now, init, prevProc, prevThrd);
      SpecificScanProcBaselines(fs, now, init, prevProc, prevThrd);
      var r := SpecificScan(fs, now, init, prevProc, prevThrd);
      ReadTrackedBaselines(fs, now, pid, r.prevProc, r.prevThrd);
      var res := ReadTracked(fs, now, pid, r.prevProc, r.prevThrd);
      var entries := SpecificScan(fs, now, pids, prevProc, prevThrd).entries;
      assert entries == r.entries[pid := res.entry];
      forall p | p in pids && Readable(fs, p)
        ensures entries[p].Detail? && entries[p].detail.cpu == CpuPercent(prevProc, p, TrackedTicks(fs, p), now)
      {
        if p == pid {
          assert pid in r.prevProc <==> pid in prevProc;
          assert pid in r.prevProc ==> r.prevProc[pid] == prevProc[pid];
        } else {
          assert p in init;
        }
      }
    }
  }
}

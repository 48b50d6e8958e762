/** The optional value, for status lines that may be absent. */
module Wrappers {
  datatype Option<+T> = None | Some(value: T) {
    function GetOr(default: T): T {
      match this
      case Some(v) => v
      case None => default
    }
  }
}

/**
 * The records the three collection loops hand to the view.  Quantities
 * keep their KiB count and the unit `_kb_to_mb_gb` chose; the text layout
 * of that unit is left to the view.
 */
module Records {
  import opened Wrappers

  /** The unit branch of `_kb_to_mb_gb`. */
  datatype Unit = KB | MB | GB

  /** A memory size: "N/A" when its status line is absent, else a KiB count shown in a unit. */
  datatype Quantity = NotAvailable | Sized(kb: int, unit: Unit)

  /** One row of the general process list: `(pid, name, user, priority, memory, cpu_usage, status)`. */
  datatype ProcessRow = ProcessRow(
    pid: nat, name: string, user: string, priority: int,
    memory: Quantity, cpu: real, status: string)

  /** One thread of a tracked process: `(tid, name, username, memory, cpu_usage, status)`. */
  datatype ThreadRow = ThreadRow(
    tid: nat, name: string, user: string, memory: Quantity, cpu: real, status: string)

  /**
   * The 18 fields of a tracked process.  `ppid` is `None` for the default
   * `-1`, kept when the status file has no `PPid:` line.
   */
  datatype ProcessDetail = ProcessDetail(
    pid: nat, ppid: Option<string>, name: string, user: string, cpu: real,
    status: string, numThreads: int, priority: int, nice: int,
    processorTime: string, command: string,
    virtualMem: Quantity, residentMem: Quantity, sharedMem: Quantity,
    textSize: Quantity, dataSize: Quantity, stackSize: Quantity,
    threads: seq<ThreadRow>)

  /**
   * A value of the detail map: `()` for a pid added but not read yet,
   * the full record, or the tuple of 18 `None`s written for a pid whose
   * files vanished.
   */
  datatype DetailEntry = Pending | Detail(detail: ProcessDetail) | Tombstone

  /** One `(label, percent)` pair of the per-CPU usage list. */
  datatype CpuEntry = CpuEntry(name: string, usage: real)

  /**
   * The general statistics list, or `[]` when one of the system files
   * could not be opened.
   */
  datatype GeneralStats =
    | NoStats
    | Stats(
        totalMemory: Quantity, usedMemory: Quantity, memoryUsage: real,
        totalSwap: Quantity, usedSwap: Quantity, swapUsage: real,
        cpuUsage: seq<CpuEntry>, numProcs: nat, numThreads: int,
        loadAvg: seq<real>, uptime: string)
}

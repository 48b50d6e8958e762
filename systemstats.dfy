/**
 * The system-wide figures of `Model._get_general_stats_data`: memory and
 * swap from `/proc/meminfo`, per-CPU usage from `/proc/stat`
 * (`_get_cpu_usage_system`), the process and thread totals
 * (`_get_total_thr_procs`), the load average and the uptime.
 */
module SystemStats {
  import opened Text
  import opened Wrappers
  import opened Records
  import opened ProcFs
  import opened Helpers
  import opened Rounding
  import opened StatusFile

  // ---------------------------------------------------------------- meminfo

  /** Which branch of the `if`/`elif` chain over meminfo lines a line takes. */
  datatype MemKey = MemTotalKey | MemFreeKey | BuffersKey | CachedKey | SwapTotalKey | SwapFreeKey | OtherMemLine

  function MemKeyOf(line: string): MemKey {
    if StartsWith(line, "MemTotal:") then MemTotalKey
    else if StartsWith(line, "MemFree:") then MemFreeKey
    else if StartsWith(line, "Buffers:") then BuffersKey
    else if StartsWith(line, "Cached:") then CachedKey
    else if StartsWith(line, "SwapTotal:") then SwapTotalKey
    else if StartsWith(line, "SwapFree:") then SwapFreeKey
    else OtherMemLine
  }

  /** A keyed line carries a first word after its ':'. */
  predicate MemLineWellFormed(line: string) {
    MemKeyOf(line) != OtherMemLine ==> |Words(TextValue(line))| > 0
  }

  /** `line.split(":")[1].strip().split()[0]`, kept as text as the source keeps it. */
  function MemValue(line: string): string
    requires |Words(TextValue(line))| > 0
  {
    Words(TextValue(line))[0]
  }

  /** The last meminfo line taking the branch `key`, if any. */
  function LastMem(lines: seq<string>, key: MemKey): (found: Option<string>)
    ensures found.Some? ==> found.value in lines && MemKeyOf(found.value) == key
    ensures found.None? ==> forall k :: 0 <= k < |lines| ==> MemKeyOf(lines[k]) != key
  {
    if lines == [] then None
    else if MemKeyOf(lines[|lines| - 1]) == key then Some(lines[|lines| - 1])
    else LastMem(lines[..|lines| - 1], key)
  }

  /** Last wins: a line of the branch with none of the same branch after it is the one found. */
  lemma {:induction false} LastMemIsLast(lines: seq<string>, k: nat, key: MemKey)
    requires k < |lines| && MemKeyOf(lines[k]) == key
    requires forall j :: k < j < |lines| ==> MemKeyOf(lines[j]) != key
    ensures LastMem(lines, key) == Some(lines[k])
  {
    if k < |lines| - 1 {
      var init := lines[..|lines| - 1];
      assert init[k] == lines[k];
      assert forall j :: k < j < |init| ==> init[j] == lines[j];
      LastMemIsLast(init, k, key);
    }
  }

  /** Some line of `lines` takes the branch `key`. */
  predicate HasMemLine(lines: seq<string>, key: MemKey) {
    exists k :: 0 <= k < |lines| && MemKeyOf(lines[k]) == key
  }

  /** The six texts the meminfo scan leaves behind, `None` for a local never assigned. */
  datatype MemInfo = MemInfo(
    total: Option<string>, free: Option<string>, buffers: Option<string>,
    cached: Option<string>, swapTotal: Option<string>, swapFree: Option<string>)

  function MemField(lines: seq<string>, key: MemKey): (v: Option<string>)
    requires key != OtherMemLine
    requires forall l :: l in lines ==> MemLineWellFormed(l)
    ensures v.None? <==> !HasMemLine(lines, key)
  {
    var found := LastMem(lines, key);
    if found.Some? then
      assert MemLineWellFormed(found.value);
      Some(MemValue(found.value))
    else None
  }

  /** Each text is taken from the last line of its kind. */
  function MeminfoOf(lines: seq<string>): (m: MemInfo)
    requires forall l :: l in lines ==> MemLineWellFormed(l)
    ensures m.total.Some? <==> HasMemLine(lines, MemTotalKey)
    ensures m.free.Some? <==> HasMemLine(lines, MemFreeKey)
    ensures m.buffers.Some? <==> HasMemLine(lines, BuffersKey)
    ensures m.cached.Some? <==> HasMemLine(lines, CachedKey)
    ensures m.swapTotal.Some? <==> HasMemLine(lines, SwapTotalKey)
    ensures m.swapFree.Some? <==> HasMemLine(lines, SwapFreeKey)
  {
    MemInfo(MemField(lines, MemTotalKey), MemField(lines, MemFreeKey), MemField(lines, BuffersKey),
            MemField(lines, CachedKey), MemField(lines, SwapTotalKey), MemField(lines, SwapFreeKey))
  }

  /** The effect of one meminfo line: the `if`/`elif` chain. */
  function MemScanLine(info: MemInfo, line: string): MemInfo
    requires MemLineWellFormed(line)
  {
    match MemKeyOf(line)
    case MemTotalKey => info.(total := Some(MemValue(line)))
    case MemFreeKey => info.(free := Some(MemValue(line)))
    case BuffersKey => info.(buffers := Some(MemValue(line)))
    case CachedKey => info.(cached := Some(MemValue(line)))
    case SwapTotalKey => info.(swapTotal := Some(MemValue(line)))
    case SwapFreeKey => info.(swapFree := Some(MemValue(line)))
    case OtherMemLine => info
  }

  lemma MeminfoOfSnoc(lines: seq<string>, line: string)
    requires forall l :: l in lines ==> MemLineWellFormed(l)
    requires MemLineWellFormed(line)
    ensures forall l :: l in lines + [line] ==> MemLineWellFormed(l)
    ensures MeminfoOf(lines + [line]) == MemScanLine(MeminfoOf(lines), line)
  {
    assert (lines + [line])[..|lines|] == lines;
  }

  /** The `for line in f:` loop over `/proc/meminfo`. */
  method ScanMeminfo(lines: seq<string>) returns (info: MemInfo)
    requires forall l :: l in lines ==> MemLineWellFormed(l)
    ensures info == MeminfoOf(lines)
  {
    info := MemInfo(None, None, None, None, None, None);
    for i := 0 to |lines|
      invariant info == MeminfoOf(lines[..i])
    {
      var line := lines[i];
      assert line in lines;
      assert lines[..i + 1] == lines[..i] + [line];
      assert forall l :: l in lines[..i] ==> l in lines;
      ghost var before := info;
      if StartsWith(line, "MemTotal:") {
        info := info.(total := Some(MemValue(line)));
      } else if StartsWith(line, "MemFree:") {
        info := info.(free := Some(MemValue(line)));
      } else if StartsWith(line, "Buffers:") {
        info := info.(buffers := Some(MemValue(line)));
      } else if StartsWith(line, "Cached:") {
        info := info.(cached := Some(MemValue(line)));
      } else if StartsWith(line, "SwapTotal:") {
        info := info.(swapTotal := Some(MemValue(line)));
      } else if StartsWith(line, "SwapFree:") {
        info := info.(swapFree := Some(MemValue(line)));
      }
      assert info == MemScanLine(before, line);
      MeminfoOfSnoc(lines[..i], line);
    }
    assert lines[..|lines|] == lines;
  }

  predicate IntText(t: Option<string>) {
    t.Some? && IsIntText(t.value)
  }

  /** All six meminfo values were found and `int()` accepts them. */
  predicate MemInfoComplete(m: MemInfo) {
    IntText(m.total) && IntText(m.free) && IntText(m.buffers) && IntText(m.cached)
    && IntText(m.swapTotal) && IntText(m.swapFree)
  }

  /** A meminfo file on which the scan and the arithmetic after it do not raise. */
  predicate MeminfoWellFormed(contents: string) {
    (forall l :: l in Lines(contents) ==> MemLineWellFormed(l))
    && MemInfoComplete(MeminfoOf(Lines(contents)))
  }

  /**
   * `100.0 * used / total if total > 0 else 0.0`: the share of `total` that
   * `used` is, in percent.
   */
  function UsagePercent(used: int, total: int): (pct: real)
    ensures total <= 0 ==> pct == 0.0
    ensures total > 0 ==> pct * total as real == 100.0 * used as real
    ensures total > 0 && 0 <= used <= total ==> 0.0 <= pct <= 100.0
  {
    if total > 0 then 100.0 * used as real / total as real else 0.0
  }

  /** The memory half of the statistics, all sizes in KiB. */
  datatype MemoryFigures = MemoryFigures(
    totalMemory: int, usedMemory: int, memoryUsage: real,
    totalSwap: int, usedSwap: int, swapUsage: real)

  /** The arithmetic after the meminfo scan: used = total - free - buffers - cached, used swap = total - free. */
  function MemoryFiguresOf(m: MemInfo): (f: MemoryFigures)
    requires MemInfoComplete(m)
    ensures f.totalMemory == ParseInt(m.total.value) && f.totalSwap == ParseInt(m.swapTotal.value)
    ensures f.usedMemory == f.totalMemory - ParseInt(m.free.value) - ParseInt(m.buffers.value) - ParseInt(m.cached.value)
    ensures f.usedSwap == f.totalSwap - ParseInt(m.swapFree.value)
    ensures f.memoryUsage == UsagePercent(f.usedMemory, f.totalMemory)
    ensures f.swapUsage == UsagePercent(f.usedSwap, f.totalSwap)
  {
    var total := ParseInt(m.total.value);
    var used := total - ParseInt(m.free.value) - ParseInt(m.buffers.value) - ParseInt(m.cached.value);
    var swapTotal := ParseInt(m.swapTotal.value);
    var swapUsed := swapTotal - ParseInt(m.swapFree.value);
    MemoryFigures(total, used, UsagePercent(used, total), swapTotal, swapUsed, UsagePercent(swapUsed, swapTotal))
  }

  /**
   * When free, buffers and cached memory are non-negative and together at
   * most the total (and likewise for swap), both percentages lie in [0, 100]
   * and the used amounts lie between 0 and the totals.
   */
  lemma MemoryFiguresInRange(m: MemInfo)
    requires MemInfoComplete(m)
    requires 0 <= ParseInt(m.free.value) && 0 <= ParseInt(m.buffers.value) && 0 <= ParseInt(m.cached.value)
    requires ParseInt(m.free.value) + ParseInt(m.buffers.value) + ParseInt(m.cached.value) <= ParseInt(m.total.value)
    requires 0 <= ParseInt(m.swapFree.value) <= ParseInt(m.swapTotal.value)
    ensures var f := MemoryFiguresOf(m);
      && 0 <= f.usedMemory <= f.totalMemory && 0.0 <= f.memoryUsage <= 100.0
      && 0 <= f.usedSwap <= f.totalSwap && 0.0 <= f.swapUsage <= 100.0
  {
  }

  /** 6 GiB used of 16 GiB is 37.5 percent; a machine without swap reports 0.0. */
  lemma UsagePercentExamples()
    ensures UsagePercent(6 * 1024 * 1024, 16 * 1024 * 1024) == 37.5
    ensures UsagePercent(0, 0) == 0.0
  {
  }

  // ------------------------------------------------------------ /proc/stat

  /** `line.split()` of every line of `/proc/stat` that starts with "cpu", in file order. */
  function CpuLineWords(lines: seq<string>): (cpus: seq<seq<string>>)
    ensures |cpus| <= |lines|
  {
    if lines == [] then []
    else
      var rest := CpuLineWords(lines[..|lines| - 1]);
      var line := lines[|lines| - 1];
      if StartsWith(line, "cpu") then rest + [Words(line)] else rest
  }

  /** Line `j` of `/proc/stat` starts with "cpu". */
  predicate CpuLineAt(lines: seq<string>, j: int) {
    0 <= j < |lines| && StartsWith(lines[j], "cpu")
  }

  /**
   * The cpu lines are collected in file order: the words of two blocks of
   * lines are the words of the first block followed by those of the second.
   */
  lemma {:induction false} CpuLineWordsAppend(a: seq<string>, b: seq<string>)
    ensures CpuLineWords(a + b) == CpuLineWords(a) + CpuLineWords(b)
    decreases |b|
  {
    if b == [] {
      assert a + b == a;
    } else {
      var init := b[..|b| - 1];
      assert (a + b)[..|a + b| - 1] == a + init;
      CpuLineWordsAppend(a, init);
    }
  }

  /** Every collected token list is the words of a line that starts with "cpu". */
  lemma {:induction false} CpuLineWordsSound(lines: seq<string>, k: nat)
    requires k < |CpuLineWords(lines)|
    ensures exists j :: CpuLineAt(lines, j) && CpuLineWords(lines)[k] == Words(lines[j])
  {
    var init := lines[..|lines| - 1];
    var rest := CpuLineWords(init);
    if k < |rest| {
      CpuLineWordsSound(init, k);
      var j :| CpuLineAt(init, j) && rest[k] == Words(init[j]);
      assert lines[j] == init[j];
      assert CpuLineAt(lines, j);
    } else {
      assert CpuLineAt(lines, |lines| - 1);
    }
  }

  /** The words of every line that starts with "cpu" are collected. */
  lemma {:induction false} CpuLineWordsComplete(lines: seq<string>, j: nat)
    requires CpuLineAt(lines, j)
    ensures Words(lines[j]) in CpuLineWords(lines)
  {
    var init := lines[..|lines| - 1];
    if j < |init| {
      assert init[j] == lines[j];
      CpuLineWordsComplete(init, j);
    }
  }

  /** One line contributes its words exactly when it starts with "cpu". */
  lemma CpuLineWordsOne(line: string)
    ensures CpuLineWords([line]) == if StartsWith(line, "cpu") then [Words(line)] else []
  {
    assert [line][..0] == [];
  }

  /** The tokens after the label of a line with at least five tokens are numbers `float()` accepts. */
  predicate CpuWordsWellFormed(cpu: seq<string>) {
    |cpu| >= 5 ==> forall k :: 1 <= k < |cpu| ==> IsDecimalText(cpu[k])
  }

  /** `sum(float(x) for x in ws)` */
  function SumDecimals(ws: seq<string>): real
    requires forall k :: 0 <= k < |ws| ==> IsDecimalText(ws[k])
  {
    if ws == [] then 0.0 else SumDecimals(ws[..|ws| - 1]) + ParseDecimal(ws[|ws| - 1])
  }

  /** Busy share of one CPU line: 100 * (1 - idle / total), or 0.0 when the total is 0. */
  function BusyPercent(idle: real, total: real): (pct: real)
    ensures total <= 0.0 ==> pct == 0.0
    ensures total > 0.0 ==> pct * total == 100.0 * (total - idle)
    ensures total > 0.0 && 0.0 <= idle <= total ==> 0.0 <= pct <= 100.0
  {
    if total > 0.0 then 100.0 * (1.0 - idle / total) else 0.0
  }

  /** The `(label, round(usage, 2))` pair of one cpu line with at least five tokens. */
  function CpuEntryOf(cpu: seq<string>): (e: CpuEntry)
    requires |cpu| >= 5 && CpuWordsWellFormed(cpu)
    ensures e.name == cpu[0]
    ensures var u := BusyPercent(ParseDecimal(cpu[4]) / ClockTicks, SumDecimals(cpu[1..]) / ClockTicks);
      u - 0.005 <= e.usage <= u + 0.005
  {
    var idle := ParseDecimal(cpu[4]) / ClockTicks;
    var total := SumDecimals(cpu[1..]) / ClockTicks;
    CpuEntry(cpu[0], Round2(BusyPercent(idle, total)))
  }

  const ClockTicks: real := 100.0

  /** The pairs for the cpu lines, skipping those with fewer than five tokens. */
  function CpuEntries(cpus: seq<seq<string>>): (usage: seq<CpuEntry>)
    requires forall k :: 0 <= k < |cpus| ==> CpuWordsWellFormed(cpus[k])
    ensures |usage| <= |cpus|
  {
    if cpus == [] then []
    else
      var rest := CpuEntries(cpus[..|cpus| - 1]);
      var cpu := cpus[|cpus| - 1];
      if |cpu| < 5 then rest else rest + [CpuEntryOf(cpu)]
  }

  /** The pairs of two blocks of token lists are those of the first block followed by those of the second. */
  lemma {:induction false} CpuEntriesAppend(a: seq<seq<string>>, b: seq<seq<string>>)
    requires forall k :: 0 <= k < |a| ==> CpuWordsWellFormed(a[k])
    requires forall k :: 0 <= k < |b| ==> CpuWordsWellFormed(b[k])
    ensures forall k :: 0 <= k < |a + b| ==> CpuWordsWellFormed((a + b)[k])
    ensures CpuEntries(a + b) == CpuEntries(a) + CpuEntries(b)
    decreases |b|
  {
    if b == [] {
      assert a + b == a;
    } else {
      var init := b[..|b| - 1];
      assert (a + b)[..|a + b| - 1] == a + init;
      CpuEntriesAppend(a, init);
    }
  }

  /** One token list gives its pair exactly when it has at least five tokens. */
  lemma CpuEntriesOne(cpu: seq<string>)
    requires CpuWordsWellFormed(cpu)
    ensures CpuEntries([cpu]) == if |cpu| >= 5 then [CpuEntryOf(cpu)] else []
  {
    assert [cpu][..0] == [];
  }

  /** Every pair comes from a token list with at least five tokens, labelled by its first token. */
  lemma {:induction false} CpuEntriesSound(cpus: seq<seq<string>>, i: nat)
    requires forall k :: 0 <= k < |cpus| ==> CpuWordsWellFormed(cpus[k])
    requires i < |CpuEntries(cpus)|
    ensures exists k :: (0 <= k < |cpus| && |cpus[k]| >= 5 && CpuEntries(cpus)[i] == CpuEntryOf(cpus[k])
                         && CpuEntries(cpus)[i].name == cpus[k][0])
  {
    var init := cpus[..|cpus| - 1];
    var rest := CpuEntries(init);
    if i < |rest| {
      CpuEntriesSound(init, i);
      var k :| 0 <= k < |init| && |init[k]| >= 5 && rest[i] == CpuEntryOf(init[k]);
      assert cpus[k] == init[k];
    } else {
      var k := |cpus| - 1;
      assert |cpus[k]| >= 5 && CpuEntries(cpus)[i] == CpuEntryOf(cpus[k]);
    }
  }

  /** Every token list with at least five tokens gives a pair. */
  lemma {:induction false} CpuEntriesComplete(cpus: seq<seq<string>>, k: nat)
    requires forall j :: 0 <= j < |cpus| ==> CpuWordsWellFormed(cpus[j])
    requires k < |cpus| && |cpus[k]| >= 5
    ensures CpuEntryOf(cpus[k]) in CpuEntries(cpus)
  {
    var init := cpus[..|cpus| - 1];
    if k < |init| {
      assert init[k] == cpus[k];
      CpuEntriesComplete(init, k);
    }
  }

  /** A `/proc/stat` on which `_get_cpu_usage_system` does not raise. */
  predicate SystemStatWellFormed(contents: string) {
    forall l :: l in Lines(contents) && StartsWith(l, "cpu") ==> CpuWordsWellFormed(Words(l))
  }

  lemma {:induction false} CpuLineWordsWellFormed(lines: seq<string>)
    requires forall l :: l in lines && StartsWith(l, "cpu") ==> CpuWordsWellFormed(Words(l))
    ensures forall k :: 0 <= k < |CpuLineWords(lines)| ==> CpuWordsWellFormed(CpuLineWords(lines)[k])
  {
    if lines != [] {
      var init := lines[..|lines| - 1];
      assert forall l :: l in init ==> l in lines;
      CpuLineWordsWellFormed(init);
      assert lines[|lines| - 1] in lines;
    }
  }

  /** What `_get_cpu_usage_system` returns: `[]` when `/proc/stat` cannot be opened. */
  function CpuUsageOf(fs: Proc): (usage: seq<CpuEntry>)
    requires SystemStatPath in fs.files ==> SystemStatWellFormed(fs.files[SystemStatPath])
    ensures SystemStatPath !in fs.files ==> usage == []
    ensures SystemStatPath in fs.files ==> |usage| <= |Lines(fs.files[SystemStatPath])|
  {
    if SystemStatPath !in fs.files then []
    else
      var lines := Lines(ReadFile(fs, SystemStatPath));
      CpuLineWordsWellFormed(lines);
      CpuEntries(CpuLineWords(lines))
  }

  /** `_get_cpu_usage_system`: collect the words of the cpu lines, then one pair per line of five or more tokens. */
  method GetCpuUsageSystem(fs: Proc) returns (usage: seq<CpuEntry>)
    requires SystemStatPath in fs.files ==> SystemStatWellFormed(fs.files[SystemStatPath])
    ensures usage == CpuUsageOf(fs)
  {
    if SystemStatPath !in fs.files {
      return [];
    }
    var data := Lines(ReadFile(fs, SystemStatPath));
    CpuLineWordsWellFormed(data);
    var cpus: seq<seq<string>> := [];
    for i := 0 to |data|
      invariant cpus == CpuLineWords(data[..i])
    {
      var line := data[i];
      assert data[..i + 1][..i] == data[..i];
      if StartsWith(line, "cpu") {
        cpus := cpus + [Words(line)];
      }
    }
    assert data[..|data|] == data;
    if cpus == [] {
      return [];
    }
    usage := [];
    for j := 0 to |cpus|
      invariant usage == CpuEntries(cpus[..j])
    {
      var cpu := cpus[j];
      assert cpus[..j + 1][..j] == cpus[..j];
      if |cpu| < 5 {
        continue;
      }
      var idleTime := ParseDecimal(cpu[4]) / ClockTicks;
      var totalTime := SumDecimals(cpu[1..]) / ClockTicks;
      var busy := if totalTime > 0.0 then 100.0 * (1.0 - idleTime / totalTime) else 0.0;
      assert busy == BusyPercent(idleTime, totalTime);
      assert CpuEntry(cpu[0], Round2(busy)) == CpuEntryOf(cpu);
      usage := usage + [CpuEntry(cpu[0], Round2(busy))];
    }
    assert cpus[..|cpus|] == cpus;
  }

  /** A decimal text without a minus sign reads as a non-negative number. */
  lemma ParseDecimalNonNegative(s: string)
    requires IsDecimalText(s) && s[0] != '-'
    ensures ParseDecimal(s) >= 0.0
  {
  }

  /** With non-negative tokens the sum is at least any one token. */
  lemma {:induction false} SumDecimalsAtLeast(ws: seq<string>, k: nat)
    requires forall j :: 0 <= j < |ws| ==> IsDecimalText(ws[j]) && ws[j][0] != '-'
    requires k < |ws|
    ensures SumDecimals(ws) >= ParseDecimal(ws[k])
  {
    var init := ws[..|ws| - 1];
    if k < |ws| - 1 {
      assert init[k] == ws[k];
      SumDecimalsAtLeast(init, k);
    } else {
      SumDecimalsNonNegative(init);
    }
    ParseDecimalNonNegative(ws[|ws| - 1]);
  }

  lemma {:induction false} SumDecimalsNonNegative(ws: seq<string>)
    requires forall j :: 0 <= j < |ws| ==> IsDecimalText(ws[j]) && ws[j][0] != '-'
    ensures SumDecimals(ws) >= 0.0
  {
    if ws != [] {
      SumDecimalsNonNegative(ws[..|ws| - 1]);
      ParseDecimalNonNegative(ws[|ws| - 1]);
    }
  }

  /** Counters without a minus sign give a usage in [0, 100] for every cpu line. */
  lemma CpuEntryInRange(cpu: seq<string>)
    requires |cpu| >= 5 && CpuWordsWellFormed(cpu)
    requires forall k :: 1 <= k < |cpu| ==> cpu[k][0] != '-'
    ensures 0.0 <= CpuEntryOf(cpu).usage <= 100.0
  {
    var ws := cpu[1..];
    assert ws[3] == cpu[4];
    SumDecimalsAtLeast(ws, 3);
    ParseDecimalNonNegative(cpu[4]);
    var idle := ParseDecimal(cpu[4]) / ClockTicks;
    var total := SumDecimals(ws) / ClockTicks;
    assert 0.0 <= idle <= total;
    Round2Percent(BusyPercent(idle, total));
  }

  /** A `/proc/stat` whose cpu counters carry no minus sign, as the kernel writes them. */
  predicate UnsignedCounters(contents: string) {
    forall l :: l in Lines(contents) && StartsWith(l, "cpu") ==>
      forall k :: 1 <= k < |Words(l)| ==> Words(l)[k][0] != '-'
  }

  /** With unsigned counters every CPU of `_get_cpu_usage_system` is between 0 and 100 percent busy. */
  lemma CpuUsageInRange(fs: Proc)
    requires SystemStatPath in fs.files ==> SystemStatWellFormed(fs.files[SystemStatPath])
    requires SystemStatPath in fs.files ==> UnsignedCounters(fs.files[SystemStatPath])
    ensures forall i :: 0 <= i < |CpuUsageOf(fs)| ==> 0.0 <= CpuUsageOf(fs)[i].usage <= 100.0
  {
    if SystemStatPath in fs.files {
      var lines := Lines(ReadFile(fs, SystemStatPath));
      CpuLineWordsWellFormed(lines);
      var cpus := CpuLineWords(lines);
      assert CpuUsageOf(fs) == CpuEntries(cpus);
      forall i | 0 <= i < |CpuEntries(cpus)|
        ensures 0.0 <= CpuEntries(cpus)[i].usage <= 100.0
      {
        CpuEntriesSound(cpus, i);
        var k :| 0 <= k < |cpus| && |cpus[k]| >= 5 && CpuEntries(cpus)[i] == CpuEntryOf(cpus[k]);
        CpuLineWordsSound(lines, k);
        var j :| CpuLineAt(lines, j) && cpus[k] == Words(lines[j]);
        assert lines[j] in lines;
        CpuEntryInRange(cpus[k]);
      }
    }
  }

  /** The first token of a line that starts with "cpu" starts with "cpu" too. */
  lemma CpuLineLabel(line: string)
    requires StartsWith(line, "cpu")
    ensures |Words(line)| > 0 && StartsWith(Words(line)[0], "cpu")
  {
    assert line[0] == 'c' && line[1] == 'p' && line[2] == 'u';
    assert TrimLeft(line) == line;
    var w := TakeWord(line);
    assert Words(line)[0] == w;
    assert w[..3] == line[..3];
  }

  /** Every pair `_get_cpu_usage_system` returns is labelled "cpu" or "cpuN". */
  lemma CpuUsageLabels(fs: Proc)
    requires SystemStatPath in fs.files ==> SystemStatWellFormed(fs.files[SystemStatPath])
    ensures forall i :: 0 <= i < |CpuUsageOf(fs)| ==> StartsWith(CpuUsageOf(fs)[i].name, "cpu")
  {
    if SystemStatPath in fs.files {
      var lines := Lines(ReadFile(fs, SystemStatPath));
      CpuLineWordsWellFormed(lines);
      var cpus := CpuLineWords(lines);
      assert CpuUsageOf(fs) == CpuEntries(cpus);
      forall i | 0 <= i < |CpuEntries(cpus)|
        ensures StartsWith(CpuEntries(cpus)[i].name, "cpu")
      {
        CpuEntriesSound(cpus, i);
        var k :| 0 <= k < |cpus| && |cpus[k]| >= 5 && CpuEntries(cpus)[i] == CpuEntryOf(cpus[k]);
        CpuLineWordsSound(lines, k);
        var j :| CpuLineAt(lines, j) && cpus[k] == Words(lines[j]);
        CpuLineLabel(lines[j]);
      }
    }
  }

  /** 70 idle ticks out of 100 is 30 percent busy; an all-zero line is 0 percent. */
  lemma BusyPercentExamples()
    ensures Round2(BusyPercent(70.0 / ClockTicks, 100.0 / ClockTicks)) == 30.0
    ensures BusyPercent(0.0, 0.0) == 0.0
  {
    assert BusyPercent(70.0 / ClockTicks, 100.0 / ClockTicks) == 3000.0 / 100.0;
    Round2OfHundredths(3000);
  }

  // -------------------------------------------------- processes and threads

  /** How many of the entries `isdigit()` accepts. */
  function CountDigitEntries(entries: seq<string>): (n: nat)
    ensures n <= |entries|
  {
    if entries == [] then 0
    else CountDigitEntries(entries[..|entries| - 1]) + (if IsDigits(entries[|entries| - 1]) then 1 else 0)
  }

  /** `int(data[19])` of the stat file of the process directory `e`. */
  function ThreadCount(fs: Proc, e: string): int
    requires ProcessFilesWellFormed(fs) && StatPath(e) in fs.files
  {
    assert ProcessEntryWellFormed(fs, e);
    StatNumThreads(ReadFile(fs, StatPath(e)))
  }

  /** `(total_procs, total_threads)` over the listed entries. */
  function ProcsThreadsOf(fs: Proc, entries: seq<string>): (totals: (nat, int))
    requires ProcessFilesWellFormed(fs)
    ensures totals.0 <= |entries|
  {
    if entries == [] then (0, 0)
    else
      var rest := ProcsThreadsOf(fs, entries[..|entries| - 1]);
      var e := entries[|entries| - 1];
      if !IsDigits(e) then rest
      else if StatPath(e) in fs.files then (rest.0 + 1, rest.1 + ThreadCount(fs, e))
      else (rest.0 + 1, rest.1)
  }

  /** Every numeric entry counts as a process, whether or not its stat file could still be read. */
  lemma {:induction false} ProcsCountDigitEntries(fs: Proc, entries: seq<string>)
    requires ProcessFilesWellFormed(fs)
    ensures ProcsThreadsOf(fs, entries).0 == CountDigitEntries(entries)
  {
    if entries != [] {
      ProcsCountDigitEntries(fs, entries[..|entries| - 1]);
    }
  }

  /** When no process directory holds a stat file, the thread total is 0. */
  lemma {:induction false} ThreadsWithoutStatFiles(fs: Proc, entries: seq<string>)
    requires ProcessFilesWellFormed(fs)
    requires forall k :: 0 <= k < |entries| ==> StatPath(entries[k]) !in fs.files
    ensures ProcsThreadsOf(fs, entries).1 == 0
  {
    if entries != [] {
      ThreadsWithoutStatFiles(fs, entries[..|entries| - 1]);
    }
  }

  /** `_get_total_thr_procs` */
  method GetTotalThrProcs(fs: Proc) returns (totalProcs: nat, totalThreads: int)
    requires ProcessFilesWellFormed(fs)
    ensures (totalProcs, totalThreads) == ProcsThreadsOf(fs, ListDir(fs, ProcRoot))
  {
    var entries := ListDirectory(fs, ProcRoot);
    totalProcs, totalThreads := CountProcsThreads(fs, entries);
  }

  /** The counting loop of `_get_total_thr_procs` over the listed entries. */
  method CountProcsThreads(fs: Proc, entries: seq<string>) returns (totalProcs: nat, totalThreads: int)
    requires ProcessFilesWellFormed(fs)
    ensures (totalProcs, totalThreads) == ProcsThreadsOf(fs, entries)
  {
    totalProcs, totalThreads := 0, 0;
    for i := 0 to |entries|
      invariant (totalProcs, totalThreads) == ProcsThreadsOf(fs, entries[..i])
    {
      var entry := entries[i];
      assert entries[..i + 1][..i] == entries[..i];
      if IsDigits(entry) {
        totalProcs := totalProcs + 1;
        if StatPath(entry) in fs.files {
          totalThreads := totalThreads + ThreadCount(fs, entry);
        }
      }
    }
    assert entries[..|entries|] == entries;
  }

  // ------------------------------------------------------- loadavg, uptime

  /** The first three fields of `/proc/loadavg` are numbers `float()` accepts. */
  predicate LoadavgWellFormed(contents: string) {
    var ws := Words(Strip(contents));
    forall k :: 0 <= k < |ws| && k < 3 ==> IsDecimalText(ws[k])
  }

  /** `[float(x) for x in ws[:n]]` */
  function FirstNumbers(ws: seq<string>, n: nat): (vs: seq<real>)
    requires forall k :: 0 <= k < |ws| && k < n ==> IsDecimalText(ws[k])
    ensures |vs| == if |ws| < n then |ws| else n
    ensures forall k :: 0 <= k < |vs| ==> vs[k] == ParseDecimal(ws[k])
  {
    if ws == [] || n == 0 then [] else [ParseDecimal(ws[0])] + FirstNumbers(ws[1..], n - 1)
  }

  /** `[float(x) for x in f.read().strip().split()[:3]]` */
  function LoadAvgOf(contents: string): (loads: seq<real>)
    requires LoadavgWellFormed(contents)
    ensures var ws := Words(Strip(contents));
      && |loads| == (if |ws| < 3 then |ws| else 3)
      && forall k :: 0 <= k < |loads| ==> loads[k] == ParseDecimal(ws[k])
  {
    FirstNumbers(Words(Strip(contents)), 3)
  }

  /** The first field of `/proc/uptime` is a number `float()` accepts. */
  predicate UptimeWellFormed(contents: string) {
    var ws := Words(Strip(contents));
    |ws| > 0 && IsDecimalText(ws[0])
  }

  /** `_seconds_to_hhmmss(float(f.read().strip().split()[0]))` */
  function UptimeOf(contents: string): (text: string)
    requires UptimeWellFormed(contents)
    ensures ParseDecimal(Words(Strip(contents))[0]) >= 0.0 ==> |text| >= 8
  {
    SecondsToHhmmss(ParseDecimal(Words(Strip(contents))[0]))
  }

  // ------------------------------------------------------------- the tick

  /** What the general-statistics tick needs of the filesystem so that it does not raise. */
  ghost predicate SystemFilesWellFormed(fs: Proc) {
    && (MeminfoPath in fs.files ==> MeminfoWellFormed(fs.files[MeminfoPath]))
    && (LoadavgPath in fs.files ==> LoadavgWellFormed(fs.files[LoadavgPath]))
    && (UptimePath in fs.files ==> UptimeWellFormed(fs.files[UptimePath]))
    && (SystemStatPath in fs.files ==> SystemStatWellFormed(fs.files[SystemStatPath]))
    && ProcessFilesWellFormed(fs)
  }

  /**
   * The list `_get_general_stats_data` returns: `[]` as soon as one of
   * meminfo, loadavg or uptime cannot be opened, otherwise the eleven figures.
   */
  ghost function GeneralStatsOf(fs: Proc): (stats: GeneralStats)
    requires SystemFilesWellFormed(fs)
    ensures stats.NoStats? <==>
      MeminfoPath !in fs.files || LoadavgPath !in fs.files || UptimePath !in fs.files
  {
    if MeminfoPath !in fs.files || LoadavgPath !in fs.files || UptimePath !in fs.files then NoStats
    else
      var mem := MemoryFiguresOf(MeminfoOf(Lines(fs.files[MeminfoPath])));
      var totals := ProcsThreadsOf(fs, ListDir(fs, ProcRoot));
      Stats(
        KbToQuantity(mem.totalMemory), KbToQuantity(mem.usedMemory), mem.memoryUsage,
        KbToQuantity(mem.totalSwap), KbToQuantity(mem.usedSwap), mem.swapUsage,
        CpuUsageOf(fs), totals.0, totals.1,
        LoadAvgOf(fs.files[LoadavgPath]), UptimeOf(fs.files[UptimePath]))
  }

  /** The process total of a full statistics list is the number of numeric entries of /proc. */
  lemma GeneralStatsProcessCount(fs: Proc)
    requires SystemFilesWellFormed(fs)
    requires GeneralStatsOf(fs).Stats?
    ensures GeneralStatsOf(fs).numProcs == CountDigitEntries(ListDir(fs, ProcRoot))
    ensures GeneralStatsOf(fs).numProcs <= |ListDir(fs, ProcRoot)|
  {
    ProcsCountDigitEntries(fs, ListDir(fs, ProcRoot));
  }
}

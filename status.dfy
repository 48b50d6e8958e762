/**
 * Reading the per-process and per-thread files: the line-by-line scan of a
 * `status` file (one `if`/`elif` chain per line, the last matching line
 * winning), the whitespace-split fields of a `stat` file, and the command
 * line.  The `...WellFormed` predicates say what the source needs of these
 * files so that none of its `int()` conversions, `[0]` or `[13]` indexing,
 * or reads of never-assigned locals raises.
 */
module StatusFile {
  import opened Text
  import opened Wrappers
  import opened ProcFs
  import opened Helpers

  /** Which branch of the `if`/`elif` chain over status lines a line takes. */
  datatype StatusKey =
    | NameKey | StateKey | VmRssKey | UidKey | ThreadsKey | VmSizeKey
    | RssShmemKey | VmExeKey | VmDataKey | VmStkKey | PpidKey | OtherLine

  function KeyOf(line: string): StatusKey {
    if StartsWith(line, "Name:") then NameKey
    else if StartsWith(line, "State:") then StateKey
    else if StartsWith(line, "VmRSS:") then VmRssKey
    else if StartsWith(line, "Uid:") then UidKey
    else if StartsWith(line, "Threads:") then ThreadsKey
    else if StartsWith(line, "VmSize:") then VmSizeKey
    else if StartsWith(line, "RssShmem:") then RssShmemKey
    else if StartsWith(line, "VmExe:") then VmExeKey
    else if StartsWith(line, "VmData:") then VmDataKey
    else if StartsWith(line, "VmStk:") then VmStkKey
    else if StartsWith(line, "PPid:") then PpidKey
    else OtherLine
  }

  /** `line.split(":")[1].strip()` */
  function TextValue(line: string): string {
    Strip(AfterColon(line))
  }

  /** The value text holds a first word that `int()` accepts. */
  predicate HasIntValue(line: string) {
    var ws := Words(TextValue(line));
    |ws| > 0 && IsIntText(ws[0])
  }

  /** `int(line.split(":")[1].strip().split()[0])` */
  function IntValue(line: string): int
    requires HasIntValue(line)
  {
    ParseInt(Words(TextValue(line))[0])
  }

  /** `_get_process_status(line.split(":")[1].strip().split()[0])` */
  function StateValue(line: string): string
    requires |Words(TextValue(line))| > 0
  {
    GetProcessStatus(Words(TextValue(line))[0])
  }

  /** `line.split(":")[1].split()[0]`, the real uid. */
  function UidValue(line: string): string
    requires |Words(AfterColon(line))| > 0
  {
    Words(AfterColon(line))[0]
  }

  /** `int(t) if t.isdigit() else 0` for the `Threads:` value text `t`. */
  function ThreadsValue(line: string): int {
    var t := TextValue(line);
    if IsDigits(t) then ParseNat(t) else 0
  }

  /** The branch a line takes does not raise. */
  predicate LineWellFormed(line: string) {
    match KeyOf(line)
    case StateKey => |Words(TextValue(line))| > 0
    case UidKey => |Words(AfterColon(line))| > 0
    case VmRssKey => HasIntValue(line)
    case VmSizeKey => HasIntValue(line)
    case RssShmemKey => HasIntValue(line)
    case VmExeKey => HasIntValue(line)
    case VmDataKey => HasIntValue(line)
    case VmStkKey => HasIntValue(line)
    case _ => true
  }

  /** The last line that takes the branch `key`, if any. */
  function LastOf(lines: seq<string>, key: StatusKey): (found: Option<string>)
    ensures found.Some? ==> found.value in lines && KeyOf(found.value) == key
    ensures found.None? ==> forall k :: 0 <= k < |lines| ==> KeyOf(lines[k]) != key
  {
    if lines == [] then None
    else if KeyOf(lines[|lines| - 1]) == key then Some(lines[|lines| - 1])
    else LastOf(lines[..|lines| - 1], key)
  }

  /** The values a status scan leaves behind; `None` where no line took that branch. */
  datatype StatusInfo = StatusInfo(
    name: Option<string>, state: Option<string>, vmRss: Option<int>, uid: Option<string>,
    threads: Option<int>, vmSize: Option<int>, rssShmem: Option<int>, vmExe: Option<int>,
    vmData: Option<int>, vmStk: Option<int>, ppid: Option<string>)

  const NoStatusInfo := StatusInfo(None, None, None, None, None, None, None, None, None, None, None)

  /** A new last line takes over the branch it belongs to and leaves the others alone. */
  lemma LastOfSnoc(lines: seq<string>, line: string, key: StatusKey)
    ensures LastOf(lines + [line], key) == if KeyOf(line) == key then Some(line) else LastOf(lines, key)
  {
    assert (lines + [line])[..|lines|] == lines;
  }

  /** Last wins: a line of the branch with none of the same branch after it is the one found. */
  lemma {:induction false} LastOfIsLast(lines: seq<string>, k: nat, key: StatusKey)
    requires k < |lines| && KeyOf(lines[k]) == key
    requires forall j :: k < j < |lines| ==> KeyOf(lines[j]) != key
    ensures LastOf(lines, key) == Some(lines[k])
  {
    if k < |lines| - 1 {
      var init := lines[..|lines| - 1];
      assert init[k] == lines[k];
      assert forall j :: k < j < |init| ==> init[j] == lines[j];
      LastOfIsLast(init, k, key);
    }
  }

  /** The effect of one line on the scan state: the `if`/`elif` chain. */
  function ScanLine(info: StatusInfo, line: string): StatusInfo
    requires LineWellFormed(line)
  {
    match KeyOf(line)
    case NameKey => info.(name := Some(TextValue(line)))
    case StateKey => info.(state := Some(StateValue(line)))
    case VmRssKey => info.(vmRss := Some(IntValue(line)))
    case UidKey => info.(uid := Some(UidValue(line)))
    case ThreadsKey => info.(threads := Some(ThreadsValue(line)))
    case VmSizeKey => info.(vmSize := Some(IntValue(line)))
    case RssShmemKey => info.(rssShmem := Some(IntValue(line)))
    case VmExeKey => info.(vmExe := Some(IntValue(line)))
    case VmDataKey => info.(vmData := Some(IntValue(line)))
    case VmStkKey => info.(vmStk := Some(IntValue(line)))
    case PpidKey => info.(ppid := Some(TextValue(line)))
    case OtherLine => info
  }

  /** The scan as a fold: the `if`/`elif` chain applied to each line in turn. */
  function ScanLines(lines: seq<string>): StatusInfo
    requires forall l :: l in lines ==> LineWellFormed(l)
  {
    if lines == [] then NoStatusInfo
    else
      var init := lines[..|lines| - 1];
      assert forall l :: l in init ==> l in lines;
      ScanLine(ScanLines(init), lines[|lines| - 1])
  }

  /** A value held by one field of the scan state. */
  datatype Value = TextVal(text: string) | IntVal(number: int)

  function TextOf(o: Option<string>): Option<Value> {
    if o.Some? then Some(TextVal(o.value)) else None
  }

  function IntOf(o: Option<int>): Option<Value> {
    if o.Some? then Some(IntVal(o.value)) else None
  }

  /** The field of the scan state that the branch `key` assigns. */
  function Field(info: StatusInfo, key: StatusKey): Option<Value> {
    match key
    case NameKey => TextOf(info.name)
    case StateKey => TextOf(info.state)
    case VmRssKey => IntOf(info.vmRss)
    case UidKey => TextOf(info.uid)
    case ThreadsKey => IntOf(info.threads)
    case VmSizeKey => IntOf(info.vmSize)
    case RssShmemKey => IntOf(info.rssShmem)
    case VmExeKey => IntOf(info.vmExe)
    case VmDataKey => IntOf(info.vmData)
    case VmStkKey => IntOf(info.vmStk)
    case PpidKey => TextOf(info.ppid)
    case OtherLine => None
  }

  /** The value a line of the branch `key` carries, extracted as that branch extracts it. */
  function LineValue(line: string, key: StatusKey): Value
    requires LineWellFormed(line) && KeyOf(line) == key
  {
    match key
    case NameKey => TextVal(TextValue(line))
    case StateKey => TextVal(StateValue(line))
    case VmRssKey => IntVal(IntValue(line))
    case UidKey => TextVal(UidValue(line))
    case ThreadsKey => IntVal(ThreadsValue(line))
    case VmSizeKey => IntVal(IntValue(line))
    case RssShmemKey => IntVal(IntValue(line))
    case VmExeKey => IntVal(IntValue(line))
    case VmDataKey => IntVal(IntValue(line))
    case VmStkKey => IntVal(IntValue(line))
    case PpidKey => TextVal(TextValue(line))
    case OtherLine => TextVal("")
  }

  /**
   * The declarative reading of the scan: a field holds the value of the last
   * line of its kind, and is unset when there is no such line.
   */
  function LastValue(lines: seq<string>, key: StatusKey): Option<Value>
    requires forall l :: l in lines ==> LineWellFormed(l)
  {
    var found := LastOf(lines, key);
    if found.Some? && key != OtherLine then Some(LineValue(found.value, key)) else None
  }

  /** One line sets the field of its own branch and no other. */
  lemma ScanLineField(info: StatusInfo, line: string, key: StatusKey)
    requires LineWellFormed(line)
    ensures Field(ScanLine(info, line), key) ==
      if KeyOf(line) == key && key != OtherLine then Some(LineValue(line, key)) else Field(info, key)
  {
  }

  /** The scan leaves every field holding the value of the last line of its kind. */
  lemma {:induction false} ScanLinesLastWins(lines: seq<string>, key: StatusKey)
    requires forall l :: l in lines ==> LineWellFormed(l)
    ensures Field(ScanLines(lines), key) == LastValue(lines, key)
  {
    if lines != [] && key != OtherLine {
      var init := lines[..|lines| - 1];
      var last := lines[|lines| - 1];
      assert forall l :: l in init ==> l in lines;
      assert ScanLines(lines) == ScanLine(ScanLines(init), last);
      ScanLinesLastWins(init, key);
      ScanLineField(ScanLines(init), last, key);
      if KeyOf(last) == key {
        assert LastOf(lines, key) == Some(last);
      } else {
        assert LastOf(lines, key) == LastOf(init, key);
      }
    }
  }

  /** The `for line in f:` loop over a status file, one `if`/`elif` chain per line. */
  method ScanStatus(lines: seq<string>) returns (info: StatusInfo)
    requires forall l :: l in lines ==> LineWellFormed(l)
    ensures info == ScanLines(lines)
    ensures forall key :: Field(info, key) == LastValue(lines, key)
  {
    info := NoStatusInfo;
    for i := 0 to |lines|
      invariant info == ScanLines(lines[..i])
    {
      var line := lines[i];
      assert line in lines;
      assert lines[..i + 1][..i] == lines[..i];
      assert forall l :: l in lines[..i + 1] ==> l in lines;
      ghost var before := info;
      if StartsWith(line, "Name:") {
        info := info.(name := Some(TextValue(line)));
      } else if StartsWith(line, "State:") {
        info := info.(state := Some(StateValue(line)));
      } else if StartsWith(line, "VmRSS:") {
        info := info.(vmRss := Some(IntValue(line)));
      } else if StartsWith(line, "Uid:") {
        info := info.(uid := Some(UidValue(line)));
      } else if StartsWith(line, "Threads:") {
        info := info.(threads := Some(ThreadsValue(line)));
      } else if StartsWith(line, "VmSize:") {
        info := info.(vmSize := Some(IntValue(line)));
      } else if StartsWith(line, "RssShmem:") {
        info := info.(rssShmem := Some(IntValue(line)));
      } else if StartsWith(line, "VmExe:") {
        info := info.(vmExe := Some(IntValue(line)));
      } else if StartsWith(line, "VmData:") {
        info := info.(vmData := Some(IntValue(line)));
      } else if StartsWith(line, "VmStk:") {
        info := info.(vmStk := Some(IntValue(line)));
      } else if StartsWith(line, "PPid:") {
        info := info.(ppid := Some(TextValue(line)));
      }
      assert info == ScanLine(before, line);
    }
    assert lines[..|lines|] == lines;
    forall key
      ensures Field(info, key) == LastValue(lines, key)
    {
      ScanLinesLastWins(lines, key);
    }
  }

  /** Every branch taken by a line of the file is safe. */
  predicate StatusWellFormed(contents: string) {
    forall l :: l in Lines(contents) ==> LineWellFormed(l)
  }

  /**
   * A thread's status file also carries the four lines `_get_threads_data`
   * reads into locals that have no default.
   */
  predicate ThreadStatusWellFormed(contents: string) {
    StatusWellFormed(contents) &&
    var info := ScanLines(Lines(contents));
    info.name.Some? && info.state.Some? && info.uid.Some? && info.vmRss.Some?
  }

  /** A `stat` file with the fields the collector indexes (13, 14, 17, 18, 19) in integer form. */
  predicate StatWellFormed(contents: string) {
    IsIntText(NthWord(contents, 13)) && IsIntText(NthWord(contents, 14)) && IsIntText(NthWord(contents, 17))
    && IsIntText(NthWord(contents, 18)) && IsIntText(NthWord(contents, 19))
  }

  /** `int(data[13]) + int(data[14])`: user plus kernel ticks. */
  function StatTicks(contents: string): int
    requires StatWellFormed(contents)
  {
    ParseInt(NthWord(contents, 13)) + ParseInt(NthWord(contents, 14))
  }

  /** `int(data[17])`: the kernel scheduling priority. */
  function StatPriority(contents: string): int
    requires StatWellFormed(contents)
  {
    ParseInt(NthWord(contents, 17))
  }

  /** `int(data[18])`: the nice value. */
  function StatNice(contents: string): int
    requires StatWellFormed(contents)
  {
    ParseInt(NthWord(contents, 18))
  }

  /** `int(data[19])`: the number of threads. */
  function StatNumThreads(contents: string): int
    requires StatWellFormed(contents)
  {
    ParseInt(NthWord(contents, 19))
  }

  /** `f.read().strip().replace('\x00', ' ')` on a `cmdline` file. */
  function CommandText(contents: string): (command: string)
    ensures '\0' !in command
  {
    ReplaceChar(Strip(contents), '\0', ' ')
  }

  /** The status and stat files of the process directory `e`, where present, are well formed. */
  ghost predicate ProcessEntryWellFormed(fs: Proc, e: string) {
    && (StatusPath(e) in fs.files ==> StatusWellFormed(fs.files[StatusPath(e)]))
    && (StatPath(e) in fs.files ==> StatWellFormed(fs.files[StatPath(e)]))
  }

  /** The status and stat files of every process directory are well formed. */
  ghost predicate ProcessFilesWellFormed(fs: Proc) {
    forall e :: ProcessEntryWellFormed(fs, e)
  }

  /** The status and stat files of the thread directory `e` of process `p`, where present, are well formed. */
  ghost predicate ThreadEntryWellFormed(fs: Proc, p: string, e: string) {
    && (ThreadStatusPath(p, e) in fs.files ==> ThreadStatusWellFormed(fs.files[ThreadStatusPath(p, e)]))
    && (ThreadStatPath(p, e) in fs.files ==> StatWellFormed(fs.files[ThreadStatPath(p, e)]))
  }

  /** The status and stat files of every thread in `/proc/<p>/task`, where present, are well formed. */
  ghost predicate TaskFilesWellFormed(fs: Proc, p: string) {
    forall e :: ThreadEntryWellFormed(fs, p, e)
  }

  /** The files the specific loop reads for one tracked pid, where present, are well formed. */
  ghost predicate PidFilesWellFormed(fs: Proc, pid: nat) {
    ProcessEntryWellFormed(fs, NatToString(pid)) && TaskFilesWellFormed(fs, NatToString(pid))
  }

  /** The files of every pid in `pids`, where present, are well formed. */
  ghost predicate TrackedFilesWellFormed(fs: Proc, pids: seq<nat>) {
    forall p :: p in pids ==> PidFilesWellFormed(fs, p)
  }
}

/**
 * The slice of the filesystem the collector sees, and the directory walk of
 * `CtypesFunctions.list_directory`.
 *
 * Paths are kept by the shape of the f-string that builds them
 * (`f"/proc/{pid}/status"`, `f"/proc/{pid}/task/{tid}/stat"`, a fixed path),
 * so two paths are the same file exactly when their parts are the same;
 * `PathText` spells a path out.  `files` maps a path to the whole text of
 * the file; a path that is not a key is a file whose `open` raises
 * `FileNotFoundError` (the process or thread vanished).  `dirs` maps a
 * directory to the raw `d_name` buffers `readdir` returns, in order; a
 * directory that is not a key is one `opendir` cannot open, which lists as
 * empty.
 */
module ProcFs {
  import opened Text

  /** The per-process and per-thread files the collector opens. */
  datatype FileName = Status | Stat | Cmdline

  datatype Path =
    | ProcFile(entry: string, file: FileName)
    | ThreadFile(pid: string, entry: string, file: FileName)
    | SystemFile(path: string)

  /** The two kinds of directory the collector lists: /proc and a process's task directory. */
  datatype DirPath = ProcDir | TaskOf(pid: string)

  datatype Proc = Proc(files: map<Path, string>, dirs: map<DirPath, seq<string>>)

  function FileNameText(f: FileName): string {
    match f
    case Status => "status"
    case Stat => "stat"
    case Cmdline => "cmdline"
  }

  /** The path as the source spells it. */
  function PathText(p: Path): string {
    match p
    case ProcFile(entry, file) => "/proc/" + entry + "/" + FileNameText(file)
    case ThreadFile(pid, entry, file) => "/proc/" + pid + "/task/" + entry + "/" + FileNameText(file)
    case SystemFile(path) => path
  }

  /** `/proc/<entry>/<file>` for a process directory named `entry`. */
  function ProcPath(entry: string, file: FileName): Path {
    ProcFile(entry, file)
  }

  function StatusPath(entry: string): Path { ProcPath(entry, Status) }
  function StatPath(entry: string): Path { ProcPath(entry, Stat) }
  function CmdlinePath(entry: string): Path { ProcPath(entry, Cmdline) }

  /** `/proc` itself. */
  const ProcRoot: DirPath := ProcDir

  /** `/proc/<pid>/task`, the directory of a process's threads. */
  function TaskDir(pid: nat): DirPath {
    TaskOf(NatToString(pid))
  }

  /** `/proc/<pid>/task/<entry>/<file>` for a thread directory named `entry`. */
  function ThreadPath(pidText: string, entry: string, file: FileName): Path {
    ThreadFile(pidText, entry, file)
  }

  function ThreadStatusPath(pidText: string, entry: string): Path { ThreadPath(pidText, entry, Status) }
  function ThreadStatPath(pidText: string, entry: string): Path { ThreadPath(pidText, entry, Stat) }

  const PasswdPath: Path := SystemFile("/etc/passwd")
  const MeminfoPath: Path := SystemFile("/proc/meminfo")
  const LoadavgPath: Path := SystemFile("/proc/loadavg")
  const UptimePath: Path := SystemFile("/proc/uptime")
  const SystemStatPath: Path := SystemFile("/proc/stat")

  /** The contents of a file, when it exists. */
  function ReadFile(fs: Proc, path: Path): (contents: string)
    requires path in fs.files
  {
    fs.files[path]
  }

  /** A `d_name` buffer cut at its first NUL. */
  function EntryName(raw: string): (name: string)
    ensures '\0' !in name
    ensures |name| <= |raw| && name == raw[..|name|]
    ensures |name| < |raw| ==> raw[|name|] == '\0'
    decreases |raw|
  {
    if |raw| == 0 || raw[0] == '\0' then "" else [raw[0]] + EntryName(raw[1..])
  }

  /** Names `list_directory` keeps: everything except the self and parent links. */
  predicate Kept(name: string) {
    name != "." && name != ".."
  }

  /** The names `list_directory` returns for the raw entries, in `readdir` order. */
  function Listing(raw: seq<string>): (names: seq<string>)
    ensures |names| <= |raw|
    ensures forall k :: 0 <= k < |names| ==> Kept(names[k]) && '\0' !in names[k]
  {
    if raw == [] then []
    else
      var rest := Listing(raw[..|raw| - 1]);
      var name := EntryName(raw[|raw| - 1]);
      if Kept(name) then rest + [name] else rest
  }

  /** Every raw entry whose truncated name is kept shows up in the listing. */
  lemma {:induction false} ListingComplete(raw: seq<string>, k: nat)
    requires k < |raw| && Kept(EntryName(raw[k]))
    ensures EntryName(raw[k]) in Listing(raw)
  {
    var init := raw[..|raw| - 1];
    if k < |raw| - 1 {
      assert init[k] == raw[k];
      ListingComplete(init, k);
    }
  }

  /** Every listed name is the truncated name of some raw entry. */
  lemma {:induction false} ListingSound(raw: seq<string>, name: string)
    requires name in Listing(raw)
    ensures exists k :: 0 <= k < |raw| && EntryName(raw[k]) == name
  {
    var init := raw[..|raw| - 1];
    if name in Listing(init) {
      ListingSound(init, name);
      var k :| 0 <= k < |init| && EntryName(init[k]) == name;
      assert raw[k] == init[k];
    } else {
      assert EntryName(raw[|raw| - 1]) == name;
    }
  }

  /** What `list_directory(path)` returns. */
  function ListDir(fs: Proc, path: DirPath): (names: seq<string>)
    ensures path !in fs.dirs ==> names == []
    ensures forall k :: 0 <= k < |names| ==> Kept(names[k]) && '\0' !in names[k]
  {
    if path in fs.dirs then Listing(fs.dirs[path]) else []
  }

  /** `CtypesFunctions.list_directory`: walk the entries, cut each name at NUL, drop "." and "..". */
  method ListDirectory(fs: Proc, path: DirPath) returns (entries: seq<string>)
    ensures entries == ListDir(fs, path)
  {
    if path !in fs.dirs {
      return [];
    }
    var raw := fs.dirs[path];
    entries := [];
    var i := 0;
    while i < |raw|
      invariant 0 <= i <= |raw|
      invariant entries == Listing(raw[..i])
    {
      var name := EntryName(raw[i]);
      if name != "." && name != ".." {
        entries := entries + [name];
      }
      assert raw[..i + 1][..i] == raw[..i];
      i := i + 1;
    }
    assert raw[..i] == raw;
  }
}

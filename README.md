# Dashboard_SO collection engine, in Dafny

Dashboard_SO is a Linux system monitor. A collector object (`Model` in
model.py) walks `/proc` in three loops. The first produces the general
process list. The second produces detailed records of the processes the user
opened in a tab, with their threads. The third produces system-wide figures:
memory, swap, per-CPU usage, process and thread totals, load average and
uptime. A window (`View` in view.py) shows these and asks the collector to
track or forget a process through a request queue.

This project models that engine and proves properties of the model:

- `procfs.dfy` (`ProcFs`): the filesystem snapshot the collector reads, the
  paths it builds and the directory walk of `list_directory`.
- `text.dfy` (`Text`): the Python string operations the parsers rely on
  (`split(':')`, `strip()`, `split()`, `int()`, `float()`, `isdigit()`),
  written out on `seq<char>`.
- `status.dfy` (`StatusFile`): the line-by-line scan of a `status` file and
  the fields of a `stat` file.
- `helpers.dfy`, `cpurate.dfy`, `rounding.dfy`: the small helpers of the
  collector. These are the state table, the KB/MB/GB choice, HH:MM:SS, the
  password-file lookup, the CPU-rate formula and `round`.
- `ticks.dfy` (`Ticks`): what one pass of each process loop computes,
  written as a fold over the directory entries. Each fold carries the CPU
  baselines along.
- `systemstats.dfy` (`SystemStats`): the general-statistics pass.
- `subscriptions.dfy` (`Subscriptions`): the request queue and the
  dictionary of tracked processes it edits.
- `collector.dfy` (`Collector`): the `Model` class. Its fields are the
  baseline tables and the three result collections. Its methods are one
  pass of each loop, each proved equal to the fold that specifies it.
- `view.dfy` (`Gui`): the `View` class's tab bookkeeping. This covers which
  pid has which tab, what `update_data` refreshes or closes, and the
  requests it queues. It also has the usage bar of `plot_graph_string`.
- `protocol.dfy` (`Protocol`): the round trip between the window and the
  collector. Opening a tab queues "add". The next specific pass reads the
  pid. The next refresh shows the record, or closes the tab and queues
  "remove" when the process is gone.

The model follows the code as written. Some of its behaviour goes beyond
what the documentation of the project describes:

- `_prev_proc_data` is one table shared by the general and the specific
  loop (model.py:90, 475, 484). Both loops sample and overwrite the same
  baselines.
- A missing `/proc/meminfo`, `/proc/loadavg` or `/proc/uptime` makes the
  statistics pass return the empty list (model.py:369, 423-426). It does not
  keep the previous figures.
- A tracked process whose files vanished gets the tuple of `None`s on every
  pass (model.py:317-321), until the window's "remove" arrives.
- `_uid_to_username` returns the first password line that contains the uid
  text anywhere, not only in the uid field (model.py:435).
- `_get_cpu_usage_process` does not clamp its result: ticks that went down
  give a negative percentage (model.py:477-490).

## Model

| member | source | states |
|---|---|---|
| ProcFs.EntryName | model.py:49-52 | the name is the raw `d_name` cut at its first NUL: a NUL-free prefix followed by a NUL or the end of the buffer |
| ProcFs.Listing | model.py:54-55 | the listing is no longer than the raw entries, and no listed name is "." or ".." or holds a NUL |
| ProcFs.ListingComplete | model.py:42-55 | every raw entry whose cut name is not "." or ".." appears in the listing |
| ProcFs.ListingSound | model.py:42-55 | every listed name is the cut name of some raw entry |
| ProcFs.ListDirectory | model.py:33-58 | the loop returns the listing of the directory, or nothing when it cannot be opened |
| ProcFs.ListDir | model.py:33-58 | a directory that cannot be opened lists nothing; no listed name is "." or ".." or holds a NUL |
| Text.SplitOn | model.py:209 | `split(':')` gives at least one part and no part holds the separator; there are two or more parts exactly when the separator occurs |
| Text.SplitJoin | model.py:209 | joining the parts with the separator gives back the original line |
| Text.SplitOnAfterField | model.py:209 | a separator-free field and a separator in front of the rest split off as the first part |
| Text.Lines | model.py:207 | the lines of a file hold no newline |
| Text.AfterColon | model.py:209 | the value text after the first ':' holds no ':' |
| Text.TrimLeft | model.py:209 | leading whitespace is removed: the result starts with a non-space, and every dropped character was whitespace |
| Text.TrimLeftIsSuffix | model.py:209 | what `TrimLeft` keeps is a suffix of its input |
| Text.TrimRight | model.py:209 | trailing whitespace is removed: the result is a prefix ending in a non-space, and every dropped character was whitespace |
| Text.Strip | model.py:209 | `strip()` keeps a contiguous part of the text that starts and ends with a non-space, and everything cut off at either end is whitespace; a text without whitespace is unchanged |
| Text.TakeWord | model.py:211 | the first word is the longest whitespace-free prefix |
| Text.Words | model.py:211 | every word of `split()` is non-empty and holds no whitespace |
| Text.NthWord | model.py:221-223 | the k-th word holds no whitespace |
| Text.NthWordIsWordsIndex | model.py:221-223 | `NthWord(s, k)` is `s.split()[k]`, and is empty past the last word |
| Text.WordsOfWord | model.py:211 | a text without whitespace splits into itself alone, or into nothing when empty |
| Text.DigitChar | model.py:546 | the digit character of a digit reads back as that digit |
| Text.NatToString | model.py:264 | `str(n)` of a natural is a non-empty string of digits |
| Text.ParseNatToString | model.py:198 | `int(str(n)) == n` |
| Text.NatToStringInjective | model.py:264 | different pids give different path texts |
| Text.ParseInt | model.py:222 | on a digit string `int()` is the decimal value |
| Text.ParseDecimal | model.py:414 | on a digit string `float()` is the decimal value |
| Text.ReplaceChar | model.py:265 | each occurrence of the character is replaced and nothing else changes |
| Text.Repeat | view.py:471 | `c * n` has length `n` (0 when `n <= 0`), and every character is `c` |
| StatusFile.LastOf | model.py:207-218 | the found line has the key and is a line of the file; no line has the key when nothing is found |
| StatusFile.LastOfSnoc | model.py:207-218 | a new last line takes over the field of its own key and leaves the others |
| StatusFile.LastOfIsLast | model.py:207-218 | a keyed line with no later line of the same key is the one found |
| StatusFile.ScanLineField | model.py:268-299 | one line sets exactly the field of its branch |
| StatusFile.ScanLinesLastWins | model.py:268-299 | after the scan every field holds the value of the last line of its kind, or is unset |
| StatusFile.ScanStatus | model.py:267-299 | the `if`/`elif` loop computes the fold, and every field holds its last line's value |
| StatusFile.CommandText | model.py:264-265 | the command text holds no NUL |
| Helpers.GetProcessStatus | model.py:441-452 | the label is not "Unknown" exactly when the letter is in the table, and is always a table label or "Unknown" |
| Helpers.StatusRoundTrip | model.py:445-452 | a known letter is recovered from its label; an unknown letter is not |
| Helpers.KbToQuantity | model.py:454-463 | the size keeps its KiB count |
| Helpers.UnitFactor | model.py:458-461 | every unit is at least one KiB |
| Helpers.KbToQuantityScale | model.py:454-463 | KB below 1024, GB from 1024*1024; the shown number is at least 1 above KB and below 1024 for MB; no magnitude is lost |
| Helpers.HmsOf | model.py:542-545 | minutes and seconds lie in [0, 60); hours*3600 + minutes*60 + seconds is the whole seconds; hours are non-negative for non-negative input |
| Helpers.Pad2 | model.py:546 | `:02d` of a non-negative number has at least two digits that read back as the number |
| Helpers.SecondsToHhmmss | model.py:538-546 | a non-negative duration gives at least eight characters (`HH:MM:SS`) |
| Helpers.SecondsToHhmmssFields | model.py:538-546 | a non-negative duration renders as three ':'-separated fields of two or more digits; they read back as hours, minutes below 60 and seconds below 60, summing to the whole seconds |
| Helpers.SplitThreeFields | model.py:546 | three ':'-free fields joined by ':' split back into those fields |
| Helpers.FirstMatchingAccount | model.py:432-437 | with no line containing the uid, the uid text itself is returned |
| Helpers.FirstMatchingAccountIsFirst | model.py:434-436 | the name is the text before ':' of the first line containing the uid |
| Helpers.UidToUsername | model.py:428-439 | the uid text itself when /etc/passwd is missing or no line contains it |
| CpuRate.CpuPercent | model.py:465-490 | 0.0 for a first sample or when no time elapsed; otherwise within 0.005 of the exact rate |
| CpuRate.ExactRate | model.py:477-490 | the rate times the elapsed seconds times the clock rate is 100 times the ticks consumed |
| CpuRate.CpuPercentInRange | model.py:477-490 | non-decreasing ticks and no more CPU time than wall time give a percentage in [0, 100] |
| CpuRate.CpuPercentFullCore | model.py:477-490 | 150 ticks over 1.5 s is 100.0 |
| CpuRate.CpuPercentNotClamped | model.py:486-490 | ticks that went down give a negative percentage |
| Rounding.RoundInt | view.py:470 | `round(x)` is within one half of `x` |
| Rounding.Round2 | model.py:490 | `round(x, 2)` is within 0.005 of `x` |
| Rounding.RoundIntMonotone | view.py:470 | rounding is monotone |
| Rounding.RoundIntOfInt | view.py:470 | integers round to themselves |
| Rounding.RoundIntWithin | view.py:470 | a value between integer bounds rounds between them |
| Rounding.Round2Monotone | model.py:490 | rounding to hundredths is monotone |
| Rounding.Round2OfHundredths | model.py:490 | hundredths round to themselves |
| Rounding.Round2Percent | model.py:511-512 | a percentage in [0, 100] stays in [0, 100] |
| Ticks.ProcessRowOf | model.py:227 | the row carries the entry's pid and the sampled CPU figure |
| Ticks.ProcessStep | model.py:195-230 | an unreported entry changes nothing; a reported one adds its pid's row, sampled against the old baseline of that pid, gives it a fresh baseline `(ticks, now)`, and leaves every other row as it was; rows stay keyed by their pid |
| Ticks.ProcessesScan | model.py:187-231 | every row of the process list is keyed by its own pid |
| Ticks.ProcessesScanBaselines | model.py:224 | every reported pid gets a baseline taken now, and every other baseline is kept |
| Ticks.ProcessesScanKeys | model.py:195-230 | a pid has a row exactly when a numeric entry names it and both its status and stat files open |
| Ticks.ThreadRowOf | model.py:357 | the row carries the tid and the sampled CPU figure |
| Ticks.ThreadRowFor | model.py:336-357 | the row of an entry carries `int(entry)` and the CPU figure |
| Ticks.ThreadStep | model.py:333-360 | an unreported entry changes nothing; a reported one appends one row with its tid, whose CPU figure is measured against the thread's baseline before the step, and gives the tid a fresh baseline |
| Ticks.ThreadsScan | model.py:325-361 | at most one row per entry; every listed thread has a baseline taken now; no thread baseline is dropped |
| Ticks.TidsOf | model.py:357 | the tids of the rows, in order |
| Ticks.ThreadsScanTids | model.py:333-360 | the rows are exactly the reported thread entries, in directory order |
| Ticks.DetailOf | model.py:312-315 | the record carries the pid, the sampled CPU figure and the thread rows |
| Ticks.ReadTracked | model.py:245-321 | the tombstone exactly when cmdline, status or stat cannot be opened, and then no baseline changes; otherwise the pid's baseline becomes `(ticks, now)` with every other process baseline kept, the thread baselines are those the thread scan leaves, and the record carries the CPU figure measured against the old baseline and the scanned thread rows; never the empty tuple |
| Ticks.SpecificScan | model.py:240-323 | the new dictionary has exactly the tracked pids as keys; no entry is pending; an entry is the tombstone exactly when the pid's files cannot be read; a record carries its pid |
| Ticks.SpecificScanProcBaselines | model.py:240-315 | over distinct tracked pids, every readable pid ends with a baseline `(ticks, now)` in the shared process table, every other process baseline is kept, nothing else is added, and no thread baseline is dropped |
| Ticks.SpecificScanCpu | model.py:302-315 | over distinct tracked pids, every readable pid's record carries the CPU figure measured against the baseline it had before the pass |
| Subscriptions.RequestQueue.constructor | controller.py:16 | the queue starts empty |
| Subscriptions.RequestQueue.Put | view.py:258 | `put` appends the request |
| Subscriptions.RequestQueue.Get | model.py:162 | `get` removes and returns the first request |
| Subscriptions.Without | model.py:170 | the remaining order holds every other pid and keeps them distinct |
| Subscriptions.WithoutAt | model.py:170 | `del` cuts the pid out where it stood and keeps the order of the others |
| Subscriptions.WithoutAbsent | model.py:170 | removing a pid that is not tracked leaves the order unchanged |
| Subscriptions.ApplyRequest | model.py:162-172 | "add" tracks the pid with the empty tuple unless already tracked; "remove" untracks it; no other pid or entry changes |
| Subscriptions.ApplyRequests | model.py:161-172 | the drained dictionary keeps its order and keys consistent |
| Subscriptions.LastCommand | model.py:161-172 | the last command for a pid is "add", "remove" or none |
| Subscriptions.ApplyRequestsMembership | model.py:161-172 | after a drain a pid is tracked exactly when its last command was "add", or none came and it was tracked |
| Subscriptions.ApplyRequestsEntries | model.py:161-172 | a tracked pid keeps its entry unless a "remove" for it was drained; otherwise it holds the empty tuple |
| Subscriptions.AddIdempotent | model.py:165-166 | adding a pid twice equals adding it once |
| Subscriptions.IgnoredRequests | model.py:167-172 | removing an untracked pid, or an unknown request, changes nothing |
| Subscriptions.ApplyRequestsAppend | model.py:161-172 | draining two batches equals draining their concatenation |
| SystemStats.LastMem | model.py:384-397 | the found line has the key; no line has it when nothing is found |
| SystemStats.LastMemIsLast | model.py:385-397 | a keyed line with no later line of the same key is the one found |
| SystemStats.MemField | model.py:385-397 | a figure is unset exactly when no line of its kind exists |
| SystemStats.MeminfoOfSnoc | model.py:385-397 | one more meminfo line updates only the field of its branch |
| SystemStats.MeminfoOf | model.py:384-397 | each of the six figures is set exactly when a line of its kind exists |
| SystemStats.ScanMeminfo | model.py:384-397 | the loop leaves each field holding the value of its last line |
| SystemStats.UsagePercent | model.py:400 | 0.0 when the total is not positive; otherwise `pct * total == 100 * used`, and within [0, 100] when `0 <= used <= total` |
| SystemStats.MemoryFiguresOf | model.py:399-407 | the totals are `int()` of MemTotal and SwapTotal; used = total - free - buffers - cached; used swap = total swap - free swap; the percentages are of these |
| SystemStats.MemoryFiguresInRange | model.py:399-407 | consistent meminfo values give used amounts within the totals and percentages in [0, 100] |
| SystemStats.UsagePercentExamples | model.py:400-405 | 6 GiB of 16 GiB is 37.5 percent; no swap is 0.0 |
| SystemStats.CpuLineWords | model.py:499-503 | at most one token list per line |
| SystemStats.CpuLineWordsSound | model.py:501-503 | every collected token list is `split()` of a line starting with "cpu" |
| SystemStats.CpuLineWordsComplete | model.py:501-503 | the tokens of every line starting with "cpu" are collected |
| SystemStats.CpuLineWordsAppend | model.py:501-503 | the lists are collected in file order: two blocks of lines give the lists of the first then of the second |
| SystemStats.CpuLineWordsOne | model.py:502-503 | one line contributes its tokens exactly when it starts with "cpu" |
| SystemStats.BusyPercent | model.py:511 | 0.0 when the total is not positive; otherwise `pct * total == 100 * (total - idle)`, and within [0, 100] when idle is within the total |
| SystemStats.CpuEntryOf | model.py:507-512 | the pair is labelled by the first token and its usage is within 0.005 of the busy percentage of idle (token 4) over the sum of the counters |
| SystemStats.CpuEntries | model.py:506-512 | at most one pair per token list |
| SystemStats.CpuEntriesSound | model.py:506-512 | every pair comes from a token list of five or more tokens and carries its first token as label |
| SystemStats.CpuEntriesComplete | model.py:506-512 | every token list of five or more tokens gives its pair |
| SystemStats.CpuEntriesAppend | model.py:506-512 | the pairs keep the order of the cpu lines |
| SystemStats.CpuEntriesOne | model.py:507-512 | a token list gives a pair exactly when it has at least five tokens |
| SystemStats.CpuLineWordsWellFormed | model.py:499-503 | the collected token lists keep the well-formedness of their lines |
| SystemStats.GetCpuUsageSystem | model.py:492-518 | the two loops compute the per-CPU pairs, `[]` without `/proc/stat` |
| SystemStats.CpuUsageOf | model.py:492-518 | `[]` when /proc/stat cannot be opened; at most one pair per line |
| SystemStats.CpuUsageInRange | model.py:506-512 | with unsigned counters every CPU is between 0 and 100 percent busy |
| SystemStats.CpuLineLabel | model.py:502-503 | the first token of a line starting with "cpu" starts with "cpu" |
| SystemStats.CpuUsageLabels | model.py:499-512 | every pair is labelled by a token starting with "cpu" |
| SystemStats.ParseDecimalNonNegative | model.py:509-510 | a counter without a minus sign reads as non-negative |
| SystemStats.SumDecimalsAtLeast | model.py:510 | the total time is at least each counter |
| SystemStats.SumDecimalsNonNegative | model.py:510 | the total time is non-negative |
| SystemStats.CpuEntryInRange | model.py:509-512 | unsigned counters give a usage in [0, 100] |
| SystemStats.BusyPercentExamples | model.py:511-512 | 70 idle ticks of 100 is 30.0; an all-zero line is 0.0 |
| SystemStats.CountDigitEntries | model.py:527-529 | at most one per entry |
| SystemStats.ProcsCountDigitEntries | model.py:527-529 | every numeric entry counts as a process, whether or not its stat opens |
| SystemStats.ThreadsWithoutStatFiles | model.py:530-535 | with no readable stat file the thread total is 0 |
| SystemStats.GetTotalThrProcs | model.py:520-536 | returns the process and thread totals over the listing of /proc |
| SystemStats.CountProcsThreads | model.py:524-536 | the counting loop computes the totals fold |
| SystemStats.ProcsThreadsOf | model.py:524-536 | at most one process per entry |
| SystemStats.FirstNumbers | model.py:410-411 | `[float(x) for x in ws[:n]]`: `min(|ws|, n)` numbers, each the value of its token |
| SystemStats.LoadAvgOf | model.py:409-411 | the load average is the first three fields of the file (fewer when it has fewer), each read by `float()` |
| SystemStats.UptimeOf | model.py:413-415 | a non-negative uptime renders as at least eight characters of `HH:MM:SS` |
| SystemStats.GeneralStatsOf | model.py:363-426 | the empty list exactly when meminfo, loadavg or uptime cannot be opened |
| SystemStats.GeneralStatsProcessCount | model.py:418 | the process total is the number of numeric entries of /proc |
| Collector.Model.constructor | model.py:84-91 | empty tables and collections, no tracked pid |
| Collector.Model.CpuUsageProcess | model.py:465-490 | returns the CPU percentage against the old baseline of the chosen table and replaces that baseline with `(ticks, now)`; the other table is untouched |
| Collector.Model.GetProcessesData | model.py:187-231 | the new process list and baselines are the fold over the listing of /proc |
| Collector.Model.ProcessEntry | model.py:196-230 | one entry of /proc is one step of the fold |
| Collector.Model.GetThreadsData | model.py:325-361 | the thread rows and thread baselines are the fold over the task directory |
| Collector.Model.ThreadEntry | model.py:334-360 | one task entry is one step of the fold |
| Collector.Model.ReadPid | model.py:245-321 | reading one tracked pid gives the entry and baselines of its specification |
| Collector.Model.GetSpecificProcessesData | model.py:233-323 | the dictionary is rebuilt in insertion order with the entries of the scan |
| Collector.Model.DrainRequests | model.py:160-172 | the queue is emptied and its requests applied in order |
| Collector.Model.SpecificPass | model.py:160-175 | one pass is a drain followed by a scan of the drained dictionary |
| Collector.Model.GetGeneralStatsData | model.py:363-426 | the stored statistics are those of the filesystem |
| Collector.ReadGeneralStats | model.py:369-426 | the reads and arithmetic give the statistics, `[]` at the first missing file |
| Gui.ActivePid | view.py:290-293 | a found pid owns the selected tab; none found means no pid owns it |
| Gui.ActivePidUnique | view.py:290-293 | with one tab per pid, the owner of a tab is unique |
| Gui.RefreshFor | view.py:287-299 | showing needs a record for the owner of the selected tab; closing needs its tombstone; nothing happens when no pid owns the tab |
| Gui.RefreshOfTab | view.py:293-299 | the selected tab of a pid shows its record, closes on its tombstone, and is left alone while pending or unknown |
| Gui.View.constructor | view.py:9-45 | only the two fixed tabs, no process tab open |
| Gui.View.OpenProcessTab | view.py:163-258 | no selection or an already open pid changes nothing; otherwise a fresh tab is added for the pid and "add" is queued |
| Gui.View.CloseTab | view.py:431-443 | "remove" is queued when asked, the pid is forgotten and its tab leaves the notebook |
| Gui.View.UpdateSpecificTab | view.py:381-386 | a tab without treeviews, or an entry that is not a record, is left alone; otherwise the tab shows the record |
| Gui.View.UpdateData | view.py:263-299 | stores the three collections and refreshes the selected process tab as `RefreshFor` says |
| Gui.View.RefreshOpenedTabs | view.py:286-299 | the loop over the opened tabs has exactly the effect `RefreshFor` gives for the selected tab |
| Gui.PlotGraphString | view.py:465-472 | a filled block exactly at positions below the rounded used share, every character a filled or an empty block, and the length is the positive part of the filled count plus the positive part of the rest up to `blocks` |
| Gui.UsedBlocks | view.py:470 | the filled count is the used share of `blocks` rounded to within half a block |
| Gui.PlotGraphWidth | view.py:469-471 | a usage within the total gives a bar exactly `blocks` long |
| Gui.PlotGraphMonotone | view.py:470 | more usage never fills fewer blocks |
| Gui.PlotGraphExample | view.py:465-471 | 37.5 percent fills 38 of 100 blocks |
| Protocol.LastCommandSnoc | model.py:161-172 | one more request becomes the last command for its pid |
| Protocol.AddedPidIsRead | model.py:160-175 | a pid last added is read by the next pass; it is the tombstone exactly when its files are gone |
| Protocol.RemovedPidIsGone | model.py:167-175 | a pid last removed is absent after the next pass |
| Protocol.TombstoneRepeats | model.py:317-321 | a vanished tracked pid that no request mentions is reported as the tombstone again |
| Protocol.OpenReadRefresh | view.py:258-299 | opening, one pass and one refresh show a readable process's record in its tab with the queue drained, or close a vanished one's tab and leave exactly one "remove" queued |

## Left out

- The threads, `time.sleep` and the queues' blocking: each loop is modelled as one pass. The controller and the three result queues are not part of this model.
- The tkinter widgets: treeview rows, labels, tab texts, `notebook.select`, the CPU-row toggle and the refresh of the process-list and statistics views. The selected tab is a parameter `active`. A tab is a number.
- `time.time()`: one clock reading `now` is a parameter of each pass, where the source reads the clock again for every process and thread.
- Text formatting of floats and sizes (`f"{x:.2f} MB"`): a size is kept as its KiB count and the unit chosen.
- Rounding.Round2: rounds halves up on exact reals, where Python rounds binary doubles half to even. Monotonicity, hundredths rounding to themselves and `r <= x + 0.005` hold for both. The strict lower bound `x - 0.005 < r` holds for half-up only: Python's `round(0.125, 2)` is 0.12. CpuRate.CpuPercent and SystemStats.CpuEntryOf inherit that strict bound. Floating point is not modelled.
- Rounding.RoundInt: rounds halves up, where Python's `round(0.5)` is 0 and `round(2.5)` is 2. Monotonicity, integers rounding to themselves and `n <= x + 0.5` hold for both. The strict lower bound `x - 0.5 < n` holds for half-up only, since `round(0.5)` is 0. Gui.UsedBlocks and Gui.PlotGraphString inherit this, so a share landing exactly on half a block may fill one block more than the source.
- Text: strings are `seq<char>`. There is no UTF-8 decoding of directory names and no Unicode whitespace beyond space, tab, newline, carriage return, vertical tab and form feed. Lines are split on '\n' only, where `splitlines()` and text-mode `open` also break on or translate '\r' and other line separators; /proc files hold none of them.
- ProcFs: paths are kept by their structure rather than as concatenated text. `PathText` gives the text, and `NatToStringInjective` shows distinct pids give distinct paths.
- Collector.Model.GetProcessesData: requires well-formed status and stat files. The source raises (`ValueError`, `IndexError`) on malformed ones, and those paths are not modelled. The same holds for GetSpecificProcessesData, GetThreadsData, ReadPid, GetGeneralStatsData and GetTotalThrProcs. The well-formedness asked is wider than each reader needs: every size line (VmSize, RssShmem, VmExe, VmData, VmStk) must hold an integer although only the specific loop parses them, and GetTotalThrProcs requires every status file well formed although it reads only stat field 19. No kernel writes such lines otherwise.
- Collector.Model.GetThreadsData: requires the status of each thread of the pid being read to carry Name, State, Uid and VmRSS. The source reuses the previous thread's values for a missing line, or raises on the first thread. Only this pid's task directory is constrained, so a tracked kernel process (whose threads have no VmRSS) is outside the model, while kernel threads elsewhere in /proc are not. The same holds for ThreadEntry, ReadPid, GetSpecificProcessesData, SpecificPass and the Protocol lemmas, which constrain only the tracked pids.
- StatusFile.StatWellFormed: reads the stat fields with `split()`, as the source does. A command name containing spaces shifts the fields for the source and the model alike.
- Gui.View.CloseTab: `notebook.forget` raising on an unknown tab is not modelled. The model drops the tab from the list, which leaves the list unchanged when the tab is absent.
- Gui.View.UpdateData: the refresh of the process list and the statistics tab (view.py:277-284) only redraws widgets, so only the stored data is modelled.
- The aliasing of the dictionary handed to the queue: `_specific_processes_dict` is a fresh value in each pass here.

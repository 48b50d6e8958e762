/**
 * The conversation between the window and the collector through the
 * request queue: opening a process tab queues an "add", the next pass of
 * the specific loop drains the queue and reads the pid, and the next
 * refresh of the window shows the record or, when the process is gone,
 * closes the tab and queues a "remove".
 */
module Protocol {
  import opened Wrappers
  import opened Records
  import opened ProcFs
  import opened StatusFile
  import opened Subscriptions
  import opened Ticks
  import opened Collector
  import opened Gui

  /** The last command for `pid` after one more request. */
  lemma {:induction false} LastCommandSnoc(rs: seq<Request>, r: Request, pid: nat)
    ensures LastCommand(rs + [r], pid) ==
      if r.pid == pid && (r.op == AddOp || r.op == RemoveOp) then r.op else LastCommand(rs, pid)
    decreases |rs|
  {
    if rs == [] {
      assert [r][1..] == [];
    } else {
      assert (rs + [r])[1..] == rs[1..] + [r];
      LastCommandSnoc(rs[1..], r, pid);
    }
  }

  /**
   * A pid whose last request was an "add" is read by the next pass: it has an
   * entry that is no longer pending, and the entry is the tombstone exactly
   * when one of its files cannot be opened.
   */
  lemma AddedPidIsRead(s: Subs, rs: seq<Request>, pid: nat, fs: Proc, now: real,
                       prevProc: map<nat, CpuRate.Baseline>, prevThrd: map<nat, CpuRate.Baseline>)
    requires s.Valid() && TrackedFilesWellFormed(fs, ApplyRequests(s, rs).order)
    requires LastCommand(rs, pid) == AddOp
    ensures var r := SpecificScan(fs, now, ApplyRequests(s, rs).order, prevProc, prevThrd);
      && pid in r.entries && !r.entries[pid].Pending?
      && (r.entries[pid].Tombstone? <==> !Readable(fs, pid))
  {
    ApplyRequestsMembership(s, rs, pid);
  }

  /** A pid whose last request was a "remove" is absent after the next pass. */
  lemma RemovedPidIsGone(s: Subs, rs: seq<Request>, pid: nat, fs: Proc, now: real,
                         prevProc: map<nat, CpuRate.Baseline>, prevThrd: map<nat, CpuRate.Baseline>)
    requires s.Valid() && TrackedFilesWellFormed(fs, ApplyRequests(s, rs).order)
    requires LastCommand(rs, pid) == RemoveOp
    ensures pid !in SpecificScan(fs, now, ApplyRequests(s, rs).order, prevProc, prevThrd).entries
  {
    ApplyRequestsMembership(s, rs, pid);
  }

  /**
   * The collector keeps reporting a vanished process: while no request
   * mentions it, every pass writes the tombstone again.
   */
  lemma TombstoneRepeats(s: Subs, rs: seq<Request>, pid: nat, fs: Proc, now: real,
                         prevProc: map<nat, CpuRate.Baseline>, prevThrd: map<nat, CpuRate.Baseline>)
    requires s.Valid() && TrackedFilesWellFormed(fs, ApplyRequests(s, rs).order)
    requires pid in s.entries && LastCommand(rs, pid) == "" && !Readable(fs, pid)
    ensures var r := SpecificScan(fs, now, ApplyRequests(s, rs).order, prevProc, prevThrd);
      pid in r.entries && r.entries[pid] == Tombstone
  {
    ApplyRequestsMembership(s, rs, pid);
  }

  /**
   * One round trip for a pid without a tab: the window opens its tab, the
   * collector runs a pass of the specific loop, and the window refreshes with
   * that tab selected.  A readable process is then shown in its tab with the
   * record just read; a vanished one has its tab closed and a "remove" waiting
   * in the queue.
   */
  method OpenReadRefresh(view: View, model: Model, fs: Proc, now: real, pid: nat) returns (tab: nat)
    requires view.Valid() && model.Valid() && view.requests == model.requests
    requires pid !in view.openedTabs
    requires TrackedFilesWellFormed(fs, ApplyRequests(model.specific, model.requests.items + [Request(pid, AddOp)]).order)
    modifies view, model, model.requests
    ensures view.Valid() && model.Valid()
    ensures pid in model.specific.entries && !model.specific.entries[pid].Pending?
    ensures Readable(fs, pid) ==>
      && model.specific.entries[pid].Detail?
      && pid in view.openedTabs && view.openedTabs[pid] == tab
      && tab in view.shown && view.shown[tab] == model.specific.entries[pid].detail
      && model.requests.items == []
    ensures !Readable(fs, pid) ==>
      && model.specific.entries[pid] == Tombstone
      && pid !in view.openedTabs && tab !in view.tabs
      && model.requests.items == [Request(pid, RemoveOp)]
  {
    tab := view.nextTab;
    view.OpenProcessTab(Some(pid));
    ghost var queued := model.requests.items;
    ghost var before := model.specific;
    LastCommandSnoc(queued[..|queued| - 1], Request(pid, AddOp), pid);
    assert queued == queued[..|queued| - 1] + [Request(pid, AddOp)];
    AddedPidIsRead(before, queued, pid, fs, now, model.prevProc, model.prevThrd);
    var entries := model.SpecificPass(fs, now);
    ghost var tabMap := view.openedTabs;
    RefreshOfTab(tabMap, entries, pid);
    view.UpdateData(model.processes, entries, model.generalStats, tab);
  }
}

/**
 * The bookkeeping of the dashboard window (`View` in view.py) that decides
 * what the collector is asked to track: which process tabs are open, which
 * tab shows which pid, which records were handed over on the last refresh,
 * and the requests put on the queue shared with the collector.  The widgets
 * themselves are left out; a tab is identified by a number, the two fixed
 * tabs being 0 (process list) and 1 (general statistics).
 */
module Gui {
  import opened Text
  import opened Wrappers
  import opened Records
  import opened Rounding
  import opened Subscriptions

  const ProcessListTab: nat := 0
  const GeneralStatsTab: nat := 1

  /** No two pids share a tab. */
  predicate Injective(m: map<nat, nat>) {
    forall p, q :: p in m && q in m && p != q ==> m[p] != m[q]
  }

  /** What the refresh loop of `update_data` does with the tab of one pid. */
  datatype Refresh = Keep | Show(detail: ProcessDetail) | Close(pid: nat)

  /**
   * The pid whose tab is the selected one, if any.  When the tab map is
   * injective there is at most one such pid.
   */
  ghost function ActivePid(tabMap: map<nat, nat>, active: nat): (p: Option<nat>)
    ensures p.Some? ==> p.value in tabMap && tabMap[p.value] == active
    ensures p.None? ==> forall q :: q in tabMap ==> tabMap[q] != active
  {
    if exists q :: q in tabMap && tabMap[q] == active then
      var q :| q in tabMap && tabMap[q] == active; Some(q)
    else None
  }

  lemma ActivePidUnique(tabMap: map<nat, nat>, active: nat, q: nat)
    requires Injective(tabMap) && q in tabMap && tabMap[q] == active
    ensures ActivePid(tabMap, active) == Some(q)
  {
  }

  /**
   * The effect of one refresh on the selected tab: nothing while the
   * collector has not read the pid yet (the empty tuple) or does not know it,
   * the record when it was read, and closing the tab when the collector
   * reported the process gone (the tuple of `None`s).
   */
  ghost function RefreshFor(tabMap: map<nat, nat>, specific: map<nat, DetailEntry>, active: nat): (r: Refresh)
    ensures r.Show? ==> exists q :: q in tabMap && tabMap[q] == active && q in specific && specific[q] == Detail(r.detail)
    ensures r.Close? ==> r.pid in tabMap && tabMap[r.pid] == active && r.pid in specific && specific[r.pid] == Tombstone
    ensures (forall q :: q in tabMap ==> tabMap[q] != active) ==> r == Keep
  {
    var p := ActivePid(tabMap, active);
    if specific == map[] || p.None? || p.value !in specific then Keep
    else
      match specific[p.value]
      case Pending => Keep
      case Detail(d) => Show(d)
      case Tombstone => Close(p.value)
  }

  /**
   * Refreshing the tab of a pid shows its record once the collector has read
   * it, closes the tab once the collector reports the process gone, and does
   * nothing while the pid is pending or unknown to the collector.
   */
  lemma RefreshOfTab(tabMap: map<nat, nat>, specific: map<nat, DetailEntry>, pid: nat)
    requires Injective(tabMap) && pid in tabMap
    ensures var r := RefreshFor(tabMap, specific, tabMap[pid]);
      && (pid in specific && specific[pid].Detail? ==> r == Show(specific[pid].detail))
      && (pid in specific && specific[pid].Tombstone? ==> r == Close(pid))
      && (pid !in specific || specific[pid].Pending? ==> r == Keep)
  {
    ActivePidUnique(tabMap, tabMap[pid], pid);
  }

  class View {
    /** `process_data_dict` */
    var processData: map<nat, ProcessRow>
    /** `specific_process_data_dict` */
    var specificData: map<nat, DetailEntry>
    /** `general_stats_data` */
    var generalData: GeneralStats
    /** `processes_opened_tabs`: pid to the tab showing it. */
    var openedTabs: map<nat, nat>
    /** The tabs that own a pair of detail treeviews (`process_data_treeviews`, `threads_treeviews`). */
    var dataTabs: set<nat>
    /** The record each detail tab displays, written by `update_specific_process_tab`. */
    var shown: map<nat, ProcessDetail>
    /** The notebook's tabs, in order. */
    var tabs: seq<nat>
    /** The identity the next created tab receives. */
    var nextTab: nat
    /** `specific_process_req_queue`, shared with the collector. */
    const requests: RequestQueue

    /**
     * Every open pid has its own tab, which is still in the notebook and owns
     * its treeviews; tab identities are never reused.
     */
    predicate Valid()
      reads this
    {
      && Distinct(tabs)
      && GeneralStatsTab < nextTab
      && (forall t :: t in tabs ==> t < nextTab)
      && (forall t :: t in dataTabs ==> GeneralStatsTab < t < nextTab)
      && (forall p :: p in openedTabs ==> openedTabs[p] in tabs && openedTabs[p] in dataTabs)
      && Injective(openedTabs)
      && shown.Keys <= dataTabs
    }

    constructor (requests: RequestQueue)
      ensures Valid() && this.requests == requests
      ensures tabs == [ProcessListTab, GeneralStatsTab] && nextTab == 2
      ensures openedTabs == map[] && dataTabs == {} && shown == map[]
      ensures processData == map[] && specificData == map[] && generalData == NoStats
    {
      this.requests := requests;
      processData, specificData, generalData := map[], map[], NoStats;
      openedTabs, dataTabs, shown := map[], {}, map[];
      tabs, nextTab := [ProcessListTab, GeneralStatsTab], 2;
    }

    /**
     * `create_specific_process_tab` for the pid selected in the process list
     * (`None` when nothing is selected): a pid that already has a tab gets no
     * second one; otherwise a fresh tab is added and an "add" request queued.
     */
    method OpenProcessTab(selected: Option<nat>)
      requires Valid()
      modifies this, requests
      ensures Valid()
      ensures selected.None? || selected.value in old(openedTabs) ==>
        && openedTabs == old(openedTabs) && tabs == old(tabs) && dataTabs == old(dataTabs)
        && nextTab == old(nextTab) && requests.items == old(requests.items)
      ensures selected.Some? && selected.value !in old(openedTabs) ==>
        && openedTabs == old(openedTabs)[selected.value := old(nextTab)]
        && tabs == old(tabs) + [old(nextTab)] && dataTabs == old(dataTabs) + {old(nextTab)}
        && nextTab == old(nextTab) + 1
        && requests.items == old(requests.items) + [Request(selected.value, AddOp)]
      ensures shown == old(shown)
      ensures processData == old(processData) && specificData == old(specificData) && generalData == old(generalData)
    {
      if selected.None? {
        return;
      }
      var pid := selected.value;
      if pid in openedTabs {
        return;
      }
      var detailsTab := nextTab;
      assert detailsTab !in tabs && detailsTab !in dataTabs;
      nextTab := nextTab + 1;
      openedTabs := openedTabs[pid := detailsTab];
      tabs := tabs + [detailsTab];
      dataTabs := dataTabs + {detailsTab};
      assert Distinct(tabs) by {
        forall i, j | 0 <= i < j < |tabs|
          ensures tabs[i] != tabs[j]
        {
          if j == |tabs| - 1 {
            assert tabs[i] == old(tabs)[i];
          } else {
            assert tabs[i] == old(tabs)[i] && tabs[j] == old(tabs)[j];
          }
        }
      }
      assert forall q :: q in openedTabs ==> openedTabs[q] in tabs && openedTabs[q] in dataTabs by {
        forall q | q in openedTabs
          ensures openedTabs[q] in tabs && openedTabs[q] in dataTabs
        {
          if q != pid {
            assert old(openedTabs)[q] in old(tabs);
          }
        }
      }
      requests.Put(Request(pid, AddOp));
    }

    /**
     * `close_tab`: queue a "remove" request when asked to, forget the pid and
     * drop the tab from the notebook (the treeviews stay registered).  The tab
     * passed in is the one created for `pid`, so no other pid owns it.
     */
    method CloseTab(tab: nat, pid: nat, req: bool)
      requires Valid()
      requires forall q :: q in openedTabs && openedTabs[q] == tab ==> q == pid
      modifies this, requests
      ensures Valid()
      ensures requests.items == old(requests.items) + if req then [Request(pid, RemoveOp)] else []
      ensures openedTabs == old(openedTabs) - {pid}
      ensures tabs == Without(old(tabs), tab)
      ensures dataTabs == old(dataTabs) && shown == old(shown) && nextTab == old(nextTab)
      ensures processData == old(processData) && specificData == old(specificData) && generalData == old(generalData)
    {
      if req {
        requests.Put(Request(pid, RemoveOp));
      }
      openedTabs := openedTabs - {pid};
      tabs := Without(tabs, tab);
      forall q | q in openedTabs
        ensures openedTabs[q] in tabs
      {
        assert old(openedTabs)[q] != tab && old(openedTabs)[q] in old(tabs);
      }
    }

    /**
     * `update_specific_process_tab`: a tab without treeviews, or an entry
     * that is not a full record, is left alone.
     */
    method UpdateSpecificTab(tab: nat, entry: DetailEntry)
      requires Valid()
      modifies this
      ensures Valid()
      ensures shown == if tab in dataTabs && entry.Detail? then old(shown)[tab := entry.detail] else old(shown)
      ensures openedTabs == old(openedTabs) && tabs == old(tabs) && dataTabs == old(dataTabs) && nextTab == old(nextTab)
      ensures processData == old(processData) && specificData == old(specificData) && generalData == old(generalData)
    {
      if tab !in dataTabs || !entry.Detail? {
        return;
      }
      shown := shown[tab := entry.detail];
    }

    /** The tab state after a refresh has had effect `r` on the selected tab `active`. */
    ghost predicate Refreshed(r: Refresh, active: nat, tabMap0: map<nat, nat>, tabs0: seq<nat>,
                              shown0: map<nat, ProcessDetail>, items0: seq<Request>)
      reads this, requests
    {
      match r
      case Keep =>
        openedTabs == tabMap0 && tabs == tabs0 && shown == shown0 && requests.items == items0
      case Show(d) =>
        openedTabs == tabMap0 && tabs == tabs0 && shown == shown0[active := d] && requests.items == items0
      case Close(pid) =>
        && openedTabs == tabMap0 - {pid} && tabs == Without(tabs0, active) && shown == shown0
        && requests.items == items0 + [Request(pid, RemoveOp)]
    }

    /**
     * `update_data`: store the three collections and refresh the process tab
     * that is selected (`active`), showing its record or closing it once the
     * collector reports the process gone.
     */
    method UpdateData(processes: map<nat, ProcessRow>, specific: map<nat, DetailEntry>, general: GeneralStats, active: nat)
      requires Valid()
      modifies this, requests
      ensures Valid()
      ensures processData == processes && specificData == specific && generalData == general
      ensures Refreshed(RefreshFor(old(openedTabs), specific, active), active,
                        old(openedTabs), old(tabs), old(shown), old(requests.items))
      ensures dataTabs == old(dataTabs) && nextTab == old(nextTab)
    {
      processData, specificData, generalData := processes, specific, general;
      RefreshOpenedTabs(active);
    }

    /**
     * The loop of `update_data` over the opened process tabs: only the one
     * that is selected is refreshed from the stored collection.
     */
    method RefreshOpenedTabs(active: nat)
      requires Valid()
      modifies this, requests
      ensures Valid()
      ensures Refreshed(RefreshFor(old(openedTabs), specificData, active), active,
                        old(openedTabs), old(tabs), old(shown), old(requests.items))
      ensures dataTabs == old(dataTabs) && nextTab == old(nextTab)
      ensures processData == old(processData) && specificData == old(specificData) && generalData == old(generalData)
    {
      if specificData == map[] || openedTabs == map[] {
        assert RefreshFor(openedTabs, specificData, active) == Keep;
        return;
      }
      var tabMap := openedTabs;
      ghost var specific := specificData;
      ghost var target := ActivePid(tabMap, active);
      ghost var effect := RefreshFor(tabMap, specific, active);
      assert target.None? ==> effect == Keep;
      ghost var tabs0, shown0, items0 := tabs, shown, requests.items;
      var pending := tabMap.Keys;
      while pending != {}
        invariant Valid()
        invariant pending <= tabMap.Keys
        invariant processData == old(processData) && specificData == specific && generalData == old(generalData)
        invariant dataTabs == old(dataTabs) && nextTab == old(nextTab)
        invariant Refreshed(if target.Some? && target.value !in pending then effect else Keep,
                            active, tabMap, tabs0, shown0, items0)
        decreases |pending|
      {
        var pid :| pid in pending;
        var tabId := tabMap[pid];
        if tabId == active {
          ActivePidUnique(tabMap, active, pid);
          assert effect == if pid !in specific then Keep else
            match specific[pid]
            case Pending => Keep
            case Detail(d) => Show(d)
            case Tombstone => Close(pid);
          if pid in specificData && !specificData[pid].Pending? {
            if specificData[pid].Detail? {
              UpdateSpecificTab(tabId, specificData[pid]);
            } else {
              CloseTab(tabId, pid, true);
            }
          }
        } else {
          assert target != Some(pid);
        }
        pending := pending - {pid};
      }
    }
  }

  /** The filled and the empty block of a usage bar. */
  const FullBlock: char := '▰'
  const EmptyBlock: char := '▱'

  /** `round((used / total) * blocks)`: the number of filled blocks. */
  function UsedBlocks(total: real, used: real, blocks: int): (n: int)
    requires total != 0.0
    ensures n as real - 0.5 <= used / total * blocks as real <= n as real + 0.5
  {
    RoundInt(used / total * blocks as real)
  }

  /**
   * `plot_graph_string`: a bar of filled blocks for the used share followed
   * by empty blocks up to `blocks` (Python's `c * n` gives nothing for
   * `n <= 0`, so an over-full bar has no empty part).
   */
  function PlotGraphString(total: real, used: real, blocks: int): (g: string)
    requires total != 0.0
    ensures forall k :: 0 <= k < |g| ==> (g[k] == FullBlock <==> k < UsedBlocks(total, used, blocks))
    ensures forall k :: 0 <= k < |g| ==> g[k] == FullBlock || g[k] == EmptyBlock
    ensures var n := UsedBlocks(total, used, blocks);
      |g| == (if n > 0 then n else 0) + (if blocks - n > 0 then blocks - n else 0)
  {
    var usedBlocks := UsedBlocks(total, used, blocks);
    Repeat(FullBlock, usedBlocks) + Repeat(EmptyBlock, blocks - usedBlocks)
  }

  /**
   * A usage within `[0, total]` gives a bar exactly `blocks` long whose filled
   * part is the used share rounded to a whole block.
   */
  lemma PlotGraphWidth(total: real, used: real, blocks: nat)
    requires 0.0 < total && 0.0 <= used <= total
    ensures |PlotGraphString(total, used, blocks)| == blocks
    ensures 0 <= UsedBlocks(total, used, blocks) <= blocks
  {
    assert 0.0 <= used / total <= 1.0 by {
      assert used <= total * 1.0;
    }
    assert 0.0 <= used / total * blocks as real <= blocks as real by {
      assert used / total * blocks as real <= 1.0 * blocks as real;
    }
    RoundIntWithin(used / total * blocks as real, 0, blocks);
  }

  /** More usage never fills fewer blocks. */
  lemma PlotGraphMonotone(total: real, used1: real, used2: real, blocks: nat)
    requires 0.0 < total && used1 <= used2
    ensures UsedBlocks(total, used1, blocks) <= UsedBlocks(total, used2, blocks)
  {
    assert used1 / total <= used2 / total;
    assert used1 / total * blocks as real <= used2 / total * blocks as real;
    RoundIntMonotone(used1 / total * blocks as real, used2 / total * blocks as real);
  }

  /** The bars of the dashboard are out of 100: a usage of 37.5% fills 38 of 100 blocks. */
  lemma PlotGraphExample()
    ensures UsedBlocks(100.0, 37.5, 100) == 38
    ensures |PlotGraphString(100.0, 37.5, 100)| == 100
  {
    PlotGraphWidth(100.0, 37.5, 100);
  }
}

/**
 * The request queue between the view and the specific-process loop, and
 * the dictionary of tracked processes it edits (`_specific_processes_dict`).
 * The dictionary is a value `Subs`: its keys in insertion order, and the
 * entry kept for each key.
 */
module Subscriptions {
  import opened Records

  /** A `(pid, req)` pair put on `specific_processes_req_queue`. */
  datatype Request = Request(pid: nat, op: string)

  const AddOp: string := "add"
  const RemoveOp: string := "remove"

  /** `specific_processes_req_queue`: the view puts, the collector takes from the front. */
  class RequestQueue {
    var items: seq<Request>

    constructor ()
      ensures items == []
    {
      items := [];
    }

    /** `queue.put(r)` */
    method Put(r: Request)
      modifies this
      ensures items == old(items) + [r]
    {
      items := items + [r];
    }

    /** `queue.get()` on a non-empty queue. */
    method Get() returns (r: Request)
      requires items != []
      modifies this
      ensures r == old(items)[0] && items == old(items)[1..]
    {
      r := items[0];
      items := items[1..];
    }
  }

  predicate Distinct(order: seq<nat>) {
    forall i, j :: 0 <= i < j < |order| ==> order[i] != order[j]
  }

  /** Growing a prefix of `order` by one element. */
  lemma PrefixStep<T>(order: seq<T>, i: nat)
    requires i < |order|
    ensures order[..i + 1][..i] == order[..i] && order[..i + 1] == order[..i] + [order[i]]
  {
  }

  /** `order` without `pid`, keeping the order of the others. */
  function Without(order: seq<nat>, pid: nat): (rest: seq<nat>)
    ensures forall q :: q in rest <==> q in order && q != pid
    ensures Distinct(order) ==> Distinct(rest)
  {
    if order == [] then []
    else
      var init := Without(order[..|order| - 1], pid);
      var last := order[|order| - 1];
      assert forall q :: q in order <==> q in order[..|order| - 1] || q == last;
      assert Distinct(order) ==> last !in order[..|order| - 1];
      if last == pid then init else init + [last]
  }

  /** `del` keeps the order of the remaining pids: the pid is cut out where it stood. */
  lemma {:induction false} WithoutAt(order: seq<nat>, i: nat)
    requires Distinct(order) && i < |order|
    ensures Without(order, order[i]) == order[..i] + order[i + 1..]
  {
    var init := order[..|order| - 1];
    var last := order[|order| - 1];
    if i == |order| - 1 {
      assert order[i] !in init;
      WithoutAbsent(init, order[i]);
      assert order[..i] == init;
    } else {
      assert init[i] == order[i];
      assert Distinct(init);
      WithoutAt(init, i);
      assert last != order[i];
      assert init[..i] == order[..i];
      assert init[i + 1..] + [last] == order[i + 1..];
    }
  }

  /** Removing a pid that is not there leaves the order unchanged. */
  lemma {:induction false} WithoutAbsent(order: seq<nat>, pid: nat)
    requires pid !in order
    ensures Without(order, pid) == order
  {
    if order != [] {
      var init := order[..|order| - 1];
      assert pid !in init;
      WithoutAbsent(init, pid);
      assert init + [order[|order| - 1]] == order;
    }
  }

  /** The tracked processes: keys in insertion order and their entries. */
  datatype Subs = Subs(order: seq<nat>, entries: map<nat, DetailEntry>) {
    predicate Valid() {
      Distinct(order) && entries.Keys == set p | p in order
    }
  }

  const NoSubs := Subs([], map[])

  /**
   * One request as the drain loop handles it: "add" inserts the pid with the
   * empty placeholder unless it is already tracked; "remove" deletes it,
   * ignoring a pid that is not tracked; any other request is ignored.
   */
  function ApplyRequest(s: Subs, r: Request): (t: Subs)
    requires s.Valid()
    ensures t.Valid()
    ensures r.op == AddOp ==> r.pid in t.entries
    ensures r.op == RemoveOp ==> r.pid !in t.entries
    ensures forall p :: p != r.pid ==> (p in t.entries <==> p in s.entries)
    ensures forall p :: p != r.pid && p in t.entries ==> t.entries[p] == s.entries[p]
    ensures r.pid in s.entries && r.pid in t.entries ==> t.entries[r.pid] == s.entries[r.pid]
    ensures r.pid !in s.entries && r.pid in t.entries ==> t.entries[r.pid] == Pending
  {
    if r.op == AddOp then
      if r.pid in s.entries then s else Subs(s.order + [r.pid], s.entries[r.pid := Pending])
    else if r.op == RemoveOp then
      if r.pid in s.entries then Subs(Without(s.order, r.pid), s.entries - {r.pid}) else s
    else s
  }

  /** The requests applied in queue order. */
  function ApplyRequests(s: Subs, rs: seq<Request>): (t: Subs)
    requires s.Valid()
    ensures t.Valid()
    decreases |rs|
  {
    if rs == [] then s else ApplyRequests(ApplyRequest(s, rs[0]), rs[1..])
  }

  /** The last "add" or "remove" addressed to `pid`, if any. */
  function LastCommand(rs: seq<Request>, pid: nat): (op: string)
    ensures op == AddOp || op == RemoveOp || op == ""
  {
    if rs == [] then ""
    else
      var later := LastCommand(rs[1..], pid);
      if later != "" then later
      else if rs[0].pid == pid && (rs[0].op == AddOp || rs[0].op == RemoveOp) then rs[0].op
      else ""
  }

  /** Whether some request removes `pid`. */
  predicate RemovedIn(rs: seq<Request>, pid: nat) {
    exists k :: 0 <= k < |rs| && rs[k].pid == pid && rs[k].op == RemoveOp
  }

  /**
   * After a drain a pid is tracked exactly when the last add or remove for
   * it was an add, or when no request mentioned it and it was tracked before.
   */
  lemma {:induction false} ApplyRequestsMembership(s: Subs, rs: seq<Request>, pid: nat)
    requires s.Valid()
    ensures pid in ApplyRequests(s, rs).entries <==>
      LastCommand(rs, pid) == AddOp || (LastCommand(rs, pid) == "" && pid in s.entries)
    decreases |rs|
  {
    if rs != [] {
      ApplyRequestsMembership(ApplyRequest(s, rs[0]), rs[1..], pid);
    }
  }

  /**
   * A tracked pid keeps its entry through a drain unless a remove for it was
   * among the requests; otherwise it carries the empty placeholder.
   */
  lemma {:induction false} ApplyRequestsEntries(s: Subs, rs: seq<Request>, pid: nat)
    requires s.Valid()
    requires pid in ApplyRequests(s, rs).entries
    ensures ApplyRequests(s, rs).entries[pid] ==
      if pid in s.entries && !RemovedIn(rs, pid) then s.entries[pid] else Pending
    decreases |rs|
  {
    if rs != [] {
      var s1 := ApplyRequest(s, rs[0]);
      ApplyRequestsEntries(s1, rs[1..], pid);
      if RemovedIn(rs[1..], pid) {
        var k :| 0 <= k < |rs[1..]| && rs[1..][k].pid == pid && rs[1..][k].op == RemoveOp;
        assert rs[k + 1] == rs[1..][k];
      }
      if !RemovedIn(rs, pid) {
        forall k | 0 <= k < |rs[1..]|
          ensures !(rs[1..][k].pid == pid && rs[1..][k].op == RemoveOp)
        {
          assert rs[1..][k] == rs[k + 1];
        }
        assert !(rs[0].pid == pid && rs[0].op == RemoveOp);
      } else if !RemovedIn(rs[1..], pid) {
        assert rs[0].pid == pid && rs[0].op == RemoveOp by {
          var k :| 0 <= k < |rs| && rs[k].pid == pid && rs[k].op == RemoveOp;
          if k > 0 {
            assert rs[1..][k - 1] == rs[k];
          }
        }
      }
    }
  }

  /** Adding a pid twice is the same as adding it once. */
  lemma AddIdempotent(s: Subs, pid: nat)
    requires s.Valid()
    ensures ApplyRequest(ApplyRequest(s, Request(pid, AddOp)), Request(pid, AddOp)) ==
            ApplyRequest(s, Request(pid, AddOp))
  {
  }

  /** Removing an untracked pid, or any request other than add and remove, changes nothing. */
  lemma IgnoredRequests(s: Subs, r: Request)
    requires s.Valid()
    requires (r.op == RemoveOp && r.pid !in s.entries) || (r.op != AddOp && r.op != RemoveOp)
    ensures ApplyRequest(s, r) == s
  {
  }

  /** Draining in two batches is draining the concatenation. */
  lemma {:induction false} ApplyRequestsAppend(s: Subs, rs: seq<Request>, more: seq<Request>)
    requires s.Valid()
    ensures ApplyRequests(s, rs + more) == ApplyRequests(ApplyRequests(s, rs), more)
    decreases |rs|
  {
    if rs != [] {
      assert (rs + more)[0] == rs[0];
      assert (rs + more)[1..] == rs[1..] + more;
      ApplyRequestsAppend(ApplyRequest(s, rs[0]), rs[1..], more);
    } else {
      assert rs + more == more;
    }
  }
}

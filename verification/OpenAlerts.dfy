/** The scan of open monitor groups, which pages by number until the reported total is reached. */
module OpenAlerts {
  import opened Prelude

  const PAGE_SIZE: nat := 100
  const STANDARD_VECTOR_SIZE: nat := 2048

  datatype Group = Group(
    monitorId: Option<int64>,
    monitorName: Option<string>,
    name: Option<string>,
    tags: Option<seq<string>>,
    status: Option<string>,
    lastTriggered: Option<int64>,
    lastNodata: Option<int64>)

  predicate IsOpenStatus(group: Group) {
    group.status.Some?
    && (group.status.value == "Alert" || group.status.value == "Warn" || group.status.value == "No Data")
  }

  function OpenGroups(groups: seq<Group>): seq<Group> {
    Filter(IsOpenStatus, groups)
  }

  /** What a server with a fixed list of groups answers for a page. */
  function Page(groups: seq<Group>, page: nat): seq<Group> {
    groups[Min(page * PAGE_SIZE, |groups|)..Min(page * PAGE_SIZE + PAGE_SIZE, |groups|)]
  }

  /** How many of `n` groups the scan looks at when every page reports this total. */
  function Reach(n: nat, total: Option<nat>): nat {
    match total
    case None => n
    case Some(t) => Min(n, if t == 0 then PAGE_SIZE else (t + PAGE_SIZE - 1) / PAGE_SIZE * PAGE_SIZE)
  }

  /** Where the three stop conditions leave the scan. */
  lemma Stops(n: nat, total: Option<nat>, page: nat)
    requires page == 0 || page * PAGE_SIZE < n + PAGE_SIZE
    requires total.None? ==> page * PAGE_SIZE <= n
    requires total.Some? && page > 0 ==> Min(page * PAGE_SIZE, n) < total.value
    requires var before, after := Min(page * PAGE_SIZE, n), Min((page + 1) * PAGE_SIZE, n);
             after == before || (total.Some? && after >= total.value) || (total.None? && after - before < PAGE_SIZE)
    ensures Min((page + 1) * PAGE_SIZE, n) == Reach(n, total)
  {
    if total.Some? && total.value > 0 {
      var pages := (total.value + PAGE_SIZE - 1) / PAGE_SIZE;
      assert pages * PAGE_SIZE >= total.value > (pages - 1) * PAGE_SIZE;
    }
  }

  lemma NextPrefix(groups: seq<Group>, page: nat)
    ensures var received := Min(page * PAGE_SIZE, |groups|);
            && received + |Page(groups, page)| == Min((page + 1) * PAGE_SIZE, |groups|)
            && groups[..received] + Page(groups, page) == groups[..received + |Page(groups, page)|]
  {
  }

  class OpenAlertsScan {
    const groups: seq<Group>
    const total: Option<nat>
    var page: nat
    var apiRowsReceived: nat
    var buffer: seq<Group>
    var finished: bool
    ghost var emitted: seq<Group>

    /** The scan has received a prefix of the list, and emitted or buffered its open groups. */
    ghost predicate Valid()
      reads this
    {
      && apiRowsReceived == Min(page * PAGE_SIZE, |groups|)
      && emitted + buffer == OpenGroups(groups[..apiRowsReceived])
      && (finished ==> apiRowsReceived == Reach(|groups|, total))
      && (!finished ==>
            && (page == 0 || page * PAGE_SIZE < |groups| + PAGE_SIZE)
            && (total.None? ==> page * PAGE_SIZE <= |groups|)
            && (total.Some? && page > 0 ==> apiRowsReceived < total.value))
    }

    constructor (groups: seq<Group>, total: Option<nat>)
      ensures Valid() && this.groups == groups && this.total == total && emitted == [] && page == 0
    {
      this.groups, this.total := groups, total;
      page, apiRowsReceived, buffer, finished, emitted := 0, 0, [], false, [];
    }

    /** Open groups among those of a page. */
    method AddOpenGroups(received: seq<Group>)
      modifies this`buffer
      ensures buffer == old(buffer) + OpenGroups(received)
    {
      for i := 0 to |received|
        invariant buffer == old(buffer) + OpenGroups(received[..i])
      {
        PrefixSnoc(received, i);
        FilterAppend(IsOpenStatus, received[..i], [received[i]]);
        assert [received[i]][1..] == [];
        if !IsOpenStatus(received[i]) {
          continue;
        }
        buffer := buffer + [received[i]];
      }
      assert received[..|received|] == received;
    }

    method FetchNextPage()
      requires Valid() && !finished
      modifies this
      ensures Valid() && page == old(page) + 1 && emitted == old(emitted)
    {
      var received := Page(groups, page);
      NextPrefix(groups, page);
      FilterAppend(IsOpenStatus, groups[..apiRowsReceived], received);
      page := page + 1;
      apiRowsReceived := apiRowsReceived + |received|;
      AddOpenGroups(received);
      if received == [] || (total.Some? && apiRowsReceived >= total.value) || (total.None? && |received| < PAGE_SIZE) {
        Stops(|groups|, total, page - 1);
        finished := true;
      }
    }

    /** A chunk; an empty one means that everything was emitted. */
    method DatadogOpenAlertsScan() returns (chunk: seq<Group>)
      requires Valid()
      modifies this
      ensures Valid() && emitted == old(emitted) + chunk && |chunk| <= STANDARD_VECTOR_SIZE
      ensures chunk == [] ==> finished && buffer == []
    {
      while buffer == [] && !finished
        invariant Valid() && emitted == old(emitted)
        decreases |groups| + 2 * PAGE_SIZE - page * PAGE_SIZE, !finished
      {
        FetchNextPage();
      }
      var count := Min(STANDARD_VECTOR_SIZE, |buffer|);
      chunk := buffer[..count];
      assert emitted + buffer == emitted + chunk + buffer[count..];
      emitted := emitted + chunk;
      buffer := buffer[count..];
    }
  }

  lemma {:induction false} OpenGroupsBound(groups: seq<Group>)
    ensures |OpenGroups(groups)| <= |groups|
  {
    if groups != [] {
      OpenGroupsBound(groups[1..]);
    }
  }

  /**
   Reading until the first empty chunk gives the open groups, in order, of as much of the list as the
   reported total makes the scan look at.
   */
  method ReadOpenAlerts(groups: seq<Group>, total: Option<nat>) returns (rows: seq<Group>)
    ensures rows == OpenGroups(groups[..Reach(|groups|, total)])
  {
    var scan := new OpenAlertsScan(groups, total);
    rows := [];
    while true
      invariant scan.Valid() && scan.groups == groups && scan.total == total && fresh(scan)
      invariant rows == scan.emitted
      decreases |groups| - |rows|
    {
      var chunk := scan.DatadogOpenAlertsScan();
      if chunk == [] {
        assert scan.emitted + scan.buffer == rows;
        return;
      }
      OpenGroupsBound(groups[..scan.apiRowsReceived]);
      rows := rows + chunk;
    }
  }

  /**
   The scan emits a group it looks at exactly when the group's status is one of the three open ones; a group
   without a status, resolved ("OK"), or in any other state is not emitted.
   */
  lemma EmittedStatuses(groups: seq<Group>, total: Option<nat>, group: Group)
    ensures group in OpenGroups(groups[..Reach(|groups|, total)]) <==>
            && group in groups[..Reach(|groups|, total)]
            && group.status in {Some("Alert"), Some("Warn"), Some("No Data")}
    ensures group.status in {None, Some("OK")} ==> group !in OpenGroups(groups[..Reach(|groups|, total)])
  {
    FilterMembers(IsOpenStatus, groups[..Reach(|groups|, total)], group);
    assert |"OK"| == 2 && |"Warn"| == 4 && |"Alert"| == 5 && |"No Data"| == 7;
  }

  /** A truthful, a missing and an exaggerated total all let the scan see every group. */
  lemma CompleteTotals(n: nat, total: Option<nat>)
    requires total.None? || total.value >= n
    ensures Reach(n, total) == n
  {
  }

  /** The scan sees every group exactly when no total is reported or its last page reaches the end. */
  lemma CompleteIff(n: nat, t: nat)
    ensures Reach(n, Some(t)) == n <==> n <= 100 || (n - 1) / 100 * 100 < t
  {
    if t > 0 && n > 0 {
      var pages, wanted := (t + PAGE_SIZE - 1) / PAGE_SIZE, (n - 1) / PAGE_SIZE;
      assert pages * PAGE_SIZE >= t > (pages - 1) * PAGE_SIZE;
      assert (wanted + 1) * PAGE_SIZE >= n > wanted * PAGE_SIZE;
    }
  }
}

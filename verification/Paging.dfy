/** Marker pagination, as ListListeners, ListPools and ListHealthChecks do it. */
module Paging {
  import opened Common

  /** One answer of the server: the entries of the page (possibly none at all) and the marker
      of the next one. */
  datatype Page<T> = Page(items: Option<seq<T>>, next: Option<T>)

  ghost predicate NoRepeats<T>(s: seq<T>) {
    forall i, j | 0 <= i < j < |s| :: s[i] != s[j]
  }

  /** What a server holding `all` may answer for a page after the first `from` entries: up to
      `limit` entries, the last one's identifier as marker if more follow, and possibly also
      when the page is the last one. A page without entries carries no marker. */
  ghost predicate Answers<T>(all: seq<T>, from: nat, limit: nat, page: Page<T>) {
    var items := if page.items.Some? then page.items.value else [];
    && from + |items| <= |all|
    && items == all[from..from + |items|]
    && |items| <= limit
    && (items == [] ==> from == |all| && page.next.None?)
    && (page.items.None? ==> items == [])
    && (page.next.Some? ==> items != [] && page.next.value == items[|items| - 1])
    && (from + |items| < |all| ==> page.next.Some?)
  }

  /** Entries up to and including `marker`. */
  ghost predicate MarkerAt<T>(all: seq<T>, marker: Option<T>, from: nat) {
    && from <= |all|
    && (marker.None? ==> from == 0)
    && (marker.Some? ==> 0 < from && all[from - 1] == marker.value)
  }

  /** The server: looks the marker up and cuts the page after it. Any call may fail. */
  method ServePage<T(==)>(all: seq<T>, marker: Option<T>, limit: nat) returns (r: Result<Page<T>>)
    requires limit > 0
    requires marker.Some? ==> marker.value in all
    ensures r.Ok? && NoRepeats(all) ==>
      forall from | MarkerAt(all, marker, from) :: Answers(all, from, limit, r.value)
  {
    var fault: bool := *;
    if fault {
      return Err(Other);
    }
    var start := 0;
    if marker.Some? {
      while all[start] != marker.value
        invariant start < |all|
        invariant marker.value !in all[..start]
        decreases |all| - start
      {
        start := start + 1;
      }
      start := start + 1;
    }
    var more := |all| - start;
    var extra: bool, absent: bool := *, *;
    var size := if more < limit then more else limit;
    var items := all[start..start + size];
    var next := if size > 0 && (size < more || extra) then Some(items[size - 1]) else None;
    r := Ok(Page(if size == 0 && absent then None else Some(items), next));
  }

  /** The client's loop returns the whole list in the server's order, each entry once, with at
      most one request per entry and one more, however long the list and whatever the page size. */
  method ListAll<T(==)>(all: seq<T>, limit: nat) returns (r: Result<seq<T>>, ghost calls: nat)
    requires NoRepeats(all)
    requires limit > 0
    ensures r.Ok? ==> r.value == all
    ensures calls <= |all| + 1
  {
    var result: seq<T> := [];
    var marker: Option<T> := None;
    calls := 0;
    while true
      invariant result <= all
      invariant MarkerAt(all, marker, |result|)
      invariant calls <= |result|
      decreases |all| - |result|
    {
      var resp := ServePage(all, marker, limit);
      calls := calls + 1;
      if resp.Err? {
        return Err(resp.error), calls;
      }
      var page := resp.value;
      assert Answers(all, |result|, limit, page);
      if page.items.None? {
        break;
      }
      ghost var from := |result|;
      result := result + page.items.value;
      assert result == all[..from] + all[from..|result|] == all[..|result|];
      if page.next.None? {
        break;
      }
      marker := page.next;
    }
    r := Ok(result);
  }
}

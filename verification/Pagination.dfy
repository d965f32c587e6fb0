/** Listing all streams page by page (s2-sdk/src/ops.rs:102-129, s2-server/src/backend/streams.rs:30-74). */
module Pagination {
  datatype StreamInfo = StreamInfo(name: string, isDeleted: bool)

  datatype Page = Page(values: seq<StreamInfo>, hasMore: bool)

  // ---------- Names in order ----------

  /** Lexicographic order. */
  predicate Less(a: string, b: string) {
    b != "" && (a == "" || a[0] < b[0] || (a[0] == b[0] && Less(a[1..], b[1..])))
  }

  lemma {:induction false} LessIsAsymmetric(a: string, b: string)
    requires Less(a, b)
    ensures !Less(b, a)
    decreases a
  {
    if a != "" && a[0] == b[0] {
      LessIsAsymmetric(a[1..], b[1..]);
    }
  }

  lemma {:induction false} LessIsTransitive(a: string, b: string, c: string)
    requires Less(a, b) && Less(b, c)
    ensures Less(a, c)
    decreases a
  {
    if a != "" && a[0] == b[0] && b[0] == c[0] {
      LessIsTransitive(a[1..], b[1..], c[1..]);
    }
  }

  ghost predicate IsSorted(streams: seq<StreamInfo>) {
    forall i, j | 0 <= i < j < |streams| :: Less(streams[i].name, streams[j].name)
  }

  // ---------- The server ----------

  predicate IsListed(stream: StreamInfo, prefix: string, startAfter: string) {
    prefix <= stream.name && Less(startAfter, stream.name)
  }

  /** The streams of the namespace with the prefix after the cursor, from the i-th on. */
  function Listed(namespace: seq<StreamInfo>, prefix: string, startAfter: string, i: nat): seq<StreamInfo>
    decreases |namespace| - i
  {
    if i >= |namespace| then []
    else
      var rest := Listed(namespace, prefix, startAfter, i + 1);
      if IsListed(namespace[i], prefix, startAfter) then [namespace[i]] + rest else rest
  }

  /** One page: a scan that stops when it has `limit` streams and sees one more. */
  method ListStreams(namespace: seq<StreamInfo>, prefix: string, startAfter: string, limit: nat) returns (page: Page)
    ensures var all := Listed(namespace, prefix, startAfter, 0);
            if |all| <= limit then page == Page(all, false) else page == Page(all[..limit], true)
  {
    var streams := [];
    var i := 0;
    while i < |namespace|
      invariant i <= |namespace| && |streams| <= limit
      invariant streams + Listed(namespace, prefix, startAfter, i) == Listed(namespace, prefix, startAfter, 0)
    {
      if IsListed(namespace[i], prefix, startAfter) {
        if |streams| == limit {
          return Page(streams, true);
        }
        streams := streams + [namespace[i]];
      }
      i := i + 1;
    }
    return Page(streams, false);
  }

  lemma {:induction false} ListedIsSorted(namespace: seq<StreamInfo>, prefix: string, startAfter: string, i: nat)
    requires IsSorted(namespace)
    ensures IsSorted(Listed(namespace, prefix, startAfter, i))
    ensures forall s | s in Listed(namespace, prefix, startAfter, i) ::
      && s in namespace && IsListed(s, prefix, startAfter)
      && forall j | 0 <= j < i && j < |namespace| :: Less(namespace[j].name, s.name)
    decreases |namespace| - i
  {
    if i < |namespace| {
      ListedIsSorted(namespace, prefix, startAfter, i + 1);
    }
  }

  lemma {:induction false} ListedAlike(namespace: seq<StreamInfo>, prefix: string, a: string, b: string, i: nat)
    requires forall j | i <= j < |namespace| :: Less(a, namespace[j].name) && Less(b, namespace[j].name)
    ensures Listed(namespace, prefix, a, i) == Listed(namespace, prefix, b, i)
    decreases |namespace| - i
  {
    if i < |namespace| {
      ListedAlike(namespace, prefix, a, b, i + 1);
    }
  }

  /** Listing after the k-th name of a list gives the rest of the list. */
  lemma {:induction false} ListedAfter(namespace: seq<StreamInfo>, prefix: string, startAfter: string, i: nat, k: nat)
    requires IsSorted(namespace) && k < |Listed(namespace, prefix, startAfter, i)|
    ensures var all := Listed(namespace, prefix, startAfter, i);
            Listed(namespace, prefix, all[k].name, i) == all[k + 1..]
    decreases |namespace| - i
  {
    var all := Listed(namespace, prefix, startAfter, i);
    var cursor := all[k].name;
    ListedIsSorted(namespace, prefix, startAfter, i);
    if !IsListed(namespace[i], prefix, startAfter) {
      ListedAfter(namespace, prefix, startAfter, i + 1, k);
      if Less(cursor, namespace[i].name) {
        LessIsTransitive(startAfter, cursor, namespace[i].name);
      }
    } else if k > 0 {
      ListedAfter(namespace, prefix, startAfter, i + 1, k - 1);
      LessIsAsymmetric(all[0].name, cursor);
    } else {
      if Less(cursor, cursor) {
        LessIsAsymmetric(cursor, cursor);
      }
      forall j | i < j < |namespace| ensures Less(startAfter, namespace[j].name) {
        LessIsTransitive(startAfter, cursor, namespace[j].name);
      }
      ListedAlike(namespace, prefix, startAfter, cursor, i + 1);
    }
  }

  // ---------- The client's walk ----------

  function Visible(streams: seq<StreamInfo>, includeDeleted: bool): seq<StreamInfo> {
    if streams == [] then []
    else
      var n := |streams| - 1;
      var last := if includeDeleted || !streams[n].isDeleted then [streams[n]] else [];
      Visible(streams[..n], includeDeleted) + last
  }

  lemma {:induction false} VisibleAppend(a: seq<StreamInfo>, b: seq<StreamInfo>, includeDeleted: bool)
    ensures Visible(a + b, includeDeleted) == Visible(a, includeDeleted) + Visible(b, includeDeleted)
    decreases b
  {
    if b == [] {
      assert a + b == a;
    } else {
      assert (a + b)[..|a + b| - 1] == a + b[..|b| - 1];
      VisibleAppend(a, b[..|b| - 1], includeDeleted);
    }
  }

  /** The items of a page that the caller gets to see. */
  method YieldPage(values: seq<StreamInfo>, includeDeleted: bool) returns (items: seq<StreamInfo>)
    ensures items == Visible(values, includeDeleted)
  {
    items := [];
    for k := 0 to |values|
      invariant items == Visible(values[..k], includeDeleted)
    {
      assert values[..k + 1][..k] == values[..k];
      if !includeDeleted && values[k].isDeleted {
        continue;
      }
      items := items + [values[k]];
    }
    assert values[..|values|] == values;
  }

  datatype Limit = Limit(items: nat) | Unavailable

  /** The server answers, and never with an empty page that promises more. */
  ghost predicate IsWorking(limits: nat -> Limit) {
    forall p :: limits(p).Limit? && limits(p).items > 0
  }

  ghost predicate IsBeginning(items: seq<StreamInfo>, all: seq<StreamInfo>, includeDeleted: bool) {
    exists n | 0 <= n <= |all| :: items == Visible(all[..n], includeDeleted)
  }

  /**
    The walk over the pages; `limits(p)` is the size of page p, or tells that its request fails. What it yields is the
    one-shot listing; only a beginning of it, if a request fails or a page is empty although there is more.
   */
  method ListAllStreams(
    namespace: seq<StreamInfo>, prefix: string, startAfter: string, includeDeleted: bool, limits: nat -> Limit)
    returns (items: seq<StreamInfo>, failed: bool)
    requires IsSorted(namespace)
    ensures IsBeginning(items, Listed(namespace, prefix, startAfter, 0), includeDeleted)
    ensures failed ==> exists p :: limits(p).Unavailable?
    ensures !failed && items != Visible(Listed(namespace, prefix, startAfter, 0), includeDeleted) ==>
      exists p :: limits(p) == Limit(0)
    ensures IsWorking(limits) ==> !failed && items == Visible(Listed(namespace, prefix, startAfter, 0), includeDeleted)
  {
    ghost var all := Listed(namespace, prefix, startAfter, 0);
    ghost var done := 0;
    items, failed := [], false;
    var cursor, request := startAfter, 0;
    while true
      invariant done <= |all| && items == Visible(all[..done], includeDeleted)
      invariant Listed(namespace, prefix, cursor, 0) == all[done..]
      decreases |all| - done
    {
      var limit := limits(request);
      if limit.Unavailable? {
        failed := true;
        return;
      }
      var page := ListStreams(namespace, prefix, cursor, limit.items);
      var yielded := YieldPage(page.values, includeDeleted);
      items := items + yielded;
      VisibleAppend(all[..done], page.values, includeDeleted);
      assert all[..done] + page.values == all[..done + |page.values|];
      done := done + |page.values|;
      if !page.hasMore || page.values == [] {
        assert done == |all| ==> all[..done] == all;
        assert done < |all| ==> limit == Limit(0);
        return;
      }
      cursor := page.values[|page.values| - 1].name;
      ListedAfter(namespace, prefix, startAfter, 0, done - 1);
      request := request + 1;
    }
  }

  /** The one-shot listing has every matching stream once, in order. */
  lemma {:induction false} ListingIsComplete(namespace: seq<StreamInfo>, prefix: string, startAfter: string, i: nat)
    requires IsSorted(namespace)
    ensures IsSorted(Listed(namespace, prefix, startAfter, i))
    ensures forall j | i <= j < |namespace| ::
      namespace[j] in Listed(namespace, prefix, startAfter, i) <==> IsListed(namespace[j], prefix, startAfter)
    decreases |namespace| - i
  {
    ListedIsSorted(namespace, prefix, startAfter, i);
    if i < |namespace| {
      ListingIsComplete(namespace, prefix, startAfter, i + 1);
    }
  }

  lemma {:induction false} VisibleIsFiltered(streams: seq<StreamInfo>, includeDeleted: bool)
    requires IsSorted(streams)
    ensures IsSorted(Visible(streams, includeDeleted))
    ensures forall s :: s in Visible(streams, includeDeleted) <==> s in streams && (includeDeleted || !s.isDeleted)
  {
    if streams != [] {
      var n := |streams| - 1;
      VisibleIsFiltered(streams[..n], includeDeleted);
      assert streams == streams[..n] + [streams[n]];
      forall s | s in streams[..n] ensures Less(s.name, streams[n].name) {
        var k :| 0 <= k < n && streams[k] == s;
      }
    }
  }
}

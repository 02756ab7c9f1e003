/** The panel's computations over the logs: the filter the network tab applies
    (method, transport, status bucket, url text) followed by a cap of 200, the
    duration strip (the latest 30 durations, oldest first, against their
    maximum), the label under each request, the label of the closed-state
    button, and the record of which requests show their details. */
module WidgetPanel {
  import opened Text
  import opened Events

  // ---------------------------------------------------------------------------
  // Filtering

  /** The four filter controls; the empty string means "any". */
  datatype Filters = Filters(methodFilter: String, statusFilter: String, typeFilter: String, urlQuery: String)

  const NoFilters: Filters := Filters([], [], [], [])

  /** The panel shows at most this many requests. */
  const ShownCap: nat := 200

  /** The `type` field of a log. */
  function TransportName(t: Transport): (r: String)
    ensures r == "fetch" <==> t == Fetch
    ensures r == "xhr" <==> t == Xhr
  {
    match t
    case Fetch => "fetch"
    case Xhr => "xhr"
  }

  /** `l.status || 0`. */
  function StatusOrZero(l: NetworkLog): nat {
    l.status.GetOr(0)
  }

  /** The status filter's checks, one after the other as the panel runs them;
      a filter value that is none of the five lets everything through. */
  predicate StatusPasses(statusFilter: String, l: NetworkLog) {
    var s := StatusOrZero(l);
    if statusFilter == "2xx" && !(s >= 200 && s < 300) then false
    else if statusFilter == "3xx" && !(s >= 300 && s < 400) then false
    else if statusFilter == "4xx" && !(s >= 400 && s < 500) then false
    else if statusFilter == "5xx" && !(s >= 500 && s < 600) then false
    else if statusFilter == "error" && !Truthy(l.error) then false
    else true
  }

  /** The filter callback: each control that is set can reject the log. */
  predicate KeepLog(f: Filters, l: NetworkLog) {
    if f.methodFilter != [] && Upper(l.httpMethod) != f.methodFilter then false
    else if f.typeFilter != [] && TransportName(l.transport) != f.typeFilter then false
    else if f.statusFilter != [] && !StatusPasses(f.statusFilter, l) then false
    else if f.urlQuery != [] && !Contains(Lower(l.url), Lower(f.urlQuery)) then false
    else true
  }

  /** A bucket `Nxx` keeps exactly the logs with a status from N00 to N99,
      so a log without a status is in no bucket; `error` keeps exactly the
      logs with a non-empty error; any other value keeps everything. */
  lemma StatusFilterMeaning(statusFilter: String, l: NetworkLog)
    ensures statusFilter == "2xx" ==> (StatusPasses(statusFilter, l) <==> l.status.Some? && 200 <= l.status.value < 300)
    ensures statusFilter == "3xx" ==> (StatusPasses(statusFilter, l) <==> l.status.Some? && 300 <= l.status.value < 400)
    ensures statusFilter == "4xx" ==> (StatusPasses(statusFilter, l) <==> l.status.Some? && 400 <= l.status.value < 500)
    ensures statusFilter == "5xx" ==> (StatusPasses(statusFilter, l) <==> l.status.Some? && 500 <= l.status.value < 600)
    ensures statusFilter == "error" ==> (StatusPasses(statusFilter, l) <==> l.error.Some? && l.error.value != [])
    ensures statusFilter !in {"2xx", "3xx", "4xx", "5xx", "error"} ==> StatusPasses(statusFilter, l)
  {
    assert "2xx" != "3xx" && "2xx" != "4xx" && "2xx" != "5xx" && "2xx" != "error";
    assert "3xx" != "4xx" && "3xx" != "5xx" && "3xx" != "error";
    assert "4xx" != "5xx" && "4xx" != "error" && "5xx" != "error";
  }

  /** The filter is the conjunction of its controls: the method compared in
      upper case, the transport by name, the status rule, and the url query as
      a case-insensitive substring. */
  lemma KeepLogIff(f: Filters, l: NetworkLog)
    ensures KeepLog(f, l) <==>
      && (f.methodFilter == [] || Upper(l.httpMethod) == f.methodFilter)
      && (f.typeFilter == [] || TransportName(l.transport) == f.typeFilter)
      && (f.statusFilter == [] || StatusPasses(f.statusFilter, l))
      && (f.urlQuery == [] || exists i :: OccursAt(Lower(l.url), Lower(f.urlQuery), i))
  {
    ContainsIff(Lower(l.url), Lower(f.urlQuery));
  }

  /** A method filter with a lower-case letter in it matches nothing, since
      the method is compared after upper-casing. */
  lemma LowerCaseMethodFilterMatchesNothing(f: Filters, l: NetworkLog, i: nat)
    requires i < |f.methodFilter| && 'a' <= f.methodFilter[i] <= 'z'
    ensures !KeepLog(f, l)
  {
  }

  /** `logs.filter(...)`. */
  function FilterLogs(f: Filters, logs: seq<NetworkLog>): (r: seq<NetworkLog>)
    ensures |r| <= |logs|
    decreases |logs|
  {
    if logs == [] then []
    else (if KeepLog(f, logs[0]) then [logs[0]] else []) + FilterLogs(f, logs[1..])
  }

  /** `.slice(0, 200)` of the filtered logs. */
  function Filtered(f: Filters, logs: seq<NetworkLog>): (r: seq<NetworkLog>)
    ensures |r| <= ShownCap
  {
    var all := FilterLogs(f, logs);
    if |all| > ShownCap then all[..ShownCap] else all
  }

  /** `a` is `b` with some elements left out, the rest in their order. */
  ghost predicate SubsequenceOf<T>(a: seq<T>, b: seq<T>)
    decreases |b|
  {
    if a == [] then true
    else if b == [] then false
    else (a[0] == b[0] && SubsequenceOf(a[1..], b[1..])) || SubsequenceOf(a, b[1..])
  }

  /** The filter keeps exactly the logs the callback accepts. */
  lemma {:induction false} FilterMembers(f: Filters, logs: seq<NetworkLog>, l: NetworkLog)
    ensures l in FilterLogs(f, logs) <==> l in logs && KeepLog(f, l)
    decreases |logs|
  {
    if logs != [] {
      FilterMembers(f, logs[1..], l);
      assert logs == [logs[0]] + logs[1..];
    }
  }

  /** The filter keeps the order of the logs. */
  lemma {:induction false} FilterSubsequence(f: Filters, logs: seq<NetworkLog>)
    ensures SubsequenceOf(FilterLogs(f, logs), logs)
    decreases |logs|
  {
    if logs != [] {
      FilterSubsequence(f, logs[1..]);
      var r := FilterLogs(f, logs);
      if KeepLog(f, logs[0]) {
        assert r[0] == logs[0] && r[1..] == FilterLogs(f, logs[1..]);
      } else {
        assert r == FilterLogs(f, logs[1..]);
        if r != [] {
          assert SubsequenceOf(r, logs[1..]);
        }
      }
    }
  }

  /** A prefix of a subsequence is a subsequence. */
  lemma {:induction false} PrefixSubsequence<T>(a: seq<T>, b: seq<T>, n: nat)
    requires n <= |a| && SubsequenceOf(a, b)
    ensures SubsequenceOf(a[..n], b)
    decreases |b|
  {
    if n > 0 {
      assert a != [] && b != [];
      if a[0] == b[0] && SubsequenceOf(a[1..], b[1..]) {
        PrefixSubsequence(a[1..], b[1..], n - 1);
        assert a[..n][0] == b[0] && a[..n][1..] == a[1..][..n - 1];
      } else {
        PrefixSubsequence(a, b[1..], n);
      }
    }
  }

  /** What the panel shows is an order-preserving selection of the logs,
      every one accepted by the filter, and it is cut at 200 only when more
      logs pass. */
  lemma FilteredShape(f: Filters, logs: seq<NetworkLog>)
    ensures var r := Filtered(f, logs);
      && SubsequenceOf(r, logs)
      && (forall i :: 0 <= i < |r| ==> r[i] in logs && KeepLog(f, r[i]))
      && |r| == if |FilterLogs(f, logs)| > ShownCap then ShownCap else |FilterLogs(f, logs)|
  {
    var all := FilterLogs(f, logs);
    var r := Filtered(f, logs);
    FilterSubsequence(f, logs);
    PrefixSubsequence(all, logs, |r|);
    assert r == all[..|r|];
    forall i | 0 <= i < |r|
      ensures r[i] in logs && KeepLog(f, r[i])
    {
      assert r[i] in all;
      FilterMembers(f, logs, r[i]);
    }
  }

  /** With every control empty the filter keeps everything. */
  lemma {:induction false} NoFiltersKeepAll(logs: seq<NetworkLog>)
    ensures FilterLogs(NoFilters, logs) == logs
    decreases |logs|
  {
    if logs != [] {
      NoFiltersKeepAll(logs[1..]);
    }
  }

  /** With every control empty the panel shows the first 200 logs. */
  lemma NoFiltersShowFirst(logs: seq<NetworkLog>)
    ensures Filtered(NoFilters, logs) == logs[..if |logs| > ShownCap then ShownCap else |logs|]
  {
    NoFiltersKeepAll(logs);
  }

  // ---------------------------------------------------------------------------
  // The duration strip

  /** The strip holds this many durations at most. */
  const StripLength: nat := 30

  /** `filtered.slice(0, 30).map(l => l.durationMs || 0).reverse()`. */
  function RecentDurations(filtered: seq<NetworkLog>): (ds: seq<int>)
    ensures |ds| == if |filtered| > StripLength then StripLength else |filtered|
  {
    var n := if |filtered| > StripLength then StripLength else |filtered|;
    Reverse(seq(n, i requires 0 <= i < n => filtered[i].durationMs.GetOr(0)))
  }

  /** The strip runs from the 30th newest shown request to the newest one, a
      missing duration drawn as 0. */
  lemma RecentDurationsOrder(filtered: seq<NetworkLog>, k: nat)
    requires k < |RecentDurations(filtered)|
    ensures var ds := RecentDurations(filtered);
      ds[|ds| - 1 - k] == filtered[k].durationMs.GetOr(0)
  {
  }

  /** `Math.max(1, ...ds)`: never below 1, never below any duration, and
      either 1 or one of the durations. */
  function MaxDur(ds: seq<int>): (m: int)
    ensures m >= 1
    ensures forall i :: 0 <= i < |ds| ==> ds[i] <= m
    ensures m == 1 || m in ds
    decreases |ds|
  {
    if ds == [] then 1
    else
      var rest := MaxDur(ds[1..]);
      assert forall i :: 1 <= i < |ds| ==> ds[i] == ds[1..][i - 1];
      if ds[0] > rest then ds[0] else rest
  }

  // ---------------------------------------------------------------------------
  // Labels

  /** The label under a request: its error when it has a non-empty one, else
      `Status N` with ` OK` when `ok` holds, else `Pending`. */
  function StatusLabel(error: Option<String>, status: Option<nat>, ok: Option<bool>): String {
    if Truthy(error) then error.value
    else if status.Some? then "Status " + NatToString(status.value) + (if ok == Some(true) then " OK" else "")
    else "Pending"
  }

  /** An error wins over any status; without one, a pending request says so,
      and a settled one shows its status in a form that reads back: the
      digits give the status and the ` OK` suffix is there exactly when `ok`
      holds. */
  lemma StatusLabelReadsBack(error: Option<String>, status: Option<nat>, ok: Option<bool>)
    ensures Truthy(error) ==> StatusLabel(error, status, ok) == error.value
    ensures !Truthy(error) && status.None? ==> StatusLabel(error, status, ok) == "Pending"
    ensures !Truthy(error) && status.Some? ==>
      var r := StatusLabel(error, status, ok);
      var digitsEnd := if ok == Some(true) then |r| - 3 else |r|;
      && |r| >= 8 && r[..7] == "Status "
      && (ok == Some(true) <==> r[|r| - 3..] == " OK")
      && 8 <= digitsEnd && ParseDigits(r[7..digitsEnd]) == status.value
  {
    if !Truthy(error) && status.Some? {
      var d := NatToString(status.value);
      var r := StatusLabel(error, status, ok);
      ParseNatToString(status.value);
      if ok == Some(true) {
        assert r == "Status " + d + " OK";
        assert r[7..|r| - 3] == d;
      } else {
        assert r == "Status " + d;
        assert r[7..] == d;
        assert r[|r| - 1] == d[|d| - 1];
      }
    }
  }

  /** The closed-state button: `Open Widget`, with the count in parentheses
      when there is at least one log. */
  function OpenButtonLabel(total: nat): String {
    "Open Widget" + (if total > 0 then " (" + NatToString(total) + ")" else "")
  }

  /** The count appears exactly when there are logs, and reads back as the
      count. */
  lemma OpenButtonReadsBack(total: nat)
    ensures OpenButtonLabel(total)[..11] == "Open Widget"
    ensures total == 0 <==> |OpenButtonLabel(total)| == 11
    ensures total > 0 ==>
      var r := OpenButtonLabel(total);
      |r| >= 14 && r[11..13] == " (" && r[|r| - 1] == ')' && ParseDigits(r[13..|r| - 1]) == total
  {
    if total > 0 {
      var d := NatToString(total);
      var r := OpenButtonLabel(total);
      ParseNatToString(total);
      assert r == "Open Widget" + " (" + d + ")";
      assert r[13..|r| - 1] == d;
    }
  }

  // ---------------------------------------------------------------------------
  // Details toggles

  /** Request id to whether its details are shown. */
  type Expanded = map<String, bool>

  /** `!!expanded[id]`: an id never toggled is collapsed. */
  predicate IsExpanded(m: Expanded, id: String) {
    id in m && m[id]
  }

  /** `{ ...prev, [id]: !isOpen }`. */
  function Toggle(m: Expanded, id: String): (r: Expanded)
    ensures id in r && r.Keys == m.Keys + {id}
  {
    m[id := !IsExpanded(m, id)]
  }

  /** A toggle flips its own request and leaves every other entry as it was. */
  lemma ToggleOnlyFlipsItsId(m: Expanded, id: String)
    ensures IsExpanded(Toggle(m, id), id) == !IsExpanded(m, id)
    ensures forall j :: j != id ==> (j in Toggle(m, id) <==> j in m)
    ensures forall j :: j != id && j in m ==> Toggle(m, id)[j] == m[j]
  {
  }

  /** Toggling twice shows and hides exactly what was shown and hidden before. */
  lemma ToggleTwice(m: Expanded, id: String)
    ensures forall j :: IsExpanded(Toggle(Toggle(m, id), id), j) == IsExpanded(m, j)
  {
  }
}

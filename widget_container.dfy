/** The widget container: the state behind the panel. It keeps the network
    logs and the click logs, newest first and at most 200 of each, and once
    mounted it starts both monitors with the widget's own options, feeding
    their events into the two lists. */
module WidgetContainer {
  import opened Text
  import opened Events
  import opened NetworkMonitor
  import opened ClickMonitor
  import opened MonitorLifecycle

  /** Neither list holds more entries than this. */
  const LogCap: nat := 200

  /** `[entry, ...prev]` cut back to the cap: the entry comes first, then the
      previous entries in their order, and only the oldest ones are dropped. */
  function CappedPrepend<T>(entry: T, prev: seq<T>): (r: seq<T>)
    ensures |r| == if |prev| + 1 > LogCap then LogCap else |prev| + 1
    ensures r[0] == entry && r[1..] == prev[..|r| - 1]
  {
    var next := [entry] + prev;
    if |next| > LogCap then next[..LogCap] else next
  }

  /** The list after adding `entries` one by one, oldest first, to an empty one. */
  function Buffer<T>(entries: seq<T>): seq<T>
    decreases |entries|
  {
    if entries == [] then [] else CappedPrepend(entries[|entries| - 1], Buffer(entries[..|entries| - 1]))
  }

  /** The list always holds the latest entries, newest first: the first 200 of
      the reversed history. */
  lemma {:induction false} BufferNewestFirst<T>(entries: seq<T>)
    ensures |Buffer(entries)| == if |entries| > LogCap then LogCap else |entries|
    ensures Buffer(entries) == Reverse(entries)[..|Buffer(entries)|]
    decreases |entries|
  {
    if entries != [] {
      var init := entries[..|entries| - 1];
      var e := entries[|entries| - 1];
      BufferNewestFirst(init);
      assert entries == init + [e];
      ReverseSnoc(init, e);
      var b := Buffer(entries);
      var r := Reverse(entries);
      forall k | 0 <= k < |b|
        ensures b[k] == r[k]
      {
        if k > 0 {
          assert b[k] == b[1..][k - 1] == Buffer(init)[k - 1];
        }
      }
    }
  }

  /** The widget's state: whether it has mounted, whether the panel is open,
      and the two bounded lists. */
  class WidgetState {
    var mounted: bool
    var isOpen: bool
    var logs: seq<NetworkLog>
    var clickLogs: seq<ClickLog>

    ghost predicate Valid()
      reads this
    {
      |logs| <= LogCap && |clickLogs| <= LogCap
    }

    /** The first render: not mounted, closed, nothing logged. */
    constructor ()
      ensures Valid()
      ensures !mounted && !isOpen && logs == [] && clickLogs == []
    {
      mounted := false;
      isOpen := false;
      logs := [];
      clickLogs := [];
    }

    /** The mount effect. */
    method Mount()
      modifies this
      ensures mounted && isOpen == old(isOpen)
      ensures logs == old(logs) && clickLogs == old(clickLogs)
    {
      mounted := true;
    }

    /** `setIsOpen`. */
    method SetOpen(open: bool)
      modifies this
      ensures isOpen == open && mounted == old(mounted)
      ensures logs == old(logs) && clickLogs == old(clickLogs)
    {
      isOpen := open;
    }

    /** `addLog`: the new log first, then the previous ones, cut at 200; the
        click list is untouched. */
    method AddLog(log: NetworkLog)
      requires Valid()
      modifies this
      ensures Valid()
      ensures logs == CappedPrepend(log, old(logs))
      ensures clickLogs == old(clickLogs) && isOpen == old(isOpen) && mounted == old(mounted)
    {
      var next := [log] + logs;
      if |next| > LogCap {
        next := next[..LogCap];
      }
      logs := next;
    }

    /** `addClickLog`: the same for the click list. */
    method AddClickLog(log: ClickLog)
      requires Valid()
      modifies this
      ensures Valid()
      ensures clickLogs == CappedPrepend(log, old(clickLogs))
      ensures logs == old(logs) && isOpen == old(isOpen) && mounted == old(mounted)
    {
      var next := [log] + clickLogs;
      if |next| > LogCap {
        next := next[..LogCap];
      }
      clickLogs := next;
    }

    /** `clearLogs`: empties the network list only. */
    method ClearLogs()
      requires Valid()
      modifies this
      ensures Valid()
      ensures logs == [] && clickLogs == old(clickLogs) && isOpen == old(isOpen) && mounted == old(mounted)
    {
      logs := [];
    }

    /** `clearClickLogs`: empties the click list only. */
    method ClearClickLogs()
      requires Valid()
      modifies this
      ensures Valid()
      ensures clickLogs == [] && logs == old(logs) && isOpen == old(isOpen) && mounted == old(mounted)
    {
      clickLogs := [];
    }

    /** The network effect: nothing before mounting; afterwards the network
        monitor is started with the widget's options. */
    method NetworkEffect(page: Page) returns (stop: Option<StopHandle>)
      requires page.Valid()
      modifies page
      ensures page.Valid()
      ensures !mounted ==> stop == None && page.monitorActive == old(page.monitorActive)
                             && page.fetch == old(page.fetch) && page.xhr == old(page.xhr)
      ensures mounted ==> stop.Some? && ValidHandle(stop.value) && page.monitorActive
      ensures mounted && !old(page.monitorActive) ==>
                && page.fetch == WrappedFetch(WidgetNetworkConfig, old(page.fetch))
                && page.xhr == WrappedXhr(WidgetNetworkConfig, old(page.xhr))
      ensures mounted && old(page.monitorActive) ==>
                stop == Some(NoOpStop) && page.fetch == old(page.fetch) && page.xhr == old(page.xhr)
    {
      if !mounted {
        return None;
      }
      WidgetNetworkConfigValue();
      var h := page.Start(WidgetNetworkOptions);
      stop := Some(h);
    }
  }

  /** The widget's network options: its own stylesheet is ignored and bodies
      are previewed up to 500 characters. */
  const WidgetNetworkOptions: MonitorOptions := MonitorOptions(Some(["/widget.css"]), Some(500))

  const WidgetNetworkConfig: Config := Config(Some(["/widget.css"]), 500)

  /** The options resolve to a 500-character limit and the one pattern. */
  lemma WidgetNetworkConfigValue()
    ensures MakeConfig(WidgetNetworkOptions) == WidgetNetworkConfig
  {
  }

  /** The widget's own stylesheet requests never reach the log, and every
      other url is observed. */
  lemma {:induction false} WidgetStylesheetIgnored(url: String)
    ensures ShouldIgnore(url, WidgetNetworkConfig.ignoreUrls) <==> Contains(url, "/widget.css")
  {
    SomePatternInIff(url, ["/widget.css"]);
  }

  /** The widget's click settings: clicks inside the widget host are ignored
      (none when there is no host) and texts are clipped at 160 characters. */
  function WidgetClickSettings(widgetHost: Option<nat>): (s: ClickSettings)
    ensures s.ignoreWithin == widgetHost && s.maxTextChars == 160
  {
    Settings(Some(widgetHost), Some(160), widgetHost)
  }

  /** With the widget's settings, a reported click text has at most 161
      characters, and clicks whose path passes the host are dropped. */
  lemma WidgetClicks(widgetHost: Option<nat>, c: Click, stamp: ClickStamp)
    ensures var r := HandleClick(WidgetClickSettings(widgetHost), c, stamp);
      && (widgetHost.Some? && widgetHost.value in c.path ==> r == None)
      && (r.Some? && r.value.text.Some? ==> |r.value.text.value| <= 161)
  {
    var s := WidgetClickSettings(widgetHost);
    if HandleClick(s, c, stamp).Some? {
      ClickTextBounds(s, c, stamp);
    }
  }
}

/** The process-wide side of the network monitor: the `monitorActive` flag and
    the two window slots it patches. Starting while a monitor is active hands
    back a stop function that does nothing; otherwise the current `fetch` and
    `XMLHttpRequest` are remembered, replaced by wrappers, and the returned
    stop function puts both back and clears the flag. */
module MonitorLifecycle {
  import opened NetworkMonitor

  /** What sits in `window.fetch`: a host implementation (named by a tag), or
      a wrapper configured by `cfg` around the implementation it replaced. */
  datatype FetchSlot = HostFetch(tag: nat) | WrappedFetch(cfg: Config, inner: FetchSlot)

  /** What sits in `window.XMLHttpRequest`, in the same two forms. */
  datatype XhrSlot = HostXhr(tag: nat) | WrappedXhr(cfg: Config, inner: XhrSlot)

  /** The stop function a start hands back: the no-op of a start while active,
      or one that restores the two remembered originals. */
  datatype StopHandle = NoOpStop | RestoreStop(prevFetch: FetchSlot, originalXhr: XhrSlot)

  /** A stop handle remembers host implementations only: that is what the
      slots hold whenever no monitor is active. */
  predicate ValidHandle(h: StopHandle) {
    h.RestoreStop? ==> h.prevFetch.HostFetch? && h.originalXhr.HostXhr?
  }

  class Page {
    var monitorActive: bool
    var fetch: FetchSlot
    var xhr: XhrSlot

    /** The flag says whether both slots hold a wrapper, and a wrapper never
        wraps another one. */
    ghost predicate Valid()
      reads this
    {
      && (monitorActive <==> fetch.WrappedFetch?)
      && (monitorActive <==> xhr.WrappedXhr?)
      && (fetch.WrappedFetch? ==> fetch.inner.HostFetch?)
      && (xhr.WrappedXhr? ==> xhr.inner.HostXhr?)
    }

    /** A page whose slots hold the host implementations. */
    constructor (fetchTag: nat, xhrTag: nat)
      ensures Valid()
      ensures !monitorActive && fetch == HostFetch(fetchTag) && xhr == HostXhr(xhrTag)
    {
      monitorActive := false;
      fetch := HostFetch(fetchTag);
      xhr := HostXhr(xhrTag);
    }

    /** `startNetworkMonitor`. */
    method Start(options: MonitorOptions) returns (stop: StopHandle)
      requires Valid()
      modifies this
      ensures Valid() && ValidHandle(stop)
      ensures old(monitorActive) ==> stop == NoOpStop && monitorActive && fetch == old(fetch) && xhr == old(xhr)
      ensures !old(monitorActive) ==>
                && monitorActive
                && fetch == WrappedFetch(MakeConfig(options), old(fetch))
                && xhr == WrappedXhr(MakeConfig(options), old(xhr))
                && stop == RestoreStop(old(fetch), old(xhr))
    {
      if monitorActive {
        return NoOpStop;
      }
      monitorActive := true;
      var cfg := MakeConfig(options);
      var prevFetch := fetch;
      var originalXhr := xhr;
      fetch := WrappedFetch(cfg, prevFetch);
      xhr := WrappedXhr(cfg, originalXhr);
      stop := RestoreStop(prevFetch, originalXhr);
    }

    /** Calling a stop function: the restoring one puts both originals back and
        clears the flag, whatever happened in between; the no-op one does
        nothing. */
    method Stop(h: StopHandle)
      requires Valid() && ValidHandle(h)
      modifies this
      ensures Valid()
      ensures h.NoOpStop? ==> monitorActive == old(monitorActive) && fetch == old(fetch) && xhr == old(xhr)
      ensures h.RestoreStop? ==> !monitorActive && fetch == h.prevFetch && xhr == h.originalXhr
    {
      match h
      case NoOpStop =>
      case RestoreStop(prevFetch, originalXhr) =>
        fetch := prevFetch;
        xhr := originalXhr;
        monitorActive := false;
    }
  }

  /** Start followed by its own stop leaves the page as it was. */
  method StartThenStop(page: Page, options: MonitorOptions)
    requires page.Valid() && !page.monitorActive
    modifies page
    ensures page.Valid()
    ensures !page.monitorActive && page.fetch == old(page.fetch) && page.xhr == old(page.xhr)
  {
    var stop := page.Start(options);
    page.Stop(stop);
  }

  /** A second start while the first is active changes nothing, and its stop
      function leaves the first monitor in place; the first stop function
      still tears everything down. */
  method StartTwice(page: Page, first: MonitorOptions, second: MonitorOptions)
    requires page.Valid() && !page.monitorActive
    modifies page
    ensures page.Valid()
    ensures !page.monitorActive && page.fetch == old(page.fetch) && page.xhr == old(page.xhr)
  {
    var stop1 := page.Start(first);
    ghost var patched := page.fetch;
    var stop2 := page.Start(second);
    assert stop2 == NoOpStop && page.fetch == patched;
    page.Stop(stop2);
    assert page.monitorActive && page.fetch == WrappedFetch(MakeConfig(first), old(page.fetch));
    page.Stop(stop1);
  }
}

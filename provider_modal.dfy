/**
 * The modal's state and its two effects. The `[visible]` effect issues the
 * discovery load when the modal is shown; the `[fetcher.data]` effect replaces
 * the provider list when a response carries one. Each render and each arrival of
 * data is one plain state transition.
 */
module ProviderModal {
  import opened Wrappers
  import opened Url
  import opened ProviderResolver

  /** `fetcher.data` once a load has answered; `provider` is None when that field is missing or falsy. */
  datatype Response = Response(provider: Option<seq<Item>>)

  /** One render of the component: the props it was given, `visible` among them. */
  datatype Snapshot = Snapshot(props: Props, visible: bool)

  /**
   * The loads the `[visible]` effect issues on one render, given `visible` on the
   * render before (false before the first render, so mounting while visible loads).
   */
  function EffectLoads(wasVisible: bool, s: Snapshot): (r: seq<string>)
    ensures |r| <= 1
    ensures r != [] <==> s.visible && !wasVisible
    ensures r != [] ==> r == [DiscoveryUrl(s.props)]
  {
    if s.visible != wasVisible && s.visible then [DiscoveryUrl(s.props)] else []
  }

  /** Every load issued over a sequence of renders, in order. */
  function LoadsOf(wasVisible: bool, renders: seq<Snapshot>): seq<string>
    decreases |renders|
  {
    if renders == [] then []
    else EffectLoads(wasVisible, renders[0]) + LoadsOf(renders[0].visible, renders[1..])
  }

  function LastVisible(wasVisible: bool, renders: seq<Snapshot>): bool
  {
    if renders == [] then wasVisible else renders[|renders| - 1].visible
  }

  /** How many renders changed `visible` with respect to the render before. */
  function Changes(wasVisible: bool, renders: seq<Snapshot>): nat
    decreases |renders|
  {
    if renders == [] then 0
    else (if renders[0].visible != wasVisible then 1 else 0) + Changes(renders[0].visible, renders[1..])
  }

  /** One more render adds exactly the loads of its own effect. */
  lemma {:induction false} LoadsOfSnoc(wasVisible: bool, renders: seq<Snapshot>, s: Snapshot)
    ensures LoadsOf(wasVisible, renders + [s]) ==
            LoadsOf(wasVisible, renders) + EffectLoads(LastVisible(wasVisible, renders), s)
    decreases |renders|
  {
    if renders == [] {
      assert [s][1..] == [];
    } else {
      assert (renders + [s])[1..] == renders[1..] + [s];
      LoadsOfSnoc(renders[0].visible, renders[1..], s);
    }
  }

  /** While the modal stays hidden nothing is loaded. */
  lemma {:induction false} HiddenModalLoadsNothing(wasVisible: bool, renders: seq<Snapshot>)
    requires forall i :: 0 <= i < |renders| ==> !renders[i].visible
    ensures LoadsOf(wasVisible, renders) == []
    decreases |renders|
  {
    if renders != [] {
      HiddenModalLoadsNothing(renders[0].visible, renders[1..]);
    }
  }

  /** Re-rendering without a change of `visible` never loads again, whatever else the props change. */
  lemma {:induction false} SteadyVisibilityLoadsNothing(wasVisible: bool, renders: seq<Snapshot>)
    requires forall i :: 0 <= i < |renders| ==> renders[i].visible == wasVisible
    ensures LoadsOf(wasVisible, renders) == []
    decreases |renders|
  {
    if renders != [] {
      SteadyVisibilityLoadsNothing(renders[0].visible, renders[1..]);
    }
  }

  /** At most one load per change of `visible`. */
  lemma {:induction false} LoadsBoundedByChanges(wasVisible: bool, renders: seq<Snapshot>)
    ensures |LoadsOf(wasVisible, renders)| <= Changes(wasVisible, renders)
    decreases |renders|
  {
    if renders != [] {
      LoadsBoundedByChanges(renders[0].visible, renders[1..]);
    }
  }

  /** `url` is the discovery query of some render at which the modal was visible. */
  ghost predicate IssuedWhileVisible(renders: seq<Snapshot>, url: string)
  {
    exists i :: 0 <= i < |renders| && renders[i].visible && url == DiscoveryUrl(renders[i].props)
  }

  /** Every load is the discovery query of the props of some render at which the modal was visible. */
  lemma {:induction false} LoadsComeFromVisibleRenders(wasVisible: bool, renders: seq<Snapshot>)
    ensures forall url :: url in LoadsOf(wasVisible, renders) ==> IssuedWhileVisible(renders, url)
    decreases |renders|
  {
    if renders != [] {
      var head := EffectLoads(wasVisible, renders[0]);
      var rest := LoadsOf(renders[0].visible, renders[1..]);
      LoadsComeFromVisibleRenders(renders[0].visible, renders[1..]);
      forall url | url in head + rest ensures IssuedWhileVisible(renders, url) {
        if url in head {
          assert renders[0].visible && url == DiscoveryUrl(renders[0].props);
        } else {
          assert IssuedWhileVisible(renders[1..], url);
          var i :| 0 <= i < |renders[1..]| && renders[1..][i].visible && url == DiscoveryUrl(renders[1..][i].props);
          assert renders[i + 1] == renders[1..][i];
        }
      }
    }
  }

  /** The modal: its current props, its provider list, and the loads issued so far. */
  class SelectProviderModal {
    var props: Props
    var visible: bool
    /** The `provider` state: None until a response carries a list. */
    var provider: Option<seq<Item>>
    /** Every URL passed to `fetcher.load`, oldest first. */
    var loads: seq<string>
    /** Every render so far, oldest first. */
    ghost var renders: seq<Snapshot>

    /** The load log is exactly what the `[visible]` effect issues over the renders so far. */
    ghost predicate Valid()
      reads this
    {
      && |renders| > 0
      && renders[|renders| - 1] == Snapshot(props, visible)
      && loads == LoadsOf(false, renders)
    }

    /** The first render: state starts empty and the effect runs once. */
    constructor (p: Props, v: bool)
      ensures Valid() && renders == [Snapshot(p, v)]
      ensures props == p && visible == v && provider == None
      ensures loads == if v then [DiscoveryUrl(p)] else []
    {
      props, visible, provider := p, v, None;
      loads := if v then [DiscoveryUrl(p)] else [];
      renders := [Snapshot(p, v)];
    }

    /** A later render with new props: the `[visible]` effect runs only when `visible` changed. */
    method Rerender(p: Props, v: bool)
      requires Valid()
      modifies this
      ensures Valid() && renders == old(renders) + [Snapshot(p, v)]
      ensures props == p && visible == v && provider == old(provider)
      ensures loads == old(loads) + if v && !old(visible) then [DiscoveryUrl(p)] else []
    {
      LoadsOfSnoc(false, renders, Snapshot(p, v));
      if v != visible && v {
        loads := loads + [DiscoveryUrl(p)];
      }
      props, visible := p, v;
      renders := renders + [Snapshot(p, v)];
    }

    /** The `[fetcher.data]` effect: keep the received list, in received order, only when there is one. */
    method Receive(data: Option<Response>)
      requires Valid()
      modifies this`provider
      ensures Valid()
      ensures provider == if data.Some? && data.value.provider.Some? then data.value.provider else old(provider)
    {
      if data.Some? && data.value.provider.Some? {
        provider := data.value.provider;
      }
    }

    /** The items offered as buttons, in the order they were received; none before any list arrived. */
    function Offered(): (items: seq<Item>)
      reads this
      ensures provider.None? ==> items == []
      ensures provider.Some? ==> items == provider.value
    {
      match provider
      case None => []
      case Some(list) => list
    }

    /** Clicking an offered item: the page `navigate` is sent to. */
    method Choose(item: Item) returns (target: string)
      requires item in Offered()
      ensures target == WatchUrl(props, item)
      ensures WatchSafe(props, item) ==>
        Lookup(Parse(target).params, "provider") == Some(item.provider)
    {
      target := WatchUrl(props, item);
      if WatchSafe(props, item) {
        WatchUrlReads(props, item);
      }
    }
  }
}

/** The configuration records the widget is given: one entry per site, and the
    widget options holding an optional title and the ordered list of sites. */
module Types {
  import opened Js

  /** One configured site: a display title, a link, and an optional deploy hook URL. */
  datatype Site = Site(title: string, url: string, deployHook: Option<string>)

  /** The options the widget component receives. */
  datatype WidgetOptions = WidgetOptions(title: Option<string>, sites: seq<Site>)

  /** A site offers a deploy action exactly when its hook is truthy. */
  predicate HasHook(site: Site) {
    Truthy(site.deployHook)
  }

  /** The sites that offer a deploy action, in configuration order. */
  function SitesWithHook(sites: seq<Site>): (r: seq<Site>)
    ensures |r| <= |sites|
    ensures forall k :: 0 <= k < |r| ==> HasHook(r[k]) && r[k] in sites
    ensures forall i :: 0 <= i < |sites| && HasHook(sites[i]) ==> sites[i] in r
    ensures (forall i :: 0 <= i < |sites| ==> HasHook(sites[i])) ==> r == sites
  {
    if |sites| == 0 then []
    else if HasHook(sites[0]) then [sites[0]] + SitesWithHook(sites[1..])
    else SitesWithHook(sites[1..])
  }

  /** Each hooked site is kept exactly as often as it occurs, each unhooked one never. */
  lemma {:induction false} SitesWithHookCounts(sites: seq<Site>)
    ensures forall s :: multiset(SitesWithHook(sites))[s] == if HasHook(s) then multiset(sites)[s] else 0
    decreases |sites|
  {
    if |sites| > 0 {
      assert sites == [sites[0]] + sites[1..];
      SitesWithHookCounts(sites[1..]);
    }
  }

  /** Filtering distributes over concatenation, so the kept sites stay in
      configuration order. */
  lemma {:induction false} SitesWithHookAppend(a: seq<Site>, b: seq<Site>)
    ensures SitesWithHook(a + b) == SitesWithHook(a) + SitesWithHook(b)
    decreases |a|
  {
    if |a| > 0 {
      assert (a + b)[1..] == a[1..] + b;
      SitesWithHookAppend(a[1..], b);
    } else {
      assert a + b == b;
    }
  }
}

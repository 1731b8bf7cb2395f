/** The `CloudflareWidget` component, as the abstract view it renders: a header
    and one row per configured site, each row optionally carrying a Deploy
    button bound to that row's site. */
module Widget {
  import opened Js
  import opened Types
  import Deploy

  const DefaultHeader := "Cloudflare Deploys"
  const DeployLabel := "Deploy"

  /** A Deploy button: its text, its display mode, its cursor style, and the
      site its click handler passes to `handleDeploy`. */
  datatype Button = Button(text: string, mode: string, cursor: string, site: Site)

  /** One list item: its React key (the site's index), the linked title, and
      the button, if any. */
  datatype Row = Row(key: nat, title: string, url: string, button: Option<Button>)

  datatype View = View(header: string, rows: seq<Row>)

  /** The container header: `title || 'Cloudflare Deploys'`. */
  function Header(title: Option<string>): (h: string)
    ensures h != ""
    ensures Truthy(title) ==> h == title.value
    ensures !Truthy(title) ==> h == DefaultHeader
  {
    Or(title, DefaultHeader)
  }

  /** The button a site is bound to, whether or not the row shows it. */
  function ButtonFor(site: Site): Button {
    Button(DeployLabel, "ghost", "pointer", site)
  }

  /** The row rendered for `site` at position `index`. */
  function RowFor(site: Site, index: nat): (r: Row)
    ensures r.key == index && r.title == site.title && r.url == site.url
    ensures r.button.Some? <==> HasHook(site)
    ensures r.button.Some? ==> r.button.value.text == DeployLabel && r.button.value.site == site
  {
    Row(index, site.title, site.url, if HasHook(site) then Some(ButtonFor(site)) else None)
  }

  /** The rendered view of the component for `options`. */
  function Render(options: WidgetOptions): (v: View)
    ensures v.header == Header(options.title)
    // One row per site, in configuration order, showing that site's title and link.
    ensures |v.rows| == |options.sites|
    ensures forall i :: 0 <= i < |v.rows| ==>
      v.rows[i].key == i && v.rows[i].title == options.sites[i].title && v.rows[i].url == options.sites[i].url
    // A row has a button exactly when its site's hook is truthy; titles and links play no part.
    ensures forall i :: 0 <= i < |v.rows| ==> (v.rows[i].button.Some? <==> HasHook(options.sites[i]))
    // Every button reads "Deploy" and is bound to its own row's site.
    ensures forall i :: 0 <= i < |v.rows| && v.rows[i].button.Some? ==>
      v.rows[i].button.value.text == DeployLabel && v.rows[i].button.value.site == options.sites[i]
  {
    View(Header(options.title),
         seq(|options.sites|, i requires 0 <= i < |options.sites| => RowFor(options.sites[i], i)))
  }

  /** The default header shows exactly when the title is falsy or is the
      default text itself. */
  lemma HeaderShowsTitleOrDefault(title: Option<string>)
    ensures Header(title) == DefaultHeader <==> !Truthy(title) || title.value == DefaultHeader
  {
  }

  /** The buttons of a list of rows, top to bottom. */
  function Buttons(rows: seq<Row>): seq<Button> {
    if |rows| == 0 then []
    else if rows[0].button.Some? then [rows[0].button.value] + Buttons(rows[1..])
    else Buttons(rows[1..])
  }

  /** The buttons bound to the given sites, one each, in order. */
  function ButtonsFor(sites: seq<Site>): (r: seq<Button>)
    ensures |r| == |sites|
  {
    if |sites| == 0 then [] else [ButtonFor(sites[0])] + ButtonsFor(sites[1..])
  }

  /** Rows that agree with `sites` on their buttons show exactly the buttons of
      the hooked sites, in order. */
  lemma {:induction false} ButtonsOfMatchingRows(rows: seq<Row>, sites: seq<Site>)
    requires |rows| == |sites|
    requires forall i :: 0 <= i < |rows| ==> rows[i].button == RowFor(sites[i], i).button
    ensures Buttons(rows) == ButtonsFor(SitesWithHook(sites))
    decreases |rows|
  {
    if |rows| > 0 {
      forall i | 0 <= i < |rows[1..]|
        ensures rows[1..][i].button == RowFor(sites[1..][i], i).button
      {
        assert rows[1..][i] == rows[i + 1];
      }
      ButtonsOfMatchingRows(rows[1..], sites[1..]);
      assert rows[0].button == RowFor(sites[0], 0).button;
    }
  }

  /** The Deploy buttons of the rendered view are, in order, the buttons of the
      sites with a hook, so their number is the number of hooked sites. */
  lemma ButtonsFollowHookedSites(options: WidgetOptions)
    ensures Buttons(Render(options).rows) == ButtonsFor(SitesWithHook(options.sites))
    ensures |Buttons(Render(options).rows)| == |SitesWithHook(options.sites)|
    ensures |options.sites| == 0 ==> Buttons(Render(options).rows) == []
  {
    var v := Render(options);
    ButtonsOfMatchingRows(v.rows, options.sites);
  }

  /** Clicking the button of row `i`, with the transport settling as `outcome`;
      `None` when the row has no button to click. */
  function Click(v: View, i: nat, outcome: Deploy.Outcome): (r: Option<Deploy.Run>)
    requires i < |v.rows|
    ensures r.Some? <==> v.rows[i].button.Some?
    // The click hands the button's own site to the deploy, and shows exactly one alert.
    ensures r.Some? ==>
      var site := v.rows[i].button.value.site;
      && (r.value.result <==> HasHook(site) && Deploy.Accepted(outcome))
      && Deploy.Requests(r.value.effects) == (if HasHook(site) then [Deploy.PostRequest(site.deployHook.value)] else [])
      && |Deploy.Alerts(r.value.effects)| == 1
  {
    match v.rows[i].button
    case Some(b) => Some(Deploy.HandleDeploy(b.site, outcome))
    case None => None
  }

  /** Through the rendered view, a click deploys exactly its own row's site:
      the one request goes to that site's hook, and the "no hook" alert can
      never be reached from a button. */
  lemma ClickDeploysOwnSite(options: WidgetOptions, i: nat, outcome: Deploy.Outcome)
    requires i < |options.sites|
    ensures var v := Render(options);
      i < |v.rows| &&
      (Click(v, i, outcome).Some? <==> HasHook(options.sites[i]))
    ensures var v := Render(options);
      i < |v.rows| && Click(v, i, outcome).Some? ==>
        && Click(v, i, outcome).value == Deploy.HandleDeploy(options.sites[i], outcome)
        && Deploy.Requests(Click(v, i, outcome).value.effects) == [Deploy.PostRequest(options.sites[i].deployHook.value)]
        && Deploy.Alerts(Click(v, i, outcome).value.effects) != [Deploy.NoHookMessage]
  {
  }
}

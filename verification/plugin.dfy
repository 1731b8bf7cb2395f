/** The `cloudflareWidget` plugin factory: it names the widget, settles its
    layout, and chooses between a critical error card and the widget itself. */
module Plugin {
  import opened Js
  import opened Types
  import Widget

  const WidgetName := "cloudflare-widget"
  const NoSitesText := "No sites are defined in the widget options. Please check your config."
  const CriticalTone := "critical"
  const CardPadding := 3

  /** The size keywords a dashboard layout uses for width and height. */
  datatype Size = Auto | Small | Medium | Large | Full

  /** A dashboard layout; either dimension may be left unset. */
  datatype Layout = Layout(width: Option<Size>, height: Option<Size>)

  const DefaultLayout := Layout(Some(Medium), None)

  /** The factory's argument: the widget options, where `sites` may be missing
      altogether, plus an optional layout. */
  datatype Config = Config(title: Option<string>, sites: Option<seq<Site>>, layout: Option<Layout>)

  /** What the widget's component renders: the error card, or the widget given
      the options taken from the config. */
  datatype Component =
    | ErrorCard(tone: string, padding: nat, text: string)
    | Delegate(options: WidgetOptions)

  datatype DashboardWidget = DashboardWidget(name: string, component: Component, layout: Layout)

  /** No sites at all: `sites` is missing or the empty list. */
  predicate NoSites(config: Config) {
    config.sites.None? || |config.sites.value| == 0
  }

  /** `cloudflareWidget(config)`, with its component evaluated. */
  function Create(config: Config): (w: DashboardWidget)
    ensures w.name == WidgetName
    // `??` keeps any given layout and defaults only a missing one.
    ensures config.layout.Some? ==> w.layout == config.layout.value
    ensures config.layout.None? ==> w.layout == DefaultLayout
    // The error card is shown exactly when there are no sites, and the widget otherwise.
    ensures w.component.ErrorCard? <==> NoSites(config)
    ensures NoSites(config) ==> w.component == ErrorCard(CriticalTone, CardPadding, NoSitesText)
    ensures !NoSites(config) ==>
      w.component.Delegate? && w.component.options.title == config.title && config.sites == Some(w.component.options.sites)
  {
    DashboardWidget(
      WidgetName,
      if NoSites(config) then ErrorCard(CriticalTone, CardPadding, NoSitesText)
      else Delegate(WidgetOptions(config.title, config.sites.value)),
      Coalesce(config.layout, DefaultLayout))
  }

  /** The error-versus-widget choice reads nothing but `sites`: configs that
      share their sites get the same component whatever their titles and layouts,
      up to the title handed on to the widget. */
  lemma ChoiceDependsOnlyOnSites(c1: Config, c2: Config)
    requires c1.sites == c2.sites
    ensures Create(c1).component.ErrorCard? == Create(c2).component.ErrorCard?
    ensures c1.title == c2.title ==> Create(c1).component == Create(c2).component
  {
  }

  /** Feeding the resulting layout back in changes nothing. */
  lemma LayoutIsSettled(config: Config)
    ensures Create(config.(layout := Some(Create(config).layout))) == Create(config)
  {
  }

  /** What appears on the dashboard: the error notice, or the widget's view. */
  datatype Screen = Notice(tone: string, text: string) | Panel(view: Widget.View)

  function Show(c: Component): (s: Screen)
    ensures s.Notice? <==> c.ErrorCard?
    ensures c.ErrorCard? ==> s == Notice(c.tone, c.text)
    ensures c.Delegate? ==>
      s.view.header == Widget.Header(c.options.title) && |s.view.rows| == |c.options.sites|
  {
    match c
    case ErrorCard(tone, _, text) => Notice(tone, text)
    case Delegate(options) => Panel(Widget.Render(options))
  }

  /** End to end: the dashboard shows either the critical notice, for a config
      without sites, or a panel with one row per configured site, a header
      defaulted from the title, and one Deploy button per site with a hook. */
  lemma DashboardShowsConfiguredSites(config: Config)
    ensures Show(Create(config).component).Notice? <==> NoSites(config)
    ensures NoSites(config) ==> Show(Create(config).component) == Notice(CriticalTone, NoSitesText)
    ensures !NoSites(config) ==>
      var view := Show(Create(config).component).view;
      && view.header == Widget.Header(config.title)
      && |view.rows| == |config.sites.value| > 0
      && Widget.Buttons(view.rows) == Widget.ButtonsFor(SitesWithHook(config.sites.value))
  {
    if !NoSites(config) {
      Widget.ButtonsFollowHookedSites(WidgetOptions(config.title, config.sites.value));
    }
  }

  /** A missing title does not bring up the error card: with sites present the
      widget is rendered under the default header. */
  lemma MissingTitleStillRenders(config: Config)
    requires config.title.None? && !NoSites(config)
    ensures Show(Create(config).component).Panel?
    ensures Show(Create(config).component).view.header == Widget.DefaultHeader
  {
  }
}

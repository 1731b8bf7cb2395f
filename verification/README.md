# Cloudflare deploy widget: a Dafny model

This project models the logic of a small dashboard plugin. The widget lists configured sites. Each site with a deploy hook gets a "Deploy" button that POSTs to that hook. The model has three parts:

- **`handleDeploy`** (`Deploy` module). This is one decision over a site and the way the awaited `fetch` settled. The transport outcome is an input: either `Rejected`, or `Resolved(ok, type)`. The model returns the boolean the promise resolves to, plus the ordered trace of effects (each request handed to `fetch` and each `alert` shown). The `try`/`throw`/`catch` is modelled by `Attempt`, which returns a `Completion`.
- **The `CloudflareWidget` component** (`Widget` module). It is modelled as the abstract view it renders: a header, then one row per site. Each row has a React key, a linked title, and an optional Deploy button bound to that row's site. `Click` connects a button to `handleDeploy`.
- **The `cloudflareWidget` factory** (`Plugin` module). It sets the fixed name and settles the layout with `??`. It shows a critical error card when there are no sites, and otherwise renders the widget.

`Js` models JavaScript truthiness of `string | undefined` and the `||` and `??` operators. A deploy hook or title is falsy when it is missing or empty. `Types` holds the configuration records. These records are inferred from how the code uses them, because `src/types` is not part of this model.

## Model

| member | source | states |
|---|---|---|
| `Js.OrTruthiness` | src/CloudflareWidget.tsx:9 | `a \|\| b` is falsy only when both operands are falsy. It returns its fallback exactly when the left operand is falsy or already equal to the fallback. |
| `Js.CoalesceVersusOr` | src/plugin.tsx:22 | `??` (used for the layout) and `\|\|` (used for the header) give different results only on a present but empty string, which `??` keeps and `\|\|` replaces by the fallback. |
| `Types.SitesWithHook` | src/CloudflareWidget.tsx:26 | Filters the sites to those with a truthy hook. Every kept site has a hook and comes from the input. When all sites are hooked, nothing is dropped. |
| `Types.SitesWithHookCounts` | src/CloudflareWidget.tsx:11-38 | Each hooked site is kept exactly as often as it occurs, and each unhooked site never, so the number kept is the number of hooked sites. |
| `Types.SitesWithHookAppend` | src/CloudflareWidget.tsx:11-38 | Filtering a concatenation is the concatenation of the filtered parts, so the kept sites stay in configuration order. |
| `Deploy.Attempt` | src/deploy.ts:10-20 | The try block completes normally exactly when the response is `Accepted`: it resolved and is `ok` or opaque. A rejected fetch throws a transport fault. A readable non-ok response throws "Failed to trigger deployment". |
| `Deploy.HandleDeploy` | src/deploy.ts:4-28 | Without a hook: returns false, shows the single alert "No deploy hook defined for this site." and issues no request. With a hook: issues exactly one request, before the alert, to the hook with POST, no-cors and no-cache. The result is true exactly for a hooked site whose response is `Accepted`. Every run ends with exactly one alert. The result is true iff that alert is the success message. A hooked run that fails shows "Error triggering deployment". |
| `Deploy.NoHookIgnoresTransport` | src/deploy.ts:5-8 | With a missing or empty hook, the run is the same whatever the transport would have done, and no request is issued. |
| `Deploy.OpaqueIgnoresOk` | src/deploy.ts:18 | An opaque response counts as success whatever its `ok` flag. Its run is the same as that of an `ok` basic response. |
| `Deploy.FailuresAreIndistinguishable` | src/deploy.ts:18-27 | A readable non-ok response and a rejected fetch produce the same run, which alerts "Error triggering deployment". |
| `Deploy.MessageDeterminesBranch` | src/deploy.ts:5-27 | Each of the three messages identifies one branch, in both directions: no hook, accepted response, or failure. |
| `Widget.Header` | src/CloudflareWidget.tsx:9 | The header is never empty. It is the title when the title is truthy, and "Cloudflare Deploys" otherwise. |
| `Widget.RowFor` | src/CloudflareWidget.tsx:13-35 | A site's list item has the given key and the site's title and url. It has a button iff the site's hook is truthy. That button reads "Deploy" and is bound to the site. |
| `Widget.Render` | src/CloudflareWidget.tsx:6-42 | The header comes from the title. There is one row per site, in configuration order. Row `i` has key `i` and shows `sites[i]`'s title and url. A row has a button iff its site's hook is truthy, so empty titles or urls never hide it. Every button reads "Deploy" and is bound to `sites[i]`. |
| `Widget.HeaderShowsTitleOrDefault` | src/CloudflareWidget.tsx:9 | The header is "Cloudflare Deploys" exactly when the title is falsy or is that same text. |
| `Widget.ButtonsOfMatchingRows` | src/CloudflareWidget.tsx:11-38 | Rows whose buttons match the sites position by position show exactly the buttons of the hooked sites, in order. |
| `Widget.ButtonsFollowHookedSites` | src/CloudflareWidget.tsx:11-38 | The rendered Deploy buttons, top to bottom, are the buttons of the hooked sites. Their count equals the number of hooked sites, so an empty list gives none. |
| `Widget.Click` | src/CloudflareWidget.tsx:30 | Only a row with a button can be clicked. A click hands the button's own site to `handleDeploy`. The result is true iff that site has a hook and the response is accepted. At most one request is sent, to that site's hook. Exactly one alert is shown. |
| `Widget.ClickDeploysOwnSite` | src/CloudflareWidget.tsx:26-35 | Row `i` can be clicked iff `sites[i]` has a hook. A click runs `handleDeploy` on `sites[i]` and no other site. Its one request goes to that site's hook. A click can never produce the "no hook" alert. |
| `Plugin.Create` | src/plugin.tsx:9-24 | The name is always "cloudflare-widget". The layout is `config.layout` when given, otherwise width medium. The component is the critical card with the fixed "No sites are defined…" text exactly when `sites` is missing or empty. Otherwise the component is the widget, given the config's title and sites unchanged. |
| `Plugin.Show` | src/plugin.tsx:12-20 | The error card is shown as a notice with its tone and text. A delegated component is shown as the widget's view, with the header from its title and one row per site. |
| `Plugin.ChoiceDependsOnlyOnSites` | src/plugin.tsx:13 | Configs with the same sites choose the same kind of component, whatever their titles and layouts. With equal titles, they choose the same component. |
| `Plugin.LayoutIsSettled` | src/plugin.tsx:22 | Passing the resulting layout back in as `config.layout` produces the same widget. |
| `Plugin.DashboardShowsConfiguredSites` | src/plugin.tsx:12-20 | End to end, the dashboard shows one of two things. For a config without sites, it shows the critical notice. Otherwise it shows a panel with at least one row, one row per configured site, and a header taken from the title. That panel has exactly one Deploy button per hooked site, in order. |
| `Plugin.MissingTitleStillRenders` | src/plugin.tsx:13-20 | A missing title does not bring up the error card. With sites present, the widget renders under "Cloudflare Deploys". |

## Left out

- The per-item loading state is left out. The tests at test/CloudflareWidget.test.tsx:138-186 expect a "Deploying…" label, a primary tone, a progress cursor and disabled sibling buttons while a deploy runs. src/CloudflareWidget.tsx has no such state: the component is stateless, its button is never disabled, and `onClick` discards the promise. The model follows the component.
- The code has no distinct failure reasons. A rejection and a non-ok readable response both end in the same "Error triggering deployment" alert. `Fault` keeps the distinction only inside the try block, as the code does.
- `fetch` and `alert` are browser globals. They are not called. The transport outcome is an input, and the alerts are returned in the effect trace.
- Deploy.HandleDeploy: assumes `alert` always returns normally, so every run shows exactly one alert and the result is true iff that alert is the success message. In src/deploy.ts the success alert (line 22) sits inside the `try` block. If it threw, the `catch` (lines 24-26) would show "Error triggering deployment" and return false, after both alerts. If the alert on the no-hook path (line 6) or inside the `catch` (line 25) threw, the returned promise would reject instead. A throwing `alert` is not modelled.
- Promise and async timing are left out. `handleDeploy` is treated as one synchronous decision, and the promise that `onClick` discards is not modelled.
- React/JSX rendering, `@sanity/ui` components and `DashboardWidgetContainer` are left out. Only the abstract view is modelled: header, rows, keys, link text and url, and the button's text, mode, cursor and bound site. Padding, flex and other layout props are not modelled.
- The React key is modelled as the row index. The formatting of the string `site-${index}` is not modelled.
- `Plugin.Create` evaluates the component when the factory runs. In the code, the component is a closure that reads `config` at render time. The model does not cover a `config` mutated between creation and rendering.
- `src/types` and `LayoutConfig` from `@sanity/dashboard` are not part of this model. The shapes of `Site`, `WidgetOptions` and `Layout` (width and height sizes) are inferred from how they are used.
- `CloudflareWidget` with `sites` missing would throw in `sites.map`. `WidgetOptions.sites` is therefore a required sequence. The factory is the only place where a missing list is handled.

# Visitor-location widgets and mobile drawer of garmir.io

This project models, in Dafny, the decision logic of the client-side
widgets of the garmir.io personal site:

- the **optimized terminal globe** (`garmir.io_assets/terminal-globe-optimized.js`):
  a button that looks up the visitor's approximate location and holds a
  terminal-style text panel revealed by click or Enter/Space. It merges
  caller options over defaults, short-circuits to an `offline` fallback
  record when the browser reports no network, stores a 2xx JSON body as it
  is and otherwise an `api_error` fallback record, renders the panel
  according to privacy mode, and toggles the panel with a one-time privacy
  notice;
- the **original terminal globe** (`garmir.io_assets/terminal-globe.js`):
  the same idea with a fixed 5000 ms abort, an `error` record, a panel that
  shows only city and region, and no aria-expanded;
- the **3D globe's visitor lookup** (`garmir.io_assets/globe-geolocation.js`):
  three providers asked in a fixed order until one returns truthy
  coordinates, the `||` defaulting of city, country and IP, the gate that
  adds the marker and info line only when a location was found, and the
  static-picture label used when the 3D library cannot load;
- the **mobile navigation drawer** (`src/assets/js/mobile-menu.js`): a
  two-state menu whose aria-expanded, `active` class and body scroll lock
  follow the drawer's `open` class.

JavaScript values read from JSON bodies and options are the datatype
`JsValues.Value`, with JavaScript truthiness, property access and
template-string conversion of values whose objects carry no own `toString`
or `valueOf` key. Panel text is the HTML source the code inserts. The network is an input: each request's
outcome (`Network.FetchOutcome`: timed out, rejected, or a response with a
status and a body that is or is not JSON) is given to the method that
models the code after the `await`. The local time zone and the time of day
are given as text.

Each widget whose fields change in place is a class whose methods state
their new state in terms of pure specification functions; the properties
are proved as lemmas about those functions. The click-to-reveal toggle
shared by both terminal widgets is specified once (`Disclosure.Activate`).

The toggle has a quirk the model keeps: the toggle reads the panel's
inline `style.display`, which starts empty, while the stylesheet hides the
panel. The first activation therefore writes `none` over an already hidden
panel: nothing appears and no notice is raised. The panel and the privacy
notice first appear on the second activation
(`Disclosure.FirstActivationIsInvisible`,
`OptimizedTerminal.TwoActivations`). aria-expanded is nonetheless correct
after every activation.

Facts about the code that the model keeps:

- the code has two fallback reasons, `offline` and `api_error`; a timeout,
  a non-2xx status and a thrown error all give `api_error`, and there is no
  separate parse-error reason;
- a 2xx JSON body is stored without checking any field (the optimized
  widget even stores `null`, after which nothing is rendered); only the 3D
  variant asks for coordinates;
- the 3D variant tries three providers in turn and ignores the HTTP status.

## Model

| member | source | states |
|---|---|---|
| `OptimizedTerminal.MergeOptions` | garmir.io_assets/terminal-globe-optimized.js:15-21 | every default key is present; a key the caller gives overrides the default, key by key |
| `OptimizedTerminal.OptionDefaults` | garmir.io_assets/terminal-globe-optimized.js:15-21 | privacy mode is on exactly when the caller omits `privacyMode` or gives a truthy one; the timeout is 3000 unless the caller gives one |
| `OptimizedTerminal.ReasonLabelIsUpperTag` | garmir.io_assets/terminal-globe-optimized.js:164 | upper-casing the stored reasons `offline` and `api_error` gives `OFFLINE` and `API_ERROR` |
| `OptimizedTerminal.FallbackData` | garmir.io_assets/terminal-globe-optimized.js:123-133 | the fallback record has city, region and country_name `Unknown`, ip `0.0.0.0`, the local zone (or UTC), a truthy `fallback` and `fallback_reason` equal to the reason's tag |
| `OptimizedTerminal.LoadedData` | garmir.io_assets/terminal-globe-optimized.js:87-120 | a 2xx JSON body is stored verbatim; an abort, a rejection, a non-2xx status or a non-JSON body gives the `api_error` fallback record |
| `OptimizedTerminal.UpperReason` | garmir.io_assets/terminal-globe-optimized.js:164 | `fallback_reason?.toUpperCase()` throws exactly for a reason that is neither text nor missing; text is upper-cased |
| `OptimizedTerminal.LocationLine` | garmir.io_assets/terminal-globe-optimized.js:163-167 | a fallback record shows its text reason upper-cased, or `PRIVATE` when the reason is missing or empty, and throws for any other reason; a live record shows `city, region` in privacy mode and `city, region, country_name` otherwise |
| `OptimizedTerminal.TerminalOutput` | garmir.io_assets/terminal-globe-optimized.js:159-188 | the panel is prompt, location line, timezone, time, the warning line exactly when the record is a fallback, and the cursor; rendering throws exactly on a fallback whose reason is neither text nor missing |
| `OptimizedTerminal.RenderReadsOnlyRenderedKeys` | garmir.io_assets/terminal-globe-optimized.js:160-187 | the panel depends only on city, region, country_name, timezone, fallback and fallback_reason |
| `OptimizedTerminal.IpNeverRendered` | garmir.io_assets/terminal-globe-optimized.js:160-167 | changing the record's IP never changes the panel, in either mode |
| `OptimizedTerminal.PrivacyModeHidesCountry` | garmir.io_assets/terminal-globe-optimized.js:165-166 | in privacy mode changing the country never changes the panel |
| `OptimizedTerminal.LiveLocationLine` | garmir.io_assets/terminal-globe-optimized.js:163-167 | a non-fallback record shows `city, region` in privacy mode and `city, region, country_name` otherwise, with no warning line |
| `OptimizedTerminal.FallbackPanel` | garmir.io_assets/terminal-globe-optimized.js:123-133 | a fallback record shows `Location: [OFFLINE]` or `Location: [API_ERROR]`, the local zone (or UTC) and the fallback warning |
| `OptimizedTerminal.MissingReasonIsPrivate` | garmir.io_assets/terminal-globe-optimized.js:164 | a fallback with a missing, null or empty reason shows `Location: [PRIVATE]` |
| `OptimizedTerminal.TextReasonShownUpperCased` | garmir.io_assets/terminal-globe-optimized.js:164 | a fallback record with a non-empty text reason renders `Location: [<reason upper-cased>]` and the warning line |
| `OptimizedTerminal.OptimizedTerminalGlobe.constructor` | garmir.io_assets/terminal-globe-optimized.js:13-32 | options are merged; without a container only a warning is emitted and nothing is created or fetched; offline stores the `offline` fallback with no request; online issues one request (the constructor runs the initializer up to its `await`; what follows is `Respond` and `Finalize`) |
| `OptimizedTerminal.OptimizedTerminalGlobe.Respond` | garmir.io_assets/terminal-globe-optimized.js:90-120 | once the request settles, the stored record is `LoadedData` of its outcome |
| `OptimizedTerminal.OptimizedTerminalGlobe.Finalize` | garmir.io_assets/terminal-globe-optimized.js:34-48 | with no record nothing happens; otherwise the panel holds the rendered lines and `location-active` is added exactly when the record is not a fallback; a render that throws replaces the container with the static fallback |
| `OptimizedTerminal.OptimizedTerminalGlobe.ToggleLocationDisplay` | garmir.io_assets/terminal-globe-optimized.js:190-204 | the panel steps as `Disclosure.Activate`, aria-expanded equals whether the panel is now on screen, and the notice bookkeeping is kept |
| `OptimizedTerminal.TwoActivations` | garmir.io_assets/terminal-globe-optimized.js:190-204 | on a fresh widget the first activation shows nothing, sets aria-expanded "false" and raises no notice; the second shows the panel and one notice |
| `Disclosure.Activate` | garmir.io_assets/terminal-globe-optimized.js:193-203 | the inline display becomes "none" or "block"; the panel is on screen exactly when it was inline-hidden; a notice is raised exactly on a reveal when none was raised before |
| `Disclosure.NoticeAtMostOnce` | garmir.io_assets/terminal-globe.js:124-135 | over any number of activations the notice flag and count stay in step and at most one notice is raised |
| `Disclosure.FreshPanelHistory` | garmir.io_assets/terminal-globe.js:127-134 | after n activations of a fresh panel the inline display is "", "none" (odd n) or "block" (even n), and one notice has been raised exactly when n >= 2 |
| `Disclosure.ShownAfterEvenActivations` | garmir.io_assets/terminal-globe-optimized.js:193-194 | a fresh panel is on screen exactly after a positive even number of activations |
| `Disclosure.FirstActivationIsInvisible` | garmir.io_assets/terminal-globe-optimized.js:193-203 | the first activation leaves the panel hidden with no notice; the second shows it with one notice |
| `Disclosure.ActivateTwiceRestoresDisplay` | garmir.io_assets/terminal-globe.js:127-128 | after the first activation, two more return the inline display to its value |
| `JsValues.LocalZone` | garmir.io_assets/terminal-globe-optimized.js:129 | the placeholder zone is the browser's zone, or `UTC` when none resolves |
| `Terminal.FetchedRecord` | garmir.io_assets/terminal-globe.js:41-80 | the stored record is always an object: the body of a 2xx response that is a non-null object, otherwise the `error` record |
| `Terminal.ErrorRecord` | garmir.io_assets/terminal-globe.js:71-78 | the error record has city, region and country_name `Unknown`, ip `0.0.0.0`, the local zone (or UTC) and a truthy `error` |
| `Terminal.TerminalOutput` | garmir.io_assets/terminal-globe.js:101-122 | four lines; the location line is `Location: [PRIVATE]` for an error record and `city, region` otherwise; the timezone line shows `UTC` when the zone is falsy |
| `Terminal.RenderReadsOnlyRenderedKeys` | garmir.io_assets/terminal-globe.js:102-118 | the panel depends only on city, region, timezone and error |
| `Terminal.CountryAndIpNeverRendered` | garmir.io_assets/terminal-globe.js:102-107 | changing the country or the IP never changes the panel |
| `Terminal.ErrorRecordPanel` | garmir.io_assets/terminal-globe.js:71-78 | the error record renders as `Location: [PRIVATE]` in the local zone |
| `Terminal.TerminalGlobe.constructor` | garmir.io_assets/terminal-globe.js:7-22 | the constructor also runs `initializeGlobe` up to its `await`: without a container only a warning, nothing created or fetched; otherwise the button exists before the single request is issued (what follows the `await` is `Settle`) |
| `Terminal.TerminalGlobe.Settle` | garmir.io_assets/terminal-globe.js:19-21 | rendering happens after the request settles: the record is `FetchedRecord`, the panel its rendering, and `location-active` is added exactly when the record is not an error record |
| `Terminal.TerminalGlobe.ToggleLocationDisplay` | garmir.io_assets/terminal-globe.js:124-135 | the panel steps as `Disclosure.Activate`, the notice flag starting falsy |
| `Terminal.FailedLookup` | garmir.io_assets/terminal-globe.js:82-92 | after a failed lookup the panel shows `Location: [PRIVATE]`, the button is not active, and any number of activations raise at most one notice |
| `GeoLocation.MakeLocation` | garmir.io_assets/globe-geolocation.js:77-83 | city is `city`, else `region_name`, else `Unknown`; country is `country`, else `country_name`, else `Unknown`; ip is `ip`, else `Unknown`; all three are truthy |
| `GeoLocation.Attempt` | garmir.io_assets/globe-geolocation.js:72-90 | one provider yields a location exactly when its body parses to a non-null value with truthy latitude and longitude, and the location is built from that body |
| `GeoLocation.AttemptIgnoresStatusAndZero` | garmir.io_assets/globe-geolocation.js:73-76 | a provider's HTTP status plays no part, and a zero latitude counts as missing |
| `GeoLocation.Contacted` | garmir.io_assets/globe-geolocation.js:71-91 | at least one and at most all of the providers are contacted |
| `GeoLocation.FirstHit` | garmir.io_assets/globe-geolocation.js:71-91 | the location stays unset exactly when no provider yields one; otherwise it is the one yielded by the last provider contacted |
| `GeoLocation.LookupStep` | garmir.io_assets/globe-geolocation.js:76-90 | a provider with coordinates ends the lookup after it; one without passes the lookup on to the next provider |
| `GeoLocation.FirstHitIsFirstUseful` | garmir.io_assets/globe-geolocation.js:71-91 | the lookup takes the first provider with coordinates, every earlier one gave nothing and no later one is contacted; with none, all are tried and the location stays unset |
| `GeoLocation.GeoLocationGlobe.constructor` | garmir.io_assets/globe-geolocation.js:5-14 | the fields start empty: the location is unset and nothing is contacted or drawn; the constructor's closing `this.init()` call (line 15) is the separate `Init` |
| `GeoLocation.GeoLocationGlobe.GetVisitorLocation` | garmir.io_assets/globe-geolocation.js:62-95 | the loop over ipapi.co, ip-api.com, freegeoip.app stores `FirstHit` and contacts exactly the first `Contacted` providers, in order |
| `GeoLocation.GeoLocationGlobe.Init` | garmir.io_assets/globe-geolocation.js:18-60 | without a container nothing happens; otherwise the providers are asked in order, and the marker and the `visitor: city, country` line are added exactly when the WebGL renderer was created and a location was found |
| `GeoLocation.VisitorLine` | garmir.io_assets/globe-geolocation.js:199 | the info line is `visitor: ` followed by the city, a comma and the country |
| `GeoLocation.VisitorLineOmitsIp` | garmir.io_assets/globe-geolocation.js:199 | the info line starts `visitor: ` and does not depend on the IP address |
| `GeoLocation.InitStaticGlobe` | garmir.io_assets/globe-geolocation.js:258-280 | only a container without a canvas is replaced; the label becomes `visitor: city, country` only when both are truthy, stays loading when one is missing, and becomes `geographic visualization` on failure |
| `MobileMenu.Initial` | src/assets/js/mobile-menu.js:38-52 | the button starts with aria-expanded "false" and not active; the state is mirrored exactly when the markup's drawer is closed |
| `MobileMenu.Toggle` | src/assets/js/mobile-menu.js:54-63 | the drawer flips and aria-expanded, `active` and the scroll lock equal the new flag |
| `MobileMenu.Close` | src/assets/js/mobile-menu.js:72-80 | the drawer ends closed with aria-expanded "false", `active` removed and overflow reset |
| `MobileMenu.OnKey` | src/assets/js/mobile-menu.js:82-89 | Escape closes an open drawer; anything else changes nothing |
| `MobileMenu.OnDocumentClick` | src/assets/js/mobile-menu.js:29-35 | a click closes the drawer only when it is open and outside both the drawer and the button |
| `MobileMenu.Step` | src/assets/js/mobile-menu.js:25-35 | a button click, including its bubbling to the document listener, is a toggle; a key goes to `handleKeyboard`; any other click to the outside-click listener |
| `MobileMenu.ButtonClickToggles` | src/assets/js/mobile-menu.js:25-35 | a button click, bubbling to the document listener, is exactly a toggle |
| `MobileMenu.StepMirrorsOrKeeps` | src/assets/js/mobile-menu.js:54-89 | every event leaves the state unchanged or mirrored, and keeps a mirrored state mirrored |
| `MobileMenu.MirrorsInvariant` | src/assets/js/mobile-menu.js:54-89 | from a mirrored state, any sequence of events keeps aria-expanded, `active` and the scroll lock equal to the open flag |
| `MobileMenu.MirroredOnceChanged` | src/assets/js/mobile-menu.js:54-89 | from any state, after any sequence of events the state is unchanged or mirrored |
| `MobileMenu.AlwaysMirroredFromClosedMarkup` | src/assets/js/mobile-menu.js:42 | from the initial state with a closed drawer, every sequence of events keeps the three indicators in agreement with the drawer |
| `MobileMenu.CloseIdempotentToggleInvolutive` | src/assets/js/mobile-menu.js:72-80 | closing twice is closing once; two toggles from a mirrored state restore it |
| `MobileMenu.Menu.constructor` | src/assets/js/mobile-menu.js:14-18 | the button is added only when both the drawer and its mobile header exist |
| `MobileMenu.Menu.ToggleMenu` | src/assets/js/mobile-menu.js:54-63 | the new state is `Toggle` of the old one |
| `MobileMenu.Menu.CloseMenu` | src/assets/js/mobile-menu.js:72-80 | the new state is `Close` of the old one |
| `MobileMenu.Menu.HandleKeyboard` | src/assets/js/mobile-menu.js:82-89 | the new state is `OnKey` of the old one |
| `MobileMenu.Menu.HandleDocumentClick` | src/assets/js/mobile-menu.js:29-35 | the new state is `OnDocumentClick` of the old one |
| `MobileMenu.Menu.Dispatch` | src/assets/js/mobile-menu.js:24-35 | without the button nothing happens; otherwise the state steps as `Step` |
| `MobileMenu.Session` | src/assets/js/mobile-menu.js:14-89 | a mounted menu with a closed drawer stays mirrored under any sequence of events |

## Left out

- Markup, inline CSS, style injection and the privacy notice's content: the notice is a counter and its 5 s / 8 s auto-dismiss timer is not modelled.
- `fetch`, `AbortController` and `setTimeout`: each request's outcome is an input, so the abort delay (the `timeout` option, 3000 by default, and the fixed 5000 ms) only decides when a `TimedOut` outcome would occur, which the model does not track.
- Asynchronous interleaving: the model fixes the order constructor, request settles, render; activations may come at any point after construction; `Promise.allSettled` ordering is not modelled.
- The `fallbackEnabled` and `performanceMonitoring` options, `performance.now` and console logging: they are merged but decide nothing.
- `Intl` time-zone resolution and `toLocaleTimeString`: the zone and the time of day are given as text.
- Upper-casing maps only the letters a to z; `toUpperCase` also maps other Unicode letters.
- Numbers are integers and JSON arrays have no value of their own; only truthiness and the printing of integers are modelled.
- JsValues.Display: a JSON object in a body that has its own `toString` or `valueOf` key is assumed absent. On such an object `${v}` can throw, or print something other than `[object Object]`, and the render that contains it would throw or differ from the model. This applies to `createTerminalOutput` in both terminals, `displayLocationInfo` and the static label.
- The panel lines, the info line and the static label are the HTML source text that the code assigns to `innerHTML` without escaping. What the browser shows after parsing that markup is not modelled.
- GeoLocation.MakeLocation: keeps the latitude and longitude as read from the body instead of passing them through `parseFloat`.
- The coordinates line of the 3D info panel (`toFixed(2)`), `latLonToVector3`, marker pulsing, the Three.js scene, renderer, resize handling and `destroy`, and `globe.js` as a whole: floating point and rendering with no decision logic; whether the WebGL renderer's constructor throws is an input of `init`.
- In the 3D variant there is no abort timer; a `TimedOut` outcome there stands for a failed request like a rejection, and a request that never settles is not modelled.
- `postcss.config.js` and the page-generation pipeline: build configuration.
- Focus management in the drawer, the Enter/Space key handling beyond treating it as an activation, `DOMContentLoaded`/`requestIdleCallback` bootstrapping and module exports.
- `toggleMenu` and `closeMenu` look the drawer and button up with `document.querySelector`; the model assumes these find the menu that `init` set up.
- The body's overflow style is taken to start empty.

# Idle monitor and item icon resolver of the password-manager browser extension

This project models two small components of the browser extension in Dafny and proves
properties of the models.

- **Item icon resolver** (`IconController`, module `Icon` in `icon.dfy`). This is a class
  with the source's fields. The constructor picks the icon service base URL from a
  three-way fallback and fixes the fallback base URL. `OnChanges` is `$onChanges`: it maps
  the item's category to a glyph and, for logins, calls `SetLoginIcon`. `SetLoginIcon`
  classifies the login URI with `indexOf`, may put `http://` in front of it, and builds
  the favicon and fallback favicon URLs from the parsed host name. Both methods are proved
  against the reference functions `Classify`, `LoginView` and `Resolved`. The contracts of
  those functions state the promised behaviour: which fields change, which stay, and when
  an image URL can appear.
- **JavaScript `indexOf`** (module `JsStrings` in `js_strings.dfy`). `IndexOf` models
  `String.prototype.indexOf`, with a contract linking its result to "is a prefix"
  (`=== 0`) and "occurs" (`> -1`, `=== -1`). The resolver's `indexOf` tests are
  justified by this contract.
- **Idle monitor** (`IdleBackground`, module `Idle` in `idle.dfy`). This is a class with
  the fields `idleState` and `idleTimer` and an effect log `effects`. The log records every
  call the monitor makes to the host idle API, the timers, storage, the notification
  service and the vault timeout service. `Init` chooses native events or polling and
  registers the screen-lock listener. `PollIdle` and `OnQueryState` are the two halves of
  `pollIdle`: the part before the asynchronous `queryState` callback and the callback
  itself. `IdleHandler`, `GetVaultTimeoutOptions` and `LockedListener` are the remaining
  closures and the private method. The decisions are pure functions (`ActivityEffect`,
  `LockDecision`). `PollOnce` is one timer round (`PollIdle`, then the callback).
  `PollRun` runs one round per reading on the monitor and proves that the notifications
  it makes are those for `HandlerArgs` of the stored state and the readings. The lemmas
  about `HandlerArgs` show that polling is edge-triggered.

Inputs standing for the host:

- the resolved `idle` object (which members it has);
- the states delivered to callbacks;
- the handles `setTimeout` returns;
- the values storage holds;
- URL host parsing, as a function parameter `parseHost` that returns `None` when
  `new URL(...)` throws.

On these points the model follows the code as written:

- `init` is not idempotent. A second call registers the listeners again.
- The glyphs are the Font Awesome class names the code assigns (`fa-globe`, ...).
- A URI that is not a website, or whose URL does not parse, leaves `image` and
  `fallbackImage` at their previous values. They are not cleared. Only a missing or
  empty URI, or an app link, sets `image` to `null`.

## Model

| member | source | states |
|---|---|---|
| `JsStrings.IndexOf` | src/popup/app/components/icon.component.ts:61-71 | `indexOf` returns the first occurrence or -1. `=== 0` holds exactly for a prefix, and `> -1` exactly when the substring occurs. |
| `JsStrings.ContainsAfterPrefix` | src/popup/app/components/icon.component.ts:67-68 | Putting `http://` in front of a URI keeps the `.` it contains. |
| `Icon.Classify` | src/popup/app/components/icon.component.ts:61-72 | `androidapp://` and `iosapp://` prefixes are app links, tested in that order. A URI is a website exactly when images are enabled, it contains `.`, and it has no `://` or starts with `http`. It is prefixed with `http://` exactly when it has no `://`. A website target always starts with `http` and contains `.`. |
| `Icon.Resolved` | src/popup/app/components/icon.component.ts:36-84 | Category to glyph: Login globe (android or apple for app links), SecureNote, Card, Identity. An unknown category changes nothing. Non-login items never touch the images. A missing URI sets `image` to null and keeps the fallback. App links set `image` to null and keep the fallback. Both URLs come from the same parsed host. A login URI that is not an app link and gives no parsed website host (not a website, or `new URL` throws) leaves `image` and `fallbackImage` exactly as they were. Without a parsed website host, and always when images are disabled, no image field gets a URL. |
| `Icon.ResolvedIdempotent` | src/popup/app/components/icon.component.ts:36-84 | Running `$onChanges` again on an unchanged item gives the same fields. |
| `Icon.IconController.constructor` | src/popup/app/components/icon.component.ts:19-34 | `iconsUrl` is the configured icons URL if truthy, else `baseUrl + '/icons'` if `baseUrl` is truthy, else `https://icons.bitwarden.com`. The fallback is `https://icons.karahanbuhan`. |
| `Icon.IconController.OnChanges` | src/popup/app/components/icon.component.ts:36-54 | The new fields equal `Resolved` of the old fields. |
| `Icon.IconController.SetLoginIcon` | src/popup/app/components/icon.component.ts:56-84 | The step-by-step `indexOf` branches and local variables yield exactly `LoginView` of the old fields. |
| `Idle.ActivityEffect` | src/background/idle.background.ts:26-32 | Exactly `'active'` reconnects. Every other state disconnects. Exactly one of the two is chosen. |
| `Idle.LockDecision` | src/background/idle.background.ts:42-46 | The listener acts only on `locked` with stored timeout exactly -2. Action `lock` gives `lock(true)`. Any other or missing action gives `logOut()`. It makes at most one call. |
| `Idle.HandlerArgs` | src/background/idle.background.ts:57-61 | The states handed to the handler over a run of poll callbacks: at most one per reading. |
| `Idle.IdleBackground.PollOnce` | src/background/idle.background.ts:52-63 | One timer round: the pending timer is cleared, the state is queried, the handler is called exactly when the reading differs from `idleState`, and one timer is scheduled. The only notification made is that handler call. |
| `Idle.IdleBackground.PollRun` | src/background/idle.background.ts:52-63 | Over any run of polls on the monitor, the notifications made are exactly `ActivityEffect` of each state in `HandlerArgs(idleState, readings)`, in order. `idleState` ends as the last reading, and the stored timer is the last round's handle. |
| `Idle.HandlerArgsSnoc` | src/background/idle.background.ts:57-61 | A further poll callback fires the handler exactly when its reading differs from the stored state. |
| `Idle.HandlerArgsEdgeTriggered` | src/background/idle.background.ts:57-61 | Over any run of readings, no state is handed to the handler twice in a row, and the first one differs from the initial state. The stored state ends as the last state handed over, or the initial one if none was. Only read states are handed over. |
| `Idle.HandlerArgsQuiet` | src/background/idle.background.ts:57-61 | Readings equal to the stored state fire nothing, so repeated `'active'` readings from the start are silent. |
| `Idle.RepeatedReadingFiresOnce` | src/background/idle.background.ts:57-61 | Reading the same state twice fires no more than reading it once. |
| `Idle.IdleBackground.constructor` | src/background/idle.background.ts:13-19 | There is no timer, the state is `'active'`, and nothing has been called. |
| `Idle.IdleBackground.Init` | src/background/idle.background.ts:21-50 | With no idle object nothing happens. Native mode is chosen exactly when `onStateChanged` and `setDetectionInterval` both exist, and it sets a 300 s interval before adding the handler. Otherwise a poll starts. The lock listener is added only when `onStateChanged` exists. A missing `queryState` rejects `init` before that. |
| `Idle.IdleBackground.IdleHandler` | src/background/idle.background.ts:26-32 | Appends exactly one notification call, `ActivityEffect` of the state. |
| `Idle.IdleBackground.PollIdle` | src/background/idle.background.ts:52-57 | A pending timer is cleared and the field emptied before `queryState(300)`. |
| `Idle.IdleBackground.OnQueryState` | src/background/idle.background.ts:57-63 | The handler runs exactly when the reading differs from `idleState`. Afterwards `idleState` is the reading, and exactly one 5000 ms timer is scheduled and stored. |
| `Idle.IdleBackground.GetVaultTimeoutOptions` | src/background/idle.background.ts:66-70 | Reads the timeout, then the action, and returns them as a pair. |
| `Idle.IdleBackground.LockedListener` | src/background/idle.background.ts:41-48 | On `locked` it makes the two reads, then exactly the `LockDecision` call. Any other state makes no call. |
| `Idle.PollSameStateTwice` | src/background/idle.background.ts:33-63 | On a poll-only host the full call log of init, a reading, a timer-driven poll and the same reading again is fixed. The handler runs at most once, and never for `'active'`. Each poll clears the pending timer before querying. Each callback schedules one timer. |

## Left out

- URL host parsing (`new URL(...).hostname`) is the WHATWG URL Standard's parser. It is the parameter `parseHost` and is not modelled.
- The lookup of `chrome.idle` / `browser.idle` is left out: the constructor receives the resolved object, or none.
- Registration with `addListener` is recorded in the effect log. The host's delivery of events to the registered listeners is not modelled: `IdleHandler` and `LockedListener` are the listener bodies, invoked directly.
- `window.setTimeout` / `clearTimeout` are recorded calls. The handle is an input, and a timer firing is a call of `PollIdle`.
- Asynchrony: the two storage reads and the decision of `LockedListener` run as one step. The model does not capture other events interleaving at its `await`s, or the `lock` / `logOut` promises. Rejections of storage or service calls are not modelled.
- Storage values are numbers or strings or absent (`Option<int>`, `Option<string>`). A value of another JavaScript type, which `===` would also reject, is not modelled.
- `faviconEnabled` is taken as a boolean. The strings from the environment service are taken as strings or nullish.
- A Login cipher is assumed to carry its `login` object. Reading `login.uri` of a missing `login` would throw, and that is not modelled.
- The AngularJS template import, `bindings`, `$inject` and the `IconComponent` definition are view wiring with no logic. `NotificationsService`, `VaultTimeoutService`, `StorageService`, the state service and `EnvironmentService` appear only as recorded calls or input values.

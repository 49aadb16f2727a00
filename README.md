# Japanese reviews key: the review-count refresh scheduler

A Stream Deck plugin shows on a key the number of reviews due on a Japanese
study site (Bunpro, Kitsun or WaniKani), and opens the site's review page
when the key is pressed. This project models the plugin side of that action
(`index.js`) and proves what it does when a key appears or its settings
change:

- the **credential gate** decides whether the key is configured at all;
- the **cache-or-fetch** decision shows the stored count if the last sync is
  under ten minutes old, and otherwise shows `'...'` and calls the site's
  adapter;
- the **first refresh** is armed so that it lands one minute past the next
  ten-minute mark;
- the **refresh interval** is re-armed every ten minutes after that.

A sync whose callback fires draws the count and then writes it back into the
key's settings with a timestamp. A sync whose adapter short-circuits, or whose
remote answer never yields a count, changes nothing.

Layout, one module per file:

- `wrappers.dfy` (`Wrappers`): `Option`, for settings fields that may be absent.
- `config.dfy` (`Config`): the settings record, the credential gate, the freshness rule, the write-back.
- `sites.dfy` (`Sites`): the site registry, each adapter's guard, and the count its callback receives.
- `timing.dfy` (`Timing`): the first-refresh arithmetic and the interval.
- `scheduler.dfy` (`Scheduler`): the whole plugin state as a value, with one transition function per
  function of the action, and the invariant `WellFormed` that every transition keeps.
- `properties.dfy` (`SchedulerProperties`): the properties of the transitions.
- `scenarios.dfy` (`Scenarios`): two concrete runs, described under "Where the code and the intended behaviour differ".
- `plugin.dfy` (`Plugin`): class `ReviewsPlugin`. It holds the module-level handle, the event loop's
  timers, the settings objects the closures share, the in-flight adapter calls and the outbound command
  log. Each method updates these in place, and each is proved to end in the state that the matching
  `Scheduler` transition gives.

Inputs and effects:

- Time is integer milliseconds, passed in as `now`.
- The current minute of the hour (`getMinutes()`) is passed in as `minute`.
- The remote service's behaviour is an input `Remote`: whether a Kitsun login is accepted, and whether
  the review query yields a count.
- Timers fire, and in-flight requests settle, when the environment calls `Fire` and `Settle`, in any
  order it chooses. A timer can only fire once it is due.
- Everything the plugin sends to the host is appended to a command log: `SetImage` for a drawn label,
  `SetSettings`, and `OpenUrl`.
- A settings object is referred to by index into `objects`. `storeLastValues` rewrites the object
  itself, as the source's `setSettings.payload = settings` does, so every closure holding it sees the
  new `lastCount`.
- A reference to an unregistered website makes the source throw a `TypeError`. The handler stops at
  that point, and the model keeps the state as it was when the exception was raised.

## Where the code and the intended behaviour differ

The model follows the code.

- **One interval handle for every key.** The intended behaviour is at most one schedule per key, and
  re-arming cancels the previous one. The code keeps one module-level `reviewIntervalTimer` and clears
  only that handle; the pending first-refresh `setTimeout` is never cancelled. Two activations of a key
  within its first-refresh window therefore arm two intervals, and the handle names only the later one.
  `Scenarios.TwoActivationsLeakAnInterval` shows this run: a third activation cancels only the later
  interval, and the earlier one keeps polling. The handle is shared across keys as well: activating or
  reconfiguring one key cancels the interval the handle names even when that interval refreshes another
  key. That key then stops refreshing unless it is activated again or has a first refresh still pending (`SchedulerProperties.ActivationCancelsAnotherKeysInterval`).
  A leaked interval keeps the settings object it was armed with, so it goes on drawing on its key and
  sends the old website and credentials back with `setSettings` after every successful sync
  (`SchedulerProperties.RunInterval`, `SchedulerProperties.SuccessfulFetch`).
- **Credentials.** The gate is the same for every site: an API key, or a username and password.
  Bunpro's adapter needs an API key. `Scenarios.SilentBunproKeepsPlaceholder` shows a Bunpro key with
  only a username and password: it draws `'...'`, arms its refreshes, and never fetches. In the same
  way a Kitsun key with only an API key passes the gate, and Kitsun's adapter, which needs a username and
  password, never fetches (`Sites.GateAdmitsSilentKitsun`).
- **Unknown site.** There is no placeholder for an unregistered site: the handler throws. When the key
  has credentials, the interval has already been cleared by then (`Scheduler.ScheduleReviews`).
- **Things the code does not have.** There is no teardown of a key's schedule, no per-site delay before
  a call, and no error classification. Failed fetches are simply never reported.

## Model

| member | source | states |
|---|---|---|
| `Config.WithLastValues` | src/com.ascend.japanesereviews.sdPlugin/index.js:131-137 | the written-back settings have `lastCount = count` and `lastDateTime = now`; website and all three credential fields are those of the input |
| `Config.HasCredentials` | src/com.ascend.japanesereviews.sdPlugin/index.js:188 | passing the gate needs an API key or both a username and password; an empty API key with no username does not pass |
| `Config.UpdatedLessThanTenMinutesAgo` | src/com.ascend.japanesereviews.sdPlugin/index.js:154-158 | false without a timestamp; with one, true iff less than 600000 ms have elapsed since it |
| `Config.IsFresh` | src/com.ascend.japanesereviews.sdPlugin/index.js:158-161 | a fresh cache has both a stored count and a timestamp less than 600000 ms old |
| `Config.FreshnessInMilliseconds` | src/com.ascend.japanesereviews.sdPlugin/index.js:154-161 | the cache is usable iff a valid timestamp exists, less than 600000 ms have elapsed (the minute comparison, taken over reals, equals this integer window), and a count is stored; a missing or invalid timestamp is stale |
| `Config.StoredValuesStayFresh` | src/com.ascend.japanesereviews.sdPlugin/index.js:128-137 | after a write-back at `t`, the settings are fresh at every instant in `[t, t + 10 min)` and stale from `t + 10 min` on |
| `Config.StoringKeepsCredentials` | src/com.ascend.japanesereviews.sdPlugin/index.js:135-137 | the write-back never changes whether the credential gate passes |
| `Sites.Lookup` | src/com.ascend.japanesereviews.sdPlugin/index.js:5-101 | a website is registered iff it is the name of one of the three sites, and the site found carries that name |
| `Sites.ReviewUrl` | src/com.ascend.japanesereviews.sdPlugin/index.js:5-101 | every review URL is an `https://` address |
| `Sites.Icon` | src/com.ascend.japanesereviews.sdPlugin/index.js:5-101 | each site's icon is its name followed by `.png` |
| `Sites.Issues` | src/com.ascend.japanesereviews.sdPlugin/index.js:9-36 | the WaniKani adapter always issues its request; Bunpro's and Kitsun's issue one only when an API key, or a username and password, are present |
| `Sites.LookupName` | src/com.ascend.japanesereviews.sdPlugin/index.js:5-101 | each site is found under its own name and under no other |
| `Sites.RegistryIsInjective` | src/com.ascend.japanesereviews.sdPlugin/index.js:5-101 | distinct sites have distinct review URLs and distinct icons |
| `Sites.Delivered` | src/com.ascend.japanesereviews.sdPlugin/index.js:24-98 | the callback receives a count exactly when the remote yields one and, for Kitsun only, the login was accepted; the count is the remote's |
| `Sites.GateAdmitsSilentBunpro` | src/com.ascend.japanesereviews.sdPlugin/index.js:9-12 | for every settings record without an API key but with a non-empty username and password, the credential gate passes, yet the Bunpro adapter issues no request |
| `Sites.GateAdmitsSilentKitsun` | src/com.ascend.japanesereviews.sdPlugin/index.js:36 | for every settings record with a non-empty API key and no username, the credential gate passes, yet the Kitsun adapter issues no request |
| `Sites.GateImpliesIssue` | src/com.ascend.japanesereviews.sdPlugin/index.js:9-36 | a non-empty API key lets the Bunpro and WaniKani adapters through; a non-empty username and password let Kitsun's through |
| `Timing.FirstTickMinutes` | src/com.ascend.japanesereviews.sdPlugin/index.js:172-173 | the delay is between 2 and 11 minutes and ends one minute past a ten-minute mark |
| `Timing.FirstTickMs` | src/com.ascend.japanesereviews.sdPlugin/index.js:172-174 | the millisecond delay is exactly `FirstTickMinutes(minute)` whole minutes, between 120000 and 660000, and ends one minute past a ten-minute mark |
| `Timing.FirstTickIsEarliest` | src/com.ascend.japanesereviews.sdPlugin/index.js:168-173 | no delay of at least 2 minutes shorter than the chosen one ends one past a ten-minute mark |
| `Scheduler.Initial` | src/com.ascend.japanesereviews.sdPlugin/index.js:1-3 | the loaded plugin has no interval handle, no timers, no requests and has sent nothing; it is well-formed |
| `Scheduler.ClearInterval` | src/com.ascend.japanesereviews.sdPlugin/index.js:152 | exactly the timer the module-level handle names is removed, every other timer is kept unchanged, and nothing else changes |
| `Scheduler.SetTimer` | src/com.ascend.japanesereviews.sdPlugin/index.js:176-184 | the new timer is stored under the next handle, which was not in use, the counter advances by one, and nothing else changes |
| `Scheduler.BuildImage` | src/com.ascend.japanesereviews.sdPlugin/index.js:208-249 | drawing a label appends exactly one `setImage` of that label for that key and changes nothing else |
| `Scheduler.Fetch` | src/com.ascend.japanesereviews.sdPlugin/index.js:145 | calling an adapter adds one in-flight request of that key and site when its guard passes, none when it short-circuits, and changes nothing else |
| `Scheduler.UpdateReviews` | src/com.ascend.japanesereviews.sdPlugin/index.js:142-149 | `updateReviews` completes iff the website is registered, and then it is the adapter call of that site |
| `Scheduler.StoreLastValues` | src/com.ascend.japanesereviews.sdPlugin/index.js:131-140 | the shared settings object is replaced by the written-back one (`WithLastValues`), exactly that payload is sent with `setSettings`, and nothing else changes |
| `Scheduler.ActivationLabel` | src/com.ascend.japanesereviews.sdPlugin/index.js:161-166 | the activation draws `'...'` iff the cache is not fresh; a drawn count is the stored one |
| `Scheduler.ScheduleReviews` | src/com.ascend.japanesereviews.sdPlugin/index.js:151-185 | keeps the state well-formed, never touches the settings objects and never reassigns the module-level handle (its effect on timers, drawing and fetching is in the `SchedulerProperties` lemmas) |
| `Scheduler.OnWillAppear` | src/com.ascend.japanesereviews.sdPlugin/index.js:187-193 | the message's settings object is added; without credentials only that and the sent commands change, and exactly `'key?'` is drawn when the site is registered, nothing otherwise |
| `Scheduler.OnKeyUp` | src/com.ascend.japanesereviews.sdPlugin/index.js:114-126 | a key press changes only the sent commands (which command is stated by `KeyPress`) |
| `Scheduler.Fire` | src/com.ascend.japanesereviews.sdPlugin/index.js:176-184 | running a due timer keeps the state well-formed and never draws or stores anything (its effect on timers and requests is in `FirstTickArmsInterval`, `IntervalTick` and `RunInterval`) |
| `Scheduler.Settle` | src/com.ascend.japanesereviews.sdPlugin/index.js:145-148 | settling a request never touches the timers, the handle or the handle counter (what it draws and stores is in `SuccessfulFetch` and `FailedFetch`) |
| `Scheduler.Route` | src/com.ascend.japanesereviews.sdPlugin/index.js:281-293 | `willAppear` and `didReceiveSettings`, and only they, go to `onWillAppear`; `keyUp`, and only it, goes to `onKeyUp` |
| `Scheduler.OnMessage` | src/com.ascend.japanesereviews.sdPlugin/index.js:274-294 | handling any message keeps the state well-formed and only ever adds settings objects, never alters the existing ones (which handler runs is in `Dispatch`) |
| `SchedulerProperties.CredentialGate` | src/com.ascend.japanesereviews.sdPlugin/index.js:187-193 | without credentials, timers, handle and requests are unchanged and exactly `'key?'` is drawn (for a registered site); with credentials, the key is scheduled; a first refresh is armed iff credentials are present and the site is registered; `'key?'` is drawn iff they are absent and the site is registered |
| `SchedulerProperties.ScheduleReviewsEffect` | src/com.ascend.japanesereviews.sdPlugin/index.js:151-185 | the module-level handle is never reassigned; an unregistered site leaves only the cleared interval; a registered one draws exactly the activation label and arms exactly one timer |
| `SchedulerProperties.StaleActivation` | src/com.ascend.japanesereviews.sdPlugin/index.js:161-163 | a stale or empty cache draws exactly `'...'` and makes exactly one adapter call, in flight unless the adapter's guard short-circuits |
| `SchedulerProperties.FreshActivation` | src/com.ascend.japanesereviews.sdPlugin/index.js:164-166 | a fresh cache draws exactly the stored count and fetches nothing |
| `SchedulerProperties.Rearming` | src/com.ascend.japanesereviews.sdPlugin/index.js:152 | the interval the handle names is cancelled before the new first refresh is armed; every other timer, including an earlier pending timeout, is kept; the new timeout, due after `FirstTickMs(minute)`, gets an unused handle |
| `SchedulerProperties.ActivationCancelsAnotherKeysInterval` | src/com.ascend.japanesereviews.sdPlugin/index.js:151-193 | an `onWillAppear` (on `willAppear` or `didReceiveSettings`) for a key with credentials and a registered site cancels the interval the module-level handle names, even one that refreshes another key |
| `SchedulerProperties.UnknownSiteStillClears` | src/com.ascend.japanesereviews.sdPlugin/index.js:152-165 | with an unregistered website the interval is cleared, and nothing is drawn, fetched or armed |
| `SchedulerProperties.FirstTickArmsInterval` | src/com.ascend.japanesereviews.sdPlugin/index.js:176-184 | the first refresh is consumed, the adapter is called, and an interval due ten minutes later is armed and stored in the handle; the previously named interval is not cleared; nothing is drawn |
| `SchedulerProperties.IntervalTick` | src/com.ascend.japanesereviews.sdPlugin/index.js:181-183 | an interval that runs stays armed under the same handle and is due ten minutes later; the handle, other timers and the sent commands are unchanged |
| `SchedulerProperties.RunInterval` | src/com.ascend.japanesereviews.sdPlugin/index.js:180-183 | running an interval `k` times on time leaves it due `k` intervals later and appends exactly `k` requests of that key and site (none when the guard short-circuits); nothing is drawn or stored |
| `SchedulerProperties.RefreshCadence` | src/com.ascend.japanesereviews.sdPlugin/index.js:168-184 | when the first refresh armed at `now` runs when due and its interval then runs `k` times on time, the interval is the one the handle names and is next due at `now + (FirstTickMinutes(minute) + 10 * (k + 1))` minutes, one minute past a ten-minute mark; the settings objects are untouched |
| `SchedulerProperties.SuccessfulFetch` | src/com.ascend.japanesereviews.sdPlugin/index.js:145-148 | the count is drawn and then `setSettings` is sent with `lastCount = count`, `lastDateTime = now` and every other field kept; the shared settings object is updated to it; timers are untouched; the cache is fresh for the next ten minutes |
| `SchedulerProperties.FailedFetch` | src/com.ascend.japanesereviews.sdPlugin/index.js:55-58 | when the callback never fires, the request only leaves the in-flight set: nothing drawn, stored or re-timed |
| `SchedulerProperties.KeyPress` | src/com.ascend.japanesereviews.sdPlugin/index.js:114-126 | a key press of a registered site sends exactly one `openUrl` with its review URL and changes nothing else; an unregistered site changes nothing |
| `SchedulerProperties.Dispatch` | src/com.ascend.japanesereviews.sdPlugin/index.js:281-293 | `willAppear` and `didReceiveSettings` run `onWillAppear`, `keyUp` runs `onKeyUp`, and any other event, or a message without settings, changes nothing |
| `SchedulerProperties.StoreKeepsWebsites` | src/com.ascend.japanesereviews.sdPlugin/index.js:135-137 | the write-back never changes any settings object's website |
| `SchedulerProperties.SitesStayKnown` | src/com.ascend.japanesereviews.sdPlugin/index.js:187-193 | after any message, every timer and in-flight request still refers to the settings of a registered site |
| `SchedulerProperties.FiringKeepsSitesKnown` | src/com.ascend.japanesereviews.sdPlugin/index.js:176-184 | running a timer keeps every timer and request on a registered site, so the timer's own `updateReviews` never throws |
| `SchedulerProperties.SettlingKeepsSitesKnown` | src/com.ascend.japanesereviews.sdPlugin/index.js:145-148 | settling a request keeps every timer and request on a registered site |
| `Scenarios.TwoActivationsLeakAnInterval` | src/com.ascend.japanesereviews.sdPlugin/index.js:3 | two activations before the first refresh arm two intervals; the handle names only the later one, and a third activation leaves the earlier one armed |
| `Scenarios.SilentBunproKeepsPlaceholder` | src/com.ascend.japanesereviews.sdPlugin/index.js:9-12 | a Bunpro key with only username and password draws `'...'`, arms its first refresh and issues no request |
| `Plugin.ReviewsPlugin.constructor` | src/com.ascend.japanesereviews.sdPlugin/index.js:1-3 | the new plugin is in the initial state |
| `Plugin.ReviewsPlugin.SetTimer` | src/com.ascend.japanesereviews.sdPlugin/index.js:176 | registers the timer in place under the returned, previously unused handle |
| `Plugin.ReviewsPlugin.BuildImageAsDataUri` | src/com.ascend.japanesereviews.sdPlugin/index.js:208-211 | completes iff the website is registered, appending the label's `setImage`; otherwise nothing changes |
| `Plugin.ReviewsPlugin.UpdateReviews` | src/com.ascend.japanesereviews.sdPlugin/index.js:142-149 | completes iff the website is registered; the in-flight requests become those of `Scheduler.UpdateReviews` |
| `Plugin.ReviewsPlugin.StoreLastValues` | src/com.ascend.japanesereviews.sdPlugin/index.js:131-140 | updates the shared settings object in place and sends it, as `Scheduler.StoreLastValues` |
| `Plugin.ReviewsPlugin.ScheduleReviews` | src/com.ascend.japanesereviews.sdPlugin/index.js:151-185 | the new plugin state is `Scheduler.ScheduleReviews` of the old one |
| `Plugin.ReviewsPlugin.OnWillAppear` | src/com.ascend.japanesereviews.sdPlugin/index.js:187-193 | the new plugin state is `Scheduler.OnWillAppear` of the old one |
| `Plugin.ReviewsPlugin.OnKeyUp` | src/com.ascend.japanesereviews.sdPlugin/index.js:114-126 | only the command log may change, as `Scheduler.OnKeyUp` says |
| `Plugin.ReviewsPlugin.Fire` | src/com.ascend.japanesereviews.sdPlugin/index.js:176-184 | the new plugin state is `Scheduler.Fire` of the old one |
| `Plugin.ReviewsPlugin.Settle` | src/com.ascend.japanesereviews.sdPlugin/index.js:145-148 | the new plugin state is `Scheduler.Settle` of the old one |
| `Plugin.ReviewsPlugin.OnMessage` | src/com.ascend.japanesereviews.sdPlugin/index.js:274-294 | the new plugin state is `Scheduler.OnMessage` of the old one |

## Left out

- WebSocket plumbing (index.js:252-279): opening the socket, registering the plugin, and JSON
  serialisation and parsing are transport. Each sent frame is one entry of the command log, and each
  received message is an already-parsed `Message`.
- The HTTP requests of the adapters (index.js:14-26, 38-72, 84-98): URLs, headers, methods and the
  response-body field paths belong to the remote services. An adapter is reduced to its guard (`Issues`)
  and to whether its callback fires with a count (`Delivered`).
- A response whose count field is missing makes the source's callback fire with `undefined`. The
  icon's `onload` then throws at `text.toString()` (index.js:222), so nothing is drawn, while
  `storeLastValues` still stamps `lastDateTime` and sends settings from which serialisation drops
  `lastCount`, erasing the stored count. The model's `Remote` either yields a count or yields nothing,
  so this path is not modelled.
- Canvas rendering (index.js:195-249): the icon, blur, font, geometry and data URI are not modelled.
  Drawing is one `SetImage(context, label)` entry, logged when `buildImageAsDataUri` is called. In the
  source the icon loads asynchronously, so in a sync callback the `setSettings` frame actually reaches
  the host before the `setImage` frame. An icon that fails to load sends nothing.
- `Date` and ISO-8601 (index.js:137, 154, 173): a timestamp is integer milliseconds, and `None` stands
  for a missing or unparseable one. `toISOString` keeps millisecond precision, so the write-back and a
  later parse agree. The minute of the hour is an independent input, because `getMinutes()` depends on
  the local time zone.
- Config.ElapsedMinutes: the source divides the millisecond difference in IEEE double precision; the
  model divides exactly over reals. No behaviour is lost: the difference is an integer, 600000 / 1000 / 60
  is exactly 10, rounding is monotone, and 599999 / 1000 / 60 rounds to a double well below 10, so the
  double comparison and the real one agree on every integer difference.
- Event-loop timing: when a due timer runs, and in which order requests settle, is chosen by the
  environment. The model requires only that a timer runs after it is due. An interval is next due ten
  minutes after it actually ran.
- `Scheduler.SetTimer`: handles come from one increasing counter shared by `setTimeout` and
  `setInterval`. The exact numbering of a host's timer ids is not modelled.
- Lookups of keys inherited from `Object.prototype` (a website named `toString`, say) are treated as
  unregistered sites.
- Settings values that are not strings or numbers are not modelled. `lastCount` is a natural number,
  and the credentials are optional strings.
- Scheduler.ScheduleReviews: its own contract gives only its frame (settings objects and handle); which timer it arms, what it draws and what it fetches are stated by `ScheduleReviewsEffect`, `Rearming`, `StaleActivation`, `FreshActivation` and `UnknownSiteStillClears`.
- Scheduler.OnKeyUp: its own contract gives only its frame (the sent commands); the command it sends is stated by `KeyPress`.
- Scheduler.Fire: its own contract gives only its frame (nothing drawn or stored); its effect on timers and requests is stated by `FirstTickArmsInterval`, `IntervalTick`, `RunInterval` and `RefreshCadence`.
- Scheduler.Settle: its own contract gives only its frame (timers and handles untouched); what it draws and stores is stated by `SuccessfulFetch` and `FailedFetch`.
- Scheduler.OnMessage: its own contract gives only that existing settings objects are kept; which handler runs is stated by `Dispatch`.
- `propertyinspector.js`: the settings form (field placeholders, reading and writing inputs, and its
  own socket) has no scheduling logic.

/**
 * The plugin's review-count scheduler as a state machine over the whole
 * plugin state: the single module-level interval handle, the pending timers
 * of the event loop, the settings objects that the timer closures hold on
 * to, the adapter requests still in flight and the commands sent to the host.
 * There is one transition function per function of the action; the class in
 * module Plugin performs the same steps in place and is proved equal to them.
 */
module Scheduler {
  import opened Wrappers
  import opened Config
  import opened Sites
  import opened Timing

  datatype TimerKind = Timeout | Interval

  /**
   * A registered timer: a one-shot `setTimeout` (the first refresh) or a
   * `setInterval` (every ten minutes after it). `obj` names the settings
   * object the callback closes over; `due` is when it is next run.
   */
  datatype Timer = Timer(kind: TimerKind, context: string, obj: nat, due: int)

  /** An adapter call whose network requests have not yet settled. */
  datatype Request = Request(context: string, obj: nat, site: Site)

  /** The text drawn over the site icon. */
  datatype Label = Text(text: string) | Count(count: nat)

  const PendingLabel: Label := Text("...")
  const NoKeyLabel: Label := Text("key?")

  /** A frame sent to the host over the WebSocket. */
  datatype Command =
    | SetImage(context: string, shown: Label)
    | SetSettings(context: string, payload: Settings)
    | OpenUrl(url: string)

  datatype State = State(
    intervalTimer: Option<nat>,
    timers: map<nat, Timer>,
    nextHandle: nat,
    objects: seq<Settings>,
    requests: seq<Request>,
    sent: seq<Command>)

  /**
   * Handles are issued in increasing order, the stored interval handle is
   * one that was issued, and every reference to a settings object is valid.
   */
  ghost predicate WellFormed(st: State) {
    && (st.intervalTimer.Some? ==> st.intervalTimer.value < st.nextHandle)
    && (forall h :: h in st.timers ==> h < st.nextHandle && st.timers[h].obj < |st.objects|)
    && (forall r :: r in st.requests ==> r.obj < |st.objects|)
  }

  /** The plugin as loaded: `reviewIntervalTimer = null`, nothing scheduled. */
  function Initial(): (st: State)
    ensures WellFormed(st)
    ensures st.intervalTimer.None? && st.timers == map[] && st.requests == [] && st.sent == []
  {
    State(None, map[], 1, [], [], [])
  }

  /** `if (reviewIntervalTimer != null) clearInterval(reviewIntervalTimer)` */
  function ClearInterval(st: State): (r: State)
    requires WellFormed(st)
    ensures WellFormed(r)
    ensures r == st.(timers := r.timers)
    ensures forall h :: h in r.timers <==> h in st.timers && st.intervalTimer != Some(h)
    ensures forall h :: h in r.timers ==> r.timers[h] == st.timers[h]
  {
    match st.intervalTimer
    case None => st
    case Some(h) => st.(timers := st.timers - {h})
  }

  /** `setTimeout` / `setInterval`: register `t` under the next free handle. */
  function SetTimer(st: State, t: Timer): (r: State)
    requires WellFormed(st) && t.obj < |st.objects|
    ensures WellFormed(r)
    ensures st.nextHandle !in st.timers
    ensures r.timers == st.timers[st.nextHandle := t] && r.nextHandle == st.nextHandle + 1
    ensures r == st.(timers := r.timers, nextHandle := r.nextHandle)
  {
    st.(timers := st.timers[st.nextHandle := t], nextHandle := st.nextHandle + 1)
  }

  /**
   * `buildImageAsDataUri` once the site is known: the rendered label is sent
   * as a `setImage` for the key.
   */
  function BuildImage(st: State, context: string, shown: Label): (r: State)
    requires WellFormed(st)
    ensures WellFormed(r)
    ensures r == st.(sent := r.sent)
    ensures r.sent == st.sent + [SetImage(context, shown)]
  {
    st.(sent := st.sent + [SetImage(context, shown)])
  }

  /**
   * `site.getReviewValue(settings, callback)` for a known site: a request is
   * in flight afterwards exactly when the adapter's guard lets it through.
   */
  function Fetch(st: State, context: string, obj: nat, site: Site): (r: State)
    requires WellFormed(st) && obj < |st.objects|
    ensures WellFormed(r)
    ensures r == st.(requests := r.requests)
    ensures r.requests == st.requests + if Issues(site, st.objects[obj]) then [Request(context, obj, site)] else []
  {
    if Issues(site, st.objects[obj]) then st.(requests := st.requests + [Request(context, obj, site)]) else st
  }

  /**
   * `updateReviews`: `None` when the website is not registered, where
   * `site.getReviewValue` throws before anything happens.
   */
  function UpdateReviews(st: State, context: string, obj: nat): (r: Option<State>)
    requires WellFormed(st) && obj < |st.objects|
    ensures r.Some? <==> Lookup(st.objects[obj].website).Some?
    ensures r.Some? ==> r.value == Fetch(st, context, obj, Lookup(st.objects[obj].website).value)
  {
    match Lookup(st.objects[obj].website)
    case None => None
    case Some(site) => Some(Fetch(st, context, obj, site))
  }

  /**
   * `storeLastValues`: the settings object itself receives the count and the
   * sync instant, and the whole object is sent as the `setSettings` payload.
   */
  function StoreLastValues(st: State, context: string, obj: nat, count: nat, now: int): (r: State)
    requires WellFormed(st) && obj < |st.objects|
    ensures WellFormed(r)
    ensures r == st.(objects := r.objects, sent := r.sent)
    ensures r.objects == st.objects[obj := WithLastValues(st.objects[obj], count, now)]
    ensures r.sent == st.sent + [SetSettings(context, WithLastValues(st.objects[obj], count, now))]
  {
    var updated := WithLastValues(st.objects[obj], count, now);
    st.(objects := st.objects[obj := updated], sent := st.sent + [SetSettings(context, updated)])
  }

  /** What an activation draws: the cached count when fresh, `'...'` otherwise. */
  function ActivationLabel(s: Settings, now: int): (r: Label)
    ensures r == PendingLabel <==> !IsFresh(s, now)
    ensures r.Count? ==> s.lastCount == Some(r.count)
  {
    if IsFresh(s, now) then Count(s.lastCount.value) else PendingLabel
  }

  /**
   * `scheduleReviews`. The interval is cleared first; an unregistered website
   * then throws in `buildImageAsDataUri`, so nothing else happens. Otherwise
   * the label is drawn, a stale cache triggers an immediate fetch, and the
   * first refresh is armed.
   */
  function ScheduleReviews(st: State, context: string, obj: nat, now: int, minute: nat): (r: State)
    requires WellFormed(st) && obj < |st.objects|
    ensures WellFormed(r)
    ensures r.objects == st.objects && r.intervalTimer == st.intervalTimer
  {
    var cleared := ClearInterval(st);
    var s := cleared.objects[obj];
    match Lookup(s.website)
    case None => cleared
    case Some(site) =>
      var drawn := BuildImage(cleared, context, ActivationLabel(s, now));
      var fetched := if IsFresh(s, now) then drawn else Fetch(drawn, context, obj, site);
      SetTimer(fetched, Timer(Timeout, context, obj, now + FirstTickMs(minute)))
  }

  /**
   * `onWillAppear` with the settings object `s` of the message: schedule
   * when the key is configured, otherwise draw `'key?'`.
   */
  function OnWillAppear(st: State, context: string, s: Settings, now: int, minute: nat): (r: State)
    requires WellFormed(st)
    ensures WellFormed(r)
    ensures r.objects == st.objects + [s]
    ensures !HasCredentials(s) ==>
      && r == st.(objects := r.objects, sent := r.sent)
      && r.sent == st.sent + if Lookup(s.website).Some? then [SetImage(context, NoKeyLabel)] else []
  {
    var st1 := st.(objects := st.objects + [s]);
    if HasCredentials(s) then
      ScheduleReviews(st1, context, |st.objects|, now, minute)
    else if Lookup(s.website).Some? then
      BuildImage(st1, context, NoKeyLabel)
    else
      st1
  }

  /** `onKeyUp`: open the site's review page; an unknown site throws. */
  function OnKeyUp(st: State, s: Settings): (r: State)
    requires WellFormed(st)
    ensures WellFormed(r)
    ensures r == st.(sent := r.sent)
  {
    match Lookup(s.website)
    case None => st
    case Some(site) => st.(sent := st.sent + [OpenUrl(ReviewUrl(site))])
  }

  /**
   * The event loop runs the callback of timer `h` at instant `now`. The
   * first-refresh timeout is consumed, fetches, and then arms the interval
   * and stores its handle (an exception in `updateReviews` would skip that);
   * an interval stays registered and is next due ten minutes later.
   */
  function Fire(st: State, h: nat, now: int): (r: State)
    requires WellFormed(st) && h in st.timers && st.timers[h].due <= now
    ensures WellFormed(r)
    ensures r.sent == st.sent && r.objects == st.objects
  {
    var t := st.timers[h];
    match t.kind
    case Timeout =>
      var st1 := st.(timers := st.timers - {h});
      (match UpdateReviews(st1, t.context, t.obj)
       case None => st1
       case Some(st2) =>
         SetTimer(st2, Timer(Interval, t.context, t.obj, now + IntervalMs)).(intervalTimer := Some(st2.nextHandle)))
    case Interval =>
      var st1 := st.(timers := st.timers[h := t.(due := now + IntervalMs)]);
      match UpdateReviews(st1, t.context, t.obj)
      case None => st1
      case Some(st2) => st2
  }

  /**
   * In-flight request `i` settles at instant `now`. If the adapter's callback
   * fires with a count, the count is drawn and then stored.
   */
  function Settle(st: State, i: nat, remote: Remote, now: int): (r: State)
    requires WellFormed(st) && i < |st.requests|
    ensures WellFormed(r)
    ensures r.timers == st.timers && r.intervalTimer == st.intervalTimer && r.nextHandle == st.nextHandle
  {
    var req := st.requests[i];
    var st1 := st.(requests := st.requests[..i] + st.requests[i + 1..]);
    assert forall q :: q in st1.requests ==> q in st.requests;
    match Delivered(req.site, remote)
    case None => st1
    case Some(count) =>
      if Lookup(st1.objects[req.obj].website).None? then st1
      else StoreLastValues(BuildImage(st1, req.context, Count(count)), req.context, req.obj, count, now)
  }

  /** The handler `onmessage` invokes for an event name. */
  datatype Handler = KeyUpHandler | WillAppearHandler | NoHandler

  function Route(event: string): (r: Handler)
    ensures r == WillAppearHandler <==> event == "willAppear" || event == "didReceiveSettings"
    ensures r == KeyUpHandler <==> event == "keyUp"
  {
    if event == "keyUp" then KeyUpHandler
    else if event == "willAppear" then WillAppearHandler
    else if event == "didReceiveSettings" then WillAppearHandler
    else NoHandler
  }

  /** A parsed message from the host; `settings` is `payload.settings`. */
  datatype Message = Message(event: string, context: string, settings: Option<Settings>)

  /**
   * `onmessage`: dispatch on the event name. A handler reached without
   * settings throws on its first member access and changes nothing.
   */
  function OnMessage(st: State, m: Message, now: int, minute: nat): (r: State)
    requires WellFormed(st)
    ensures WellFormed(r)
    ensures |st.objects| <= |r.objects| && r.objects[..|st.objects|] == st.objects
  {
    match Route(m.event)
    case NoHandler => st
    case KeyUpHandler =>
      if m.settings.None? then st else OnKeyUp(st, m.settings.value)
    case WillAppearHandler =>
      if m.settings.None? then st else OnWillAppear(st, m.context, m.settings.value, now, minute)
  }
}

/**
 * What the scheduler promises, stated over its transition functions: the
 * credential gate, the cache-or-fetch decision, re-arming, the ten-minute
 * cadence, the effect of a settled fetch, the key press and the dispatch.
 */
module SchedulerProperties {
  import opened Wrappers
  import opened Config
  import opened Sites
  import opened Timing
  import opened Scheduler

  /**
   * An unconfigured key draws `'key?'` (when its site is registered) and
   * touches neither timers nor requests; a configured key is scheduled.
   * A first refresh is armed, and `'key?'` drawn, each in exactly one case.
   */
  lemma CredentialGate(st: State, context: string, s: Settings, now: int, minute: nat)
    requires WellFormed(st)
    ensures var r := OnWillAppear(st, context, s, now, minute);
      !HasCredentials(s) ==>
        && r.timers == st.timers && r.intervalTimer == st.intervalTimer
        && r.nextHandle == st.nextHandle && r.requests == st.requests
        && r.sent == st.sent + if Lookup(s.website).Some? then [SetImage(context, NoKeyLabel)] else []
    ensures var r := OnWillAppear(st, context, s, now, minute);
      HasCredentials(s) ==>
        r == ScheduleReviews(st.(objects := st.objects + [s]), context, |st.objects|, now, minute)
    ensures var r := OnWillAppear(st, context, s, now, minute);
      r.nextHandle == st.nextHandle + 1 <==> HasCredentials(s) && Lookup(s.website).Some?
    ensures var r := OnWillAppear(st, context, s, now, minute);
      r.sent == st.sent + [SetImage(context, NoKeyLabel)] <==> !HasCredentials(s) && Lookup(s.website).Some?
  {
    var st1 := st.(objects := st.objects + [s]);
    if HasCredentials(s) {
      ScheduleReviewsEffect(st1, context, |st.objects|, now, minute);
      var r := ScheduleReviews(st1, context, |st.objects|, now, minute);
      if Lookup(s.website).Some? {
        assert r.sent[|st.sent|] == SetImage(context, ActivationLabel(s, now));
      }
    }
  }

  /**
   * The visible effect of `scheduleReviews` on an object `obj`: the stored
   * interval handle is never reassigned; an unregistered site leaves only
   * the cleared interval; a registered one draws exactly one label and arms
   * exactly one new timer.
   */
  lemma ScheduleReviewsEffect(st: State, context: string, obj: nat, now: int, minute: nat)
    requires WellFormed(st) && obj < |st.objects|
    ensures var r := ScheduleReviews(st, context, obj, now, minute);
      r.intervalTimer == st.intervalTimer && r.objects == st.objects
    ensures var r := ScheduleReviews(st, context, obj, now, minute);
      Lookup(st.objects[obj].website).None? ==> r == ClearInterval(st)
    ensures var r := ScheduleReviews(st, context, obj, now, minute);
      Lookup(st.objects[obj].website).Some? ==>
        && r.sent == st.sent + [SetImage(context, ActivationLabel(st.objects[obj], now))]
        && r.nextHandle == st.nextHandle + 1
  {
  }

  /**
   * A stale or empty cache: `'...'` is drawn and exactly one adapter call
   * is made, which is in flight afterwards unless its guard short-circuits.
   */
  lemma StaleActivation(st: State, context: string, obj: nat, now: int, minute: nat)
    requires WellFormed(st) && obj < |st.objects|
    requires Lookup(st.objects[obj].website).Some? && !IsFresh(st.objects[obj], now)
    ensures var r := ScheduleReviews(st, context, obj, now, minute);
      var site := Lookup(st.objects[obj].website).value;
      && r.sent == st.sent + [SetImage(context, PendingLabel)]
      && r.requests == st.requests + if Issues(site, st.objects[obj]) then [Request(context, obj, site)] else []
  {
  }

  /** A fresh cache: the stored count is drawn and nothing is fetched. */
  lemma FreshActivation(st: State, context: string, obj: nat, now: int, minute: nat)
    requires WellFormed(st) && obj < |st.objects|
    requires Lookup(st.objects[obj].website).Some? && IsFresh(st.objects[obj], now)
    ensures var r := ScheduleReviews(st, context, obj, now, minute);
      && r.sent == st.sent + [SetImage(context, Count(st.objects[obj].lastCount.value))]
      && r.requests == st.requests
  {
  }

  /**
   * Re-arming: the interval the module-level handle names is cancelled
   * before anything is armed, every other timer is kept (including a first
   * refresh still pending from an earlier activation), and one new first
   * refresh, due `FirstTickMs(minute)` from now, is added under a handle
   * not in use.
   */
  lemma Rearming(st: State, context: string, obj: nat, now: int, minute: nat)
    requires WellFormed(st) && obj < |st.objects|
    requires Lookup(st.objects[obj].website).Some?
    ensures var r := ScheduleReviews(st, context, obj, now, minute);
      && st.nextHandle !in st.timers
      && r.timers == ClearInterval(st).timers[st.nextHandle := Timer(Timeout, context, obj, now + FirstTickMs(minute))]
      && (forall h :: st.intervalTimer == Some(h) ==> h !in r.timers)
      && (forall h :: h in st.timers && st.intervalTimer != Some(h) ==> h in r.timers && r.timers[h] == st.timers[h])
  {
  }

  /**
   * The handle is shared by every key: a message that activates or
   * reconfigures one key cancels the interval the handle names, even when
   * that interval refreshes another key.
   */
  lemma ActivationCancelsAnotherKeysInterval(st: State, context: string, s: Settings, now: int, minute: nat, h: nat)
    requires WellFormed(st) && HasCredentials(s) && Lookup(s.website).Some?
    requires st.intervalTimer == Some(h) && h in st.timers && st.timers[h].context != context
    ensures h !in OnWillAppear(st, context, s, now, minute).timers
  {
    CredentialGate(st, context, s, now, minute);
    var added := st.(objects := st.objects + [s]);
    Rearming(added, context, |st.objects|, now, minute);
  }

  /** Even when the activation throws on an unknown site, the interval is gone. */
  lemma UnknownSiteStillClears(st: State, context: string, obj: nat, now: int, minute: nat)
    requires WellFormed(st) && obj < |st.objects|
    requires Lookup(st.objects[obj].website).None?
    ensures var r := ScheduleReviews(st, context, obj, now, minute);
      && r.sent == st.sent && r.requests == st.requests
      && (forall h :: h in r.timers <==> h in st.timers && st.intervalTimer != Some(h))
  {
  }

  /**
   * The first refresh fires: it is consumed, the adapter is called, and a
   * ten-minute interval is armed and becomes the module-level handle. The
   * interval the handle named before is not cleared.
   */
  lemma FirstTickArmsInterval(st: State, h: nat, now: int)
    requires WellFormed(st) && h in st.timers && st.timers[h].due <= now
    requires st.timers[h].kind == Timeout && Lookup(st.objects[st.timers[h].obj].website).Some?
    ensures var t := st.timers[h]; var r := Fire(st, h, now);
      && h !in r.timers
      && r.intervalTimer == Some(st.nextHandle)
      && st.nextHandle in r.timers && r.timers[st.nextHandle] == Timer(Interval, t.context, t.obj, now + IntervalMs)
      && (forall g :: g in st.timers && g != h ==> g in r.timers && r.timers[g] == st.timers[g])
      && r.sent == st.sent && r.objects == st.objects
      && r.requests == Fetch(st, t.context, t.obj, Lookup(st.objects[t.obj].website).value).requests
  {
  }

  /** An interval fires: it stays armed under its handle and is due again in ten minutes. */
  lemma IntervalTick(st: State, h: nat, now: int)
    requires WellFormed(st) && h in st.timers && st.timers[h].due <= now
    requires st.timers[h].kind == Interval
    ensures var r := Fire(st, h, now);
      && h in r.timers && r.timers[h] == st.timers[h].(due := now + IntervalMs)
      && r.intervalTimer == st.intervalTimer && r.nextHandle == st.nextHandle
      && r.sent == st.sent && r.objects == st.objects
      && (forall g :: g in st.timers && g != h ==> g in r.timers && r.timers[g] == st.timers[g])
  {
  }

  /**
   * Interval `h` run `k` times, each time exactly when it is due.
   * Afterwards it is due `k` intervals later than before, nothing was drawn
   * or stored, and one request per run is in flight when the adapter's guard
   * passes (none when it short-circuits).
   */
  function RunInterval(st: State, h: nat, k: nat): (r: State)
    requires WellFormed(st) && h in st.timers && st.timers[h].kind == Interval
    requires Lookup(st.objects[st.timers[h].obj].website).Some?
    ensures WellFormed(r) && h in r.timers
    ensures r.timers[h] == st.timers[h].(due := st.timers[h].due + k * IntervalMs)
    ensures r.sent == st.sent && r.objects == st.objects && r.intervalTimer == st.intervalTimer
    ensures |st.requests| <= |r.requests| && r.requests[..|st.requests|] == st.requests
    ensures var t := st.timers[h]; var site := Lookup(st.objects[t.obj].website).value;
      |r.requests| == |st.requests| + if Issues(site, st.objects[t.obj]) then k else 0
    ensures var t := st.timers[h]; var site := Lookup(st.objects[t.obj].website).value;
      forall j :: |st.requests| <= j < |r.requests| ==> r.requests[j] == Request(t.context, t.obj, site)
    decreases k
  {
    if k == 0 then st
    else
      var next := Fire(st, h, st.timers[h].due);
      IntervalTick(st, h, st.timers[h].due);
      RunInterval(next, h, k - 1)
  }

  /**
   * The refresh cadence of one activation of a registered site at instant
   * `now` and minute `minute`. The first refresh fires when due and arms the
   * interval, which the handle then names. After that interval has run `k`
   * more times on time, it is next due at
   * `FirstTickMinutes(minute) + 10 * (k + 1)` minutes after the activation,
   * one minute past a ten-minute mark.
   */
  lemma RefreshCadence(st: State, context: string, obj: nat, now: int, minute: nat, k: nat)
    returns (armed: State, ticked: State, later: State)
    requires WellFormed(st) && obj < |st.objects| && Lookup(st.objects[obj].website).Some?
    ensures armed == ScheduleReviews(st, context, obj, now, minute) && WellFormed(armed)
    ensures st.nextHandle in armed.timers
    ensures armed.timers[st.nextHandle] == Timer(Timeout, context, obj, now + FirstTickMs(minute))
    ensures ticked == Fire(armed, st.nextHandle, now + FirstTickMs(minute)) && WellFormed(ticked)
    ensures armed.nextHandle in ticked.timers && ticked.objects == st.objects
    ensures ticked.timers[armed.nextHandle] == Timer(Interval, context, obj, now + FirstTickMs(minute) + IntervalMs)
    ensures later == RunInterval(ticked, armed.nextHandle, k)
    ensures later.intervalTimer == Some(armed.nextHandle)
    ensures later.timers[armed.nextHandle].due == now + (FirstTickMinutes(minute) + 10 * (k + 1)) * MinuteMs
    ensures (minute + FirstTickMinutes(minute) + 10 * (k + 1)) % 10 == 1
  {
    var due := now + FirstTickMs(minute);
    Rearming(st, context, obj, now, minute);
    ScheduleReviewsEffect(st, context, obj, now, minute);
    armed := ScheduleReviews(st, context, obj, now, minute);
    assert armed.objects == st.objects && armed.nextHandle == st.nextHandle + 1;
    assert armed.timers[st.nextHandle] == Timer(Timeout, context, obj, due);
    FirstTickArmsInterval(armed, st.nextHandle, due);
    ticked := Fire(armed, st.nextHandle, due);
    assert ticked.intervalTimer == Some(armed.nextHandle);
    later := RunInterval(ticked, armed.nextHandle, k);
    assert later.timers[armed.nextHandle].due == due + IntervalMs + k * IntervalMs;
    CadenceArithmetic(minute, k);
  }

  /**
   * A settled request whose callback fires: the count is drawn first, then
   * the settings object, with `lastCount` and `lastDateTime` replaced and
   * every other field kept, is written back and sent; the cache it leaves
   * is fresh for the next ten minutes. Timers are not touched.
   */
  lemma SuccessfulFetch(st: State, i: nat, remote: Remote, now: int)
    requires WellFormed(st) && i < |st.requests|
    requires Delivered(st.requests[i].site, remote).Some?
    requires Lookup(st.objects[st.requests[i].obj].website).Some?
    ensures var q := st.requests[i]; var count := Delivered(q.site, remote).value;
      var stored := WithLastValues(st.objects[q.obj], count, now);
      var r := Settle(st, i, remote, now);
      && r.sent == st.sent + [SetImage(q.context, Count(count)), SetSettings(q.context, stored)]
      && r.objects == st.objects[q.obj := stored]
      && stored == st.objects[q.obj].(lastCount := Some(count), lastDateTime := Some(now))
      && r.requests == st.requests[..i] + st.requests[i + 1..]
      && r.timers == st.timers && r.intervalTimer == st.intervalTimer
      && (forall later :: now <= later < now + FreshnessWindowMs ==> IsFresh(r.objects[q.obj], later))
  {
    var q := st.requests[i];
    var count := Delivered(q.site, remote).value;
    forall later | now <= later < now + FreshnessWindowMs
      ensures IsFresh(Settle(st, i, remote, now).objects[q.obj], later)
    {
      StoredValuesStayFresh(st.objects[q.obj], count, now, later);
    }
  }

  /**
   * A request whose callback never fires (no count, or a rejected Kitsun
   * login) only leaves the in-flight set: nothing is drawn or stored.
   */
  lemma FailedFetch(st: State, i: nat, remote: Remote, now: int)
    requires WellFormed(st) && i < |st.requests|
    requires Delivered(st.requests[i].site, remote).None?
    ensures Settle(st, i, remote, now) == st.(requests := st.requests[..i] + st.requests[i + 1..])
  {
  }

  /**
   * A key press sends exactly one `openUrl` for the review page of the site
   * the settings name, and changes nothing else; an unknown site sends nothing.
   */
  lemma KeyPress(st: State, s: Settings, site: Site)
    requires WellFormed(st)
    ensures s.website == Name(site) ==> OnKeyUp(st, s) == st.(sent := st.sent + [OpenUrl(ReviewUrl(site))])
    ensures Lookup(s.website).None? ==> OnKeyUp(st, s) == st
  {
  }

  /**
   * `willAppear` and `didReceiveSettings` both activate, `keyUp` opens the
   * review page, and every other event, or a message without settings,
   * leaves the state as it was.
   */
  lemma Dispatch(st: State, m: Message, now: int, minute: nat)
    requires WellFormed(st)
    ensures m.settings.Some? && (m.event == "willAppear" || m.event == "didReceiveSettings") ==>
      OnMessage(st, m, now, minute) == OnWillAppear(st, m.context, m.settings.value, now, minute)
    ensures m.settings.Some? && m.event == "keyUp" ==>
      OnMessage(st, m, now, minute) == OnKeyUp(st, m.settings.value)
    ensures m.settings.None? || (m.event != "keyUp" && m.event != "willAppear" && m.event != "didReceiveSettings") ==>
      OnMessage(st, m, now, minute) == st
  {
  }

  /** Every timer and in-flight request refers to a settings object of a registered site. */
  ghost predicate SitesKnown(st: State)
    requires WellFormed(st)
  {
    && (forall h :: h in st.timers ==> Lookup(st.objects[st.timers[h].obj].website).Some?)
    && (forall q :: q in st.requests ==> Lookup(st.objects[q.obj].website) == Some(q.site))
  }

  /** Write-backs never change a settings object's website. */
  lemma StoreKeepsWebsites(st: State, context: string, obj: nat, count: nat, now: int)
    requires WellFormed(st) && obj < |st.objects|
    ensures var r := StoreLastValues(st, context, obj, count, now);
      forall j :: 0 <= j < |st.objects| ==> r.objects[j].website == st.objects[j].website
  {
  }

  /**
   * Timers and requests are only ever created for a registered site, so a
   * timer's `updateReviews` and a callback's `buildImageAsDataUri` never
   * throw: every message, timer and settlement keeps `SitesKnown`.
   */
  lemma SitesStayKnown(st: State, m: Message, now: int, minute: nat)
    requires WellFormed(st) && SitesKnown(st)
    ensures SitesKnown(OnMessage(st, m, now, minute))
  {
    if Route(m.event) == WillAppearHandler && m.settings.Some? {
      var s := m.settings.value;
      var st1 := st.(objects := st.objects + [s]);
      assert SitesKnown(st1) by {
        forall q | q in st1.requests ensures Lookup(st1.objects[q.obj].website) == Some(q.site) {
          assert st1.objects[q.obj] == st.objects[q.obj];
        }
        forall h | h in st1.timers ensures Lookup(st1.objects[st1.timers[h].obj].website).Some? {
          assert st1.objects[st1.timers[h].obj] == st.objects[st.timers[h].obj];
        }
      }
      if HasCredentials(s) {
        SchedulingKeepsSitesKnown(st1, m.context, |st.objects|, now, minute);
      }
      assert OnMessage(st, m, now, minute) == OnWillAppear(st, m.context, s, now, minute);
    } else if Route(m.event) == KeyUpHandler && m.settings.Some? {
      assert OnMessage(st, m, now, minute) == OnKeyUp(st, m.settings.value);
    }
  }

  /** `scheduleReviews` only arms a timer, or fetches, after the site was found. */
  lemma SchedulingKeepsSitesKnown(st: State, context: string, obj: nat, now: int, minute: nat)
    requires WellFormed(st) && SitesKnown(st) && obj < |st.objects|
    ensures SitesKnown(ScheduleReviews(st, context, obj, now, minute))
  {
  }

  lemma FiringKeepsSitesKnown(st: State, h: nat, now: int)
    requires WellFormed(st) && SitesKnown(st) && h in st.timers && st.timers[h].due <= now
    ensures SitesKnown(Fire(st, h, now))
  {
  }

  lemma SettlingKeepsSitesKnown(st: State, i: nat, remote: Remote, now: int)
    requires WellFormed(st) && SitesKnown(st) && i < |st.requests|
    ensures SitesKnown(Settle(st, i, remote, now))
  {
    var q := st.requests[i];
    var st1 := st.(requests := st.requests[..i] + st.requests[i + 1..]);
    assert forall p :: p in st1.requests ==> p in st.requests;
    if Delivered(q.site, remote).Some? && Lookup(st1.objects[q.obj].website).Some? {
      StoreKeepsWebsites(BuildImage(st1, q.context, Count(Delivered(q.site, remote).value)),
        q.context, q.obj, Delivered(q.site, remote).value, now);
    }
  }
}

/**
 * The action as the plugin runs it: module-level timer handle, event-loop
 * timers, the settings objects its closures share, in-flight adapter calls
 * and the outbound command stream, all updated in place. Each method performs
 * the steps of the function of the same name in the action and is proved to
 * leave the plugin in the state the matching transition of module Scheduler
 * describes.
 */
module Plugin {
  import opened Wrappers
  import opened Config
  import opened Sites
  import opened Timing
  import opened Scheduler

  class ReviewsPlugin {
    /** `reviewIntervalTimer`: one handle for every key. */
    var reviewIntervalTimer: Option<nat>
    /** Timers registered with the event loop, by handle. */
    var timers: map<nat, Timer>
    var nextHandle: nat
    /** Settings objects, shared by reference between a message's closures. */
    var objects: seq<Settings>
    /** Adapter calls whose requests have not settled. */
    var requests: seq<Request>
    /** Every frame sent over the WebSocket, in order. */
    var sent: seq<Command>

    function Snapshot(): State
      reads this
    {
      State(reviewIntervalTimer, timers, nextHandle, objects, requests, sent)
    }

    ghost predicate Valid()
      reads this
    {
      WellFormed(Snapshot())
    }

    constructor ()
      ensures Valid() && Snapshot() == Initial()
    {
      reviewIntervalTimer := None;
      timers := map[];
      nextHandle := 1;
      objects := [];
      requests := [];
      sent := [];
    }

    /** `setTimeout` / `setInterval`: returns the new timer's handle. */
    method SetTimer(t: Timer) returns (handle: nat)
      requires Valid() && t.obj < |objects|
      modifies this`timers, this`nextHandle
      ensures Valid() && Snapshot() == Scheduler.SetTimer(old(Snapshot()), t)
      ensures handle == old(nextHandle)
    {
      handle := nextHandle;
      timers := timers[handle := t];
      nextHandle := nextHandle + 1;
    }

    /**
     * `buildImageAsDataUri`: `ok` is false when the website is not
     * registered, where reading the site's icon throws.
     */
    method BuildImageAsDataUri(context: string, s: Settings, shown: Label) returns (ok: bool)
      requires Valid()
      modifies this`sent
      ensures Valid()
      ensures ok <==> Lookup(s.website).Some?
      ensures Snapshot() == if ok then BuildImage(old(Snapshot()), context, shown) else old(Snapshot())
    {
      var site := Lookup(s.website);
      if site.None? {
        return false;
      }
      sent := sent + [SetImage(context, shown)];
      ok := true;
    }

    /** `updateReviews`: `ok` is false when the website is not registered. */
    method UpdateReviews(context: string, obj: nat) returns (ok: bool)
      requires Valid() && obj < |objects|
      modifies this`requests
      ensures Valid()
      ensures ok <==> Scheduler.UpdateReviews(old(Snapshot()), context, obj).Some?
      ensures Snapshot() == Scheduler.UpdateReviews(old(Snapshot()), context, obj).GetOr(old(Snapshot()))
    {
      var site := Lookup(objects[obj].website);
      if site.None? {
        return false;
      }
      if Issues(site.value, objects[obj]) {
        requests := requests + [Request(context, obj, site.value)];
      }
      ok := true;
    }

    /** `storeLastValues`: the shared settings object is updated, then sent. */
    method StoreLastValues(context: string, obj: nat, count: nat, now: int)
      requires Valid() && obj < |objects|
      modifies this`objects, this`sent
      ensures Valid()
      ensures Snapshot() == Scheduler.StoreLastValues(old(Snapshot()), context, obj, count, now)
    {
      var payload := objects[obj];
      payload := payload.(lastCount := Some(count));
      payload := payload.(lastDateTime := Some(now));
      objects := objects[obj := payload];
      sent := sent + [SetSettings(context, payload)];
    }

    method ScheduleReviews(context: string, obj: nat, now: int, minute: nat)
      requires Valid() && obj < |objects|
      modifies this
      ensures Valid()
      ensures Snapshot() == Scheduler.ScheduleReviews(old(Snapshot()), context, obj, now, minute)
    {
      if reviewIntervalTimer.Some? {
        timers := timers - {reviewIntervalTimer.value};
      }
      var s := objects[obj];
      var cached := IsFresh(s, now);
      var ok;
      if !cached {
        ok := BuildImageAsDataUri(context, s, PendingLabel);
        if !ok {
          return;
        }
        ok := UpdateReviews(context, obj);
      } else {
        ok := BuildImageAsDataUri(context, s, Count(s.lastCount.value));
        if !ok {
          return;
        }
      }
      var delay := FirstTickMs(minute);
      var _ := SetTimer(Timer(Timeout, context, obj, now + delay));
    }

    /** `onWillAppear` for a message that carried the settings `s`. */
    method OnWillAppear(context: string, s: Settings, now: int, minute: nat)
      requires Valid()
      modifies this
      ensures Valid()
      ensures Snapshot() == Scheduler.OnWillAppear(old(Snapshot()), context, s, now, minute)
    {
      objects := objects + [s];
      if HasCredentials(s) {
        ScheduleReviews(context, |objects| - 1, now, minute);
      } else {
        var _ := BuildImageAsDataUri(context, s, NoKeyLabel);
      }
    }

    /** `onKeyUp`: only the outbound stream can change. */
    method OnKeyUp(s: Settings)
      requires Valid()
      modifies this`sent
      ensures Valid()
      ensures Snapshot() == Scheduler.OnKeyUp(old(Snapshot()), s)
    {
      var site := Lookup(s.website);
      if site.Some? {
        sent := sent + [OpenUrl(ReviewUrl(site.value))];
      }
    }

    /** The event loop runs timer `h`'s callback at instant `now`. */
    method Fire(h: nat, now: int)
      requires Valid() && h in timers && timers[h].due <= now
      modifies this
      ensures Valid()
      ensures Snapshot() == Scheduler.Fire(old(Snapshot()), h, now)
    {
      var t := timers[h];
      if t.kind == Timeout {
        timers := timers - {h};
        var ok := UpdateReviews(t.context, t.obj);
        if ok {
          var handle := SetTimer(Timer(Interval, t.context, t.obj, now + IntervalMs));
          reviewIntervalTimer := Some(handle);
        }
      } else {
        timers := timers[h := t.(due := now + IntervalMs)];
        var _ := UpdateReviews(t.context, t.obj);
      }
    }

    /** In-flight request `i` settles at instant `now` with the remote's answer. */
    method Settle(i: nat, remote: Remote, now: int)
      requires Valid() && i < |requests|
      modifies this
      ensures Valid()
      ensures Snapshot() == Scheduler.Settle(old(Snapshot()), i, remote, now)
    {
      var q := requests[i];
      requests := requests[..i] + requests[i + 1..];
      assert forall p :: p in requests ==> p in old(requests);
      var delivered := Delivered(q.site, remote);
      if delivered.Some? {
        var ok := BuildImageAsDataUri(q.context, objects[q.obj], Count(delivered.value));
        if ok {
          StoreLastValues(q.context, q.obj, delivered.value, now);
        }
      }
    }

    /** `onmessage`: dispatch a parsed message from the host. */
    method OnMessage(m: Message, now: int, minute: nat)
      requires Valid()
      modifies this
      ensures Valid()
      ensures Snapshot() == Scheduler.OnMessage(old(Snapshot()), m, now, minute)
    {
      if m.event == "keyUp" {
        if m.settings.Some? {
          OnKeyUp(m.settings.value);
        }
      } else if m.event == "willAppear" {
        if m.settings.Some? {
          OnWillAppear(m.context, m.settings.value, now, minute);
        }
      } else if m.event == "didReceiveSettings" {
        if m.settings.Some? {
          OnWillAppear(m.context, m.settings.value, now, minute);
        }
      }
    }
  }
}

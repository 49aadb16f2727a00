/**
 * Concrete runs of the scheduler that show how the code behaves where the
 * intended behaviour (at most one schedule per key) says otherwise.
 */
module Scenarios {
  import opened Wrappers
  import opened Config
  import opened Sites
  import opened Timing
  import opened Scheduler
  import opened SchedulerProperties

  /** The settings of the key in the runs below: a WaniKani token. */
  function Token(): Settings {
    Settings("wanikani", Some("token"), None, None, None, None)
  }

  /** Interval and first-refresh timers of the key, as the runs below arm them. */
  function FirstTick(obj: nat, due: int): Timer {
    Timer(Timeout, "key", obj, due)
  }

  function Every(obj: nat, due: int): Timer {
    Timer(Interval, "key", obj, due)
  }

  /** First activation at 0 ms, minute 0: the first refresh is 11 minutes away. */
  lemma LeakStep1(st1: State)
    requires st1 == OnWillAppear(Initial(), "key", Token(), 0, 0)
    ensures st1.timers == map[1 := FirstTick(0, 11 * MinuteMs)]
    ensures st1.intervalTimer == None && st1.nextHandle == 2 && st1.objects == [Token()]
  {
    assert HasCredentials(Token()) && Lookup(Token().website) == Some(WaniKani);
    Rearming(Initial().(objects := [Token()]), "key", 0, 0, 0);
    ScheduleReviewsEffect(Initial().(objects := [Token()]), "key", 0, 0, 0);
  }

  /** A second activation a second later: no interval to clear, a second timeout. */
  lemma LeakStep2(st1: State, st2: State)
    requires st1 == State(None, map[1 := FirstTick(0, 11 * MinuteMs)], 2, [Token()], st1.requests, st1.sent)
    requires WellFormed(st1)
    requires st2 == OnWillAppear(st1, "key", Token(), 1000, 0)
    ensures st2.timers == map[1 := FirstTick(0, 11 * MinuteMs), 2 := FirstTick(1, 11 * MinuteMs + 1000)]
    ensures st2.intervalTimer == None && st2.nextHandle == 3 && st2.objects == [Token(), Token()]
  {
    assert HasCredentials(Token()) && Lookup(Token().website) == Some(WaniKani);
    Rearming(st1.(objects := [Token(), Token()]), "key", 1, 1000, 0);
    ScheduleReviewsEffect(st1.(objects := [Token(), Token()]), "key", 1, 1000, 0);
  }

  /** The first timeout fires and arms interval 3, which the handle names. */
  lemma LeakStep3(st2: State, st3: State)
    requires st2 == State(None, map[1 := FirstTick(0, 11 * MinuteMs), 2 := FirstTick(1, 11 * MinuteMs + 1000)],
      3, [Token(), Token()], st2.requests, st2.sent)
    requires WellFormed(st2)
    requires st3 == Fire(st2, 1, 11 * MinuteMs)
    ensures st3.timers == map[2 := FirstTick(1, 11 * MinuteMs + 1000), 3 := Every(0, 21 * MinuteMs)]
    ensures st3.intervalTimer == Some(3) && st3.nextHandle == 4 && st3.objects == [Token(), Token()]
  {
    FirstTickArmsInterval(st2, 1, 11 * MinuteMs);
  }

  /** The second timeout fires and arms interval 4; interval 3 is not cleared. */
  lemma LeakStep4(st3: State, st4: State)
    requires st3 == State(Some(3), map[2 := FirstTick(1, 11 * MinuteMs + 1000), 3 := Every(0, 21 * MinuteMs)],
      4, [Token(), Token()], st3.requests, st3.sent)
    requires WellFormed(st3)
    requires st4 == Fire(st3, 2, 11 * MinuteMs + 1000)
    ensures st4.timers == map[3 := Every(0, 21 * MinuteMs), 4 := Every(1, 21 * MinuteMs + 1000)]
    ensures st4.intervalTimer == Some(4) && st4.nextHandle == 5 && st4.objects == [Token(), Token()]
  {
    FirstTickArmsInterval(st3, 2, 11 * MinuteMs + 1000);
  }

  /** A third activation clears interval 4 only. */
  lemma LeakStep5(st4: State, st5: State)
    requires st4 == State(Some(4), map[3 := Every(0, 21 * MinuteMs), 4 := Every(1, 21 * MinuteMs + 1000)],
      5, [Token(), Token()], st4.requests, st4.sent)
    requires WellFormed(st4)
    requires st5 == OnWillAppear(st4, "key", Token(), 12 * MinuteMs, 12)
    ensures st5.timers == map[3 := Every(0, 21 * MinuteMs), 5 := FirstTick(2, 12 * MinuteMs + 9 * MinuteMs)]
  {
    assert HasCredentials(Token()) && Lookup(Token().website) == Some(WaniKani);
    Rearming(st4.(objects := [Token(), Token(), Token()]), "key", 2, 12 * MinuteMs, 12);
  }

  /**
   * The module-level handle is shared and the first-refresh timeout is never
   * cancelled. A key that appears twice before its first refresh (a page
   * switch, or a settings change) ends up with two ten-minute intervals.
   * Only the later one is named by the handle, so the next activation
   * cancels that one, and the earlier one keeps polling for good.
   */
  lemma TwoActivationsLeakAnInterval()
    ensures
      var st1 := OnWillAppear(Initial(), "key", Token(), 0, 0);
      var st2 := OnWillAppear(st1, "key", Token(), 1000, 0);
      var st4 := Fire(Fire(st2, 1, 11 * MinuteMs), 2, 11 * MinuteMs + 1000);
      var st5 := OnWillAppear(st4, "key", Token(), 12 * MinuteMs, 12);
      && st4.intervalTimer == Some(4)
      && st4.timers == map[3 := Every(0, 21 * MinuteMs), 4 := Every(1, 21 * MinuteMs + 1000)]
      && 3 in st5.timers && st5.timers[3].kind == Interval && 4 !in st5.timers
  {
    var st1 := OnWillAppear(Initial(), "key", Token(), 0, 0);
    LeakStep1(st1);
    var st2 := OnWillAppear(st1, "key", Token(), 1000, 0);
    LeakStep2(st1, st2);
    var st3 := Fire(st2, 1, 11 * MinuteMs);
    LeakStep3(st2, st3);
    var st4 := Fire(st3, 2, 11 * MinuteMs + 1000);
    LeakStep4(st3, st4);
    var st5 := OnWillAppear(st4, "key", Token(), 12 * MinuteMs, 12);
    LeakStep5(st4, st5);
  }

  /**
   * A Bunpro key configured only with a username and password passes the
   * credential gate, draws `'...'` and arms its refreshes, but its adapter
   * never issues a request, so the placeholder stays on the key.
   */
  lemma SilentBunproKeepsPlaceholder()
    ensures
      var s := Settings("bunpro", None, Some("user"), Some("secret"), None, None);
      var st := OnWillAppear(Initial(), "key", s, 0, 5);
      && st.sent == [SetImage("key", PendingLabel)]
      && st.requests == []
      && 1 in st.timers
  {
    var s := Settings("bunpro", None, Some("user"), Some("secret"), None, None);
    assert HasCredentials(s) && !IsFresh(s, 0) && !Issues(Bunpro, s);
  }
}

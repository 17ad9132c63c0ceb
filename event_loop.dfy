/**
 * The control loop of the Windows service (`Execute` in service.go), as a
 * transition function over the loop's state. The loop waits on whichever
 * ticker `tick` names and on the service manager's change requests: a tick
 * dispatches a scheduling pass when no pass is running and the timer
 * configuration switched dispatching on; Pause moves the loop to the
 * 2-second ticker, Continue back to the main one, and Stop or Shutdown
 * ends it.
 *
 * The loop's inputs are a sequence of events, in the order the select
 * statement receives them. A dispatched pass runs beside the loop; its
 * end, when it stores 0 into the busy flag, is the event `PassFinished`.
 * A pass that panics stores 0 too (the deferred store), but nothing
 * recovers the panic, so it ends the whole service: that is the event
 * `PassCrashed`, after which the loop is gone without reporting
 * StopPending.
 */
module EventLoop {
  import opened Wrappers
  import TimerConfig

  /** The two tickers `Execute` creates: the configured one and the 2-second one. */
  datatype Ticker = MainTicker | SlowTicker

  /** The service states of the Windows service control manager. */
  datatype ServiceState = Stopped | StartPending | StopPending | Running | ContinuePending | PausePending | Paused

  /** A status report on the `changes` channel; `accepts` says whether it announces Stop, Shutdown, Pause and Continue as accepted. */
  datatype Status = Status(state: ServiceState, accepts: bool)

  /** A change request from the service control manager. */
  datatype Command = Interrogate(current: Status) | Stop | Shutdown | Pause | Continue | Unrecognised(code: int)

  /** What the loop receives next: a tick, a change request, the end of the running pass, or its panic. */
  datatype Event = Tick(from: Ticker) | Request(cmd: Command) | PassFinished | PassCrashed

  /**
   * The loop's state: the ticker it listens to, the shared busy flag, whether
   * it is still looping, whether a pass's panic ended the service, how many
   * passes it has dispatched, and the status reports sent so far.
   */
  datatype LoopState = LoopState(tick: Ticker, busy: int, running: bool, crashed: bool, dispatched: nat, changes: seq<Status>)

  /**
   * The select statement receives a tick from `from` only when `tick` names
   * that ticker; the main ticker does not exist when its period is not
   * positive, since `time.Tick` then returns no channel.
   */
  predicate Delivers(setting: TimerConfig.TimerSetting, s: LoopState, from: Ticker)
  {
    from == s.tick && (from == SlowTicker || setting.period > 0)
  }

  /** One event's effect on the loop; nothing changes once the loop has ended. */
  function Step(setting: TimerConfig.TimerSetting, s: LoopState, e: Event): LoopState
  {
    if !s.running then s
    else
      match e
      case Tick(from) =>
        if Delivers(setting, s, from) && s.busy == 0 && setting.proceed
        then s.(busy := 1, dispatched := s.dispatched + 1)
        else s
      case PassFinished => s.(busy := 0)
      case PassCrashed => s.(busy := 0, running := false, crashed := true)
      case Request(cmd) =>
        match cmd
        case Interrogate(current) => s.(changes := s.changes + [current, current])
        case Stop => s.(running := false)
        case Shutdown => s.(running := false)
        case Pause => s.(changes := s.changes + [Status(Paused, true)], tick := SlowTicker)
        case Continue => s.(changes := s.changes + [Status(Running, true)], tick := MainTicker)
        case Unrecognised(_) => s
  }

  /** The state after the first `n` events. */
  function RunUpTo(setting: TimerConfig.TimerSetting, s0: LoopState, events: seq<Event>, n: nat): LoopState
    requires n <= |events|
  {
    if n == 0 then s0 else Step(setting, RunUpTo(setting, s0, events, n - 1), events[n - 1])
  }

  /** The state after all of `events`. */
  function Run(setting: TimerConfig.TimerSetting, s0: LoopState, events: seq<Event>): LoopState
  {
    RunUpTo(setting, s0, events, |events|)
  }

  /** The state on entering the loop: main ticker, StartPending then Running reported. */
  function Entry(busy: int): LoopState
  {
    LoopState(MainTicker, busy, true, false, 0, [Status(StartPending, false), Status(Running, true)])
  }

  /**
   * What `Execute` reports in all: the loop's reports, then StopPending once
   * a request has ended the loop; a crashed service reports nothing more.
   */
  function Reports(s: LoopState): seq<Status>
  {
    s.changes + (if s.running || s.crashed then [] else [Status(StopPending, false)])
  }

  /**
   * A tick dispatches a pass exactly when the loop listens to its ticker,
   * no pass is running and dispatching is on; a tick changes nothing else.
   */
  lemma TickDispatchesIff(setting: TimerConfig.TimerSetting, s: LoopState, from: Ticker)
    requires s.running
    ensures Step(setting, s, Tick(from)).dispatched > s.dispatched <==>
      Delivers(setting, s, from) && s.busy == 0 && setting.proceed
    ensures Step(setting, s, Tick(from)).(busy := s.busy, dispatched := s.dispatched) == s
  {
  }

  /** Without a usable timer setting no pass is ever dispatched. */
  lemma {:induction false} NoProceedNoDispatch(setting: TimerConfig.TimerSetting, s0: LoopState, events: seq<Event>, n: nat)
    requires n <= |events| && !setting.proceed
    ensures RunUpTo(setting, s0, events, n).dispatched == s0.dispatched
  {
    if n > 0 {
      NoProceedNoDispatch(setting, s0, events, n - 1);
    }
  }

  /** How many of the first `n` events are ends of passes, normal or by a panic. */
  function FinishedCount(events: seq<Event>, n: nat): nat
    requires n <= |events|
  {
    if n == 0 then 0 else FinishedCount(events, n - 1) + (if events[n - 1] in {PassFinished, PassCrashed} then 1 else 0)
  }

  /**
   * Passes never overlap: the busy flag stays 0 or 1, and every dispatch
   * after the first needs a pass to have finished in between, so the
   * passes dispatched are at most the passes finished plus one when the
   * flag started at 0.
   */
  lemma {:induction false} OnePassAtATime(setting: TimerConfig.TimerSetting, s0: LoopState, events: seq<Event>, n: nat)
    requires n <= |events| && 0 <= s0.busy <= 1
    ensures var s := RunUpTo(setting, s0, events, n);
      0 <= s.busy <= 1 &&
      s.dispatched + (1 - s.busy) <= s0.dispatched + (1 - s0.busy) + FinishedCount(events, n)
  {
    if n > 0 {
      OnePassAtATime(setting, s0, events, n - 1);
    }
  }

  /** The events that end the loop: a Stop or Shutdown request, or a pass that panics. */
  predicate Ends(e: Event)
  {
    e in {Request(Stop), Request(Shutdown), PassCrashed}
  }

  /** The loop has ended exactly when one of the events so far was a Stop or Shutdown request or a crashed pass. */
  lemma {:induction false} EndsOnStopOrCrash(setting: TimerConfig.TimerSetting, s0: LoopState, events: seq<Event>, n: nat)
    requires n <= |events| && s0.running
    ensures !RunUpTo(setting, s0, events, n).running <==> exists k :: 0 <= k < n && Ends(events[k])
  {
    if n > 0 {
      EndsOnStopOrCrash(setting, s0, events, n - 1);
      var e := events[n - 1];
      if !RunUpTo(setting, s0, events, n).running && RunUpTo(setting, s0, events, n - 1).running {
        assert Ends(e);
      }
    }
  }

  /**
   * The service has crashed exactly when the first event that ended the
   * loop was a crashed pass; it then reports no StopPending.
   */
  lemma {:induction false} CrashedIffFirstEndIsCrash(setting: TimerConfig.TimerSetting, s0: LoopState, events: seq<Event>, n: nat)
    requires n <= |events| && s0.running && !s0.crashed
    ensures var s := RunUpTo(setting, s0, events, n);
      s.crashed <==> exists k :: 0 <= k < n && events[k] == PassCrashed && forall j :: 0 <= j < k ==> !Ends(events[j])
    ensures var s := RunUpTo(setting, s0, events, n);
      s.crashed ==> !s.running && Reports(s) == s.changes
  {
    if n > 0 {
      CrashedIffFirstEndIsCrash(setting, s0, events, n - 1);
      EndsOnStopOrCrash(setting, s0, events, n - 1);
      var prev := RunUpTo(setting, s0, events, n - 1);
      var s := RunUpTo(setting, s0, events, n);
      if prev.running {
        assert !prev.crashed;
        assert forall j :: 0 <= j < n - 1 ==> !Ends(events[j]);
        if s.crashed {
          assert events[n - 1] == PassCrashed;
        }
      } else {
        assert s == prev;
        var k0 :| 0 <= k0 < n - 1 && Ends(events[k0]);
        if exists k :: 0 <= k < n && events[k] == PassCrashed && forall j :: 0 <= j < k ==> !Ends(events[j]) {
          var k :| 0 <= k < n && events[k] == PassCrashed && forall j :: 0 <= j < k ==> !Ends(events[j]);
          assert k <= k0;
        }
      }
    }
  }

  /** After the loop has ended, later events change nothing. */
  lemma {:induction false} EndedIsFinal(setting: TimerConfig.TimerSetting, s0: LoopState, events: seq<Event>, k: nat, n: nat)
    requires k <= n <= |events| && !RunUpTo(setting, s0, events, k).running
    ensures RunUpTo(setting, s0, events, n) == RunUpTo(setting, s0, events, k)
    decreases n - k
  {
    if k < n {
      EndedIsFinal(setting, s0, events, k, n - 1);
    }
  }

  /** Reports are only ever appended: the reports so far begin every later list of reports. */
  lemma {:induction false} ReportsOnlyGrow(setting: TimerConfig.TimerSetting, s0: LoopState, events: seq<Event>, n: nat)
    requires n <= |events|
    ensures s0.changes <= RunUpTo(setting, s0, events, n).changes
  {
    if n > 0 {
      ReportsOnlyGrow(setting, s0, events, n - 1);
    }
  }

  /**
   * After Pause the loop listens to the 2-second ticker: its tick dispatches
   * a pass when none is running and dispatching is on, while the main
   * ticker's ticks go unheard.
   */
  lemma PauseSwitchesToSlowTicker(setting: TimerConfig.TimerSetting, s: LoopState)
    requires s.running
    ensures var p := Step(setting, s, Request(Pause));
      p.changes == s.changes + [Status(Paused, true)] &&
      (Step(setting, p, Tick(SlowTicker)).dispatched == p.dispatched + 1 <==> s.busy == 0 && setting.proceed) &&
      Step(setting, p, Tick(MainTicker)) == p
  {
  }

  /** Continue returns the loop to the main ticker, whose ticks dispatch again when its period is positive. */
  lemma ContinueSwitchesToMainTicker(setting: TimerConfig.TimerSetting, s: LoopState)
    requires s.running
    ensures var c := Step(setting, s, Request(Continue));
      c.changes == s.changes + [Status(Running, true)] &&
      (Step(setting, c, Tick(MainTicker)).dispatched == c.dispatched + 1 <==>
        setting.period > 0 && s.busy == 0 && setting.proceed) &&
      Step(setting, c, Tick(SlowTicker)) == c
  {
  }

  /** With a period that is not positive and no Pause request, the loop never dispatches a pass. */
  lemma {:induction false} DeadMainTickerNeverDispatches(setting: TimerConfig.TimerSetting, s0: LoopState, events: seq<Event>, n: nat)
    requires n <= |events| && setting.period <= 0 && s0.tick == MainTicker
    requires forall k :: 0 <= k < n ==> events[k] != Request(Pause)
    ensures RunUpTo(setting, s0, events, n).dispatched == s0.dispatched
    ensures RunUpTo(setting, s0, events, n).tick == MainTicker
  {
    if n > 0 {
      DeadMainTickerNeverDispatches(setting, s0, events, n - 1);
    }
  }

  /** A pass is dispatched only by a tick the loop hears, while no pass runs and dispatching is on. */
  lemma DispatchNeedsHeardTick(setting: TimerConfig.TimerSetting, s: LoopState, e: Event)
    requires Step(setting, s, e).dispatched > s.dispatched
    ensures s.running && e == Tick(s.tick) && Delivers(setting, s, s.tick) && s.busy == 0 && setting.proceed
  {
  }

  /** With a period that is not positive, only ticks of the 2-second ticker dispatch passes. */
  lemma DeadMainTickerOnlySlowDispatches(setting: TimerConfig.TimerSetting)
    requires setting.period <= 0
    ensures forall s: LoopState, e: Event :: Step(setting, s, e).dispatched > s.dispatched ==> s.tick == SlowTicker
  {
    forall s: LoopState, e: Event | Step(setting, s, e).dispatched > s.dispatched
      ensures s.tick == SlowTicker
    {
      DispatchNeedsHeardTick(setting, s, e);
    }
  }

  /**
   * A configuration whose first timer entry is `timer = 0` switches
   * dispatching on with a zero period: the main ticker never fires, and
   * passes are dispatched only while the loop listens to the 2-second ticker.
   */
  lemma ZeroTimerDispatchesOnlyWhenPaused(text: string)
    requires TimerConfig.Find(text).Some? && TimerConfig.MatchedSeconds(text, TimerConfig.Find(text).value) == 0
    ensures TimerConfig.ParseTimer(Some(text)) == TimerConfig.TimerSetting(0, true)
    ensures forall s: LoopState, e: Event :: Step(TimerConfig.ParseTimer(Some(text)), s, e).dispatched > s.dispatched ==>
      s.tick == SlowTicker
  {
    var setting := TimerConfig.ParseTimer(Some(text));
    assert setting == TimerConfig.SettingFrom(text);
    TimerConfig.SettingFromSpec(text);
    TimerConfig.PeriodExactUpTo(0);
    DeadMainTickerOnlySlowDispatches(setting);
  }
}

/**
 * One scheduling pass of the agent (`handleMainExecute` in service.go) and
 * the process launcher's arity guard (`localExec`). The pass marks the
 * service busy, reads the configuration lines, hands the argument list of
 * every `sync = ...` line to the launcher, and marks the service idle again
 * on every way out.
 *
 * Launching a process is abstracted to appending its argument list to the
 * `launched` log; looking up the module path and reading `run.conf` are
 * abstracted to the pass's `config` parameter.
 */
module Dispatch {
  import opened Wrappers
  import opened SyncLine
  import opened EventLoop
  import TimerConfig

  /** Why a pass stops before it looks at any line. */
  datatype ConfigError = ModulePathFailed | ReadFailed

  /** How a pass ends: normally, with a configuration error, or with a run-time panic. */
  datatype PassOutcome = Completed | Aborted(error: ConfigError) | Crashed(reason: PanicReason)

  /** The longest argument list `localExec` has a case for. */
  const MaxArgs := 15

  /** The processes `localExec` starts for `args`: one when it has a case for the length, none otherwise. */
  function Launches(args: seq<string>): seq<seq<string>>
  {
    if 1 <= |args| <= MaxArgs then [args] else []
  }

  /** What a pass leaves behind: the argument lists launched, in order, and how it ended. */
  datatype PassResult = PassResult(launched: seq<seq<string>>, outcome: PassOutcome)

  /** The effect of one line's action on the pass so far; nothing happens after a panic. */
  function Next(p: PassResult, a: LineAction): PassResult
  {
    if p.outcome.Crashed? then p
    else
      match a
      case Ignored => p
      case Launch(args) => p.(launched := p.launched + Launches(args))
      case Panic(reason) => p.(outcome := Crashed(reason))
  }

  /** The line loop of the pass, over the actions of the lines in order. */
  function RunActions(acts: seq<LineAction>): (r: PassResult)
    ensures r.outcome.Completed? || r.outcome.Crashed?
  {
    if acts == [] then PassResult([], Completed)
    else Next(RunActions(acts[..|acts| - 1]), acts[|acts| - 1])
  }

  /** What the pass does with each configuration line. */
  function Actions(lines: seq<string>): (r: seq<LineAction>)
    ensures |r| == |lines|
  {
    seq(|lines|, k requires 0 <= k < |lines| => Classify(lines[k]))
  }

  /** `acts` are the actions of the first `|acts|` lines. */
  predicate ActionsOf(lines: seq<string>, acts: seq<LineAction>)
  {
    |acts| <= |lines| && acts == Actions(lines)[..|acts|]
  }

  /** A whole pass: a configuration error aborts it before any line is handled. */
  function Pass(config: Result<seq<string>, ConfigError>): PassResult
  {
    match config
    case Err(e) => PassResult([], Aborted(e))
    case Ok(lines) => RunActions(Actions(lines))
  }

  /** The service's state that outlives a pass. */
  class ServiceContext {
    /** 0 while idle, 1 while a pass runs. */
    var busy: int
    /** Every argument list handed to a new process, in order. */
    var launched: seq<seq<string>>

    constructor ()
      ensures busy == 0 && launched == []
    {
      busy := 0;
      launched := [];
    }

    /** Starts a process for `args` when the launcher has a case for its length; nothing else changes. */
    method LocalExec(args: seq<string>)
      modifies this`launched
      ensures launched == old(launched) + Launches(args)
    {
      if 1 <= |args| <= MaxArgs {
        launched := launched + [args];
      }
    }

    /**
     * The body of the pass's line loop for the line after those whose
     * actions are `acts`: classify it and start its process, if any.
     */
    method HandleLine(ghost lines: seq<string>, ghost acts: seq<LineAction>, line: string) returns (action: LineAction)
      requires ActionsOf(lines, acts) && |acts| < |lines| && line == lines[|acts|]
      modifies this`launched
      ensures ActionsOf(lines, acts + [action])
      ensures launched == old(launched) + (if action.Launch? then Launches(action.args) else [])
    {
      action := ProcessLine(line);
      ActionsOfSnoc(lines, acts, action);
      if action.Launch? {
        LocalExec(action.args);
      }
    }

    /**
     * One scheduling pass. `busy` is 1 for the whole of the line loop and 0
     * again on every exit; the processes started are those of the `sync`
     * lines, in order, up to the first line that panics.
     */
    method HandleMainExecute(config: Result<seq<string>, ConfigError>) returns (outcome: PassOutcome)
      modifies this
      ensures busy == 0
      ensures outcome == Pass(config).outcome
      ensures launched == old(launched) + Pass(config).launched
    {
      busy := 1;
      if config.Err? {
        busy := 0;
        return Aborted(config.error);
      }
      var lines := config.value;
      ghost var before := launched;
      ghost var acts: seq<LineAction> := [];
      var i := 0;
      while i < |lines|
        invariant i == |acts| <= |lines|
        invariant busy == 1
        invariant ActionsOf(lines, acts)
        invariant RunActions(acts).outcome == Completed
        invariant launched == before + RunActions(acts).launched
      {
        var action := HandleLine(lines, acts, lines[i]);
        RunActionsSnoc(acts, action);
        acts := acts + [action];
        if action.Panic? {
          busy := 0;
          PanicEndsPass(lines, acts);
          return Crashed(action.reason);
        }
        i := i + 1;
      }
      ActionsOfAll(lines, acts);
      busy := 0;
      return Completed;
    }

    /**
     * The service's control loop (`Execute`). It reads the timer setting
     * from `conf` (absent when `run.conf` could not be located or read),
     * reports StartPending and Running, then handles `events` in order until
     * a Stop or Shutdown request, after which it reports StopPending, or
     * until a dispatched pass panics, which ends the service with no further
     * report. A dispatched pass claims the busy flag at once, and
     * `PassFinished` or `PassCrashed` releases it.
     */
    method Execute(conf: Option<string>, events: seq<Event>) returns (changes: seq<Status>, dispatched: nat, stopped: bool, crashed: bool)
      modifies this`busy
      ensures var final := Run(TimerConfig.ParseTimer(conf), Entry(old(busy)), events);
        changes == Reports(final) && dispatched == final.dispatched && busy == final.busy &&
        stopped == (!final.running && !final.crashed) && crashed == final.crashed
    {
      changes := [Status(StartPending, false)];
      var setting := TimerConfig.ParseTimer(conf);
      var proceed := setting.proceed;
      var mainLive := setting.period > 0;
      var tick := MainTicker;
      changes := changes + [Status(Running, true)];
      dispatched := 0;
      stopped, crashed := false, false;
      ghost var s0 := Entry(busy);
      ghost var end := |events|;
      var i := 0;
      while i < |events|
        invariant 0 <= i <= |events|
        invariant RunUpTo(setting, s0, events, i) == LoopState(tick, busy, true, false, dispatched, changes)
      {
        match events[i] {
          case Tick(from) =>
            if from == tick && (from == SlowTicker || mainLive) {
              var b := busy;
              if b == 0 && proceed {
                busy := 1;
                dispatched := dispatched + 1;
              }
            }
          case PassFinished =>
            busy := 0;
          case PassCrashed =>
            busy := 0;
            crashed := true;
            end := i + 1;
            break;
          case Request(cmd) =>
            match cmd {
              case Interrogate(current) =>
                changes := changes + [current];
                changes := changes + [current];
              case Stop =>
                stopped := true;
                end := i + 1;
                break;
              case Shutdown =>
                stopped := true;
                end := i + 1;
                break;
              case Pause =>
                changes := changes + [Status(Paused, true)];
                tick := SlowTicker;
              case Continue =>
                changes := changes + [Status(Running, true)];
                tick := MainTicker;
              case Unrecognised(_) =>
            }
        }
        i := i + 1;
      }
      if stopped || crashed {
        EndedIsFinal(setting, s0, events, end, |events|);
      }
      if stopped {
        changes := changes + [Status(StopPending, false)];
      }
    }
  }

  /** One more line's action extends the actions of the lines before it. */
  lemma ActionsOfSnoc(lines: seq<string>, acts: seq<LineAction>, a: LineAction)
    requires ActionsOf(lines, acts) && |acts| < |lines| && a == Classify(lines[|acts|])
    ensures ActionsOf(lines, acts + [a])
  {
    var all := Actions(lines);
    assert all[..|acts| + 1] == all[..|acts|] + [all[|acts|]];
  }

  /** The actions of all the lines are those `Actions` gives. */
  lemma ActionsOfAll(lines: seq<string>, acts: seq<LineAction>)
    requires ActionsOf(lines, acts) && |acts| == |lines|
    ensures Actions(lines) == acts
  {
  }

  /** The line loop handles one more action by `Next`. */
  lemma RunActionsSnoc(acts: seq<LineAction>, a: LineAction)
    ensures RunActions(acts + [a]) == Next(RunActions(acts), a)
  {
    assert (acts + [a])[..|acts|] == acts;
  }

  /** Nothing after a panicking line is handled. */
  lemma {:induction false} CrashIsFinal(a: seq<LineAction>, b: seq<LineAction>)
    requires RunActions(a).outcome.Crashed?
    ensures RunActions(a + b) == RunActions(a)
  {
    if b != [] {
      var n := |b| - 1;
      assert (a + b)[..|a + b| - 1] == a + b[..n];
      CrashIsFinal(a, b[..n]);
    } else {
      assert a + b == a;
    }
  }

  /** Once the lines read so far have panicked, the pass's result is fixed. */
  lemma PanicEndsPass(lines: seq<string>, acts: seq<LineAction>)
    requires ActionsOf(lines, acts) && RunActions(acts).outcome.Crashed?
    ensures Pass(Ok(lines)) == RunActions(acts)
  {
    var all := Actions(lines);
    assert all == acts + all[|acts|..];
    CrashIsFinal(acts, all[|acts|..]);
  }

  /** The argument lists a panic-free run starts, read front to back: an independent statement of the loop. */
  function Started(acts: seq<LineAction>): seq<seq<string>>
  {
    if acts == [] then []
    else (if acts[0].Launch? then Launches(acts[0].args) else []) + Started(acts[1..])
  }

  /** Reading the actions from the back, as the loop does, agrees with reading them from the front. */
  lemma {:induction false} StartedSnoc(acts: seq<LineAction>, a: LineAction)
    ensures Started(acts + [a]) == Started(acts) + (if a.Launch? then Launches(a.args) else [])
  {
    if acts != [] {
      assert (acts + [a])[1..] == acts[1..] + [a];
      StartedSnoc(acts[1..], a);
    } else {
      assert [a][1..] == [];
    }
  }

  /**
   * Without a panicking line the pass completes and starts, in order, one
   * process for every launched line whose argument list has 1 to 15 items.
   */
  lemma {:induction false} PanicFreeRunStartsEverything(acts: seq<LineAction>)
    requires forall k :: 0 <= k < |acts| ==> !acts[k].Panic?
    ensures RunActions(acts) == PassResult(Started(acts), Completed)
  {
    if acts != [] {
      var n := |acts| - 1;
      PanicFreeRunStartsEverything(acts[..n]);
      StartedSnoc(acts[..n], acts[n]);
      assert acts[..n] + [acts[n]] == acts;
    }
  }

  /** Every argument list the loop starts has 1 to 15 items and is that of some launched line. */
  lemma {:induction false} StartedComeFromLaunches(acts: seq<LineAction>)
    ensures forall a :: a in RunActions(acts).launched ==> 1 <= |a| <= MaxArgs && Launch(a) in acts
  {
    if acts != [] {
      var n := |acts| - 1;
      StartedComeFromLaunches(acts[..n]);
      assert forall x :: x in acts[..n] ==> x in acts;
    }
  }

  /**
   * Every process a pass starts comes from a `sync = ...` line of the
   * configuration whose argument list it is, and has 1 to 15 arguments.
   */
  lemma LaunchedComeFromSyncLines(lines: seq<string>)
    ensures forall a :: a in Pass(Ok(lines)).launched ==>
      1 <= |a| <= MaxArgs && exists k :: 0 <= k < |lines| && IsSyncLine(lines[k]) && Classify(lines[k]) == Launch(a)
  {
    var acts := Actions(lines);
    StartedComeFromLaunches(acts);
    forall a | a in RunActions(acts).launched
      ensures exists k :: 0 <= k < |lines| && IsSyncLine(lines[k]) && Classify(lines[k]) == Launch(a)
    {
      var k :| 0 <= k < |acts| && acts[k] == Launch(a);
      LaunchOnlySyncLines(lines[k]);
    }
  }

  /** A run without a launched line starts nothing. */
  lemma {:induction false} NoLaunchNoStart(acts: seq<LineAction>)
    requires forall k :: 0 <= k < |acts| ==> !acts[k].Launch?
    ensures RunActions(acts).launched == []
  {
    if acts != [] {
      NoLaunchNoStart(acts[..|acts| - 1]);
    }
  }

  /** A configuration without a `sync = ...` line starts no process. */
  lemma NoSyncLineNoLaunch(lines: seq<string>)
    requires forall k :: 0 <= k < |lines| ==> !IsSyncLine(lines[k])
    ensures Pass(Ok(lines)).launched == []
  {
    var acts := Actions(lines);
    forall k | 0 <= k < |acts|
      ensures !acts[k].Launch?
    {
      LaunchOnlySyncLines(lines[k]);
    }
    NoLaunchNoStart(acts);
  }

  /**
   * A non-empty line of white space only crashes the pass: the lines after it
   * start nothing, whatever they are.
   */
  lemma BlankLineCrashesPass(lines: seq<string>, i: nat)
    requires i < |lines| && |lines[i]| > 0
    requires forall j :: 0 <= j < |lines[i]| ==> GoStrings.IsSpace(lines[i][j])
    requires RunActions(Actions(lines)[..i]).outcome == Completed
    ensures Pass(Ok(lines)) == PassResult(RunActions(Actions(lines)[..i]).launched, Crashed(EmptyLineIndex))
  {
    var a := Classify(lines[i]);
    assert a == Panic(EmptyLineIndex) by {
      GoStrings.TrimSpaceEmpty(lines[i]);
    }
    var all := Actions(lines);
    assert all[..i + 1] == all[..i] + [a];
    RunActionsSnoc(all[..i], a);
    PanicEndsPass(lines, all[..i + 1]);
  }
}

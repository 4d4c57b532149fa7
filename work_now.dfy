/**
 * The workNow plugin: a mode of 0, 1 or 2 set by the `workNow` command.
 * In mode 1 or 2 pausing the game wakes the job and dig schedulers at once;
 * in mode 2 a job-completion listener does the same after every finished
 * job. The listener is meant to be registered exactly while the mode is 2.
 */
module WorkNowPlugin {

  import opened FarmTypes

  /** The host's state-change events, in the host's order. */
  datatype StateChangeEvent =
    | WorldLoaded | WorldUnloaded | MapLoaded | MapUnloaded | ViewscreenChanged
    | CoreInitialized | BeginUnload | Paused | Unpaused

  /**
   * The plugin's whole state: the mode, the two scheduler flags it writes in
   * the game (`*process_jobs`, `*process_dig`) and whether the job-completion
   * listener is registered with the event manager.
   */
  datatype Plugin = Plugin(mode: int, processJobs: bool, processDig: bool, registered: bool)

  /** The state the plugin starts in: mode 0, no listener. */
  function Initial(processJobs: bool, processDig: bool): Plugin {
    Plugin(0, processJobs, processDig, false)
  }

  predicate ValidMode(p: Plugin) {
    0 <= p.mode <= 2
  }

  /** The intended link between the mode and the listener. */
  predicate Consistent(p: Plugin) {
    p.registered <==> p.mode == 2
  }

  /** What a `workNow` call answers: its result, the mode it reports, and the new state. */
  datatype Reply = Reply(result: CommandResult, report: Option<int>, next: Plugin)

  /** `workNow` calls `registerListener`: the mode moves from some other value to 2. */
  predicate Registers(p: Plugin, argc: nat, a: int) {
    argc == 1 && a == 2 && p.mode != 2
  }

  /** `workNow` calls `unregister`: a valid value moves the mode away from 2. */
  predicate Unregisters(p: Plugin, argc: nat, a: int) {
    argc == 1 && 0 <= a <= 2 && a != 2 && p.mode == 2
  }

  /**
   * `workNow` with `argc` parameters, the first of which reads as `a`. With
   * none it reports the mode; with more than one, or a value outside 0..2, it
   * refuses and changes nothing; otherwise it sets the mode and registers or
   * unregisters the listener when the mode enters or leaves 2.
   */
  function CommandStep(p: Plugin, argc: nat, a: int): (r: Reply)
    ensures r.result == Ok <==> argc == 0 || (argc == 1 && 0 <= a <= 2)
    ensures r.result != Ok ==> r.result == WrongUsage && r.next == p && r.report == None
    ensures argc == 0 ==> r.next == p && r.report == Some(p.mode)
    ensures r.result == Ok && argc == 1 ==> r.next.mode == a && r.report == Some(a)
    ensures r.next.processJobs == p.processJobs && r.next.processDig == p.processDig
    ensures Registers(p, argc, a) ==> r.next.registered
    ensures Unregisters(p, argc, a) ==> !r.next.registered
    ensures !Registers(p, argc, a) && !Unregisters(p, argc, a) ==> r.next.registered == p.registered
    ensures ValidMode(p) ==> ValidMode(r.next)
    ensures Consistent(p) ==> Consistent(r.next)
  {
    if argc == 0 then Reply(Ok, Some(p.mode), p)
    else if argc > 1 then Reply(WrongUsage, None, p)
    else if a < 0 || a > 2 then Reply(WrongUsage, None, p)
    else
      var registered :=
        if a == 2 && p.mode != 2 then true
        else if p.mode == 2 && a != 2 then false
        else p.registered;
      Reply(Ok, Some(a), p.(mode := a, registered := registered))
  }

  /** `plugin_onstatechange` as written: a world unload drops the mode to 0 and leaves the listener alone. */
  function StateChangeStep(p: Plugin, e: StateChangeEvent): (q: Plugin)
    ensures q.registered == p.registered
    ensures e == WorldUnloaded ==> q.mode == 0
    ensures e != WorldUnloaded ==> q.mode == p.mode
    ensures q.processJobs && q.processDig <== p.mode != 0 && e == Paused
    ensures !(p.mode != 0 && e == Paused) ==> q.processJobs == p.processJobs && q.processDig == p.processDig
    ensures ValidMode(p) ==> ValidMode(q)
  {
    if p.mode == 0 then p
    else if e == WorldUnloaded then p.(mode := 0)
    else if e != Paused then p
    else p.(processJobs := true, processDig := true)
  }

  /**
   * The state-change hook as evidently intended: the same, except that
   * leaving mode 2 on a world unload unregisters the listener.
   */
  function StateChangeStepFixed(p: Plugin, e: StateChangeEvent): (q: Plugin)
    ensures q.mode == StateChangeStep(p, e).mode
    ensures q.processJobs == StateChangeStep(p, e).processJobs && q.processDig == StateChangeStep(p, e).processDig
    ensures Consistent(p) ==> Consistent(q)
  {
    var q := StateChangeStep(p, e);
    if p.mode == 2 && q.mode != 2 then q.(registered := false) else q
  }

  /** `jobCompletedHandler`: wakes both schedulers in mode 2 (or above), otherwise does nothing. */
  function JobCompletedStep(p: Plugin): (q: Plugin)
    ensures q.mode == p.mode && q.registered == p.registered
    ensures p.mode >= 2 ==> q.processJobs && q.processDig
    ensures p.mode < 2 ==> q == p
  {
    if p.mode < 2 then p else p.(processJobs := true, processDig := true)
  }

  /** `plugin_shutdown`: the mode goes back to 0. */
  function ShutdownStep(p: Plugin): (q: Plugin)
    ensures q.mode == 0 && ValidMode(q)
    ensures q.registered == p.registered
    ensures q.processJobs == p.processJobs && q.processDig == p.processDig
  {
    p.(mode := 0)
  }

  /** One thing that can happen to the loaded plugin. */
  datatype Input =
    | Command(argc: nat, a: int)
    | StateChange(e: StateChangeEvent)
    | JobCompleted

  /** The state after the inputs `ins`, with the state-change hook as written. */
  function Run(p: Plugin, ins: seq<Input>): Plugin
    decreases |ins|
  {
    if ins == [] then p
    else
      var p' := match ins[0]
        case Command(argc, a) => CommandStep(p, argc, a).next
        case StateChange(e) => StateChangeStep(p, e)
        case JobCompleted => JobCompletedStep(p);
      Run(p', ins[1..])
  }

  /** The state after the inputs `ins`, with the corrected state-change hook. */
  function RunFixed(p: Plugin, ins: seq<Input>): Plugin
    decreases |ins|
  {
    if ins == [] then p
    else
      var p' := match ins[0]
        case Command(argc, a) => CommandStep(p, argc, a).next
        case StateChange(e) => StateChangeStepFixed(p, e)
        case JobCompleted => JobCompletedStep(p);
      RunFixed(p', ins[1..])
  }

  /** Whatever happens, the mode stays within 0..2. */
  lemma {:induction false} ModeStaysValid(p: Plugin, ins: seq<Input>)
    requires ValidMode(p)
    ensures ValidMode(Run(p, ins))
    decreases |ins|
  {
    if ins != [] {
      var p' := match ins[0]
        case Command(argc, a) => CommandStep(p, argc, a).next
        case StateChange(e) => StateChangeStep(p, e)
        case JobCompleted => JobCompletedStep(p);
      ModeStaysValid(p', ins[1..]);
    }
  }

  /** Across `workNow` calls and job completions alone, the listener is registered exactly in mode 2. */
  lemma {:induction false} CommandsKeepListener(p: Plugin, ins: seq<Input>)
    requires Consistent(p)
    requires forall k :: 0 <= k < |ins| ==> !ins[k].StateChange?
    ensures Consistent(Run(p, ins))
    decreases |ins|
  {
    if ins != [] {
      var p' := if ins[0].Command? then CommandStep(p, ins[0].argc, ins[0].a).next else JobCompletedStep(p);
      CommandsKeepListener(p', ins[1..]);
    }
  }

  /** With the corrected hook, the listener is registered exactly in mode 2 whatever happens. */
  lemma {:induction false} FixedKeepsListener(p: Plugin, ins: seq<Input>)
    requires Consistent(p)
    ensures Consistent(RunFixed(p, ins))
    decreases |ins|
  {
    if ins != [] {
      var p' := match ins[0]
        case Command(argc, a) => CommandStep(p, argc, a).next
        case StateChange(e) => StateChangeStepFixed(p, e)
        case JobCompleted => JobCompletedStep(p);
      FixedKeepsListener(p', ins[1..]);
    }
  }

  /**
   * As written, unloading the world in mode 2 leaves the listener registered
   * in mode 0, and a later `workNow 2` registers it a second time.
   */
  lemma UnloadLeavesListener(p: Plugin)
    requires Consistent(p) && p.mode == 2
    ensures var q := StateChangeStep(p, WorldUnloaded);
            && !Consistent(q) && q.registered && q.mode == 0
            && Registers(q, 1, 2)
  {
  }

  /** The same, as a run from the initial state: `workNow 2`, world unload, `workNow 2`. */
  lemma DoubleRegistration()
    ensures var p := Run(Initial(false, false), [Command(1, 2), StateChange(WorldUnloaded)]);
            p.registered && Registers(p, 1, 2)
  {
    var p1 := CommandStep(Initial(false, false), 1, 2).next;
    assert p1.registered && p1.mode == 2;
    UnloadLeavesListener(p1);
  }

  /**
   * The plugin's globals: `mode`, the two scheduler flags it writes in
   * the game, and (as a ghost) the event manager's registration.
   */
  class WorkNow {
    var mode: int
    var processJobs: bool
    var processDig: bool
    ghost var registered: bool

    ghost function State(): Plugin
      reads this
    {
      Plugin(mode, processJobs, processDig, registered)
    }

    constructor(processJobs: bool, processDig: bool)
      ensures State() == Initial(processJobs, processDig)
    {
      mode := 0;
      this.processJobs := processJobs;
      this.processDig := processDig;
      registered := false;
    }

    /** `workNow`: `parsed` is what the first parameter reads as. */
    method Command(parameters: seq<string>, parsed: int) returns (r: CommandResult, report: Option<int>)
      modifies this
      ensures Reply(r, report, State()) == CommandStep(old(State()), |parameters|, parsed)
    {
      if |parameters| == 0 {
        return Ok, Some(mode);
      }
      if |parameters| > 1 {
        return WrongUsage, None;
      }
      var a := parsed;
      if a < 0 || a > 2 {
        return WrongUsage, None;
      }
      if a == 2 && mode != 2 {
        registered := true;
      } else if mode == 2 && a != 2 {
        registered := false;
      }
      mode := a;
      return Ok, Some(mode);
    }

    /** `plugin_onstatechange`, as written. */
    method OnStateChange(e: StateChangeEvent)
      modifies this
      ensures State() == StateChangeStep(old(State()), e)
    {
      if mode == 0 {
        return;
      }
      if e == WorldUnloaded {
        mode := 0;
        return;
      }
      if e != Paused {
        return;
      }
      processJobs := true;
      processDig := true;
    }

    /** `jobCompletedHandler`. */
    method OnJobCompleted()
      modifies this
      ensures State() == JobCompletedStep(old(State()))
    {
      if mode < 2 {
        return;
      }
      processJobs := true;
      processDig := true;
    }

    /** `plugin_shutdown`. */
    method Shutdown()
      modifies this
      ensures State() == ShutdownStep(old(State()))
    {
      mode := 0;
    }
  }
}

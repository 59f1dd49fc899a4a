/** The control loop of src/main.rs: every `CHECK_MS` milliseconds it asks the
    daemon whether the child is alive, checks the network once the grace window
    has passed, and respawns the child (interrupting it first if it still has a
    pid) when it is dead, its status is unknown, or the network is unreachable.

    One pass of the endless `loop` is `ControlLoop.Tick`, proved against the pure
    step `Step`; the properties of the loop are lemmas about `Step`. `Run` drives
    `Tick` over a finite sequence of tick inputs. Time is the counter `elapsed`;
    no clock is involved. */
module MainLoop {
  import opened Wrappers
  import opened Daemon

  /** Time between two passes of the loop, in milliseconds. */
  const CHECK_MS: nat := 100

  /** `--wait-init` and `--wait-check` are given in seconds. */
  function Millis(seconds: nat): nat
  {
    seconds * 1000
  }

  function Max(a: nat, b: nat): nat
  {
    if a < b then b else a
  }

  /** A configuration file; `utf8` is what `to_str()` gives. */
  datatype PathBuf = PathBuf(utf8: Option<string>)

  /** The parsed command line. */
  datatype Opt = Opt(verbose: nat, waitInit: nat, waitCheck: nat, files: seq<PathBuf>)

  /** What stays fixed while the loop runs. */
  datatype Config = Config(waitInitMs: nat, waitCheckMs: nat, files: seq<PathBuf>, hosts: seq<Host>)

  /** What one pass reads and writes: the loop's two counters and the daemon's
      handle and error slot. */
  datatype LoopState = LoopState(isInit: bool, elapsed: nat, child: Option<Child>, error: Option<IoError>)

  /** What the outside world reports during one pass: `try_wait` at the top,
      the shuffle, completion order and results of the network probes,
      `try_wait` inside `get_pid` before interrupting, whether SIGINT is
      delivered, the random number behind the file choice, the spawn, and
      `try_wait` inside `get_pid` right after spawning. */
  datatype TickEnv = TickEnv(
    aliveStatus: TryWait,
    shuffled: seq<Host>,
    completed: seq<Host>,
    probe: Host -> bool,
    pidStatus: TryWait,
    sigintDelivered: bool,
    draw: nat,
    spawn: SpawnResult,
    bootStatus: TryWait)

  /** What the first half of a pass found out about the child. */
  datatype Health = InGrace | Reachable(host: Host) | Unreachable | Dead | StatusError(error: DaemonError)

  /** What the second half of a pass did. `SigintFailed` is the abort of
      `interrupt`; `ConfigFailed` is the `return` out of `main`. */
  datatype Respawn =
    | NoRespawn
    | Interrupted(pid: nat)
    | SigintFailed
    | Started(index: nat, pid: nat)
    | DeadOnBoot(index: nat)
    | ConfigFailed(index: nat)

  datatype TickResult = TickResult(state: LoopState, health: Health, respawn: Respawn)

  /** The pass after which the program ends. */
  predicate Stops(respawn: Respawn)
  {
    respawn.SigintFailed? || respawn.ConfigFailed?
  }

  /** The grace window: too early after a start, or after the previous check. */
  predicate InWindow(cfg: Config, isInit: bool, elapsed: nat)
  {
    (isInit && elapsed < cfg.waitInitMs) || (!isInit && elapsed < cfg.waitCheckMs)
  }

  /** `should_spawn`. */
  predicate ShouldSpawn(health: Health)
  {
    health.Unreachable? || health.Dead? || health.StatusError?
  }

  /** The index of the configuration file to start, as `gen_range(0, len - 1)`
      draws it: that range is half-open, so the last file is never chosen. */
  function PickIndexAsWritten(count: nat, draw: nat): (i: nat)
    requires count > 0
    ensures i < count
  {
    if count == 1 then 0 else draw % (count - 1)
  }

  /** The last of two or more files is never chosen by `PickIndexAsWritten`. */
  lemma LastFileNeverPicked(count: nat, draw: nat)
    requires count > 1
    ensures PickIndexAsWritten(count, draw) != count - 1
  {
  }

  /** The index of the configuration file to start, drawn from every index. */
  function PickIndex(count: nat, draw: nat): (i: nat)
    requires count > 0
    ensures i < count
    ensures draw < count ==> i == draw
  {
    draw % count
  }

  /** Every file can be chosen by `PickIndex`. */
  lemma EveryFilePickable(count: nat, i: nat)
    requires i < count
    ensures exists draw :: PickIndex(count, draw) == i
  {
    assert PickIndex(count, i) == i;
  }

  predicate StepReady(cfg: Config, env: TickEnv)
  {
    |cfg.files| > 0 && |cfg.hosts| > 0 && ProbeOrders(cfg.hosts, env.shuffled, env.completed)
  }

  /** The health half of a pass. */
  function Check(cfg: Config, s: LoopState, env: TickEnv): (h: Health)
    requires StepReady(cfg, env)
    ensures h == InGrace <==> IsAlive(s.child, env.aliveStatus) == Ok(true) && InWindow(cfg, s.isInit, s.elapsed)
    ensures h == Dead <==> IsAlive(s.child, env.aliveStatus) == Ok(false)
    ensures h.StatusError? <==> IsAlive(s.child, env.aliveStatus).Err?
    ensures h.Reachable? || h.Unreachable? ==>
      IsAlive(s.child, env.aliveStatus) == Ok(true) && !InWindow(cfg, s.isInit, s.elapsed)
    ensures h.Reachable? ==> h.host in cfg.hosts && env.probe(h.host)
  {
    match IsAlive(s.child, env.aliveStatus)
    case Err(e) => StatusError(e)
    case Ok(alive) =>
      if !alive then Dead
      else if InWindow(cfg, s.isInit, s.elapsed) then InGrace
      else
        ReachabilitySound(cfg.hosts, env.shuffled, env.completed, env.probe);
        match Reachability(env.shuffled, env.completed, env.probe)
        case Ok(h) => Reachable(h)
        case Err(_) => Unreachable
  }

  /** The respawn half of a pass, entered with the timer already reset. Each
      `get_pid` asks `try_wait` again, so the handle may record an exit. */
  function RespawnStep(cfg: Config, isInit: bool, child: Option<Child>, error: Option<IoError>,
                       health: Health, env: TickEnv): (r: TickResult)
    requires |cfg.files| > 0
    ensures r.health == health && r.respawn != NoRespawn
    ensures r.respawn.Interrupted? <==> GetPid(child, env.pidStatus).Some? && env.sigintDelivered
    ensures r.state.isInit <==> r.respawn.Started? || isInit
    ensures r.respawn.Started? ==> r.state.isInit && r.respawn.index < |cfg.files|
    ensures r.respawn.DeadOnBoot? ==> r.respawn.index < |cfg.files|
    ensures r.respawn.ConfigFailed? ==> r.respawn.index < |cfg.files|
    ensures r.state.elapsed == if Stops(r.respawn) then 0 else CHECK_MS
  {
    var polled := AfterTryWait(child, env.pidStatus);
    match GetPid(child, env.pidStatus)
    case Some(pid) =>
      if env.sigintDelivered then
        TickResult(LoopState(isInit, CHECK_MS, None, error), health, Interrupted(pid))
      else
        TickResult(LoopState(isInit, 0, polled, error), health, SigintFailed)
    case None =>
      var idx := PickIndex(|cfg.files|, env.draw);
      match cfg.files[idx].utf8
      case None => TickResult(LoopState(isInit, 0, polled, error), health, ConfigFailed(idx))
      case Some(_) =>
        var (spawned, error') := AfterExecute(env.spawn);
        var booted := AfterTryWait(spawned, env.bootStatus);
        match GetPid(spawned, env.bootStatus)
        case Some(pid) => TickResult(LoopState(true, CHECK_MS, booted, error'), health, Started(idx, pid))
        case None => TickResult(LoopState(isInit, CHECK_MS, booted, error'), health, DeadOnBoot(idx))
  }

  /** One pass of the loop in `main`. */
  function Step(cfg: Config, s: LoopState, env: TickEnv): (r: TickResult)
    requires StepReady(cfg, env)
    ensures r.health == Check(cfg, s, env)
    ensures r.respawn != NoRespawn <==> ShouldSpawn(r.health)
    ensures r.respawn == NoRespawn ==>
      r.state.child == AfterTryWait(s.child, env.aliveStatus) && r.state.error == s.error
    ensures !Stops(r.respawn) ==> r.state.elapsed >= CHECK_MS
  {
    var health := Check(cfg, s, env);
    var polled := AfterTryWait(s.child, env.aliveStatus);
    var checked := health.Reachable? || health.Unreachable?;
    var isInit := if checked then false else s.isInit;
    var elapsed := if checked then 0 else s.elapsed;
    if ShouldSpawn(health) then
      RespawnStep(cfg, isInit, polled, s.error, health, env)
    else
      var elapsed' := if !isInit && elapsed >= cfg.waitCheckMs then 0 else elapsed;
      TickResult(LoopState(isInit, elapsed' + CHECK_MS, polled, s.error), health, NoRespawn)
  }

  // ---------------------------------------------------------------------------
  // Properties of one pass

  /** Alive and inside the grace window: nothing is interrupted or started, the
      timer only advances by one period and the start flag is kept. */
  lemma GraceTickIdles(cfg: Config, s: LoopState, env: TickEnv)
    requires StepReady(cfg, env)
    requires IsAlive(s.child, env.aliveStatus) == Ok(true) && InWindow(cfg, s.isInit, s.elapsed)
    ensures Step(cfg, s, env) == TickResult(s.(elapsed := s.elapsed + CHECK_MS), InGrace, NoRespawn)
  {
  }

  /** Alive and past the grace window: the network is checked, a respawn follows
      exactly when the check fails, and the start flag ends cleared unless that
      respawn starts a new child (`get_pid` may already see the old one gone); a
      check leaves the timer at one period, and so does a failed one whose
      respawn does not end the program. */
  lemma CheckTickResets(cfg: Config, s: LoopState, env: TickEnv)
    requires StepReady(cfg, env)
    requires IsAlive(s.child, env.aliveStatus) == Ok(true) && !InWindow(cfg, s.isInit, s.elapsed)
    ensures |env.shuffled| > 0
    ensures !Step(cfg, s, env).respawn.Started? ==> !Step(cfg, s, env).state.isInit
    ensures Step(cfg, s, env).respawn == NoRespawn <==> Reachability(env.shuffled, env.completed, env.probe).Ok?
    ensures Reachability(env.shuffled, env.completed, env.probe).Ok? ==>
      Step(cfg, s, env) == TickResult(
        s.(isInit := false, elapsed := CHECK_MS),
        Reachable(Reachability(env.shuffled, env.completed, env.probe).value),
        NoRespawn)
    ensures Reachability(env.shuffled, env.completed, env.probe).Err? && !Stops(Step(cfg, s, env).respawn) ==>
      Step(cfg, s, env).state.elapsed == CHECK_MS
  {
    ReachabilitySound(cfg.hosts, env.shuffled, env.completed, env.probe);
  }

  /** A respawn pass that goes on (an interrupt, a start or a child dead on boot)
      resets the timer before adding one period, so it ends at `CHECK_MS`. */
  lemma RespawnResetsTimer(cfg: Config, s: LoopState, env: TickEnv)
    requires StepReady(cfg, env)
    requires ShouldSpawn(Check(cfg, s, env)) && !Stops(Step(cfg, s, env).respawn)
    ensures Step(cfg, s, env).state.elapsed == CHECK_MS
  {
  }

  /** A respawn is attempted exactly when the child is not alive, its status is
      unknown, or the network check after the grace window fails. */
  lemma RespawnIff(cfg: Config, s: LoopState, env: TickEnv)
    requires StepReady(cfg, env)
    ensures |env.shuffled| > 0
    ensures Step(cfg, s, env).respawn != NoRespawn <==>
      IsAlive(s.child, env.aliveStatus) == Ok(false)
      || IsAlive(s.child, env.aliveStatus).Err?
      || (IsAlive(s.child, env.aliveStatus) == Ok(true) && !InWindow(cfg, s.isInit, s.elapsed)
          && Reachability(env.shuffled, env.completed, env.probe).Err?)
  {
    ReachabilitySound(cfg.hosts, env.shuffled, env.completed, env.probe);
  }

  /** When a respawn finds a pid, the pass only interrupts: the handle is cleared,
      nothing is spawned, and the error slot and start flag are left alone. */
  lemma InterruptWithoutSpawn(cfg: Config, s: LoopState, env: TickEnv)
    requires StepReady(cfg, env)
    requires ShouldSpawn(Check(cfg, s, env))
    requires GetPid(AfterTryWait(s.child, env.aliveStatus), env.pidStatus).Some?
    ensures env.sigintDelivered ==>
      Step(cfg, s, env).respawn == Interrupted(s.child.value.id)
      && Step(cfg, s, env).state == LoopState(
           if Check(cfg, s, env).Unreachable? then false else s.isInit, CHECK_MS, None, s.error)
    ensures !env.sigintDelivered ==> Step(cfg, s, env).respawn == SigintFailed
  {
  }

  /** The file started is always one of the configured files. */
  lemma FileIndexInBounds(cfg: Config, s: LoopState, env: TickEnv)
    requires StepReady(cfg, env)
    ensures Step(cfg, s, env).respawn.Started? ==> Step(cfg, s, env).respawn.index < |cfg.files|
    ensures Step(cfg, s, env).respawn.DeadOnBoot? ==> Step(cfg, s, env).respawn.index < |cfg.files|
    ensures Step(cfg, s, env).respawn.ConfigFailed? ==> Step(cfg, s, env).respawn.index < |cfg.files|
  {
  }

  /** The start flag is set only by a start whose child has a pid right away,
      cleared by every network check, and otherwise kept. */
  lemma InitFlagRule(cfg: Config, s: LoopState, env: TickEnv)
    requires StepReady(cfg, env)
    ensures var r := Step(cfg, s, env);
      r.state.isInit ==
        if r.respawn.Started? then true
        else if r.health.Reachable? || r.health.Unreachable? then false
        else s.isInit
  {
  }

  /** The loop is left by `return` only when the chosen file has no UTF-8 form;
      a child dead on boot, or a failed spawn, lets the loop go on. */
  lemma ReturnsOnlyOnUnreadablePath(cfg: Config, s: LoopState, env: TickEnv)
    requires StepReady(cfg, env)
    ensures Step(cfg, s, env).respawn.ConfigFailed? <==>
      ShouldSpawn(Check(cfg, s, env)) && GetPid(AfterTryWait(s.child, env.aliveStatus), env.pidStatus).None?
      && cfg.files[PickIndex(|cfg.files|, env.draw)].utf8.None?
    ensures Step(cfg, s, env).respawn.DeadOnBoot? ==> !Stops(Step(cfg, s, env).respawn)
    ensures Stops(Step(cfg, s, env).respawn) ==> ShouldSpawn(Check(cfg, s, env))
  {
  }

  /** Spawning fails: the error is recorded, no handle is kept, the pass reports
      the child dead on boot, and the loop carries on. */
  lemma SpawnFailureIsDeadOnBoot(cfg: Config, s: LoopState, env: TickEnv)
    requires StepReady(cfg, env)
    requires ShouldSpawn(Check(cfg, s, env)) && GetPid(AfterTryWait(s.child, env.aliveStatus), env.pidStatus).None?
    requires cfg.files[PickIndex(|cfg.files|, env.draw)].utf8.Some? && env.spawn.SpawnFailed?
    ensures Step(cfg, s, env).respawn == DeadOnBoot(PickIndex(|cfg.files|, env.draw))
    ensures Step(cfg, s, env).state.child == None && Step(cfg, s, env).state.error == Some(env.spawn.error)
  {
  }

  /** A pass that interrupts leaves no handle, so the next pass finds the child
      dead and goes straight to choosing a file, whatever `try_wait` reports. */
  lemma InterruptThenStart(cfg: Config, s: LoopState, env: TickEnv, next: TickEnv)
    requires StepReady(cfg, env) && StepReady(cfg, next)
    requires Step(cfg, s, env).respawn.Interrupted?
    ensures var r := Step(cfg, Step(cfg, s, env).state, next);
      r.health == Dead
      && (r.respawn.Started? || r.respawn.DeadOnBoot? || r.respawn.ConfigFailed?)
      && r.respawn.index == PickIndex(|cfg.files|, next.draw)
  {
  }

  /** A pass that finds the child gone never interrupts: `try_wait` has recorded
      the exit in the handle, so the `get_pid` that follows finds no pid, and the
      pass goes on to choose a file. */
  lemma DeadNeverInterrupted(cfg: Config, s: LoopState, env: TickEnv)
    requires StepReady(cfg, env)
    requires Check(cfg, s, env) == Dead
    ensures !Step(cfg, s, env).respawn.Interrupted? && !Step(cfg, s, env).respawn.SigintFailed?
    ensures Step(cfg, s, env).respawn.Started? || Step(cfg, s, env).respawn.DeadOnBoot?
      || Step(cfg, s, env).respawn.ConfigFailed?
  {
  }

  /** A child that failed to spawn, or was seen to exit right after spawning,
      is found dead by the next pass, whatever `try_wait` would report then. */
  lemma DeadOnBootStaysDead(cfg: Config, s: LoopState, env: TickEnv, next: TickEnv)
    requires StepReady(cfg, env) && StepReady(cfg, next)
    requires Step(cfg, s, env).respawn.DeadOnBoot?
    requires env.spawn.SpawnFailed? || env.bootStatus == Exited
    ensures Check(cfg, Step(cfg, s, env).state, next) == Dead
  {
  }

  /** The timer seen at the top of a pass: a whole number of periods, and below
      the larger window plus one period, or exactly one period (the value every
      pass leaves when both windows are zero). */
  predicate TimerBounded(cfg: Config, elapsed: nat)
  {
    elapsed % CHECK_MS == 0
    && (elapsed < Max(cfg.waitInitMs, cfg.waitCheckMs) + CHECK_MS || elapsed == CHECK_MS)
  }

  /** Every pass that does not end the program keeps the timer bounded. */
  lemma {:induction false} TimerStaysBounded(cfg: Config, s: LoopState, env: TickEnv)
    requires StepReady(cfg, env) && TimerBounded(cfg, s.elapsed)
    requires !Stops(Step(cfg, s, env).respawn)
    ensures TimerBounded(cfg, Step(cfg, s, env).state.elapsed)
    ensures Max(cfg.waitInitMs, cfg.waitCheckMs) == 0 ==> Step(cfg, s, env).state.elapsed == CHECK_MS
  {
    var h := Check(cfg, s, env);
    if h == InGrace {
      assert IsAlive(s.child, env.aliveStatus) == Ok(true) && InWindow(cfg, s.isInit, s.elapsed);
      assert Step(cfg, s, env).state.elapsed == s.elapsed + CHECK_MS;
    }
  }

  /** Three seconds after a start with a five-second initial window, a pass
      with a live child does nothing but advance the timer. */
  lemma GraceScenario(files: seq<PathBuf>, hosts: seq<Host>, child: Child, env: TickEnv)
    requires StepReady(Config(Millis(5), Millis(5), files, hosts), env)
    requires env.aliveStatus == StillRunning && !child.exited
    ensures Step(Config(Millis(5), Millis(5), files, hosts), LoopState(true, 3000, Some(child), None), env)
      == TickResult(LoopState(true, 3100, Some(child), None), InGrace, NoRespawn)
  {
  }

  // ---------------------------------------------------------------------------
  // The loop itself

  /** Where a run of passes ends: the final state, the last pass's respawn, and
      how many passes ran. */
  datatype RunResult = RunResult(state: LoopState, last: Respawn, ticks: nat)

  /** Passes of `Step` over `envs`, from state `s` after a pass that did `last`,
      stopping at the first pass that ends the program. */
  function Fold(cfg: Config, s: LoopState, last: Respawn, envs: seq<TickEnv>): (r: RunResult)
    requires forall i :: 0 <= i < |envs| ==> StepReady(cfg, envs[i])
    ensures r.ticks <= |envs|
    ensures r.ticks < |envs| ==> Stops(r.last)
    ensures r.ticks == 0 <==> envs == [] || Stops(last)
    ensures r.ticks == 0 ==> r.state == s && r.last == last
    decreases |envs|
  {
    if envs == [] || Stops(last) then RunResult(s, last, 0)
    else
      var r := Step(cfg, s, envs[0]);
      var rest := Fold(cfg, r.state, r.respawn, envs[1..]);
      RunResult(rest.state, rest.last, rest.ticks + 1)
  }

  /** Over any number of passes that do not end the program, the timer stays
      bounded, and a run ends early only at a pass that ends the program. */
  lemma {:induction false} FoldKeepsTimerBounded(cfg: Config, s: LoopState, last: Respawn, envs: seq<TickEnv>)
    requires forall i :: 0 <= i < |envs| ==> StepReady(cfg, envs[i])
    requires TimerBounded(cfg, s.elapsed)
    ensures Fold(cfg, s, last, envs).ticks <= |envs|
    ensures Fold(cfg, s, last, envs).ticks < |envs| ==> Stops(Fold(cfg, s, last, envs).last)
    ensures !Stops(Fold(cfg, s, last, envs).last) ==> TimerBounded(cfg, Fold(cfg, s, last, envs).state.elapsed)
    decreases |envs|
  {
    if envs != [] && !Stops(last) {
      var r := Step(cfg, s, envs[0]);
      if Stops(r.respawn) {
        assert Fold(cfg, r.state, r.respawn, envs[1..]) == RunResult(r.state, r.respawn, 0);
      } else {
        TimerStaysBounded(cfg, s, envs[0]);
        FoldKeepsTimerBounded(cfg, r.state, r.respawn, envs[1..]);
      }
    }
  }

  /** The locals of `main` and the daemon they drive. */
  class ControlLoop {
    const daemon: Daemon
    const waitInitMs: nat
    const waitCheckMs: nat
    const files: seq<PathBuf>
    var isInit: bool
    var elapsed: nat

    ghost predicate Valid()
      reads this, daemon
    {
      |files| > 0 && |daemon.hostsAlive| > 0
    }

    function Cfg(): Config
      reads this, daemon
    {
      Config(waitInitMs, waitCheckMs, files, daemon.hostsAlive)
    }

    function State(): LoopState
      reads this, daemon
    {
      LoopState(isInit, elapsed, daemon.child, daemon.error)
    }

    /** The set-up of `main` before the loop: a fresh daemon, the windows in
        milliseconds, no start yet and a zero timer. */
    constructor (opt: Opt)
      requires |opt.files| > 0
      ensures Valid() && fresh(daemon)
      ensures Cfg() == Config(Millis(opt.waitInit), Millis(opt.waitCheck), opt.files, DEFAULT_HOSTS)
      ensures State() == LoopState(false, 0, None, None)
      ensures TimerBounded(Cfg(), elapsed)
    {
      daemon := new Daemon();
      waitInitMs := Millis(opt.waitInit);
      waitCheckMs := Millis(opt.waitCheck);
      files := opt.files;
      isInit := false;
      elapsed := 0;
    }

    /** One pass of the `loop` in `main`. */
    method Tick(env: TickEnv) returns (health: Health, respawn: Respawn)
      requires Valid() && ProbeOrders(daemon.hostsAlive, env.shuffled, env.completed)
      modifies this, daemon
      ensures Valid() && Cfg() == old(Cfg())
      ensures Step(old(Cfg()), old(State()), env) == TickResult(State(), health, respawn)
    {
      health := HealthPass(env);
      respawn := NoRespawn;
      if ShouldSpawn(health) {
        respawn := SpawnPass(health, env);
        if Stops(respawn) {
          return;
        }
      } else if !isInit && elapsed >= waitCheckMs {
        elapsed := 0;
      }
      elapsed := elapsed + CHECK_MS;
    }

    /** The `match daemon.is_alive()` half of a pass: stay idle inside the grace
        window, check the network after it, and decide whether to respawn. */
    method HealthPass(env: TickEnv) returns (health: Health)
      requires Valid() && ProbeOrders(daemon.hostsAlive, env.shuffled, env.completed)
      modifies this, daemon
      ensures Valid() && Cfg() == old(Cfg())
      ensures health == Check(old(Cfg()), old(State()), env)
      ensures daemon.child == AfterTryWait(old(daemon.child), env.aliveStatus) && daemon.error == old(daemon.error)
      ensures var checked := health.Reachable? || health.Unreachable?;
        isInit == (if checked then false else old(isInit))
        && elapsed == (if checked then 0 else old(elapsed))
    {
      var status := daemon.QueryAlive(env.aliveStatus);
      match status {
        case Ok(alive) =>
          if alive {
            if (isInit && elapsed < waitInitMs) || (!isInit && elapsed < waitCheckMs) {
              health := InGrace;
            } else {
              isInit := false;
              var reach := daemon.IsNetworkReachable(env.shuffled, env.completed, env.probe);
              if reach.Ok? {
                health := Reachable(reach.value);
              } else {
                health := Unreachable;
              }
              elapsed := 0;
            }
          } else {
            health := Dead;
          }
        case Err(e) =>
          health := StatusError(e);
      }
    }

    /** The `if should_spawn` half of a pass, up to the final timer step: reset
        the timer, then interrupt a child that still has a pid, or else pick a
        file and start it. */
    method SpawnPass(health: Health, env: TickEnv) returns (respawn: Respawn)
      requires Valid()
      modifies this, daemon
      ensures Valid() && Cfg() == old(Cfg())
      ensures var r := RespawnStep(old(Cfg()), old(isInit), old(daemon.child), old(daemon.error), health, env);
        respawn == r.respawn && isInit == r.state.isInit && daemon.child == r.state.child
        && daemon.error == r.state.error
        && r.state.elapsed == if Stops(respawn) then elapsed else elapsed + CHECK_MS
    {
      elapsed := 0;
      var pid := daemon.QueryPid(env.pidStatus);
      if pid.Some? {
        var aborted := daemon.Interrupt(env.sigintDelivered);
        if aborted {
          return SigintFailed;
        }
        return Interrupted(pid.value);
      }
      var idx := PickIndex(|files|, env.draw);
      var file := files[idx].utf8;
      if file.None? {
        return ConfigFailed(idx);
      }
      daemon.Execute(env.spawn);
      var bootPid := daemon.QueryPid(env.bootStatus);
      if bootPid.Some? {
        respawn := Started(idx, bootPid.value);
        isInit := true;
      } else {
        respawn := DeadOnBoot(idx);
      }
    }

    /** The `loop` of `main`, driven by one tick input per pass until the inputs
        run out or a pass ends the program: the state afterwards is the fold of
        `Step` over the passes run, and the timer stays bounded throughout. */
    method Run(envs: seq<TickEnv>) returns (ticks: nat, last: Respawn)
      requires Valid() && TimerBounded(Cfg(), elapsed)
      requires forall i :: 0 <= i < |envs| ==> StepReady(Cfg(), envs[i])
      modifies this, daemon
      ensures Valid() && Cfg() == old(Cfg())
      ensures Fold(old(Cfg()), old(State()), NoRespawn, envs) == RunResult(State(), last, ticks)
      ensures ticks <= |envs|
      ensures ticks < |envs| ==> Stops(last)
      ensures !Stops(last) ==> TimerBounded(Cfg(), elapsed)
    {
      ticks := 0;
      last := NoRespawn;
      while ticks < |envs| && !Stops(last)
        invariant Valid() && Cfg() == old(Cfg())
        invariant ticks <= |envs|
        invariant !Stops(last) ==> TimerBounded(Cfg(), elapsed)
        invariant var f := Fold(Cfg(), State(), last, envs[ticks..]);
          Fold(old(Cfg()), old(State()), NoRespawn, envs) == RunResult(f.state, f.last, f.ticks + ticks)
        decreases |envs| - ticks
      {
        ghost var before := State();
        assert envs[ticks..][1..] == envs[ticks + 1..];
        var health;
        health, last := Tick(envs[ticks]);
        if !Stops(last) {
          TimerStaysBounded(Cfg(), before, envs[ticks]);
        }
        ticks := ticks + 1;
      }
    }
  }
}

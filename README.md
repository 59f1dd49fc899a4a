# hummingbird-daemon, modelled in Dafny

hummingbird-daemon is a watchdog that keeps one `hummingbird` VPN client process
running. This project models its three working parts, with every operating-system
interaction turned into an input:

- **`Daemon`** (`daemon.dfy`, from `src/daemon.rs`). This is the supervisor object. It holds
  the child handle, the last spawn error and the pool of hosts to probe.
  - `Execute`, `Interrupt`, `Kill` and `SetHostsAlive` are methods on class
    `Daemon.Daemon` that update these fields.
  - The queries `is_alive` and `get_pid`, the output classifiers (`is_root_user`,
    `has_network_error`, `has_recover_error`) and `recover_network` are functions
    (one classifier is a loop method) over the handle. They take as input what
    `try_wait`, the stream read or the recovery run reported. The class methods
    `QueryAlive` and `QueryPid` also record in the handle an exit that
    `try_wait` reports.
  - `is_network_reachable` is a loop method. It takes the shuffled pool, the order
    in which the concurrent probes complete, and the probe results. It is proved
    equal to the specification function `Reachability`, and `ReachabilitySound`
    proves what that answer means.
- **The control loop** (`main_loop.dfy`, from `src/main.rs`). One pass of the
  endless `loop` in `main` is the pure function `MainLoop.Step`.
  - `MainLoop.ControlLoop.Tick` does the same pass imperatively, on the loop's
    locals and the daemon, and is proved to agree with `Step`.
  - `ControlLoop.Run` drives `Tick` over a finite sequence of tick inputs. Its
    final state is the fold of `Step` over those inputs, and it keeps the timer
    invariant.
  - Time is the counter `elapsed`, advanced by `CHECK_MS` = 100 each pass.
- **The verbosity filter** (`logger.dfy`, from `src/logger.rs`). `Logger.Emit` is
  the closure returned by `logger`. It decides whether a line is written, to
  which stream, and with which prefix.

`wrappers.dfy` holds the `Option` and `Result` datatypes.

Notes on the code's behaviour that the model keeps:

- Only ERROR lines go to standard error. WARN, INFO and DEBUG are written with
  `println!` and go to standard output.
- A child that is "dead on boot" is only logged, and the loop goes on. The one
  `return` from the loop is for a configuration path with no UTF-8 form.
- A child handle remembers an exit status once `try_wait` has reported one. So
  a child found gone is never interrupted, and every later query on that handle
  finds it gone.

A `try_wait` error is modelled as the loop's text reads, as a respawn. In the
program as written it ends the program in the log call (see "## Left out").

One behaviour is deliberately not kept. The file choice in the code never picks
the last file (see Findings). `Step` and `Tick` use the corrected choice over
every file. The as-written choice is modelled beside it.

## Model

| member | source | states |
|---|---|---|
| `Daemon.IsAlive` | src/daemon.rs:122-132 | no handle, or a handle that already recorded an exit, gives `Ok(false)`; otherwise `try_wait` = `Ok(None)` gives `Ok(true)`, an exit status gives `Ok(false)`, an error gives `Err(NoStatus)`; both directions |
| `Daemon.AfterTryWait` | src/daemon.rs:124 | `try_wait` keeps the handle; it records an exit the operating system reports and changes nothing else |
| `Daemon.ExitIsRemembered` | src/daemon.rs:122-143 | once `is_alive` has found the child gone, every later `is_alive` on that handle answers `Ok(false)` and every `get_pid` answers `None`, whatever the operating system says |
| `Daemon.GetPid` | src/daemon.rs:134-143 | a pid is returned iff `is_alive` answers `Ok(true)`, and it is the held child's id |
| `Daemon.RecoverNetwork` | src/daemon.rs:88-99 | any held handle, even an exited one, gives `Err(ChildFound)`; with none, the recovery run's exit success, or `Err(CannotRecoverNetwork)` when it cannot run |
| `Daemon.ReadStdout` | src/daemon.rs:196-206 | the text read from standard output; empty with no handle, an unpiped stream, or a failed read |
| `Daemon.ReadStderr` | src/daemon.rs:208-218 | the text read from standard error; empty with no handle, an unpiped stream, or a failed read |
| `Daemon.Contains` | src/daemon.rs:168-170 | the left-to-right scan answers true iff the marker occurs somewhere in the text, which is the meaning of `str::contains` |
| `Daemon.IsRootUser` | src/daemon.rs:145-147 | false iff "need to be root" occurs in standard error |
| `Daemon.HasNetworkError` | src/daemon.rs:166-175 | `NetworkSendError` iff "NETWORK_SEND_ERROR" occurs, even alongside "CONNECT ERROR"; `NetworkConnectError` iff only the latter occurs; `Ok(())` iff neither occurs |
| `Daemon.HasRecoverError` | src/daemon.rs:177-186 | true iff some marker of the list ("not exit gracefully") occurs in standard output |
| `Daemon.SpawnedChildLooksHealthy` | src/daemon.rs:75-86 | a child started by `execute` has no piped streams, so the three classifiers report root, no network error and no recover error |
| `Daemon.FirstReachable` | src/daemon.rs:157-162 | the host returned is the first one in completion order whose probe succeeded; none is returned iff every probe failed |
| `Daemon.ReachabilitySound` | src/daemon.rs:149-164 | for a non-empty pool, `Ok(h)` means `h` is in the pool and its probe succeeded; `Err(NetworkUnreachable)` is returned iff every host's probe failed |
| `Daemon.TwoDeadHosts` | src/daemon.rs:149-164 | a pool of two hosts whose probes both fail gives `NetworkUnreachable`, whatever the shuffle and completion order |
| `Daemon.Reachability` | src/daemon.rs:149-164 | the answer of `is_network_reachable`: `Ok(h)` only for a host whose probe succeeded, either the head of the shuffled list or a host in the completion order; `Err(NetworkUnreachable)` iff the head and every completed probe fail |
| `Daemon.AfterExecute` | src/daemon.rs:75-86 | after `execute`, exactly one of handle and error slot is set: a spawned child with unpiped streams and no recorded exit, or the spawn error |
| `Daemon.Daemon.constructor` | src/daemon.rs:67-73 | no child, no error, the four default hosts |
| `Daemon.Daemon.Execute` | src/daemon.rs:75-86 | exactly one of child and error is set: success holds the new child and clears the error; failure records the error and drops the handle; the pool is unchanged |
| `Daemon.Daemon.Interrupt` | src/daemon.rs:101-111 | with no handle, nothing changes; with one, a delivered SIGINT clears the handle, and a failed one aborts |
| `Daemon.Daemon.Kill` | src/daemon.rs:113-120 | the handle is cleared only when `kill` succeeds, and after that no status reports the child alive and no pid is returned; otherwise nothing changes |
| `Daemon.Daemon.QueryAlive` | src/daemon.rs:122-132 | answers as `IsAlive` and leaves the handle as `try_wait` leaves it; error slot and pool kept |
| `Daemon.Daemon.QueryPid` | src/daemon.rs:134-143 | answers as `GetPid` and leaves the handle as the `try_wait` inside it leaves it; error slot and pool kept |
| `Daemon.Daemon.SetHostsAlive` | src/daemon.rs:188-190 | replaces the pool and nothing else |
| `Daemon.Daemon.IsNetworkReachable` | src/daemon.rs:149-164 | checks the head of the shuffled pool first, then the probe results in completion order, returning the first success; equal to `Reachability` |
| `Logger.Emit` | src/logger.rs:29-35 | a line is emitted iff the level's discriminant (ERROR 0 … DEBUG 3) is at most the verbosity; it goes to standard error iff the level is ERROR; its text is the 18-character prefix "Daemon >>> TAG:" padded with spaces, followed by the message unchanged |
| `Logger.Monotonic` | src/logger.rs:29-35 | a line emitted at verbosity `v` is emitted, unchanged, at every higher verbosity |
| `Logger.ErrorAlwaysEmitted` | src/logger.rs:30 | ERROR lines are emitted at every verbosity, on standard error |
| `Logger.Thresholds` | src/logger.rs:31-33 | WARN is emitted iff verbosity > 0, INFO iff > 1, DEBUG iff > 2 |
| `MainLoop.PickIndexAsWritten` | src/main.rs:119-124 | the index drawn by `gen_range(0, len - 1)`, or 0 for a single file, is within the list |
| `MainLoop.LastFileNeverPicked` | src/main.rs:119-124 | with two or more files, the as-written choice never picks the last file |
| `MainLoop.PickIndex` | src/main.rs:119-124 | the corrected choice is within the list and can return any given index |
| `MainLoop.EveryFilePickable` | src/main.rs:119-124 | every index of the list is picked by some draw |
| `MainLoop.Check` | src/main.rs:76-107 | the health half of a pass: `InGrace` iff the child is alive inside the window, `Dead` iff `is_alive` is `Ok(false)`, `StatusError` iff it is `Err`, and a network verdict only past the window, naming a pool host whose probe succeeded |
| `MainLoop.RespawnStep` | src/main.rs:110-140 | the respawn half of a pass always does something: it interrupts iff `get_pid` finds a pid and SIGINT is delivered, the start flag ends set iff a child starts or it was already set, any file index is in the list, and the timer ends at `CHECK_MS` unless the program ends |
| `MainLoop.Step` | src/main.rs:75-147 | one pass of the loop: a respawn happens iff the health half calls for one, a pass without one keeps the error slot and records `try_wait` in the handle, and a pass that goes on ends with the timer at least `CHECK_MS` |
| `MainLoop.Fold` | src/main.rs:74-148 | a run of passes: at most one pass per input, stopping early only after a pass that ends the program, and doing nothing when there is no input or the program has already ended |
| `MainLoop.GraceTickIdles` | src/main.rs:78-84 | alive and inside the window: no interrupt or start, the start flag and handle are kept, the timer only grows by `CHECK_MS` |
| `MainLoop.CheckTickResets` | src/main.rs:84-147 | alive and past the window: respawn iff the network check fails; a successful check clears the start flag and leaves the timer at one period, and so does a failed check whose respawn does not end the program; the flag ends cleared unless the respawn starts a child |
| `MainLoop.RespawnIff` | src/main.rs:76-107 | a respawn is attempted iff `is_alive` is `Ok(false)`, or `Err`, or `Ok(true)` past the window with the network unreachable |
| `MainLoop.InterruptWithoutSpawn` | src/main.rs:110-117 | a respawn that finds a pid only interrupts: the handle is cleared, nothing is spawned, the error slot is kept, and a failed SIGINT aborts |
| `MainLoop.InterruptThenStart` | src/main.rs:114-126 | after a pass that interrupts, the next pass sees no live child and goes on to pick a file and start it, without interrupting again |
| `MainLoop.DeadNeverInterrupted` | src/main.rs:97-124 | a pass that finds the child gone never interrupts: the exit is recorded, so `get_pid` finds no pid and the pass goes on to pick a file |
| `MainLoop.DeadOnBootStaysDead` | src/main.rs:125-135 | after a failed spawn, or a child seen to exit right after spawning, the next pass finds the child dead |
| `MainLoop.FileIndexInBounds` | src/main.rs:119-124 | the file picked is always one of the configured files |
| `MainLoop.InitFlagRule` | src/main.rs:85-132 | the start flag is set only when `get_pid` returns a pid right after `execute`, cleared by a network check, and otherwise kept |
| `MainLoop.ReturnsOnlyOnUnreadablePath` | src/main.rs:125-138 | the loop returns iff a respawn with no pid picks a file with no UTF-8 form; "dead on boot" does not stop it |
| `MainLoop.RespawnResetsTimer` | src/main.rs:110-147 | a respawn pass that does not end the program (an interrupt, a start, a child dead on boot) resets the timer and ends with it at one period |
| `MainLoop.SpawnFailureIsDeadOnBoot` | src/main.rs:125-135 | a failed spawn records the error, keeps no handle and reports the child dead on boot |
| `MainLoop.TimerStaysBounded` | src/main.rs:73-147 | a pass that does not end the program keeps the timer a multiple of `CHECK_MS`, below the larger window plus `CHECK_MS` or equal to `CHECK_MS`; with both windows zero, every such pass leaves it at exactly `CHECK_MS` |
| `MainLoop.FoldKeepsTimerBounded` | src/main.rs:74-148 | over any sequence of passes the timer stays bounded until a pass ends the program, and a run ends early only at such a pass |
| `MainLoop.GraceScenario` | src/main.rs:80-84 | with a five-second initial window and 3000 ms elapsed since the start, a live child is left alone |
| `MainLoop.ControlLoop.constructor` | src/main.rs:65-73 | the set-up before the loop: a fresh daemon, the windows converted from seconds to milliseconds, the start flag false, the timer 0 |
| `MainLoop.ControlLoop.Tick` | src/main.rs:75-147 | one pass of the loop changes the flag, timer, handle and error slot exactly as `Step` does, and keeps the configuration |
| `MainLoop.ControlLoop.HealthPass` | src/main.rs:76-107 | the health half of a pass answers as `Check`, records any exit in the handle, and clears the flag and timer exactly when the network was checked |
| `MainLoop.ControlLoop.SpawnPass` | src/main.rs:110-140 | the respawn half of a pass leaves the respawn, flag, handle and error slot as `RespawnStep` does, with the timer reset |
| `MainLoop.ControlLoop.Run` | src/main.rs:74-148 | the state after the passes, the last respawn and the number of passes are the fold of `Step` over the inputs, stopping at a pass that ends the program; the timer stays bounded throughout |

## Left out

- Process operations become inputs: `spawn`, `try_wait`, `kill`, SIGINT delivery
  through `nix`, and the exit status of the recovery run. The model states only
  how the handle and error slot change given what they report.
- `wait` (src/daemon.rs:108, 116) and the recovery `output()`
  (src/daemon.rs:90-92) are assumed to return. A child that never exits after
  SIGINT blocks `interrupt` at src/daemon.rs:108, and with it the loop at
  src/main.rs:116. The model does not capture that: `Daemon.Daemon.Interrupt`
  and `Daemon.Daemon.Kill` clear the handle as if `wait` always returns.
- `ping` (a `/bin/sh -c "ping -c1 …"` run) is the input `probe`, which always
  answers; the `expect("No shell?")` panic at src/daemon.rs:35 when the shell
  cannot be run is not modelled. The host at the head of the shuffled list is probed twice,
  and the model gives it the same result both times.
- The concurrent fan-out of probes through `pipeliner` is a sequential pass over
  their completion order, which is an input.
- `rand` is an input. `shuffle` is any permutation of the pool, and `gen_range`
  is a number `draw` reduced into the range.
- `MainLoop.Step`: picks the file with the corrected `PickIndex`, not the
  as-written `gen_range(0, len - 1)`, so it can start the last file, which the
  code never does (see Findings).
- `MainLoop.ControlLoop.Tick`: picks the file the same way as `Step`, through
  `SpawnPass`, so it can start the last file, which the code never does.
- `MainLoop.PickIndex`: states that every index can be chosen, not that the
  choice is uniform, because the random draw is an input.
- Sleeping and the wall clock: a pass adds `CHECK_MS` to the timer.
- `StructOpt` parsing: the parsed options are the datatype `Opt`.
- Printing: the logger's output is the `Line` it would print. The log calls
  inside the loop are not modelled.
- The `Display` impl of `DaemonError` (src/daemon.rs:50-54) formats `self` inside
  its own `fmt`, which recurses until the stack overflows. Only the error enum is
  modelled.
- `MainLoop.Step`, `MainLoop.Check` and `MainLoop.RespawnIff`: the `Err` arm of
  `is_alive` (src/main.rs:103-106) is modelled as its text reads, with
  `should_spawn = true` and a respawn in the same pass. The program as written
  never gets that far. The `format!("is_alive -> {}", err)` at src/main.rs:104
  calls that `Display` impl, so a `try_wait` error ends the program in the log
  call, before any respawn. `MainLoop.ControlLoop.Tick` and
  `MainLoop.ControlLoop.Run` inherit this.
- Draining a stream by reading it: a captured stream is the text a read would
  return (`Capture`).
- Integer widths: pids and the verbosity are `u32` in the source and
  unbounded `nat` here. The overflow of `wait_init * 1000` in `usize` is not
  modelled, and neither is the `as i32` cast of the pid before SIGINT.
- `is_network_reachable` indexes the head of the pool and panics on an empty
  one. The model requires a non-empty pool instead of modelling that panic.
- The endless `loop` is modelled over a finite sequence of passes (`Run`).

## Findings

| source | as written | input that shows it | evidently intended | confidence | as-written member | corrected member |
|---|---|---|---|---|---|---|
| src/main.rs:122 | `rng.gen_range(0, opt.files.len() - 1)` draws from a half-open range, so the index is at most `len - 2` | two files: every draw picks index 0, and the second file is never used | any configured file can be picked ("Random on each execution if more than one") | high, not executed | `MainLoop.PickIndexAsWritten`, `MainLoop.LastFileNeverPicked` | `MainLoop.PickIndex`, `MainLoop.EveryFilePickable` (used by `Step` and `Tick`) |

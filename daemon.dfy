/** The supervisor of one `hummingbird` child process (src/daemon.rs).

    Every operating-system call is an oracle input: what `spawn`, `try_wait`,
    `kill`, the SIGINT delivery, `read_to_string`, `ping`, `shuffle` and the
    completion order of the concurrent probes reported. The model states how the
    handle and the error slot change, and what each query answers, given those
    reports. */
module Daemon {
  import opened Wrappers

  /** The error kinds of `DaemonError`. */
  datatype DaemonError =
    | NoStatus
    | ChildFound
    | CannotRecoverNetwork
    | NetworkUnreachable
    | NetworkSendError
    | NetworkConnectError

  /** An `io::Error` from a failed spawn; only its presence matters here. */
  datatype IoError = IoError(code: int)

  /** What reading one standard stream of the child gives: the stream was not
      piped (`child.stdout` is `None`), `read_to_string` failed, or the text read. */
  datatype Capture = NotPiped | ReadFails | Text(text: string)

  /** A live or exited child: its process id, its two standard streams, and
      whether the handle has already recorded an exit status (once `try_wait`
      has seen the child exit, the handle keeps that status and every later
      `try_wait` returns it without asking the operating system again). */
  datatype Child = Child(id: nat, stdout: Capture, stderr: Capture, exited: bool)

  /** The handle `execute` obtains: streams not piped, no exit status yet. */
  function NewChild(pid: nat): Child
  {
    Child(pid, NotPiped, NotPiped, false)
  }

  /** What the operating system reports to `child.try_wait()` for a handle with
      no recorded exit status: `Ok(None)`, `Ok(Some(status))` or `Err(_)`. */
  datatype TryWait = StillRunning | Exited | WaitFailed

  /** What `Command::new("hummingbird").arg(config).spawn()` reports. */
  datatype SpawnResult = Spawned(pid: nat) | SpawnFailed(error: IoError)

  /** What `Command::new("hummingbird").arg("--recover-network").output()`
      reports: it ran, with a successful exit status or not, or it could not run. */
  datatype RecoverRun = Ran(success: bool) | CouldNotRun

  type Host = string

  const DEFAULT_HOSTS: seq<Host> := ["8.8.8.8", "8.8.6.6", "1.1.1.1", "1.0.0.1"]

  // ---------------------------------------------------------------------------
  // Queries on the handle `self.child`

  /** `is_alive`: no handle is "not alive"; otherwise the answer of `try_wait`,
      which is "exited" for a handle that already recorded an exit status. The
      handle is never dropped, even for an exited child. */
  function IsAlive(child: Option<Child>, status: TryWait): (r: Result<bool, DaemonError>)
    ensures r == Ok(true) <==> child.Some? && !child.value.exited && status == StillRunning
    ensures r.Err? <==> child.Some? && !child.value.exited && status == WaitFailed
    ensures r.Err? ==> r.error == NoStatus
    ensures child.None? || child.value.exited ==> r == Ok(false)
  {
    match child
    case None => Ok(false)
    case Some(c) =>
      if c.exited then Ok(false)
      else
        match status
        case StillRunning => Ok(true)
        case WaitFailed => Err(NoStatus)
        case Exited => Ok(false)
  }

  /** The handle after one `try_wait`: an exit the operating system reports is
      recorded in it; nothing else changes. */
  function AfterTryWait(child: Option<Child>, status: TryWait): (c: Option<Child>)
    ensures c.Some? == child.Some?
    ensures child.Some? ==> c.value.(exited := child.value.exited) == child.value
    ensures child.Some? ==> (c.value.exited <==> child.value.exited || status == Exited)
  {
    match child
    case Some(h) => if status == Exited then Some(h.(exited := true)) else child
    case None => None
  }

  /** Once `try_wait` has reported a child gone, every later `is_alive` and
      `get_pid` on that handle reports it gone, whatever the operating system
      would answer. */
  lemma ExitIsRemembered(child: Option<Child>, status: TryWait, later: TryWait)
    requires IsAlive(child, status) == Ok(false)
    ensures IsAlive(AfterTryWait(child, status), later) == Ok(false)
    ensures GetPid(AfterTryWait(child, status), later) == None
  {
  }

  /** `get_pid`: the child's id exactly when `is_alive` answers `Ok(true)`. */
  function GetPid(child: Option<Child>, status: TryWait): (r: Option<nat>)
    ensures r.Some? <==> IsAlive(child, status) == Ok(true)
    ensures r.Some? ==> child.Some? && r.value == child.value.id
  {
    match IsAlive(child, status)
    case Ok(alive) =>
      if alive then
        match child
        case Some(c) => Some(c.id)
        case None => None
      else None
    case Err(_) => None
  }

  /** `recover_network`: refused while a handle is held, whether or not the child
      still runs; otherwise the exit success of the one-shot recovery run. */
  function RecoverNetwork(child: Option<Child>, run: RecoverRun): (r: Result<bool, DaemonError>)
    ensures child.Some? ==> r == Err(ChildFound)
    ensures child.None? && run.Ran? ==> r == Ok(run.success)
    ensures child.None? && run.CouldNotRun? ==> r == Err(CannotRecoverNetwork)
  {
    if child.None? then
      match run
      case Ran(success) => Ok(success)
      case CouldNotRun => Err(CannotRecoverNetwork)
    else
      Err(ChildFound)
  }

  /** The text of a captured stream: empty when there is no handle, no pipe, or
      the read fails. */
  function ReadCapture(capture: Capture): string
  {
    match capture
    case Text(s) => s
    case _ => ""
  }

  /** `read_stdout`: the text read from the child's standard output; empty with
      no handle, no pipe, or a failed read. */
  function ReadStdout(child: Option<Child>): (s: string)
    ensures child.None? ==> s == ""
    ensures child.Some? && !child.value.stdout.Text? ==> s == ""
    ensures child.Some? && child.value.stdout.Text? ==> s == child.value.stdout.text
  {
    match child
    case None => ""
    case Some(c) => ReadCapture(c.stdout)
  }

  /** `read_stderr`: the text read from the child's standard error; empty with
      no handle, no pipe, or a failed read. */
  function ReadStderr(child: Option<Child>): (s: string)
    ensures child.None? ==> s == ""
    ensures child.Some? && !child.value.stderr.Text? ==> s == ""
    ensures child.Some? && child.value.stderr.Text? ==> s == child.value.stderr.text
  {
    match child
    case None => ""
    case Some(c) => ReadCapture(c.stderr)
  }

  // ---------------------------------------------------------------------------
  // Substring search, the `str::contains` the classifiers rely on

  /** `marker` occurs in `text` starting at position `i`. */
  ghost predicate OccursAt(marker: string, text: string, i: int)
  {
    0 <= i && i + |marker| <= |text| && text[i..i + |marker|] == marker
  }

  ghost predicate Occurs(marker: string, text: string)
  {
    exists i :: OccursAt(marker, text, i)
  }

  /** `text.contains(marker)`, by scanning from the left. */
  function Contains(text: string, marker: string): (b: bool)
    ensures b <==> Occurs(marker, text)
    decreases |text|
  {
    if |text| < |marker| then
      false
    else if text[..|marker|] == marker then
      assert OccursAt(marker, text, 0);
      true
    else
      var rest := Contains(text[1..], marker);
      ShiftOccurs(marker, text);
      rest
  }

  /** An occurrence in `text` not at the front is an occurrence in `text[1..]`,
      one position earlier, and conversely. */
  lemma ShiftOccurs(marker: string, text: string)
    requires |text| >= |marker| && text[..|marker|] != marker
    ensures Occurs(marker, text) <==> Occurs(marker, text[1..])
  {
    if Occurs(marker, text) {
      var i :| OccursAt(marker, text, i);
      assert i != 0;
      assert text[1..][i - 1..i - 1 + |marker|] == text[i..i + |marker|];
      assert OccursAt(marker, text[1..], i - 1);
    }
    if Occurs(marker, text[1..]) {
      var j :| OccursAt(marker, text[1..], j);
      assert text[j + 1..j + 1 + |marker|] == text[1..][j..j + |marker|];
      assert OccursAt(marker, text, j + 1);
    }
  }

  // ---------------------------------------------------------------------------
  // Classifiers of the captured output

  const NEED_ROOT := "need to be root"
  const SEND_ERROR := "NETWORK_SEND_ERROR"
  const CONNECT_ERROR := "CONNECT ERROR"
  const RECOVER_ERRORS: seq<string> := ["not exit gracefully"]

  /** `is_root_user`: false exactly when standard error mentions the need for root. */
  function IsRootUser(child: Option<Child>): (r: bool)
    ensures r <==> !Occurs(NEED_ROOT, ReadStderr(child))
  {
    !Contains(ReadStderr(child), NEED_ROOT)
  }

  /** `has_network_error`: a send error wins over a connect error; neither
      marker is success. */
  function HasNetworkError(child: Option<Child>): (r: Result<(), DaemonError>)
    ensures r == Err(NetworkSendError) <==> Occurs(SEND_ERROR, ReadStdout(child))
    ensures r == Err(NetworkConnectError) <==>
      !Occurs(SEND_ERROR, ReadStdout(child)) && Occurs(CONNECT_ERROR, ReadStdout(child))
    ensures r == Ok(()) <==>
      !Occurs(SEND_ERROR, ReadStdout(child)) && !Occurs(CONNECT_ERROR, ReadStdout(child))
  {
    var stdout := ReadStdout(child);
    if Contains(stdout, SEND_ERROR) then Err(NetworkSendError)
    else if Contains(stdout, CONNECT_ERROR) then Err(NetworkConnectError)
    else Ok(())
  }

  /** `has_recover_error`: whether standard output mentions any of the markers of
      an ungraceful exit, scanning the marker list with an early return. */
  method HasRecoverError(child: Option<Child>) returns (b: bool)
    ensures b <==> exists k :: 0 <= k < |RECOVER_ERRORS| && Occurs(RECOVER_ERRORS[k], ReadStdout(child))
  {
    var stdout := ReadStdout(child);
    for k := 0 to |RECOVER_ERRORS|
      invariant forall j :: 0 <= j < k ==> !Occurs(RECOVER_ERRORS[j], stdout)
    {
      if Contains(stdout, RECOVER_ERRORS[k]) {
        return true;
      }
    }
    return false;
  }

  /** A child spawned by `execute` has no piped streams, so every classifier
      sees empty text and reports a healthy child. */
  lemma SpawnedChildLooksHealthy(pid: nat)
    ensures IsRootUser(Some(NewChild(pid)))
    ensures HasNetworkError(Some(NewChild(pid))) == Ok(())
    ensures forall k :: 0 <= k < |RECOVER_ERRORS| ==> !Occurs(RECOVER_ERRORS[k], ReadStdout(Some(NewChild(pid))))
  {
  }

  // ---------------------------------------------------------------------------
  // Network reachability

  /** The first host of `order` whose probe succeeds. */
  function FirstReachable(order: seq<Host>, probe: Host -> bool): (r: Option<Host>)
    ensures r.Some? ==> r.value in order && probe(r.value)
    ensures r.None? <==> forall k :: 0 <= k < |order| ==> !probe(order[k])
    ensures r.Some? ==>
      (exists k :: 0 <= k < |order| && order[k] == r.value && forall j :: 0 <= j < k ==> !probe(order[j]))
  {
    if order == [] then None
    else if probe(order[0]) then Some(order[0])
    else
      var r := FirstReachable(order[1..], probe);
      assert forall k :: 1 <= k < |order| ==> order[k] == order[1..][k - 1];
      r
  }

  /** What `is_network_reachable` answers, given the shuffled host list, the order
      in which the concurrent probes of all of them complete, and the probe
      results: the head of the shuffled list if its probe succeeds, else the
      first successful probe in completion order. */
  function Reachability(shuffled: seq<Host>, completed: seq<Host>, probe: Host -> bool): (r: Result<Host, DaemonError>)
    requires |shuffled| > 0
    ensures r.Ok? ==> probe(r.value) && (r.value == shuffled[0] || r.value in completed)
    ensures r.Err? <==> !probe(shuffled[0]) && forall k :: 0 <= k < |completed| ==> !probe(completed[k])
    ensures r.Err? ==> r.error == NetworkUnreachable
  {
    if probe(shuffled[0]) then Ok(shuffled[0])
    else
      match FirstReachable(completed, probe)
      case Some(h) => Ok(h)
      case None => Err(NetworkUnreachable)
  }

  /** The shuffle permutes the pool, and the completed probes cover the shuffled
      list once each. */
  predicate ProbeOrders(hosts: seq<Host>, shuffled: seq<Host>, completed: seq<Host>)
  {
    multiset(shuffled) == multiset(hosts) && multiset(completed) == multiset(shuffled)
  }

  /** For a non-empty pool, the answer is a pool member whose probe succeeded,
      or `NetworkUnreachable` exactly when every member's probe failed. */
  lemma ReachabilitySound(hosts: seq<Host>, shuffled: seq<Host>, completed: seq<Host>, probe: Host -> bool)
    requires |hosts| > 0 && ProbeOrders(hosts, shuffled, completed)
    ensures |shuffled| > 0
    ensures Reachability(shuffled, completed, probe).Ok? ==>
      Reachability(shuffled, completed, probe).value in hosts && probe(Reachability(shuffled, completed, probe).value)
    ensures Reachability(shuffled, completed, probe).Err? <==> forall h :: h in hosts ==> !probe(h)
    ensures Reachability(shuffled, completed, probe).Err? ==>
      Reachability(shuffled, completed, probe).error == NetworkUnreachable
  {
    assert |shuffled| == |multiset(shuffled)| == |multiset(hosts)| == |hosts|;
    assert shuffled[0] in multiset(shuffled);
    var r := Reachability(shuffled, completed, probe);
    if r.Ok? {
      if r.value != shuffled[0] {
        assert r.value in multiset(completed);
      }
      assert r.value in multiset(hosts);
    }
    if r.Err? {
      forall h | h in hosts ensures !probe(h) {
        assert h in multiset(completed);
        var k :| 0 <= k < |completed| && completed[k] == h;
      }
    } else {
      assert r.value in hosts && probe(r.value);
    }
  }

  /** Two unreachable documentation addresses: the check reports `NetworkUnreachable`
      whatever the shuffle and the completion order. */
  lemma TwoDeadHosts(shuffled: seq<Host>, completed: seq<Host>, probe: Host -> bool)
    requires ProbeOrders(["198.51.100.1", "198.51.100.2"], shuffled, completed)
    requires !probe("198.51.100.1") && !probe("198.51.100.2")
    ensures |shuffled| > 0 && Reachability(shuffled, completed, probe) == Err(NetworkUnreachable)
  {
    ReachabilitySound(["198.51.100.1", "198.51.100.2"], shuffled, completed, probe);
  }

  // ---------------------------------------------------------------------------
  // The daemon object

  /** The daemon's handle and error slot after `execute`. */
  function AfterExecute(spawn: SpawnResult): (r: (Option<Child>, Option<IoError>))
    ensures r.0.Some? != r.1.Some?
    ensures r.0.Some? <==> spawn.Spawned?
    ensures r.0.Some? ==> r.0.value.id == spawn.pid && !r.0.value.exited
    ensures r.0.Some? ==> r.0.value.stdout == NotPiped && r.0.value.stderr == NotPiped
    ensures r.1.Some? ==> r.1.value == spawn.error
  {
    match spawn
    case Spawned(pid) => (Some(NewChild(pid)), None)
    case SpawnFailed(e) => (None, Some(e))
  }

  /** `Daemon`: the child handle, the last spawn error, and the probe pool. */
  class Daemon {
    var child: Option<Child>
    var error: Option<IoError>
    var hostsAlive: seq<Host>

    /** `Daemon::new`: no child, no error, the four default hosts. */
    constructor ()
      ensures child == None && error == None && hostsAlive == DEFAULT_HOSTS
    {
      child := None;
      error := None;
      hostsAlive := DEFAULT_HOSTS;
    }

    /** `execute`: a successful spawn holds the new child and clears the error;
        a failed one records the error and drops any handle. Exactly one of the
        two slots is set afterwards. The child's streams are not piped. */
    method Execute(spawn: SpawnResult)
      modifies this
      ensures hostsAlive == old(hostsAlive)
      ensures (child, error) == AfterExecute(spawn)
      ensures child.Some? != error.Some?
      ensures spawn.Spawned? ==> child == Some(NewChild(spawn.pid)) && error == None
      ensures spawn.SpawnFailed? ==> child == None && error == Some(spawn.error)
    {
      match spawn
      case Spawned(pid) =>
        child := Some(NewChild(pid));
        error := None;
      case SpawnFailed(e) =>
        error := Some(e);
        child := None;
    }

    /** `interrupt`: with no handle, nothing happens. With a handle, SIGINT is sent;
        if it cannot be delivered the program aborts (`aborted`), otherwise the
        child is reaped and the handle cleared. */
    method Interrupt(sigintDelivered: bool) returns (aborted: bool)
      modifies this
      ensures error == old(error) && hostsAlive == old(hostsAlive)
      ensures aborted <==> old(child).Some? && !sigintDelivered
      ensures child == if old(child).Some? && sigintDelivered then None else old(child)
    {
      aborted := false;
      if child.Some? {
        if !sigintDelivered {
          return true;
        }
        child := None;
      }
    }

    /** `kill`: the handle is cleared only when `child.kill()` succeeds; after that
        the daemon reports no live child and no pid, whatever `try_wait` would say. */
    method Kill(killSucceeds: bool)
      modifies this
      ensures error == old(error) && hostsAlive == old(hostsAlive)
      ensures child == if old(child).Some? && killSucceeds then None else old(child)
      ensures old(child).Some? && killSucceeds ==>
        forall s :: IsAlive(child, s) == Ok(false) && GetPid(child, s) == None
    {
      if child.Some? && killSucceeds {
        child := None;
      }
    }

    /** `is_alive` on the held handle: the answer, and the handle with any exit
        that `try_wait` reported now recorded in it. */
    method QueryAlive(status: TryWait) returns (r: Result<bool, DaemonError>)
      modifies this
      ensures error == old(error) && hostsAlive == old(hostsAlive)
      ensures r == IsAlive(old(child), status) && child == AfterTryWait(old(child), status)
    {
      r := IsAlive(child, status);
      child := AfterTryWait(child, status);
    }

    /** `get_pid` on the held handle: the pid when `is_alive` answers `Ok(true)`,
        and the handle after the `try_wait` inside that call. */
    method QueryPid(status: TryWait) returns (pid: Option<nat>)
      modifies this
      ensures error == old(error) && hostsAlive == old(hostsAlive)
      ensures pid == GetPid(old(child), status) && child == AfterTryWait(old(child), status)
    {
      var alive := QueryAlive(status);
      pid := None;
      if alive == Ok(true) {
        pid := Some(child.value.id);
      }
    }

    /** `set_hosts_alive`: replaces the probe pool and nothing else. */
    method SetHostsAlive(hosts: seq<Host>)
      modifies this
      ensures hostsAlive == hosts && child == old(child) && error == old(error)
    {
      hostsAlive := hosts;
    }

    /** `is_network_reachable`: probe the head of the shuffled pool; if it fails,
        run through the results of probing every host in completion order and
        return the first success. */
    method IsNetworkReachable(shuffled: seq<Host>, completed: seq<Host>, probe: Host -> bool)
      returns (r: Result<Host, DaemonError>)
      requires |hostsAlive| > 0 && ProbeOrders(hostsAlive, shuffled, completed)
      ensures |shuffled| > 0 && r == Reachability(shuffled, completed, probe)
    {
      assert |shuffled| == |multiset(shuffled)| == |multiset(hostsAlive)|;
      var hosts := shuffled;
      if probe(hosts[0]) {
        return Ok(hosts[0]);
      }
      for i := 0 to |completed|
        invariant forall j :: 0 <= j < i ==> !probe(completed[j])
      {
        if probe(completed[i]) {
          return Ok(completed[i]);
        }
      }
      return Err(NetworkUnreachable);
    }
  }
}

/** The worker supervisor: the module-level `process` handle and the three
    things that change it, `startPPPwn`, `killPPPwn` and the child's `close`
    callback (index.js lines 14, 34-65).

    Spawning and signalling are operating-system calls; they appear here as
    `Effect`s, and the operating system's side of the story (which processes
    exist, which have been sent SIGTERM) is kept beside the handle so that
    properties about orphaned workers can be stated. */
module Supervisor {
  import opened Wrappers
  import Config

  /** Process ids are handed out in order, starting from 0. */
  type Pid = nat

  const SIGTERM: string := "SIGTERM"

  /** What the supervisor asks of the operating system. */
  datatype Effect =
    | Spawn(pid: Pid, program: string, args: seq<string>)
    | Signal(pid: Pid, signal: string)

  /** `handle` is the `process` variable; `nextPid`, `running` and
      `signalled` are the operating system's record: the next id a spawn
      gets, the children that have not closed yet, and the children that
      have been sent SIGTERM. */
  datatype Worker = Worker(handle: Option<Pid>, nextPid: Pid, running: set<Pid>, signalled: set<Pid>)

  /** At start-up there is no handle and no child. */
  const Initial: Worker := Worker(None, 0, {}, {})

  /** The reported status: a worker is held exactly when the status is
      "started". */
  predicate Held(w: Worker)
  {
    w.handle.Some?
  }

  /** The handle always names a child that has not closed (the close
      callback clears it), and every recorded id was handed out. */
  predicate Valid(w: Worker)
  {
    && (w.handle.Some? ==> w.handle.value in w.running)
    && (forall p :: p in w.running ==> p < w.nextPid)
    && (forall p :: p in w.signalled ==> p < w.nextPid)
  }

  /** No child runs unsupervised: each running child is either the held
      worker or one that has been told to terminate. */
  predicate NoOrphans(w: Worker)
  {
    forall p :: p in w.running ==> w.handle == Some(p) || p in w.signalled
  }

  /** The state after a command, the string the command returns, and what it
      asked of the operating system. */
  datatype Outcome = Outcome(worker: Worker, result: string, effects: seq<Effect>)

  /** `startPPPwn`: spawns the configured command only when no worker is
      held. */
  function Start(argv: Config.Argv, w: Worker): (o: Outcome)
    ensures Held(o.worker)
    ensures Held(w) ==> o == Outcome(w, "already started", [])
    ensures !Held(w) ==>
      && o.result == "started"
      && o.effects == [Spawn(w.nextPid, argv[0], argv[1..])]
      && o.worker.handle == Some(w.nextPid)
      && o.worker.running == w.running + {w.nextPid}
      && o.worker.signalled == w.signalled
    ensures Valid(w) && !Held(w) ==> w.nextPid !in w.running && w.nextPid !in w.signalled
    ensures Valid(w) ==> Valid(o.worker)
    ensures NoOrphans(w) ==> NoOrphans(o.worker)
  {
    if w.handle.Some? then
      Outcome(w, "already started", [])
    else
      var pid := w.nextPid;
      Outcome(Worker(Some(pid), pid + 1, w.running + {pid}, w.signalled),
              "started", [Spawn(pid, argv[0], argv[1..])])
  }

  /** `killPPPwn`: sends SIGTERM to the held worker and forgets it at once,
      without waiting for it to exit. */
  function Stop(w: Worker): (o: Outcome)
    ensures !Held(o.worker)
    ensures !Held(w) ==> o == Outcome(w, "already stopped", [])
    ensures Held(w) ==>
      && o.result == "stopped"
      && o.effects == [Signal(w.handle.value, SIGTERM)]
      && o.worker.running == w.running
      && o.worker.signalled == w.signalled + {w.handle.value}
      && o.worker.nextPid == w.nextPid
    ensures Valid(w) ==> Valid(o.worker)
    ensures NoOrphans(w) ==> NoOrphans(o.worker)
  {
    match w.handle
    case None => Outcome(w, "already stopped", [])
    case Some(pid) =>
      Outcome(Worker(None, w.nextPid, w.running, w.signalled + {pid}), "stopped", [Signal(pid, SIGTERM)])
  }

  /** The `close` callback of child `pid`: it clears the handle whichever
      child it belongs to, because it never compares `pid` with the held
      one. */
  function Closed(w: Worker, pid: Pid): (w': Worker)
    ensures !Held(w')
    ensures w'.running == w.running - {pid}
    ensures w'.nextPid == w.nextPid && w'.signalled == w.signalled
    ensures Valid(w) ==> Valid(w')
    ensures NoOrphans(w) && (w.handle.None? || w.handle == Some(pid)) ==> NoOrphans(w')
  {
    Worker(None, w.nextPid, w.running - {pid}, w.signalled)
  }

  /** A second start is a no-op: one spawn in total, and the same worker
      stays held. */
  lemma StartIdempotent(argv: Config.Argv, w: Worker)
    ensures var o := Start(argv, w);
      Start(argv, o.worker) == Outcome(o.worker, "already started", [])
  {
  }

  /** A second stop is a no-op: one signal in total. */
  lemma StopIdempotent(w: Worker)
    ensures var o := Stop(w);
      Stop(o.worker) == Outcome(o.worker, "already stopped", [])
  {
  }

  /** Stopping what was just started signals exactly the child that was
      spawned, and leaves it running until it closes. */
  lemma StopAfterStart(argv: Config.Argv, w: Worker)
    requires Valid(w) && !Held(w)
    ensures var s := Start(argv, w);
      var k := Stop(s.worker);
      && s.effects == [Spawn(w.nextPid, argv[0], argv[1..])]
      && k.effects == [Signal(w.nextPid, SIGTERM)]
      && k.worker.running == w.running + {w.nextPid}
      && !Held(k.worker)
  {
  }

  /** The close callback of a child other than the held worker leaves the
      held worker running with no handle and no signal: an orphan that no
      later "stop" can reach. */
  lemma StaleCloseOrphans(w: Worker, pid: Pid)
    requires Valid(w) && Held(w) && w.handle.value != pid && w.handle.value !in w.signalled
    ensures var w' := Closed(w, pid);
      && w.handle.value in w'.running
      && !NoOrphans(w')
      && Stop(w').effects == []
  {
    var q := w.handle.value;
    assert q in Closed(w, pid).running;
  }
}

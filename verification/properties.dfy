/** What the server guarantees across events, and the trace on which it
    loses track of its worker. */
module ServerProperties {
  import opened Wrappers
  import Config
  import Protocol
  import Clients
  import Supervisor
  import Text
  import opened Server

  lemma ConnectPreservesValid(cfg: Config.Settings, s: State, header: Option<string>)
    requires Valid(s)
    ensures Valid(Step(cfg, s, Connect(header)).state)
  {
    var cs := Step(cfg, s, Connect(header)).state.clients;
    assert forall i :: 0 <= i < |s.clients| ==> cs[i] == s.clients[i];
  }

  lemma TransportPreservesValid(cfg: Config.Settings, s: State, id: ClientId, ready: Clients.ReadyState)
    requires Valid(s)
    ensures Valid(Step(cfg, s, Transport(id, ready)).state)
  {
    Clients.AdvanceKeepsValid(s.clients, id, ready);
    Clients.AdvanceKeepsIdsBelow(s.clients, id, ready, s.nextClient);
  }

  lemma MessagePreservesValid(cfg: Config.Settings, s: State, id: ClientId, text: string)
    requires Valid(s)
    ensures Valid(Step(cfg, s, Message(id, text)).state)
  {
  }

  /** Every event keeps the state well formed. */
  lemma StepPreservesValid(cfg: Config.Settings, s: State, e: Event)
    requires Valid(s)
    ensures Valid(Step(cfg, s, e).state)
  {
    match e
    case Connect(header) => ConnectPreservesValid(cfg, s, header);
    case Transport(id, ready) => TransportPreservesValid(cfg, s, id, ready);
    case Message(id, text) => MessagePreservesValid(cfg, s, id, text);
    case _ =>
  }

  lemma {:induction false} RunPreservesValid(cfg: Config.Settings, s: State, es: seq<Event>)
    requires Valid(s)
    ensures Valid(Run(cfg, s, es).state)
    decreases |es|
  {
    if es != [] {
      StepPreservesValid(cfg, s, es[0]);
      RunPreservesValid(cfg, Step(cfg, s, es[0]).state, es[1..]);
    }
  }

  /** Running `[e] + es` is handling `e` and then the rest. */
  lemma RunFirst(cfg: Config.Settings, s: State, e: Event, es: seq<Event>)
    ensures Run(cfg, s, [e] + es) ==
      var t := Step(cfg, s, e);
      var rest := Run(cfg, t.state, es);
      Transition(rest.state, t.out + rest.out)
  {
    assert ([e] + es)[1..] == es;
  }

  // ---------------------------------------------------------------------
  // Commands

  /** `id` is a connection whose message handler is installed. */
  predicate Listening(s: State, id: ClientId)
  {
    exists i :: 0 <= i < |s.clients| && s.clients[i].id == id && s.clients[i].listening
  }

  lemma FindListening(s: State, id: ClientId)
    requires Clients.DistinctIds(s.clients)
    ensures var i := Clients.Find(s.clients, id);
      Listening(s, id) <==> i < |s.clients| && s.clients[i].listening
  {
  }

  /** A message that is not exactly "start" or "stop" changes nothing and
      gets no reply. */
  lemma OtherMessagesIgnored(cfg: Config.Settings, s: State, id: ClientId, text: string)
    requires text != "start" && text != "stop"
    ensures Step(cfg, s, Message(id, text)) == Transition(s, [])
  {
  }

  /** A connection without the message handler (a refused one, or none at
      all) cannot run commands. */
  lemma UnlistenedMessagesIgnored(cfg: Config.Settings, s: State, id: ClientId, text: string)
    requires Valid(s) && !Listening(s, id)
    ensures Step(cfg, s, Message(id, text)) == Transition(s, [])
  {
    FindListening(s, id);
  }

  /** "start" from a listening client. With no worker held: one spawn of the
      configured command under a fresh id, which becomes the handle, then
      "STATUS: started" to the requester alone. With a worker held: nothing
      but "STATUS: already started" to the requester. The client list never
      changes. */
  lemma StartMessage(cfg: Config.Settings, s: State, id: ClientId)
    requires Valid(s) && Listening(s, id)
    ensures var t := Step(cfg, s, Message(id, "start"));
      var pid := s.worker.nextPid;
      && (!Supervisor.Held(s.worker) ==>
            && t.out == [Os(Supervisor.Spawn(pid, cfg.argv[0], cfg.argv[1..])), Send(id, "STATUS: started")]
            && t.state == s.(worker := Supervisor.Start(cfg.argv, s.worker).worker)
            && t.state.worker.handle == Some(pid)
            && pid !in s.worker.running)
      && (Supervisor.Held(s.worker) ==>
            t == Transition(s, [Send(id, "STATUS: already started")]))
  {
    FindListening(s, id);
    assert Protocol.ParseCommand("start") == Some(Protocol.StartCmd);
    assert Step(cfg, s, Message(id, "start")) == OnMessage(cfg, s, id, "start");
    var o := Supervisor.Start(cfg.argv, s.worker);
    var t := Step(cfg, s, Message(id, "start"));
    assert t.out == OsEffects(o.effects) + [Send(id, Protocol.StatusLine(o.result))];
    if !Supervisor.Held(s.worker) {
      var sp := Os(Supervisor.Spawn(s.worker.nextPid, cfg.argv[0], cfg.argv[1..]));
      assert OsEffects(o.effects) == [sp];
      assert Protocol.StatusLine("started") == "STATUS: started";
    } else {
      assert Protocol.StatusLine("already started") == "STATUS: already started";
    }
  }

  /** "stop" from a listening client. With a worker held: SIGTERM to exactly
      that child, the handle cleared at once (the child still runs until it
      closes), then "STATUS: stopped" to the requester alone. With none held:
      nothing but "STATUS: already stopped" to the requester. */
  lemma StopMessage(cfg: Config.Settings, s: State, id: ClientId)
    requires Valid(s) && Listening(s, id)
    ensures var t := Step(cfg, s, Message(id, "stop"));
      && (Supervisor.Held(s.worker) ==>
            var pid := s.worker.handle.value;
            && t.out == [Os(Supervisor.Signal(pid, Supervisor.SIGTERM)), Send(id, "STATUS: stopped")]
            && t.state == s.(worker := Supervisor.Stop(s.worker).worker)
            && t.state.worker.handle == None
            && t.state.worker.running == s.worker.running)
      && (!Supervisor.Held(s.worker) ==>
            t == Transition(s, [Send(id, "STATUS: already stopped")]))
  {
    FindListening(s, id);
    assert Protocol.ParseCommand("stop") == Some(Protocol.StopCmd);
    assert Step(cfg, s, Message(id, "stop")) == OnMessage(cfg, s, id, "stop");
    var o := Supervisor.Stop(s.worker);
    var t := Step(cfg, s, Message(id, "stop"));
    assert t.out == OsEffects(o.effects) + [Send(id, Protocol.StatusLine(o.result))];
    if Supervisor.Held(s.worker) {
      var sg := Os(Supervisor.Signal(s.worker.handle.value, Supervisor.SIGTERM));
      assert OsEffects(o.effects) == [sg];
      assert Protocol.StatusLine("stopped") == "STATUS: stopped";
    } else {
      assert Protocol.StatusLine("already stopped") == "STATUS: already stopped";
    }
  }

  /** Two "start" messages in a row spawn one worker: the second is answered
      "already started" and asks nothing of the operating system. */
  lemma StartTwiceSpawnsOnce(cfg: Config.Settings, s: State, id: ClientId)
    requires Valid(s) && Listening(s, id) && !Supervisor.Held(s.worker)
    ensures var pid := s.worker.nextPid;
      var t := Run(cfg, s, [Message(id, "start"), Message(id, "start")]);
      && t.out == [Os(Supervisor.Spawn(pid, cfg.argv[0], cfg.argv[1..])),
                   Send(id, "STATUS: started"), Send(id, "STATUS: already started")]
      && t.state.worker.handle == Some(pid)
  {
    var m := Message(id, "start");
    StartMessage(cfg, s, id);
    var t1 := Step(cfg, s, m);
    StepPreservesValid(cfg, s, m);
    StartMessage(cfg, t1.state, id);
    RunFirst(cfg, t1.state, m, []);
    RunFirst(cfg, s, m, [m]);
  }

  /** Two "stop" messages in a row send one SIGTERM. */
  lemma StopTwiceSignalsOnce(cfg: Config.Settings, s: State, id: ClientId)
    requires Valid(s) && Listening(s, id) && Supervisor.Held(s.worker)
    ensures var pid := s.worker.handle.value;
      var t := Run(cfg, s, [Message(id, "stop"), Message(id, "stop")]);
      && t.out == [Os(Supervisor.Signal(pid, Supervisor.SIGTERM)),
                   Send(id, "STATUS: stopped"), Send(id, "STATUS: already stopped")]
      && t.state.worker.handle == None
      && pid in t.state.worker.running
  {
    var m := Message(id, "stop");
    StopMessage(cfg, s, id);
    var t1 := Step(cfg, s, m);
    StepPreservesValid(cfg, s, m);
    StopMessage(cfg, t1.state, id);
    RunFirst(cfg, t1.state, m, []);
    RunFirst(cfg, s, m, [m]);
  }

  // ---------------------------------------------------------------------
  // Status lines tell the truth

  /** The status words that report a running worker. */
  predicate ReportsRunning(word: string)
  {
    word == "started" || word == "already started"
  }

  /** Every status line in `out` reports `w` as it is. */
  predicate StatusTruthful(out: seq<Output>, w: Supervisor.Worker)
  {
    forall o :: o in out && o.Send? && Protocol.Classify(o.text).StatusReport? ==>
      (ReportsRunning(Protocol.Classify(o.text).word) <==> Supervisor.Held(w))
  }

  /** Lines that all carry one text are truthful when that text is. */
  lemma UniformTruthful(out: seq<Output>, text: string, w: Supervisor.Worker)
    requires forall o :: o in out ==> o.Send? && o.text == text
    requires Protocol.Classify(text).StatusReport? ==>
      (ReportsRunning(Protocol.Classify(text).word) <==> Supervisor.Held(w))
    ensures StatusTruthful(out, w)
  {
  }

  lemma StartStatusTruthful(cfg: Config.Settings, s: State, id: ClientId)
    requires Valid(s) && Listening(s, id)
    ensures var t := Step(cfg, s, Message(id, "start")); StatusTruthful(t.out, t.state.worker)
  {
    StartMessage(cfg, s, id);
    Protocol.ClassifyStatus("started");
    Protocol.ClassifyStatus("already started");
  }

  lemma StopStatusTruthful(cfg: Config.Settings, s: State, id: ClientId)
    requires Valid(s) && Listening(s, id)
    ensures var t := Step(cfg, s, Message(id, "stop")); StatusTruthful(t.out, t.state.worker)
  {
    StopMessage(cfg, s, id);
    Protocol.ClassifyStatus("stopped");
    Protocol.ClassifyStatus("already stopped");
  }

  lemma MessageStatusTruthful(cfg: Config.Settings, s: State, id: ClientId, text: string)
    requires Valid(s)
    ensures var t := Step(cfg, s, Message(id, text)); StatusTruthful(t.out, t.state.worker)
  {
    if !Listening(s, id) {
      UnlistenedMessagesIgnored(cfg, s, id, text);
    } else if text == "start" {
      StartStatusTruthful(cfg, s, id);
    } else if text == "stop" {
      StopStatusTruthful(cfg, s, id);
    } else {
      OtherMessagesIgnored(cfg, s, id, text);
    }
  }

  lemma CloseStatusTruthful(cfg: Config.Settings, s: State, pid: Pid)
    ensures var t := Step(cfg, s, Close(pid)); StatusTruthful(t.out, t.state.worker)
  {
    if Alive(s, pid) {
      var t := Step(cfg, s, Close(pid));
      Protocol.ClassifyStatus("stopped");
      UniformTruthful(t.out, Protocol.StatusStopped, t.state.worker);
    }
  }

  lemma ConnectStatusTruthful(cfg: Config.Settings, s: State, header: Option<string>)
    ensures var t := Step(cfg, s, Connect(header)); StatusTruthful(t.out, t.state.worker)
  {
    assert Protocol.Unauthorized == Protocol.ErrorPrefix + " Unauthorized";
    Protocol.ClassifyError(" Unauthorized");
  }

  /** Forwarded output that is not a status line leaves nothing to check. */
  lemma OutputTruthful(s: State, pid: Pid, line: string)
    requires !Protocol.Classify(line).StatusReport?
    ensures StatusTruthful(OnOutput(s, pid, line).out, s.worker)
  {
    UniformTruthful(OnOutput(s, pid, line).out, line, s.worker);
  }

  lemma StdoutStatusTruthful(cfg: Config.Settings, s: State, pid: Pid, chunk: string)
    ensures var t := Step(cfg, s, Stdout(pid, chunk)); StatusTruthful(t.out, t.state.worker)
  {
    var line := Protocol.StdoutLine(chunk);
    Protocol.FormattedNotStatus(chunk);
    OutputTruthful(s, pid, line);
    assert Step(cfg, s, Stdout(pid, chunk)) == OnOutput(s, pid, line);
  }

  lemma StderrStatusTruthful(cfg: Config.Settings, s: State, pid: Pid, chunk: string)
    ensures var t := Step(cfg, s, Stderr(pid, chunk)); StatusTruthful(t.out, t.state.worker)
  {
    var line := Protocol.StderrLine(chunk);
    Protocol.FormattedNotStatus(chunk);
    OutputTruthful(s, pid, line);
    assert Step(cfg, s, Stderr(pid, chunk)) == OnOutput(s, pid, line);
  }

  /** Whatever the event, the status lines it produces agree with the state
      it leaves: "started"/"already started" exactly when a worker is held.
      Output chunks and the refusal cannot pass for status lines. */
  lemma StepStatusTruthful(cfg: Config.Settings, s: State, e: Event)
    requires Valid(s)
    ensures var t := Step(cfg, s, e); StatusTruthful(t.out, t.state.worker)
  {
    match e
    case Connect(header) => ConnectStatusTruthful(cfg, s, header);
    case Message(id, text) => MessageStatusTruthful(cfg, s, id, text);
    case Stdout(pid, chunk) => StdoutStatusTruthful(cfg, s, pid, chunk);
    case Stderr(pid, chunk) => StderrStatusTruthful(cfg, s, pid, chunk);
    case Close(pid) => CloseStatusTruthful(cfg, s, pid);
    case Transport(_, _) =>
  }

  // ---------------------------------------------------------------------
  // Worker output and the close callback

  /** A chunk of standard output or error changes nothing and reaches
      exactly the open clients, once each, trimmed and prefixed. */
  lemma OutputFansOut(cfg: Config.Settings, s: State, pid: Pid, chunk: string)
    requires Alive(s, pid)
    ensures var t := Step(cfg, s, Stdout(pid, chunk));
      && t.state == s
      && (forall id :: Send(id, "LOG: " + Text.Trim(chunk)) in t.out <==> Clients.IsOpenMember(s.clients, id))
      && (forall o :: o in t.out ==> o.Send? && o.text == "LOG: " + Text.Trim(chunk))
      && (Valid(s) ==> OnceEach(t.out))
    ensures var t := Step(cfg, s, Stderr(pid, chunk));
      && t.state == s
      && (forall id :: Send(id, "ERROR:" + Text.Trim(chunk)) in t.out <==> Clients.IsOpenMember(s.clients, id))
      && (forall o :: o in t.out ==> o.Send? && o.text == "ERROR:" + Text.Trim(chunk))
      && (Valid(s) ==> OnceEach(t.out))
  {
  }

  /** The close callback of any running child leaves no handle and tells
      every open client "STATUS: stopped", once each, whichever child it
      was. */
  lemma CloseAlwaysStops(cfg: Config.Settings, s: State, pid: Pid)
    requires Alive(s, pid)
    ensures var t := Step(cfg, s, Close(pid));
      && t.state.worker.handle == None
      && t.state.worker.running == s.worker.running - {pid}
      && t.state.clients == s.clients
      && (forall id :: Send(id, "STATUS: stopped") in t.out <==> Clients.IsOpenMember(s.clients, id))
      && (forall o :: o in t.out ==> o == Send(o.to, "STATUS: stopped"))
      && (Valid(s) ==> OnceEach(t.out))
  {
    assert Protocol.StatusStopped == "STATUS: stopped";
  }

  // ---------------------------------------------------------------------
  // Admission

  /** A connection with the wrong or no `x-secret` under a non-empty secret
      gets exactly "ERROR: Unauthorized", is closed, and joins `wss.clients`
      as a closing socket without a message handler. The supervisor is not
      touched. */
  lemma RefusedConnection(cfg: Config.Settings, s: State, header: Option<string>)
    requires cfg.secret != "" && header != Some(cfg.secret)
    ensures var id := s.nextClient;
      var t := Step(cfg, s, Connect(header));
      && t.out == [Send(id, "ERROR: Unauthorized"), Hangup(id)]
      && t.state.clients == s.clients + [Clients.Conn(id, Clients.Closing, false)]
      && t.state.worker == s.worker
  {
  }

  /** Any other connection is admitted silently, open and listening. With
      an empty secret that is every connection. */
  lemma AdmittedConnection(cfg: Config.Settings, s: State, header: Option<string>)
    requires cfg.secret == "" || header == Some(cfg.secret)
    ensures var id := s.nextClient;
      var t := Step(cfg, s, Connect(header));
      && t.out == []
      && t.state.clients == s.clients + [Clients.Conn(id, Clients.Open, true)]
      && t.state.worker == s.worker
  {
  }

  /** The secret resolved from the environment is never empty, so a server
      configured from its environment always checks the header: the
      unauthenticated mode is unreachable through configuration. */
  lemma ConfiguredServerChecksSecret(env: Config.Env, header: Option<string>)
    ensures var cfg := Config.Configure(env);
      Protocol.Admit(cfg.secret, header) <==> header == Some(cfg.secret)
  {
  }

  /** Client `id` has been handed out and, if still a member, has no
      message handler. */
  predicate Silenced(s: State, id: ClientId)
  {
    && id < s.nextClient
    && forall i :: 0 <= i < |s.clients| && s.clients[i].id == id ==> !s.clients[i].listening
  }

  /** No output of `out` is a message to `id`. */
  predicate NothingTo(out: seq<Output>, id: ClientId)
  {
    forall k :: 0 <= k < |out| ==> !(out[k].Send? && out[k].to == id)
  }

  lemma ConnectKeepsSilenced(cfg: Config.Settings, s: State, header: Option<string>, id: ClientId)
    requires Valid(s) && Silenced(s, id)
    ensures var t := Step(cfg, s, Connect(header)); Silenced(t.state, id) && NothingTo(t.out, id)
  {
    var t := Step(cfg, s, Connect(header));
    assert forall i :: 0 <= i < |s.clients| ==> t.state.clients[i] == s.clients[i];
  }

  lemma MessageKeepsSilenced(cfg: Config.Settings, s: State, from: ClientId, text: string, id: ClientId)
    requires Valid(s) && Silenced(s, id)
    ensures var t := Step(cfg, s, Message(from, text)); Silenced(t.state, id) && NothingTo(t.out, id)
  {
    if !Listening(s, from) {
      UnlistenedMessagesIgnored(cfg, s, from, text);
    } else if text == "start" {
      assert from != id;
      StartMessage(cfg, s, from);
    } else if text == "stop" {
      assert from != id;
      StopMessage(cfg, s, from);
    } else {
      OtherMessagesIgnored(cfg, s, from, text);
    }
  }

  lemma TransportKeepsSilenced(cfg: Config.Settings, s: State, c: ClientId, ready: Clients.ReadyState, id: ClientId)
    requires Valid(s) && Silenced(s, id)
    ensures var t := Step(cfg, s, Transport(c, ready)); Silenced(t.state, id) && t.out == []
  {
    var cs := Step(cfg, s, Transport(c, ready)).state.clients;
    Clients.AdvanceKeepsHandlers(s.clients, c, ready);
    forall i | 0 <= i < |cs| && cs[i].id == id
      ensures !cs[i].listening
    {
      assert cs[i] in cs;
      var d :| d in s.clients && d.id == id && d.listening == cs[i].listening;
    }
  }

  lemma PublishSkipsSilenced(s: State, text: string, id: ClientId)
    requires Valid(s) && Silenced(s, id)
    ensures NothingTo(Publish(s, text), id)
  {
    assert !Clients.IsOpenMember(s.clients, id);
    var out := Publish(s, text);
    forall k | 0 <= k < |out| && out[k].Send?
      ensures out[k].to != id
    {
      assert out[k] == Send(out[k].to, text);
      assert out[k] in out;
    }
  }

  lemma OutputKeepsSilenced(s: State, pid: Pid, line: string, id: ClientId)
    requires Valid(s) && Silenced(s, id)
    ensures var t := OnOutput(s, pid, line); Silenced(t.state, id) && NothingTo(t.out, id)
  {
    PublishSkipsSilenced(s, line, id);
  }

  lemma CloseKeepsSilenced(s: State, pid: Pid, id: ClientId)
    requires Valid(s) && Silenced(s, id)
    ensures var t := OnClose(s, pid); Silenced(t.state, id) && NothingTo(t.out, id)
  {
    PublishSkipsSilenced(s, Protocol.StatusStopped, id);
  }

  lemma StepKeepsSilenced(cfg: Config.Settings, s: State, e: Event, id: ClientId)
    requires Valid(s) && Silenced(s, id)
    ensures var t := Step(cfg, s, e); Silenced(t.state, id) && NothingTo(t.out, id)
  {
    match e
    case Connect(header) =>
      ConnectKeepsSilenced(cfg, s, header, id);
    case Message(from, text) =>
      MessageKeepsSilenced(cfg, s, from, text, id);
    case Transport(c, ready) =>
      TransportKeepsSilenced(cfg, s, c, ready, id);
    case Stdout(pid, chunk) =>
      assert Step(cfg, s, e) == OnOutput(s, pid, Protocol.StdoutLine(chunk));
      OutputKeepsSilenced(s, pid, Protocol.StdoutLine(chunk), id);
    case Stderr(pid, chunk) =>
      assert Step(cfg, s, e) == OnOutput(s, pid, Protocol.StderrLine(chunk));
      OutputKeepsSilenced(s, pid, Protocol.StderrLine(chunk), id);
    case Close(pid) =>
      assert Step(cfg, s, e) == OnClose(s, pid);
      CloseKeepsSilenced(s, pid, id);
  }

  /** Once refused, a connection never receives anything again, however the
      server goes on. */
  lemma {:induction false} SilencedHearsNothing(cfg: Config.Settings, s: State, es: seq<Event>, id: ClientId)
    requires Valid(s) && Silenced(s, id)
    ensures NothingTo(Run(cfg, s, es).out, id)
    decreases |es|
  {
    if es != [] {
      var t := Step(cfg, s, es[0]);
      StepKeepsSilenced(cfg, s, es[0], id);
      StepPreservesValid(cfg, s, es[0]);
      SilencedHearsNothing(cfg, t.state, es[1..], id);
      var rest := Run(cfg, t.state, es[1..]).out;
      assert Run(cfg, s, es).out == t.out + rest;
      assert forall k :: |t.out| <= k < |t.out + rest| ==> (t.out + rest)[k] == rest[k - |t.out|];
    }
  }

  lemma RefusedHearsNothingMore(cfg: Config.Settings, s: State, header: Option<string>, es: seq<Event>)
    requires Valid(s) && cfg.secret != "" && header != Some(cfg.secret)
    ensures var t := Step(cfg, s, Connect(header));
      NothingTo(Run(cfg, t.state, es).out, s.nextClient)
  {
    var t := Step(cfg, s, Connect(header));
    StepPreservesValid(cfg, s, Connect(header));
    SilencedHearsNothing(cfg, t.state, es, s.nextClient);
  }

  // ---------------------------------------------------------------------
  // Orphans and the stale close

  /** The close callback of a child other than the held worker. */
  predicate StaleClose(s: State, e: Event)
  {
    e.Close? && Alive(s, e.pid) && s.worker.handle.Some? && s.worker.handle.value != e.pid
  }

  /** Every event except a stale close keeps each running child either held
      or signalled. */
  lemma StepKeepsNoOrphans(cfg: Config.Settings, s: State, e: Event)
    requires Valid(s) && Supervisor.NoOrphans(s.worker) && !StaleClose(s, e)
    ensures Supervisor.NoOrphans(Step(cfg, s, e).state.worker)
  {
    match e
    case Message(id, text) =>
      FindListening(s, id);
    case _ =>
  }

  /** The events of `es`, run from `s`, include no stale close. */
  predicate NoStaleClose(cfg: Config.Settings, s: State, es: seq<Event>)
    decreases |es|
  {
    es == [] || (!StaleClose(s, es[0]) && NoStaleClose(cfg, Step(cfg, s, es[0]).state, es[1..]))
  }

  lemma {:induction false} RunKeepsNoOrphans(cfg: Config.Settings, s: State, es: seq<Event>)
    requires Valid(s) && Supervisor.NoOrphans(s.worker) && NoStaleClose(cfg, s, es)
    ensures Supervisor.NoOrphans(Run(cfg, s, es).state.worker)
    decreases |es|
  {
    if es != [] {
      StepKeepsNoOrphans(cfg, s, es[0]);
      StepPreservesValid(cfg, s, es[0]);
      RunKeepsNoOrphans(cfg, Step(cfg, s, es[0]).state, es[1..]);
    }
  }

  /** A client stops the worker (child 0), starts it again (child 1), and
      only then child 0's close callback runs. */
  const StaleTrace: seq<Event> := [
    Connect(Some("k")),
    Message(0, "start"), Message(0, "stop"), Message(0, "start"),
    Close(0)
  ]

  /** The only client of the stale-close trace, admitted and open. */
  function TraceState(w: Supervisor.Worker): State
  {
    State(w, [Clients.Conn(0, Clients.Open, true)], 1)
  }

  lemma TraceStateValid(w: Supervisor.Worker)
    requires Supervisor.Valid(w)
    ensures Valid(TraceState(w)) && Listening(TraceState(w), 0)
  {
    assert TraceState(w).clients[0].id == 0;
  }

  const W0: Supervisor.Worker := Supervisor.Initial
  const W1: Supervisor.Worker := Supervisor.Worker(Some(0), 1, {0}, {})
  const W2: Supervisor.Worker := Supervisor.Worker(None, 1, {0}, {0})
  const W3: Supervisor.Worker := Supervisor.Worker(Some(1), 2, {0, 1}, {0})
  const W4: Supervisor.Worker := Supervisor.Worker(None, 2, {1}, {0})

  lemma TraceClose(argv: Config.Argv)
    ensures Run(Config.Settings("k", argv), TraceState(W3), StaleTrace[4..])
      == Transition(TraceState(W4), [Send(0, "STATUS: stopped")])
  {
    assert StaleTrace[4..] == [Close(0)] + [];
    RunFirst(Config.Settings("k", argv), TraceState(W3), Close(0), []);
    assert Clients.Broadcast(TraceState(W3).clients) == [0];
    assert Protocol.StatusStopped == "STATUS: stopped";
  }

  lemma TraceRestart(argv: Config.Argv)
    ensures var r := Run(Config.Settings("k", argv), TraceState(W2), StaleTrace[3..]);
      r.state == TraceState(W4) && Send(0, "STATUS: stopped") in r.out
  {
    var cfg := Config.Settings("k", argv);
    TraceClose(argv);
    TraceStateValid(W2);
    StartMessage(cfg, TraceState(W2), 0);
    assert Supervisor.Start(argv, W2).worker == W3;
    assert StaleTrace[3..] == [Message(0, "start")] + StaleTrace[4..];
    RunFirst(cfg, TraceState(W2), Message(0, "start"), StaleTrace[4..]);
  }

  lemma TraceStop(argv: Config.Argv)
    ensures var r := Run(Config.Settings("k", argv), TraceState(W1), StaleTrace[2..]);
      r.state == TraceState(W4) && Send(0, "STATUS: stopped") in r.out
  {
    var cfg := Config.Settings("k", argv);
    TraceRestart(argv);
    TraceStateValid(W1);
    StopMessage(cfg, TraceState(W1), 0);
    assert Supervisor.Stop(W1).worker == W2;
    assert StaleTrace[2..] == [Message(0, "stop")] + StaleTrace[3..];
    RunFirst(cfg, TraceState(W1), Message(0, "stop"), StaleTrace[3..]);
  }

  lemma TraceStart(argv: Config.Argv)
    ensures var r := Run(Config.Settings("k", argv), TraceState(W0), StaleTrace[1..]);
      r.state == TraceState(W4) && Send(0, "STATUS: stopped") in r.out
  {
    var cfg := Config.Settings("k", argv);
    TraceStop(argv);
    TraceStateValid(W0);
    StartMessage(cfg, TraceState(W0), 0);
    assert Supervisor.Start(argv, W0).worker == W1;
    assert StaleTrace[1..] == [Message(0, "start")] + StaleTrace[2..];
    RunFirst(cfg, TraceState(W0), Message(0, "start"), StaleTrace[2..]);
  }

  /** The whole trace: after the stale close the server holds no worker and
      has told its client "stopped", yet child 1 runs on un-signalled. */
  lemma TraceWhole(argv: Config.Argv)
    ensures var r := Run(Config.Settings("k", argv), Initial, StaleTrace);
      r.state == TraceState(W4) && Send(0, "STATUS: stopped") in r.out
  {
    var cfg := Config.Settings("k", argv);
    TraceStart(argv);
    assert StaleTrace == [Connect(Some("k"))] + StaleTrace[1..];
    assert Step(cfg, Initial, Connect(Some("k"))) == Transition(TraceState(W0), []);
    RunFirst(cfg, Initial, Connect(Some("k")), StaleTrace[1..]);
  }

  /** After the stale close the server holds no worker and has told its
      clients "stopped", yet child 1 runs on un-signalled; "stop" can no
      longer reach it, and "start" launches child 2 beside it. */
  lemma StaleCloseLosesWorker(argv: Config.Argv)
    ensures var cfg := Config.Settings("k", argv);
      var t := Run(cfg, Initial, StaleTrace);
      && t.state.worker == Supervisor.Worker(None, 2, {1}, {0})
      && Send(0, "STATUS: stopped") in t.out
      && !Supervisor.NoOrphans(t.state.worker)
      && Run(cfg, t.state, [Message(0, "stop")]).out == [Send(0, "STATUS: already stopped")]
      && Run(cfg, t.state, [Message(0, "start")]).state.worker.running == {1, 2}
  {
    var cfg := Config.Settings("k", argv);
    TraceWhole(argv);
    TraceStateValid(W4);
    StopMessage(cfg, TraceState(W4), 0);
    StartMessage(cfg, TraceState(W4), 0);
    RunFirst(cfg, TraceState(W4), Message(0, "stop"), []);
    RunFirst(cfg, TraceState(W4), Message(0, "start"), []);
    assert 1 in W4.running;
  }
}

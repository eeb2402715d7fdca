/** The WebSocket server as one event-driven state machine: every callback
    Node.js can run (a connection, a message, a chunk of the worker's output,
    the worker's close, a socket changing state) is an `Event`, and `Step`
    is what the server does in response (index.js lines 22-101). Callbacks
    run one at a time on the event loop, so each step is atomic. */
module Server {
  import opened Wrappers
  import Config
  import Protocol
  import Clients
  import Supervisor

  type ClientId = Clients.ClientId
  type Pid = Supervisor.Pid

  datatype Event =
    /** A connection arrives carrying this `x-secret` header. */
    | Connect(header: Option<string>)
    /** Client `client` sends the text message `text`. */
    | Message(client: ClientId, text: string)
    /** Child `pid` writes a chunk to its standard output. */
    | Stdout(pid: Pid, chunk: string)
    /** Child `pid` writes a chunk to its standard error. */
    | Stderr(pid: Pid, chunk: string)
    /** Child `pid` has exited and closed its streams. */
    | Close(pid: Pid)
    /** The socket of `client` moves to a later ready state. */
    | Transport(client: ClientId, ready: Clients.ReadyState)

  /** What a step does to the outside world, in order. */
  datatype Output =
    | Send(to: ClientId, text: string)
    | Hangup(to: ClientId)
    | Os(effect: Supervisor.Effect)

  /** The supervisor, `wss.clients`, and the id the next connection gets. */
  datatype State = State(worker: Supervisor.Worker, clients: seq<Clients.Conn>, nextClient: ClientId)

  const Initial: State := State(Supervisor.Initial, [], 0)

  predicate Valid(s: State)
  {
    && Supervisor.Valid(s.worker)
    && Clients.Valid(s.clients)
    && Clients.IdsBelow(s.clients, s.nextClient)
  }

  datatype Transition = Transition(state: State, out: seq<Output>)

  /** One `send` per recipient, in the recipients' order. */
  function SendAll(ids: seq<ClientId>, text: string): (out: seq<Output>)
    ensures |out| == |ids|
    ensures forall i :: 0 <= i < |ids| ==> out[i] == Send(ids[i], text)
  {
    seq(|ids|, i requires 0 <= i < |ids| => Send(ids[i], text))
  }

  /** No output appears twice in `out`. */
  predicate OnceEach(out: seq<Output>)
  {
    forall i, j :: 0 <= i < j < |out| ==> out[i] != out[j]
  }

  /** `broadcast(text)`: the text goes to every open client, once each. */
  function Publish(s: State, text: string): (out: seq<Output>)
    ensures forall o :: o in out ==> o.Send? && o.text == text
    ensures forall id :: Send(id, text) in out <==> Clients.IsOpenMember(s.clients, id)
    ensures Clients.DistinctIds(s.clients) ==> OnceEach(out)
  {
    var ids := Clients.Broadcast(s.clients);
    var out := SendAll(ids, text);
    assert forall id :: Send(id, text) in out <==> id in ids by {
      forall id
        ensures Send(id, text) in out ==> id in ids
      {
        if Send(id, text) in out {
          var i :| 0 <= i < |out| && out[i] == Send(id, text);
          assert ids[i] == id;
        }
      }
    }
    out
  }

  function OsEffects(es: seq<Supervisor.Effect>): (out: seq<Output>)
    ensures |out| == |es|
    ensures forall i :: 0 <= i < |es| ==> out[i] == Os(es[i])
  {
    seq(|es|, i requires 0 <= i < |es| => Os(es[i]))
  }

  /** The `connection` handler: a refused connection is told so and closed,
      and gets no message handler; an admitted one gets the handler. Either
      way the socket is in `wss.clients` from the moment it is accepted. */
  function OnConnect(cfg: Config.Settings, s: State, header: Option<string>): Transition
  {
    var id := s.nextClient;
    if Protocol.Admit(cfg.secret, header) then
      Transition(State(s.worker, s.clients + [Clients.Conn(id, Clients.Open, true)], id + 1), [])
    else
      Transition(State(s.worker, s.clients + [Clients.Conn(id, Clients.Closing, false)], id + 1),
                 [Send(id, Protocol.Unauthorized), Hangup(id)])
  }

  /** The message handler of client `id`, when it has one: "start" and "stop"
      run the supervisor and answer the requester alone; anything else is
      ignored. */
  function OnMessage(cfg: Config.Settings, s: State, id: ClientId, text: string): Transition
  {
    var i := Clients.Find(s.clients, id);
    if i == |s.clients| || !s.clients[i].listening then
      Transition(s, [])
    else
      match Protocol.ParseCommand(text)
      case None => Transition(s, [])
      case Some(cmd) =>
        var o := if cmd == Protocol.StartCmd then Supervisor.Start(cfg.argv, s.worker)
                 else Supervisor.Stop(s.worker);
        Transition(s.(worker := o.worker), OsEffects(o.effects) + [Send(id, Protocol.StatusLine(o.result))])
  }

  /** Whether child `pid` exists and has not closed: only such a child can
      run a stream or close callback. */
  predicate Alive(s: State, pid: Pid)
  {
    pid in s.worker.running
  }

  /** A stream callback of child `pid`: the formatted chunk goes to every
      open client. */
  function OnOutput(s: State, pid: Pid, line: string): Transition
  {
    if Alive(s, pid) then Transition(s, Publish(s, line)) else Transition(s, [])
  }

  /** The close callback of child `pid`. */
  function OnClose(s: State, pid: Pid): Transition
  {
    if Alive(s, pid) then
      Transition(s.(worker := Supervisor.Closed(s.worker, pid)), Publish(s, Protocol.StatusStopped))
    else
      Transition(s, [])
  }

  function Step(cfg: Config.Settings, s: State, e: Event): Transition
  {
    match e
    case Connect(header) => OnConnect(cfg, s, header)
    case Message(id, text) => OnMessage(cfg, s, id, text)
    case Stdout(pid, chunk) => OnOutput(s, pid, Protocol.StdoutLine(chunk))
    case Stderr(pid, chunk) => OnOutput(s, pid, Protocol.StderrLine(chunk))
    case Close(pid) => OnClose(s, pid)
    case Transport(id, ready) => Transition(s.(clients := Clients.Advance(s.clients, id, ready)), [])
  }

  /** A sequence of events handled one after another; the outputs are
      concatenated in order. */
  function Run(cfg: Config.Settings, s: State, es: seq<Event>): Transition
    decreases |es|
  {
    if es == [] then Transition(s, [])
    else
      var t := Step(cfg, s, es[0]);
      var rest := Run(cfg, t.state, es[1..]);
      Transition(rest.state, t.out + rest.out)
  }
}

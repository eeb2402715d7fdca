/** The server's view of its WebSocket clients (`wss.clients`): every
    connection the server accepted, in the order it accepted them, with its
    ready state, and the broadcast that walks them (index.js lines 22-32). */
module Clients {

  /** A socket's `readyState`, in the order a socket passes through them. */
  datatype ReadyState = Connecting | Open | Closing | Closed

  function Rank(s: ReadyState): nat
  {
    match s
    case Connecting => 0
    case Open => 1
    case Closing => 2
    case Closed => 3
  }

  type ClientId = nat

  /** One accepted connection. `listening` records whether the server
      installed its message handler on it, which it does only for admitted
      connections. */
  datatype Conn = Conn(id: ClientId, ready: ReadyState, listening: bool)

  predicate DistinctIds(cs: seq<Conn>)
  {
    forall i, j :: 0 <= i < j < |cs| ==> cs[i].id != cs[j].id
  }

  /** `id` is a member of `cs` whose socket is open. */
  predicate IsOpenMember(cs: seq<Conn>, id: ClientId)
  {
    exists i :: 0 <= i < |cs| && cs[i].id == id && cs[i].ready == Open
  }

  /** The clients `broadcast` sends to: exactly the members whose ready
      state is OPEN, each once. */
  function Broadcast(cs: seq<Conn>): (r: seq<ClientId>)
    ensures |r| <= |cs|
    ensures forall id :: id in r <==> IsOpenMember(cs, id)
    ensures DistinctIds(cs) ==> forall i, j :: 0 <= i < j < |r| ==> r[i] != r[j]
  {
    if cs == [] then []
    else
      var rest := Broadcast(cs[1..]);
      assert forall id :: IsOpenMember(cs, id) <==>
        (cs[0].id == id && cs[0].ready == Open) || IsOpenMember(cs[1..], id) by {
        forall id
          ensures IsOpenMember(cs, id) ==>
            (cs[0].id == id && cs[0].ready == Open) || IsOpenMember(cs[1..], id)
        {
          if IsOpenMember(cs, id) {
            var i :| 0 <= i < |cs| && cs[i].id == id && cs[i].ready == Open;
            if i > 0 {
              assert cs[1..][i - 1] == cs[i];
            }
          }
        }
      }
      if cs[0].ready == Open then
        assert DistinctIds(cs) ==> cs[0].id !in rest;
        [cs[0].id] + rest
      else
        rest
  }

  /** Position of the member with `id`, or `|cs|` when there is none. */
  function Find(cs: seq<Conn>, id: ClientId): (i: nat)
    ensures i <= |cs|
    ensures i < |cs| ==> cs[i].id == id
    ensures forall j :: 0 <= j < i ==> cs[j].id != id
  {
    if cs == [] then 0
    else if cs[0].id == id then 0
    else 1 + Find(cs[1..], id)
  }

  /** What `wss.clients` always satisfies: one entry per connection, no
      closed sockets (a closed socket is dropped), and an open socket always
      has the message handler (a refused connection is closing from the
      moment it is accepted). */
  predicate Valid(cs: seq<Conn>)
  {
    && DistinctIds(cs)
    && forall i :: 0 <= i < |cs| ==>
         && cs[i].ready != Closed
         && cs[i].ready != Connecting
         && (cs[i].ready == Open ==> cs[i].listening)
  }

  /** The socket of client `id` moves on to `ready`. A ready state never goes
      back and a closed socket leaves `wss.clients` (`AdvanceKeepsValid`,
      `AdvanceKeepsOthers`, `AdvanceKeepsHandlers`, `AdvanceToClosed`). */
  function Advance(cs: seq<Conn>, id: ClientId, ready: ReadyState): seq<Conn>
  {
    var i := Find(cs, id);
    if i == |cs| || Rank(ready) <= Rank(cs[i].ready) then
      cs
    else if ready == Closed then
      RemoveAt(cs, i)
    else
      UpdateAt(cs, i, ready)
  }

  lemma AdvanceKeepsValid(cs: seq<Conn>, id: ClientId, ready: ReadyState)
    requires Valid(cs)
    ensures Valid(Advance(cs, id, ready))
  {
  }

  /** Every other member is still there, unchanged. */
  lemma AdvanceKeepsOthers(cs: seq<Conn>, id: ClientId, ready: ReadyState)
    ensures forall c :: c in cs && c.id != id ==> c in Advance(cs, id, ready)
  {
  }

  /** No connection appears and none gains or loses its message handler. */
  lemma AdvanceKeepsHandlers(cs: seq<Conn>, id: ClientId, ready: ReadyState)
    ensures forall c :: c in Advance(cs, id, ready) ==>
      exists d :: d in cs && d.id == c.id && d.listening == c.listening
  {
    var i := Find(cs, id);
    if i < |cs| && Rank(cs[i].ready) < Rank(ready) && ready != Closed {
      assert cs[i] in cs;
    }
  }

  /** Every member's id is below `n`. */
  predicate IdsBelow(cs: seq<Conn>, n: nat)
  {
    forall i :: 0 <= i < |cs| ==> cs[i].id < n
  }

  lemma AdvanceKeepsIdsBelow(cs: seq<Conn>, id: ClientId, ready: ReadyState, n: nat)
    requires IdsBelow(cs, n)
    ensures IdsBelow(Advance(cs, id, ready), n)
  {
    var r := Advance(cs, id, ready);
    AdvanceKeepsHandlers(cs, id, ready);
    forall i | 0 <= i < |r|
      ensures r[i].id < n
    {
      assert r[i] in r;
      var d :| d in cs && d.id == r[i].id && d.listening == r[i].listening;
    }
  }

  /** A socket that closes is no longer a member. */
  lemma AdvanceToClosed(cs: seq<Conn>, id: ClientId)
    requires Valid(cs)
    ensures forall c :: c in Advance(cs, id, Closed) ==> c.id != id
  {
  }

  function RemoveAt(cs: seq<Conn>, i: nat): (r: seq<Conn>)
    requires i < |cs|
    ensures Valid(cs) ==> Valid(r)
    ensures forall c :: c in cs && c.id != cs[i].id ==> c in r
    ensures forall c :: c in r ==> c in cs
    ensures Valid(cs) ==> forall c :: c in r ==> c.id != cs[i].id
  {
    var r := cs[..i] + cs[i + 1..];
    assert forall j :: 0 <= j < |r| ==> r[j] == if j < i then cs[j] else cs[j + 1];
    r
  }

  function UpdateAt(cs: seq<Conn>, i: nat, ready: ReadyState): (r: seq<Conn>)
    requires i < |cs|
    requires ready != Closed && Rank(cs[i].ready) < Rank(ready)
    ensures Valid(cs) ==> Valid(r)
    ensures forall c :: c in cs && c.id != cs[i].id ==> c in r
    ensures forall c :: c in r ==> c in cs || c == cs[i].(ready := ready)
  {
    var r := cs[i := cs[i].(ready := ready)];
    assert forall j :: 0 <= j < |r| && j != i ==> r[j] == cs[j];
    r
  }
}

/**
 * packages/server/src/server.ts and snapshots.ts: connection stages, the handshake, request dispatch and
 * the revisioned snapshot broadcast, together with the revision each client ends up holding
 * (packages/client/src/state.ts). Each event is one stretch of code between two awaits.
 */
module Server {
  import opened Basics

  datatype Stage = AwaitingHello | Handshaking | Ready | Closing | Closed

  function Rank(stage: Stage): nat {
    match stage
    case AwaitingHello => 0
    case Handshaking => 1
    case Ready => 2
    case Closing => 3
    case Closed => 4
  }

  /** Where `finishHandshake` is suspended, with the revision of the snapshot it is loading or sending. */
  datatype Handshake =
    | NotStarted
    | LoadingSnapshot(revision: nat)
    | SendingHello(revision: nat)
    | LoadingCatchUp(revision: nat)
    | SendingCatchUp
    | Settled

  /**
   * One accepted connection. `waiting` are the requests queued behind the handshake promise, `outbox` the
   * revisions sent and not yet delivered, `client` the revision the peer holds. `missed` is not part of the
   * program: it says that the newest revision was announced to this connection by a broadcast that failed.
   */
  datatype Conn = Conn(
    stage: Stage, disconnected: bool, handshakeComplete: bool, handshake: Handshake, waiting: seq<nat>,
    closed: bool, helloSent: bool, outbox: seq<nat>, client: Option<nat>, missed: bool)

  const ACCEPTED := Conn(AwaitingHello, false, false, NotStarted, [], false, false, [], None, false)

  datatype Broadcast = Idle | Loading(revision: nat, targets: seq<nat>) | Sending(revision: nat, targets: seq<nat>)

  function Targets(b: Broadcast): seq<nat> { if b.Idle? then [] else b.targets }

  /** `conns` are all connections ever accepted; `members` is the server's connection set. */
  datatype State = State(
    conns: seq<Conn>, members: set<nat>, closing: bool,
    revision: nat, queued: nat, broadcast: Broadcast,
    requests: nat, started: seq<(nat, nat)>)

  const INITIAL := State([], {}, false, 0, 0, Idle, 0, [])

  datatype Message = Hello(supported: bool) | Request

  datatype Event =
    | Accept
    | Dispatch(conn: nat, message: Message)
    | Fail(conn: nat)                   // failProtocol: malformed data, handshake timeout, failed handshake
    | Disconnect(conn: nat)             // disconnect: transport closed, send error, end of failProtocol
    | TransportCloses(conn: nat)        // the byte connection reports closed; later sends do nothing
    | SnapshotLoaded(conn: nat)
    | HelloSent(conn: nat)
    | CatchUpLoaded(conn: nat)
    | CatchUpSent(conn: nat)
    | RunWaiting(conn: nat)             // one `handshake.then` callback
    | RequestBroadcast
    | BroadcastStarts(targets: seq<nat>)
    | BroadcastLoaded
    | BroadcastFails                    // a service call of performBroadcast throws
    | BroadcastSends
    | BroadcastDone
    | Deliver(conn: nat)
    | StartClosing                      // close(), or a failed start
    | CloseServerState                  // the first loop of closeServerState
    | ClearConnections                  // its last statement

  predicate Terminal(c: Conn) { c.disconnected || c.stage == Closing || c.stage == Closed }

  // ---------------------------------------------------------------- one connection

  function Failed(c: Conn): Conn {
    if c.disconnected || c.stage == Closing || c.stage == Closed then c else c.(stage := Closing)
  }

  function Disconnected(c: Conn): Conn {
    if c.disconnected then c else c.(disconnected := true, stage := Closed)
  }

  /** `sendMessage`: nothing is sent on a disconnected or closed connection. */
  function Sent(c: Conn, revision: nat): Conn {
    if c.disconnected || c.closed then c else c.(outbox := c.outbox + [revision])
  }

  function OnSnapshotLoaded(c: Conn, closing: bool): Conn
    requires c.handshake.LoadingSnapshot?
  {
    if closing || c.disconnected || c.stage != Handshaking || c.closed then c.(handshake := Settled)
    else Sent(c, c.handshake.revision).(handshake := SendingHello(c.handshake.revision), helloSent := true)
  }

  function OnHelloSent(c: Conn, revision: nat): Conn
    requires c.handshake.SendingHello?
  {
    if !c.disconnected && c.stage == Handshaking then
      c.(handshakeComplete := true, stage := Ready,
         handshake := if c.handshake.revision != revision then LoadingCatchUp(revision) else Settled)
    else c.(handshake := Settled)
  }

  function OnCatchUpLoaded(c: Conn): Conn
    requires c.handshake.LoadingCatchUp?
  {
    Sent(c, c.handshake.revision).(handshake := SendingCatchUp)
  }

  /** `applyServerSnapshot` at the peer: an older revision is ignored. */
  function Delivered(c: Conn): Conn
    requires c.outbox != []
  {
    var r := c.outbox[0];
    c.(outbox := c.outbox[1..], client := if c.client.Some? && r < c.client.value then c.client else Some(r))
  }

  /** The server's per-connection record; each method is one synchronous stretch of the program. */
  class Connection {
    var stage: Stage
    var disconnected: bool
    var handshakeComplete: bool
    var handshake: Handshake
    var waiting: seq<nat>
    var closed: bool
    ghost var helloSent: bool
    ghost var outbox: seq<nat>
    ghost var client: Option<nat>
    ghost var missed: bool

    ghost function Value(): Conn
      reads this
    {
      Conn(stage, disconnected, handshakeComplete, handshake, waiting, closed, helloSent, outbox, client, missed)
    }

    constructor ()
      ensures Value() == ACCEPTED
    {
      stage, disconnected, handshakeComplete := AwaitingHello, false, false;
      handshake, waiting, closed := NotStarted, [], false;
      helloSent, outbox, client, missed := false, [], None, false;
    }

    method FailProtocol() returns (close: bool)
      modifies this
      ensures Value() == Failed(old(Value()))
      ensures close <==> !old(Terminal(Value()))
    {
      if disconnected || stage == Closing || stage == Closed { return false; }
      stage := Closing;
      return true;
    }

    method Disconnect(connections: set<nat>, id: nat, serverClosing: bool) returns (left: set<nat>, announce: bool)
      modifies this
      ensures Value() == Disconnected(old(Value()))
      ensures left == if old(disconnected) then connections else connections - {id}
      ensures announce <==> !old(disconnected) && !serverClosing && old(handshakeComplete)
    {
      if disconnected { return connections, false; }
      disconnected := true;
      stage := Closed;
      left := connections - {id};
      announce := !serverClosing && handshakeComplete;
    }

    method SnapshotLoaded(serverClosing: bool)
      requires handshake.LoadingSnapshot?
      modifies this
      ensures Value() == OnSnapshotLoaded(old(Value()), serverClosing)
    {
      if serverClosing || disconnected || stage != Handshaking || closed {
        handshake := Settled;
        return;
      }
      outbox := outbox + [handshake.revision];
      helloSent := true;
      handshake := SendingHello(handshake.revision);
    }

    method HelloSent(currentRevision: nat)
      requires handshake.SendingHello?
      modifies this
      ensures Value() == OnHelloSent(old(Value()), currentRevision)
    {
      var sent := handshake.revision;
      handshake := Settled;
      if !disconnected && stage == Handshaking {
        handshakeComplete := true;
        stage := Ready;
        if sent != currentRevision {
          handshake := LoadingCatchUp(currentRevision);
        }
      }
    }
  }

  // ---------------------------------------------------------------- the server

  function Put(s: State, c: nat, conn: Conn): State
    requires c < |s.conns|
  {
    s.(conns := s.conns[c := conn])
  }

  predicate IsReady(s: State, c: nat) {
    c < |s.conns| && c in s.members && s.conns[c].stage == Ready && !s.conns[c].disconnected
  }

  ghost predicate Enabled(s: State, e: Event) {
    match e
    case Accept => !s.closing
    case Dispatch(c, _) => c < |s.conns| && !Terminal(s.conns[c])
    case Fail(c) => c < |s.conns|
    case Disconnect(c) => c < |s.conns|
    case TransportCloses(c) => c < |s.conns|
    case SnapshotLoaded(c) => c < |s.conns| && s.conns[c].handshake.LoadingSnapshot?
    case HelloSent(c) => c < |s.conns| && s.conns[c].handshake.SendingHello?
    case CatchUpLoaded(c) => c < |s.conns| && s.conns[c].handshake.LoadingCatchUp?
    case CatchUpSent(c) => c < |s.conns| && s.conns[c].handshake.SendingCatchUp?
    case RunWaiting(c) => c < |s.conns| && s.conns[c].handshake.Settled? && s.conns[c].waiting != []
    case RequestBroadcast => true
    case BroadcastStarts(targets) =>
      && s.broadcast.Idle? && s.queued > 0
      && NoRepeats(targets) && (forall c :: c in targets <==> IsReady(s, c))
    case BroadcastLoaded => s.broadcast.Loading?
    case BroadcastFails => s.broadcast.Loading?
    case BroadcastSends => s.broadcast.Sending? && s.broadcast.targets != []
    case BroadcastDone => s.broadcast.Sending? && s.broadcast.targets == []
    case Deliver(c) => c < |s.conns| && s.conns[c].outbox != []
    case StartClosing => true
    case CloseServerState => s.closing
    case ClearConnections => s.closing && forall c :: c in s.members ==> c < |s.conns| && s.conns[c].disconnected
  }

  function StartCommand(s: State, c: nat, request: nat): State {
    s.(started := s.started + [(c, request)])
  }

  /** `dispatchMessage` on the connection itself; `request` is the number a decoded request gets. */
  function OnDispatch(c: Conn, message: Message, revision: nat, request: nat): Conn {
    match message
    case Hello(supported) =>
      if c.stage != AwaitingHello then Failed(c)
      else if supported then c.(stage := Handshaking, handshake := LoadingSnapshot(revision))
      else Failed(c.(stage := Handshaking)).(handshake := Settled)
    case Request =>
      if c.stage == AwaitingHello then Failed(c)
      else if c.stage == Handshaking then c.(waiting := c.waiting + [request])
      else c
  }

  function DispatchStep(s: State, c: nat, message: Message): State
    requires c < |s.conns|
  {
    var t := Put(s, c, OnDispatch(s.conns[c], message, s.revision, s.requests));
    if message.Request? && s.conns[c].stage != AwaitingHello then
      var u := t.(requests := s.requests + 1);
      if s.conns[c].stage == Ready then StartCommand(u, c, s.requests) else u
    else t
  }

  function Step(s: State, e: Event): State
    requires Enabled(s, e)
  {
    match e
    case Accept => s.(conns := s.conns + [ACCEPTED], members := s.members + {|s.conns|})
    case Dispatch(c, message) => DispatchStep(s, c, message)
    case Fail(c) => Put(s, c, Failed(s.conns[c]))
    case Disconnect(c) =>
      Put(s, c, Disconnected(s.conns[c])).(members := if s.conns[c].disconnected then s.members else s.members - {c})
    case TransportCloses(c) => Put(s, c, s.conns[c].(closed := true))
    case SnapshotLoaded(c) => Put(s, c, OnSnapshotLoaded(s.conns[c], s.closing))
    case HelloSent(c) => Put(s, c, OnHelloSent(s.conns[c], s.revision))
    case CatchUpLoaded(c) => Put(s, c, OnCatchUpLoaded(s.conns[c]))
    case CatchUpSent(c) => Put(s, c, s.conns[c].(handshake := Settled))
    case RunWaiting(c) =>
      var conn := s.conns[c];
      var t := Put(s, c, conn.(waiting := conn.waiting[1..]));
      if conn.stage == Ready && !conn.disconnected then StartCommand(t, c, conn.waiting[0]) else t
    case RequestBroadcast => s.(queued := s.queued + 1)
    case BroadcastStarts(targets) =>
      var t := s.(queued := s.queued - 1);
      if targets == [] || s.closing then t
      else t.(revision := s.revision + 1, broadcast := Loading(s.revision + 1, targets),
              conns := Mark(s.conns, targets, false))
    case BroadcastLoaded => s.(broadcast := Sending(s.broadcast.revision, s.broadcast.targets))
    case BroadcastFails => s.(broadcast := Idle, conns := Mark(s.conns, s.broadcast.targets, true))
    case BroadcastSends =>
      var c := s.broadcast.targets[0];
      var t := s.(broadcast := Sending(s.broadcast.revision, s.broadcast.targets[1..]));
      if c < |s.conns| then Put(t, c, Sent(s.conns[c], s.broadcast.revision)) else t
    case BroadcastDone => s.(broadcast := Idle)
    case Deliver(c) => Put(s, c, Delivered(s.conns[c]))
    case StartClosing => s.(closing := true)
    case CloseServerState => s.(conns := CloseAll(s.conns, s.members))
    case ClearConnections => s.(members := {})
  }

  /** ServerSnapshotPublisher: each method is one stretch of `broadcast` or `performBroadcast`. */
  class SnapshotPublisher {
    var revision: nat
    var queued: nat           // broadcasts waiting on broadcastQueue
    var broadcast: Broadcast  // the one that runs

    ghost predicate Matches(s: State)
      reads this
    {
      s.revision == revision && s.queued == queued && s.broadcast == broadcast
    }

    constructor ()
      ensures Matches(INITIAL)
    {
      revision, queued, broadcast := 0, 0, Idle;
    }

    method Announce(ghost s: State)
      requires Matches(s)
      modifies this
      ensures Matches(Step(s, RequestBroadcast))
    {
      queued := queued + 1;
    }

    /** Up to the first await: the ready connections are chosen now; with none, nothing is published. */
    method Start(conns: seq<Conn>, connections: seq<nat>, closing: bool, ghost s: State) returns (targets: seq<nat>)
      requires Matches(s) && broadcast.Idle? && queued > 0
      requires conns == s.conns && closing == s.closing
      requires NoRepeats(connections) && forall c :: c in connections <==> c in s.members
      modifies this
      ensures Enabled(s, BroadcastStarts(targets)) && Matches(Step(s, BroadcastStarts(targets)))
    {
      targets := [];
      for i := 0 to |connections|
        invariant NoRepeats(targets)
        invariant forall c :: c in targets <==> IsReady(s, c) && c in connections[..i]
      {
        var c := connections[i];
        assert c !in connections[..i];
        if c < |conns| && conns[c].stage == Ready && !conns[c].disconnected {
          targets := targets + [c];
        }
        assert connections[..i + 1] == connections[..i] + [c];
      }
      assert connections[..|connections|] == connections;
      queued := queued - 1;
      if |targets| == 0 || closing { return; }
      revision := revision + 1;
      broadcast := Loading(revision, targets);
    }

    /** The send loop, one connection at a time; `to` is where this envelope goes. */
    method SendNext(ghost s: State) returns (to: nat, published: nat)
      requires Matches(s) && broadcast.Sending? && broadcast.targets != []
      modifies this
      ensures Matches(Step(s, BroadcastSends))
      ensures to == s.broadcast.targets[0] && published == s.broadcast.revision
    {
      to, published := broadcast.targets[0], broadcast.revision;
      broadcast := Sending(published, broadcast.targets[1..]);
    }
  }

  /** Records, for the specification only, which connections a broadcast has let down. */
  function Mark(conns: seq<Conn>, targets: seq<nat>, missed: bool): (r: seq<Conn>)
    ensures |r| == |conns|
    ensures forall c :: 0 <= c < |r| ==> r[c] == if c in targets then conns[c].(missed := missed) else conns[c]
  {
    seq(|conns|, c requires 0 <= c < |conns| => if c in targets then conns[c].(missed := missed) else conns[c])
  }

  function CloseAll(conns: seq<Conn>, members: set<nat>): (r: seq<Conn>)
    ensures |r| == |conns|
    ensures forall c :: 0 <= c < |r| ==> r[c] == if c in members then conns[c].(stage := Closing) else conns[c]
  {
    seq(|conns|, c requires 0 <= c < |conns| => if c in members then conns[c].(stage := Closing) else conns[c])
  }

  // ---------------------------------------------------------------- stages

  ghost predicate ConnStage(c: Conn, member: bool) {
    && (c.stage == Closed <==> c.disconnected)
    && (c.disconnected <==> !member)
    && (c.stage == Ready ==> c.helloSent && c.handshakeComplete)
    && (c.handshake.SendingHello? ==> c.helloSent)
    && (c.stage == AwaitingHello ==> c.handshake.NotStarted? && !c.helloSent)
  }

  ghost predicate ConnForward(c: Conn, d: Conn) {
    && Rank(c.stage) <= Rank(d.stage)
    && (c.helloSent ==> d.helloSent)
    && (c.disconnected ==> d.disconnected)
  }

  ghost predicate StageValid(s: State) {
    && (forall c :: c in s.members ==> c < |s.conns|)
    && (forall c :: 0 <= c < |s.conns| ==> ConnStage(s.conns[c], c in s.members))
  }

  /** Stages only move forward, and no connection is forgotten or renumbered. */
  ghost predicate Forward(s: State, t: State) {
    |s.conns| <= |t.conns| && forall c :: 0 <= c < |s.conns| ==> ConnForward(s.conns[c], t.conns[c])
  }

  /**
   * `closed` holds exactly of disconnected connections and exactly of those outside the connection set, and
   * the set is already empty when shutdown clears it.
   */
  lemma StepKeepsStages(s: State, e: Event)
    requires StageValid(s) && Enabled(s, e)
    ensures StageValid(Step(s, e)) && Forward(s, Step(s, e))
    ensures e == ClearConnections ==> s.members == {}
  {
    match e {
      case Dispatch(c, m) => DispatchKeepsStages(s, c, m);
      case Disconnect(c) => DisconnectKeepsStages(s, c);
      case CloseServerState => CloseAllKeepsStages(s);
      case ClearConnections =>
        NoMemberIsDisconnected(s);
      case Accept => AcceptKeepsStages(s);
      case BroadcastStarts(_) => BroadcastKeepsStages(s, e);
      case BroadcastSends => BroadcastKeepsStages(s, e);
      case BroadcastFails => BroadcastKeepsStages(s, e);
      case RequestBroadcast =>
      case BroadcastLoaded =>
      case BroadcastDone =>
      case StartClosing =>
      case _ => ConnEventKeepsStages(s, e);
    }
  }

  lemma BroadcastKeepsStages(s: State, e: Event)
    requires StageValid(s) && Enabled(s, e) && (e.BroadcastStarts? || e.BroadcastSends? || e.BroadcastFails?)
    ensures StageValid(Step(s, e)) && Forward(s, Step(s, e))
  {
    match e {
      case BroadcastStarts(targets) => MarkKeepsStages(s, Mark(s.conns, targets, false));
      case BroadcastFails => MarkKeepsStages(s, Mark(s.conns, s.broadcast.targets, true));
      case BroadcastSends =>
        var c := s.broadcast.targets[0];
        if c < |s.conns| { PutKeepsStages(s, c, Sent(s.conns[c], s.broadcast.revision)); }
    }
  }

  lemma NoMemberIsDisconnected(s: State)
    requires StageValid(s)
    ensures forall c :: c in s.members ==> !s.conns[c].disconnected
  {
    forall c | c in s.members ensures !s.conns[c].disconnected { assert ConnStage(s.conns[c], c in s.members); }
  }

  lemma ConnEventKeepsStages(s: State, e: Event)
    requires StageValid(s) && Enabled(s, e)
    requires e.Fail? || e.TransportCloses? || e.SnapshotLoaded? || e.HelloSent? || e.CatchUpLoaded? || e.CatchUpSent?
          || e.RunWaiting? || e.Deliver?
    ensures StageValid(Step(s, e)) && Forward(s, Step(s, e))
  {
    assert ConnStage(s.conns[e.conn], e.conn in s.members);
    match e {
      case Fail(c) => PutKeepsStages(s, c, Failed(s.conns[c]));
      case TransportCloses(c) => PutKeepsStages(s, c, s.conns[c].(closed := true));
      case SnapshotLoaded(c) =>
        HandshakeKeepsStage(s.conns[c], c in s.members, s.revision, s.closing);
        PutKeepsStages(s, c, OnSnapshotLoaded(s.conns[c], s.closing));
      case HelloSent(c) =>
        HandshakeKeepsStage(s.conns[c], c in s.members, s.revision, s.closing);
        PutKeepsStages(s, c, OnHelloSent(s.conns[c], s.revision));
      case CatchUpLoaded(c) =>
        HandshakeKeepsStage(s.conns[c], c in s.members, s.revision, s.closing);
        PutKeepsStages(s, c, OnCatchUpLoaded(s.conns[c]));
      case CatchUpSent(c) => PutKeepsStages(s, c, s.conns[c].(handshake := Settled));
      case RunWaiting(c) => PutKeepsStages(s, c, s.conns[c].(waiting := s.conns[c].waiting[1..]));
      case Deliver(c) => PutKeepsStages(s, c, Delivered(s.conns[c]));
    }
  }

  lemma HandshakeKeepsStage(c: Conn, member: bool, revision: nat, closing: bool)
    requires ConnStage(c, member)
    ensures c.handshake.LoadingSnapshot? ==>
      ConnStage(OnSnapshotLoaded(c, closing), member) && ConnForward(c, OnSnapshotLoaded(c, closing))
    ensures c.handshake.SendingHello? ==>
      ConnStage(OnHelloSent(c, revision), member) && ConnForward(c, OnHelloSent(c, revision))
    ensures c.handshake.LoadingCatchUp? ==>
      ConnStage(OnCatchUpLoaded(c), member) && ConnForward(c, OnCatchUpLoaded(c))
  {
  }

  lemma PutKeepsStages(s: State, c: nat, conn: Conn)
    requires StageValid(s) && c < |s.conns|
    requires ConnStage(s.conns[c], c in s.members) ==>
      ConnStage(conn, c in s.members) && ConnForward(s.conns[c], conn)
    ensures StageValid(Put(s, c, conn)) && Forward(s, Put(s, c, conn))
  {
  }

  lemma AcceptKeepsStages(s: State)
    requires StageValid(s)
    ensures StageValid(s.(conns := s.conns + [ACCEPTED], members := s.members + {|s.conns|}))
  {
  }

  lemma MarkKeepsStages(s: State, conns: seq<Conn>)
    requires StageValid(s) && |conns| == |s.conns|
    requires forall c :: 0 <= c < |s.conns| ==> conns[c].(missed := s.conns[c].missed) == s.conns[c]
    ensures forall c :: 0 <= c < |s.conns| ==> ConnStage(conns[c], c in s.members) && ConnForward(s.conns[c], conns[c])
  {
    forall c | 0 <= c < |s.conns| ensures ConnStage(conns[c], c in s.members) && ConnForward(s.conns[c], conns[c]) {
      assert ConnStage(s.conns[c], c in s.members);
    }
  }

  lemma CloseAllKeepsStages(s: State)
    requires StageValid(s)
    ensures var t := s.(conns := CloseAll(s.conns, s.members)); StageValid(t) && Forward(s, t)
  {
    forall c | 0 <= c < |s.conns|
      ensures var d := CloseAll(s.conns, s.members)[c]; ConnStage(d, c in s.members) && ConnForward(s.conns[c], d)
    {
      assert ConnStage(s.conns[c], c in s.members);
    }
  }

  lemma DisconnectKeepsStages(s: State, c: nat)
    requires StageValid(s) && Enabled(s, Disconnect(c))
    ensures StageValid(Step(s, Disconnect(c))) && Forward(s, Step(s, Disconnect(c)))
  {
    var t := Step(s, Disconnect(c));
    forall d | 0 <= d < |s.conns| ensures ConnStage(t.conns[d], d in t.members) && ConnForward(s.conns[d], t.conns[d]) {
      assert ConnStage(s.conns[d], d in s.members);
    }
  }

  lemma DispatchKeepsStages(s: State, c: nat, m: Message)
    requires StageValid(s) && Enabled(s, Dispatch(c, m))
    ensures StageValid(DispatchStep(s, c, m)) && Forward(s, DispatchStep(s, c, m))
  {
    PutKeepsStages(s, c, OnDispatch(s.conns[c], m, s.revision, s.requests));
  }

  // ---------------------------------------------------------------- commands

  /** Each decoded request waits in one place or has started one command, and only after the server's hello. */
  ghost predicate CommandsValid(s: State) {
    && (forall k :: 0 <= k < |s.started| ==> StartedValid(s, s.started[k].0, s.started[k].1))
    && NoRepeats(Numbers(s.started))
    && (forall c :: 0 <= c < |s.conns| ==> WaitingValid(s, s.conns[c].waiting))
    && Apart(s.conns)
  }

  /** No request waits at two connections. */
  ghost predicate Apart(conns: seq<Conn>) {
    forall c, d :: 0 <= c < d < |conns| ==> Disjoint(conns[c].waiting, conns[d].waiting)
  }

  ghost predicate StartedValid(s: State, c: nat, request: nat) {
    c < |s.conns| && s.conns[c].helloSent && request < s.requests
  }

  ghost predicate WaitingValid(s: State, waiting: seq<nat>) {
    && NoRepeats(waiting)
    && (forall r :: r in waiting ==> r < s.requests && r !in Numbers(s.started))
  }

  ghost predicate Disjoint(a: seq<nat>, b: seq<nat>) {
    forall r :: r in a ==> r !in b
  }

  function Numbers(started: seq<(nat, nat)>): (r: seq<nat>)
    ensures |r| == |started| && forall k :: 0 <= k < |r| ==> r[k] == started[k].1
  {
    seq(|started|, k requires 0 <= k < |started| => started[k].1)
  }

  lemma StepKeepsCommands(s: State, e: Event)
    requires StageValid(s) && CommandsValid(s) && Enabled(s, e)
    ensures CommandsValid(Step(s, e))
    ensures s.started <= Step(s, e).started && |Step(s, e).started| <= |s.started| + 1
  {
    match e {
      case Dispatch(c, m) => DispatchKeepsCommands(s, c, m); DispatchStartsOne(s, c, m);
      case RunWaiting(c) => RunWaitingKeepsCommands(s, c);
      case _ => OthersKeepCommands(s, e);
    }
  }

  lemma DispatchStartsOne(s: State, c: nat, m: Message)
    requires c < |s.conns|
    ensures var t := DispatchStep(s, c, m); s.started <= t.started && |t.started| <= |s.started| + 1
  {
  }

  lemma OthersKeepCommands(s: State, e: Event)
    requires StageValid(s) && CommandsValid(s) && Enabled(s, e) && !e.Dispatch? && !e.RunWaiting?
    ensures CommandsValid(Step(s, e)) && Step(s, e).started == s.started
  {
    StepKeepsStages(s, e);
    OthersKeepWaiting(s, e);
    SameWaitingKeepsCommands(s, Step(s, e));
  }

  /** What a step that neither queues nor starts a request leaves alone. */
  ghost predicate SameWaiting(s: State, t: State) {
    && t.started == s.started && t.requests == s.requests && |s.conns| <= |t.conns|
    && forall c :: 0 <= c < |t.conns| ==> t.conns[c].waiting == if c < |s.conns| then s.conns[c].waiting else []
  }

  lemma PutKeepsWaiting(s: State, c: nat, conn: Conn)
    requires c < |s.conns| && conn.waiting == s.conns[c].waiting
    ensures SameWaiting(s, Put(s, c, conn))
  {
  }

  lemma OthersKeepWaiting(s: State, e: Event)
    requires Enabled(s, e) && !e.Dispatch? && !e.RunWaiting?
    ensures SameWaiting(s, Step(s, e))
  {
    match e {
      case Fail(c) => PutKeepsWaiting(s, c, Failed(s.conns[c]));
      case Disconnect(c) => PutKeepsWaiting(s, c, Disconnected(s.conns[c]));
      case TransportCloses(c) => PutKeepsWaiting(s, c, s.conns[c].(closed := true));
      case SnapshotLoaded(c) => PutKeepsWaiting(s, c, OnSnapshotLoaded(s.conns[c], s.closing));
      case HelloSent(c) => PutKeepsWaiting(s, c, OnHelloSent(s.conns[c], s.revision));
      case CatchUpLoaded(c) => PutKeepsWaiting(s, c, OnCatchUpLoaded(s.conns[c]));
      case CatchUpSent(c) => PutKeepsWaiting(s, c, s.conns[c].(handshake := Settled));
      case Deliver(c) => PutKeepsWaiting(s, c, Delivered(s.conns[c]));
      case _ => BroadcastKeepsWaiting(s, e);
    }
  }

  lemma BroadcastKeepsWaiting(s: State, e: Event)
    requires Enabled(s, e)
    requires e.Accept? || e.RequestBroadcast? || e.BroadcastStarts? || e.BroadcastLoaded? || e.BroadcastFails?
          || e.BroadcastSends? || e.BroadcastDone? || e.StartClosing? || e.CloseServerState? || e.ClearConnections?
    ensures SameWaiting(s, Step(s, e))
  {
  }

  lemma SameWaitingKeepsCommands(s: State, t: State)
    requires CommandsValid(s) && Forward(s, t) && SameWaiting(s, t)
    ensures CommandsValid(t)
  {
    StartedStays(s, t);
    forall c | 0 <= c < |t.conns| ensures WaitingValid(t, t.conns[c].waiting) {
      if c < |s.conns| { assert WaitingValid(s, s.conns[c].waiting); }
    }
  }

  lemma StartedStays(s: State, t: State)
    requires Forward(s, t) && s.requests <= t.requests
    ensures forall c, r :: StartedValid(s, c, r) ==> StartedValid(t, c, r)
  {
    forall c: nat, r: nat | StartedValid(s, c, r) ensures StartedValid(t, c, r) {
      assert ConnForward(s.conns[c], t.conns[c]);
    }
  }

  /** Appending a number not seen before keeps the numbers distinct. */
  lemma NumbersSnoc(started: seq<(nat, nat)>, c: nat, request: nat)
    requires NoRepeats(Numbers(started)) && request !in Numbers(started)
    ensures NoRepeats(Numbers(started + [(c, request)]))
    ensures Numbers(started + [(c, request)]) == Numbers(started) + [request]
  {
    assert forall k :: 0 <= k < |started| ==> Numbers(started)[k] in Numbers(started);
  }

  lemma RunWaitingKeepsCommands(s: State, c: nat)
    requires StageValid(s) && CommandsValid(s) && Enabled(s, RunWaiting(c))
    ensures CommandsValid(Step(s, RunWaiting(c)))
  {
    var t := Step(s, RunWaiting(c));
    var waiting := s.conns[c].waiting;
    var r := waiting[0];
    assert WaitingValid(s, waiting) && r in waiting;
    assert ConnStage(s.conns[c], c in s.members);
    NumbersSnoc(s.started, c, r);
    assert forall q :: q in waiting[1..] ==> q in waiting && q != r;
    forall k | 0 <= k < |t.started| ensures StartedValid(t, t.started[k].0, t.started[k].1) {
      if k < |s.started| { assert StartedValid(s, s.started[k].0, s.started[k].1); }
    }
    forall d | 0 <= d < |t.conns| ensures WaitingValid(t, t.conns[d].waiting) {
      assert WaitingValid(s, s.conns[d].waiting);
      if d != c {
        assert Disjoint(s.conns[if c < d then c else d].waiting, s.conns[if c < d then d else c].waiting);
      }
    }
    StaysApart(s.conns, c, s.conns[c].(waiting := waiting[1..]), r);
  }

  /** Dropping a request, or appending one that waits nowhere, leaves the queues apart. */
  lemma StaysApart(conns: seq<Conn>, c: nat, conn: Conn, request: nat)
    requires Apart(conns) && c < |conns|
    requires forall r :: r in conn.waiting ==>
      r in conns[c].waiting || (r == request && forall d :: 0 <= d < |conns| ==> request !in conns[d].waiting)
    ensures Apart(conns[c := conn])
  {
    var after := conns[c := conn];
    forall d, e | 0 <= d < e < |after| ensures Disjoint(after[d].waiting, after[e].waiting) {
      assert Disjoint(conns[d].waiting, conns[e].waiting);
    }
  }

  lemma FreshNumber(s: State)
    requires CommandsValid(s)
    ensures s.requests !in Numbers(s.started)
    ensures forall c :: 0 <= c < |s.conns| ==> s.requests !in s.conns[c].waiting
  {
    forall k | 0 <= k < |s.started| ensures Numbers(s.started)[k] < s.requests {
      assert StartedValid(s, s.started[k].0, s.started[k].1);
    }
    forall c | 0 <= c < |s.conns| ensures s.requests !in s.conns[c].waiting {
      assert WaitingValid(s, s.conns[c].waiting);
    }
  }

  lemma DispatchKeepsCommands(s: State, c: nat, m: Message)
    requires StageValid(s) && CommandsValid(s) && Enabled(s, Dispatch(c, m))
    ensures CommandsValid(DispatchStep(s, c, m))
  {
    var t := DispatchStep(s, c, m);
    FreshNumber(s);
    DispatchKeepsStages(s, c, m);
    StartedStays(s, t);
    if t.started != s.started {
      assert ConnStage(s.conns[c], c in s.members);
      NumbersSnoc(s.started, c, s.requests);
    }
    DispatchKeepsWaiting(s, c, m);
  }

  lemma DispatchKeepsWaiting(s: State, c: nat, m: Message)
    requires CommandsValid(s) && Enabled(s, Dispatch(c, m))
    ensures var t := DispatchStep(s, c, m);
      Apart(t.conns) && forall d :: 0 <= d < |t.conns| ==> WaitingValid(t, t.conns[d].waiting)
  {
    var t := DispatchStep(s, c, m);
    FreshNumber(s);
    StaysApart(s.conns, c, OnDispatch(s.conns[c], m, s.revision, s.requests), s.requests);
    if t.started != s.started { NumbersSnoc(s.started, c, s.requests); }
    forall d | 0 <= d < |t.conns| ensures WaitingValid(t, t.conns[d].waiting) {
      assert WaitingValid(s, s.conns[d].waiting);
      if t.conns[d].waiting != s.conns[d].waiting { WaitingSnoc(s, t, s.conns[d].waiting); }
    }
  }

  lemma WaitingSnoc(s: State, t: State, waiting: seq<nat>)
    requires WaitingValid(s, waiting) && s.requests !in Numbers(s.started)
    requires t.started == s.started && t.requests == s.requests + 1
    ensures WaitingValid(t, waiting + [s.requests])
  {
    assert forall i :: 0 <= i < |waiting| ==> waiting[i] in waiting;
  }

  // ---------------------------------------------------------------- revisions

  /** A revision the peer holds, or will hold once what is under way to it has arrived. */
  ghost predicate Holds(c: Conn, target: Option<nat>, r: nat) {
    HoldsOtherwise(c, r) || target == Some(r)
  }

  ghost predicate HoldsOtherwise(c: Conn, r: nat) {
    c.client == Some(r) || r in c.outbox || c.handshake == LoadingCatchUp(r)
  }

  predicate PastHello(c: Conn) {
    c.handshake.LoadingCatchUp? || c.handshake.SendingCatchUp? || c.handshake.Settled?
  }

  predicate Bounded(r: nat, target: Option<nat>, revision: nat) {
    r <= revision && (target.Some? ==> r < target.value)
  }

  predicate Live(c: Conn) { c.stage == Ready && !c.disconnected && !c.closed }

  ghost predicate ConnFresh(c: Conn, target: Option<nat>, revision: nat) {
    && (c.client.Some? ==> Bounded(c.client.value, target, revision))
    && (forall r :: r in c.outbox ==> Bounded(r, target, revision))
    && (c.handshake.LoadingCatchUp? ==> Bounded(c.handshake.revision, target, revision))
    && (target.Some? ==> target.value == revision && Rank(c.stage) >= 2)
    && (Live(c) ==> (Holds(c, target, revision) <==> !c.missed))
    && (c.missed ==> Rank(c.stage) >= 2)
    && (c.stage == AwaitingHello ==> c.handshake.NotStarted?)
    && (c.handshake.NotStarted? || c.handshake.LoadingSnapshot? ==> c.outbox == [] && c.client == None)
    && (c.handshake.LoadingSnapshot? || c.handshake.SendingHello? ==> c.handshake.revision <= revision)
    && (c.handshake.LoadingCatchUp? ==> Rank(c.stage) >= 2)
    && (c.stage == Ready || target.Some? ==> PastHello(c))
    && (c.handshake.SendingHello? && c.stage == Handshaking && !c.disconnected && !c.closed ==>
          || (c.outbox == [c.handshake.revision] && c.client == None)
          || (c.outbox == [] && c.client == Some(c.handshake.revision)))
  }

  function TargetOf(b: Broadcast, c: nat): Option<nat> {
    if c in Targets(b) then Some(b.revision) else None
  }

  ghost predicate RevisionValid(s: State) {
    && NoRepeats(Targets(s.broadcast))
    && (forall c :: c in Targets(s.broadcast) ==> c < |s.conns|)
    && (forall c :: 0 <= c < |s.conns| ==> ConnFresh(s.conns[c], TargetOf(s.broadcast, c), s.revision))
  }

  lemma StepKeepsRevisions(s: State, e: Event)
    requires StageValid(s) && RevisionValid(s) && Enabled(s, e)
    ensures RevisionValid(Step(s, e))
  {
    match e {
      case BroadcastStarts(targets) => BroadcastStartsKeepsRevisions(s, targets);
      case BroadcastFails => BroadcastFailsKeepsRevisions(s);
      case BroadcastSends => BroadcastSendsKeepsRevisions(s);
      case BroadcastDone =>
      case BroadcastLoaded => assert Targets(Step(s, e).broadcast) == Targets(s.broadcast);
      case CloseServerState => CloseAllKeepsRevisions(s);
      case Accept => AcceptKeepsRevisions(s);
      case RequestBroadcast =>
      case StartClosing =>
      case ClearConnections =>
      case Dispatch(c, m) => DispatchKeepsRevisions(s, c, m);
      case _ => ConnEventKeepsRevisions(s, e);
    }
  }

  lemma ConnEventKeepsRevisions(s: State, e: Event)
    requires StageValid(s) && RevisionValid(s) && Enabled(s, e)
    requires e.Fail? || e.Disconnect? || e.TransportCloses? || e.SnapshotLoaded? || e.HelloSent? || e.CatchUpLoaded?
          || e.CatchUpSent? || e.RunWaiting? || e.Deliver?
    ensures RevisionValid(Step(s, e))
  {
    var conn, target := s.conns[e.conn], TargetOf(s.broadcast, e.conn);
    assert ConnFresh(conn, target, s.revision) && ConnStage(conn, e.conn in s.members);
    match e {
      case Fail(_) => EndingKeepsRevisions(s, e);
      case Disconnect(_) => EndingKeepsRevisions(s, e);
      case TransportCloses(c) => PutKeepsRevisions(s, c, conn.(closed := true));
      case RunWaiting(c) => PutKeepsRevisions(s, c, conn.(waiting := conn.waiting[1..]));
      case Deliver(c) => DeliveryKeepsFresh(conn, target, s.revision); PutKeepsRevisions(s, c, Delivered(conn));
      case _ => HandshakeKeepsRevisions(s, e);
    }
  }

  lemma EndingKeepsRevisions(s: State, e: Event)
    requires StageValid(s) && RevisionValid(s) && Enabled(s, e) && (e.Fail? || e.Disconnect?)
    ensures RevisionValid(Step(s, e))
  {
    var conn := s.conns[e.conn];
    assert ConnStage(conn, e.conn in s.members);
    EndingKeepsFresh(conn, TargetOf(s.broadcast, e.conn), s.revision);
    PutKeepsRevisions(s, e.conn, if e.Fail? then Failed(conn) else Disconnected(conn));
  }

  lemma HandshakeKeepsRevisions(s: State, e: Event)
    requires RevisionValid(s) && Enabled(s, e)
    requires e.SnapshotLoaded? || e.HelloSent? || e.CatchUpLoaded? || e.CatchUpSent?
    ensures RevisionValid(Step(s, e))
  {
    var conn := s.conns[e.conn];
    HandshakeKeepsFresh(conn, TargetOf(s.broadcast, e.conn), s.revision, s.closing);
    match e {
      case SnapshotLoaded(c) => PutKeepsRevisions(s, c, OnSnapshotLoaded(conn, s.closing));
      case HelloSent(c) => PutKeepsRevisions(s, c, OnHelloSent(conn, s.revision));
      case CatchUpLoaded(c) => PutKeepsRevisions(s, c, OnCatchUpLoaded(conn));
      case CatchUpSent(c) => PutKeepsRevisions(s, c, conn.(handshake := Settled));
    }
  }

  lemma PutKeepsRevisions(s: State, c: nat, conn: Conn)
    requires RevisionValid(s) && c < |s.conns|
    requires ConnFresh(s.conns[c], TargetOf(s.broadcast, c), s.revision) ==>
      ConnFresh(conn, TargetOf(s.broadcast, c), s.revision)
    ensures RevisionValid(Put(s, c, conn))
  {
  }

  lemma EndingKeepsFresh(c: Conn, target: Option<nat>, revision: nat)
    requires ConnFresh(c, target, revision) && (c.stage == Closed ==> c.disconnected)
    ensures ConnFresh(Failed(c), target, revision) && ConnFresh(Disconnected(c), target, revision)
  {
    if c.stage != Closed { EndedIsFresh(c, Closing, c.disconnected, target, revision); }
    EndedIsFresh(c, Closed, true, target, revision);
  }

  lemma EndedIsFresh(c: Conn, stage: Stage, disconnected: bool, target: Option<nat>, revision: nat)
    requires ConnFresh(c, target, revision) && (stage == Closing || stage == Closed)
    ensures ConnFresh(c.(stage := stage, disconnected := disconnected), target, revision)
  {
  }

  lemma HandshakeKeepsFresh(c: Conn, target: Option<nat>, revision: nat, closing: bool)
    requires ConnFresh(c, target, revision)
    ensures c.handshake.LoadingSnapshot? ==> ConnFresh(OnSnapshotLoaded(c, closing), target, revision)
    ensures c.handshake.SendingHello? ==> ConnFresh(OnHelloSent(c, revision), target, revision)
    ensures c.handshake.LoadingCatchUp? ==> ConnFresh(OnCatchUpLoaded(c), target, revision)
    ensures c.handshake.SendingCatchUp? ==> ConnFresh(c.(handshake := Settled), target, revision)
  {
    if c.handshake.LoadingCatchUp? && !c.disconnected && !c.closed {
      var o := c.outbox;
      assert (o + [c.handshake.revision])[|o|] == c.handshake.revision;
      assert forall r :: r in o + [c.handshake.revision] <==> r in o || r == c.handshake.revision;
    }
  }

  lemma DeliveryKeepsFresh(c: Conn, target: Option<nat>, revision: nat)
    requires c.outbox != [] && ConnFresh(c, target, revision)
    ensures ConnFresh(Delivered(c), target, revision)
  {
    var d := Delivered(c);
    var head := c.outbox[0];
    assert head in c.outbox;
    assert forall r :: r in c.outbox <==> r == head || r in d.outbox by { assert c.outbox == [head] + d.outbox; }
  }

  lemma DispatchKeepsRevisions(s: State, c: nat, m: Message)
    requires StageValid(s) && RevisionValid(s) && Enabled(s, Dispatch(c, m))
    ensures RevisionValid(DispatchStep(s, c, m))
  {
    DispatchKeepsFresh(s.conns[c], m, TargetOf(s.broadcast, c), s.revision, s.requests);
    PutKeepsRevisions(s, c, OnDispatch(s.conns[c], m, s.revision, s.requests));
  }

  lemma DispatchKeepsFresh(c: Conn, m: Message, target: Option<nat>, revision: nat, request: nat)
    requires ConnFresh(c, target, revision) && !Terminal(c)
    ensures ConnFresh(OnDispatch(c, m, revision, request), target, revision)
  {
  }

  lemma AcceptKeepsRevisions(s: State)
    requires RevisionValid(s)
    ensures RevisionValid(s.(conns := s.conns + [ACCEPTED], members := s.members + {|s.conns|}))
  {
    assert TargetOf(s.broadcast, |s.conns|) == None;
    assert ConnFresh(ACCEPTED, None, s.revision);
  }

  lemma CloseAllKeepsRevisions(s: State)
    requires StageValid(s) && RevisionValid(s)
    ensures RevisionValid(s.(conns := CloseAll(s.conns, s.members)))
  {
    forall c | 0 <= c < |s.conns|
      ensures ConnFresh(CloseAll(s.conns, s.members)[c], TargetOf(s.broadcast, c), s.revision)
    {
      assert ConnFresh(s.conns[c], TargetOf(s.broadcast, c), s.revision);
      assert ConnStage(s.conns[c], c in s.members);
    }
  }

  lemma BroadcastStartsKeepsRevisions(s: State, targets: seq<nat>)
    requires StageValid(s) && RevisionValid(s) && Enabled(s, BroadcastStarts(targets))
    ensures RevisionValid(Step(s, BroadcastStarts(targets)))
  {
    var t := Step(s, BroadcastStarts(targets));
    if t.broadcast.Loading? {
      forall c | 0 <= c < |s.conns| ensures ConnFresh(t.conns[c], TargetOf(t.broadcast, c), t.revision) {
        assert ConnFresh(s.conns[c], None, s.revision);
        assert ConnStage(s.conns[c], c in s.members);
        assert c in targets <==> IsReady(s, c);
        TargetedIsFresh(s.conns[c], c in targets, s.revision);
      }
    }
  }

  lemma TargetedIsFresh(c: Conn, targeted: bool, revision: nat)
    requires ConnFresh(c, None, revision)
    requires Live(c) ==> targeted
    requires targeted ==> c.stage == Ready
    ensures ConnFresh(if targeted then c.(missed := false) else c,
                      if targeted then Some(revision + 1) else None, revision + 1)
  {
  }

  lemma BroadcastFailsKeepsRevisions(s: State)
    requires RevisionValid(s) && Enabled(s, BroadcastFails)
    ensures RevisionValid(Step(s, BroadcastFails))
  {
    var t := Step(s, BroadcastFails);
    forall c | 0 <= c < |s.conns| ensures ConnFresh(t.conns[c], None, t.revision) {
      assert ConnFresh(s.conns[c], TargetOf(s.broadcast, c), s.revision);
      MissedIsFresh(s.conns[c], TargetOf(s.broadcast, c), s.revision);
    }
  }

  lemma MissedIsFresh(c: Conn, target: Option<nat>, revision: nat)
    requires ConnFresh(c, target, revision)
    ensures ConnFresh(if target.Some? then c.(missed := true) else c, None, revision)
  {
  }

  lemma BroadcastSendsKeepsRevisions(s: State)
    requires RevisionValid(s) && Enabled(s, BroadcastSends)
    ensures RevisionValid(Step(s, BroadcastSends))
  {
    var t := Step(s, BroadcastSends);
    var now := s.broadcast.targets[0];
    assert forall c :: c in Targets(t.broadcast) <==> c in Targets(s.broadcast) && c != now;
    forall c | 0 <= c < |s.conns| ensures ConnFresh(t.conns[c], TargetOf(t.broadcast, c), t.revision) {
      assert ConnFresh(s.conns[c], TargetOf(s.broadcast, c), s.revision);
      if c == now { SentIsFresh(s.conns[c], s.revision); }
    }
  }

  lemma SentIsFresh(c: Conn, revision: nat)
    requires ConnFresh(c, Some(revision), revision)
    ensures ConnFresh(Sent(c, revision), None, revision)
  {
    var d := Sent(c, revision);
    assert forall r :: r in d.outbox ==> r in c.outbox || r == revision;
    if Live(c) { assert d.outbox[|c.outbox|] == revision; }
  }

  // ---------------------------------------------------------------- every run

  ghost predicate Inv(s: State) {
    StageValid(s) && CommandsValid(s) && RevisionValid(s)
  }

  ghost predicate IsRun(s: State, events: seq<Event>)
    decreases |events|
  {
    events != [] ==> Enabled(s, events[0]) && IsRun(Step(s, events[0]), events[1..])
  }

  ghost function Run(s: State, events: seq<Event>): State
    requires IsRun(s, events)
    decreases |events|
  {
    if events == [] then s else Run(Step(s, events[0]), events[1..])
  }

  lemma ForwardTransitive(s: State, t: State, u: State)
    requires Forward(s, t) && Forward(t, u)
    ensures Forward(s, u)
  {
    forall c | 0 <= c < |s.conns| ensures ConnForward(s.conns[c], u.conns[c]) {
      assert ConnForward(s.conns[c], t.conns[c]) && ConnForward(t.conns[c], u.conns[c]);
    }
  }

  lemma {:induction false} RunKeepsInv(s: State, events: seq<Event>)
    requires Inv(s) && IsRun(s, events)
    ensures Inv(Run(s, events)) && Forward(s, Run(s, events))
    decreases |events|
  {
    if events != [] {
      var t := Step(s, events[0]);
      StepKeepsStages(s, events[0]);
      StepKeepsCommands(s, events[0]);
      StepKeepsRevisions(s, events[0]);
      RunKeepsInv(t, events[1..]);
      ForwardTransitive(s, t, Run(s, events));
    }
  }

  /** Nothing is on its way to this connection any more. */
  predicate Quiescent(s: State, c: nat)
    requires c < |s.conns|
  {
    s.conns[c].outbox == [] && !s.conns[c].handshake.LoadingCatchUp? && c !in Targets(s.broadcast)
  }

  /**
   * In every run, once nothing is on its way to a ready connection whose transport is open, its client holds
   * the server's current revision, unless the broadcast that announced that revision to it has failed.
   */
  lemma RevisionConvergence(events: seq<Event>, c: nat)
    requires IsRun(INITIAL, events) && c < |Run(INITIAL, events).conns|
    requires var s := Run(INITIAL, events); Live(s.conns[c]) && Quiescent(s, c)
    ensures var s := Run(INITIAL, events); s.conns[c].client == Some(s.revision) <==> !s.conns[c].missed
  {
    RunKeepsInv(INITIAL, events);
    var s := Run(INITIAL, events);
    assert ConnFresh(s.conns[c], TargetOf(s.broadcast, c), s.revision);
  }

  ghost predicate NothingMissed(s: State) {
    forall c :: 0 <= c < |s.conns| ==> !s.conns[c].missed
  }

  lemma {:induction false} WithoutFailuresNothingIsMissed(s: State, events: seq<Event>)
    requires NothingMissed(s) && IsRun(s, events) && BroadcastFails !in events
    ensures NothingMissed(Run(s, events))
    decreases |events|
  {
    if events != [] {
      NothingMissedStep(s, events[0]);
      WithoutFailuresNothingIsMissed(Step(s, events[0]), events[1..]);
    }
  }

  lemma NothingMissedStep(s: State, e: Event)
    requires NothingMissed(s) && Enabled(s, e) && e != BroadcastFails
    ensures NothingMissed(Step(s, e))
  {
    match e {
      case Dispatch(c, m) => PutMisses(s, c, OnDispatch(s.conns[c], m, s.revision, s.requests));
      case Fail(c) => PutMisses(s, c, Failed(s.conns[c]));
      case Disconnect(c) => PutMisses(s, c, Disconnected(s.conns[c]));
      case TransportCloses(c) => PutMisses(s, c, s.conns[c].(closed := true));
      case SnapshotLoaded(c) => PutMisses(s, c, OnSnapshotLoaded(s.conns[c], s.closing));
      case HelloSent(c) => PutMisses(s, c, OnHelloSent(s.conns[c], s.revision));
      case CatchUpLoaded(c) => PutMisses(s, c, OnCatchUpLoaded(s.conns[c]));
      case CatchUpSent(c) => PutMisses(s, c, s.conns[c].(handshake := Settled));
      case RunWaiting(c) => PutMisses(s, c, s.conns[c].(waiting := s.conns[c].waiting[1..]));
      case Deliver(c) => PutMisses(s, c, Delivered(s.conns[c]));
      case _ => BroadcastMisses(s, e);
    }
  }

  lemma PutMisses(s: State, c: nat, conn: Conn)
    requires NothingMissed(s) && c < |s.conns| && conn.missed == s.conns[c].missed
    ensures NothingMissed(Put(s, c, conn))
  {
  }

  lemma BroadcastMisses(s: State, e: Event)
    requires NothingMissed(s) && Enabled(s, e)
    requires e.Accept? || e.RequestBroadcast? || e.BroadcastStarts? || e.BroadcastLoaded? || e.BroadcastSends?
          || e.BroadcastDone? || e.StartClosing? || e.CloseServerState? || e.ClearConnections?
    ensures NothingMissed(Step(s, e))
  {
  }

  /** A failed broadcast leaves each ready connection it was meant for behind, with nothing on the way to it. */
  lemma FailedBroadcastLeavesBehind(s: State, c: nat)
    requires RevisionValid(s) && Enabled(s, BroadcastFails) && c < |s.conns| && c in Targets(s.broadcast)
    requires Live(s.conns[c])
    ensures var t := Step(s, BroadcastFails); t.conns[c].missed && !Holds(t.conns[c], None, t.revision)
  {
    BroadcastFailsKeepsRevisions(s);
    var t := Step(s, BroadcastFails);
    assert ConnFresh(t.conns[c], TargetOf(t.broadcast, c), t.revision);
  }

  /** With no failed service call, every ready client converges to the current revision. */
  lemma RevisionConvergenceWithoutFailures(events: seq<Event>, c: nat)
    requires IsRun(INITIAL, events) && BroadcastFails !in events && c < |Run(INITIAL, events).conns|
    requires var s := Run(INITIAL, events); Live(s.conns[c]) && Quiescent(s, c)
    ensures var s := Run(INITIAL, events); s.conns[c].client == Some(s.revision)
  {
    WithoutFailuresNothingIsMissed(INITIAL, events);
    RevisionConvergence(events, c);
  }

  /**
   * In every run, from any point on: stages only move forward; a connection is closed exactly when it is
   * disconnected and exactly when it has left the connection set; and every command was started by a
   * connection whose hello had been sent, at most one per decoded request.
   */
  lemma StagesAndCommands(before: seq<Event>, after: seq<Event>, c: nat)
    requires IsRun(INITIAL, before) && IsRun(Run(INITIAL, before), after)
    requires c < |Run(INITIAL, before).conns|
    ensures var s, t := Run(INITIAL, before), Run(Run(INITIAL, before), after);
      && c < |t.conns|
      && Rank(s.conns[c].stage) <= Rank(t.conns[c].stage)
      && (t.conns[c].stage == Closed <==> t.conns[c].disconnected)
      && (t.conns[c].disconnected <==> c !in t.members)
      && (forall k :: 0 <= k < |t.started| ==>
            && t.started[k].0 < |t.conns| && t.conns[t.started[k].0].helloSent && t.started[k].1 < t.requests)
      && NoRepeats(Numbers(t.started))
  {
    RunKeepsInv(INITIAL, before);
    RunKeepsInv(Run(INITIAL, before), after);
    var s, t := Run(INITIAL, before), Run(Run(INITIAL, before), after);
    assert ConnForward(s.conns[c], t.conns[c]) && ConnStage(t.conns[c], c in t.members);
    forall k | 0 <= k < |t.started|
      ensures t.started[k].0 < |t.conns| && t.conns[t.started[k].0].helloSent && t.started[k].1 < t.requests
    {
      assert StartedValid(t, t.started[k].0, t.started[k].1);
    }
  }

  // ---------------------------------------------------------------- which connections get ready, which commands start

  /** Before its hello a connection accepts nothing else, and a second hello or an unsupported version ends it. */
  lemma DispatchEndsExactly(s: State, c: nat, m: Message)
    requires Enabled(s, Dispatch(c, m))
    ensures var stage, t := s.conns[c].stage, Step(s, Dispatch(c, m)).conns[c];
      && (Rank(t.stage) >= 3 <==>
            if m.Hello? then stage != AwaitingHello || !m.supported else stage == AwaitingHello)
      && (stage == AwaitingHello && m == Hello(true) ==>
            t.stage == Handshaking && t.handshake == LoadingSnapshot(s.revision))
      && (Rank(t.stage) < 3 && !(stage == AwaitingHello && m == Hello(true)) ==>
            t.stage == stage && t.handshake == s.conns[c].handshake)
  {
  }

  /** A connection gets ready exactly when its hello has been sent while it is still handshaking. */
  lemma GetsReadyExactly(s: State, e: Event, c: nat)
    requires Enabled(s, e) && c < |s.conns| && s.conns[c].stage != Ready
    ensures c < |Step(s, e).conns|
    ensures Step(s, e).conns[c].stage == Ready <==>
      e == HelloSent(c) && s.conns[c].stage == Handshaking && !s.conns[c].disconnected
  {
    if IsServerEvent(e) {
      ServerEventsKeepHello(s, e, c);
    } else if e.conn != c {
      OthersAreKept(s, e, c);
    }
  }

  predicate IsServerEvent(e: Event) {
    || e.Accept? || e.RequestBroadcast? || e.BroadcastStarts? || e.BroadcastLoaded? || e.BroadcastFails?
    || e.BroadcastSends? || e.BroadcastDone? || e.StartClosing? || e.CloseServerState? || e.ClearConnections?
  }

  lemma ServerEventsKeepHello(s: State, e: Event, c: nat)
    requires Enabled(s, e) && c < |s.conns| && IsServerEvent(e)
    ensures var d, conns := s.conns[c], Step(s, e).conns;
      c < |conns| && conns[c].helloSent == d.helloSent && (conns[c].stage == d.stage || conns[c].stage == Closing)
  {
  }

  lemma OthersAreKept(s: State, e: Event, c: nat)
    requires Enabled(s, e) && c < |s.conns| && !IsServerEvent(e) && e.conn != c
    ensures c < |Step(s, e).conns| && Step(s, e).conns[c] == s.conns[c]
  {
  }

  /** The server's hello is sent exactly when the snapshot is there and the connection is live and still handshaking. */
  lemma HelloIsSentExactly(s: State, e: Event, c: nat)
    requires Enabled(s, e) && c < |s.conns| && !s.conns[c].helloSent
    ensures c < |Step(s, e).conns|
    ensures Step(s, e).conns[c].helloSent <==>
      && e == SnapshotLoaded(c) && !s.closing && s.conns[c].stage == Handshaking
      && !s.conns[c].disconnected && !s.conns[c].closed
  {
    if IsServerEvent(e) {
      ServerEventsKeepHello(s, e, c);
    } else if e.conn != c {
      OthersAreKept(s, e, c);
    }
  }

  /** The command that a step starts: of a request that arrives when ready, or of the next one that has waited. */
  function CommandOf(s: State, e: Event): seq<(nat, nat)>
    requires Enabled(s, e)
  {
    match e
    case Dispatch(c, Request) => if s.conns[c].stage == Ready then [(c, s.requests)] else []
    case RunWaiting(c) =>
      if s.conns[c].stage == Ready && !s.conns[c].disconnected then [(c, s.conns[c].waiting[0])] else []
    case _ => []
  }

  lemma StartsExactly(s: State, e: Event)
    requires Enabled(s, e)
    ensures Step(s, e).started == s.started + CommandOf(s, e)
    ensures Step(s, e).requests == s.requests +
      (if e.Dispatch? && e.message.Request? && s.conns[e.conn].stage != AwaitingHello then 1 else 0)
  {
    assert s.started + [] == s.started;
  }

  /** A request waits exactly when it arrives during the handshake, and requests are taken up in that order. */
  lemma WaitsExactly(s: State, e: Event, c: nat)
    requires Enabled(s, e) && c < |s.conns|
    ensures c < |Step(s, e).conns|
    ensures Step(s, e).conns[c].waiting ==
      if e == Dispatch(c, Request) && s.conns[c].stage == Handshaking then s.conns[c].waiting + [s.requests]
      else if e == RunWaiting(c) then s.conns[c].waiting[1..]
      else s.conns[c].waiting
  {
    if !e.Dispatch? && !e.RunWaiting? { OthersKeepWaiting(s, e); }
  }

  /** What ends a connection: a failure, its disconnection, the server's closing, a message it may not send yet. */
  predicate EndsConnection(s: State, e: Event, c: nat)
    requires Enabled(s, e) && c < |s.conns|
  {
    match e
    case Fail(d) => d == c
    case Disconnect(d) => d == c
    case CloseServerState => c in s.members
    case Dispatch(d, m) =>
      var first := s.conns[c].stage == AwaitingHello;
      d == c && if m.Hello? then !first || !m.supported else first
    case _ => false
  }

  lemma EndsConnectionExactly(s: State, e: Event, c: nat)
    requires StageValid(s) && Enabled(s, e) && c < |s.conns| && Rank(s.conns[c].stage) < 3
    ensures c < |Step(s, e).conns|
    ensures Rank(Step(s, e).conns[c].stage) >= 3 <==> EndsConnection(s, e, c)
    ensures e == Disconnect(c) ==> Step(s, e).conns[c].stage == Closed
  {
    assert ConnStage(s.conns[c], c in s.members);
    if IsServerEvent(e) {
      ServerEventsEnd(s, e, c);
    } else if e.conn != c {
      OthersAreKept(s, e, c);
    } else if e.Dispatch? {
      DispatchEndsExactly(s, c, e.message);
    } else {
      OwnEventsEnd(s, e, c);
    }
  }

  lemma OwnEventsEnd(s: State, e: Event, c: nat)
    requires Enabled(s, e) && c < |s.conns| && !IsServerEvent(e) && e.conn == c && !e.Dispatch?
    requires Rank(s.conns[c].stage) < 3 && !s.conns[c].disconnected
    ensures c < |Step(s, e).conns|
    ensures Rank(Step(s, e).conns[c].stage) >= 3 <==> e == Fail(c) || e == Disconnect(c)
    ensures e == Disconnect(c) ==> Step(s, e).conns[c].stage == Closed
  {
  }

  lemma ServerEventsEnd(s: State, e: Event, c: nat)
    requires Enabled(s, e) && c < |s.conns| && IsServerEvent(e)
    ensures c < |Step(s, e).conns|
    ensures Step(s, e).conns[c].stage ==
      if e == CloseServerState && c in s.members then Closing else s.conns[c].stage
  {
  }

  /** The transport is closed when it says so. */
  lemma ClosesExactly(s: State, e: Event, c: nat)
    requires Enabled(s, e) && c < |s.conns|
    ensures c < |Step(s, e).conns|
    ensures Step(s, e).conns[c].closed <==> s.conns[c].closed || e == TransportCloses(c)
  {
    if IsServerEvent(e) { ServerEventsKeepClosed(s, e, c); } else if e.conn != c { OthersAreKept(s, e, c); }
  }

  lemma ServerEventsKeepClosed(s: State, e: Event, c: nat)
    requires Enabled(s, e) && c < |s.conns| && IsServerEvent(e)
    ensures c < |Step(s, e).conns| && Step(s, e).conns[c].closed == s.conns[c].closed
  {
  }

  /**
   * A revision is published exactly when a queued broadcast starts that has a target while the server is not closing;
   * it goes to all its targets, one by one, unless the service fails, and makes way for the next one.
   */
  lemma PublishesExactly(s: State, e: Event)
    requires Enabled(s, e)
    ensures var t, published := Step(s, e), e.BroadcastStarts? && e.targets != [] && !s.closing;
      && t.revision == s.revision + (if published then 1 else 0)
      && t.queued == s.queued + (if e.RequestBroadcast? then 1 else 0) - (if e.BroadcastStarts? then 1 else 0)
      && (t.closing <==> s.closing || e.StartClosing?)
      && t.broadcast ==
           (if published then Loading(t.revision, e.targets)
            else if e.BroadcastLoaded? then Sending(s.broadcast.revision, s.broadcast.targets)
            else if e.BroadcastSends? then Sending(s.broadcast.revision, s.broadcast.targets[1..])
            else if e.BroadcastFails? || e.BroadcastDone? then Idle
            else s.broadcast)
  {
  }

  /** Refused: over, without the server's hello. */
  predicate IsRefused(c: Conn) { Rank(c.stage) >= 3 && !c.helloSent }

  lemma {:induction false} StaysRefused(s: State, events: seq<Event>, c: nat)
    requires Inv(s) && IsRun(s, events) && c < |s.conns| && IsRefused(s.conns[c])
    ensures c < |Run(s, events).conns| && IsRefused(Run(s, events).conns[c])
    decreases |events|
  {
    if events != [] {
      var e, t := events[0], Step(s, events[0]);
      StepKeepsStages(s, e);
      StepKeepsCommands(s, e);
      StepKeepsRevisions(s, e);
      HelloIsSentExactly(s, e, c);
      assert ConnForward(s.conns[c], t.conns[c]);
      StaysRefused(t, events[1..], c);
    }
  }

  /**
   * In every run, a connection whose first message is a hello of an unsupported version, or a request, never gets
   * ready, is never sent the server's hello, and starts no command.
   */
  lemma RefusedForGood(before: seq<Event>, c: nat, m: Message, after: seq<Event>)
    requires IsRun(INITIAL, before) && Enabled(Run(INITIAL, before), Dispatch(c, m))
    requires Run(INITIAL, before).conns[c].stage == AwaitingHello
    requires m != Hello(true) && IsRun(Step(Run(INITIAL, before), Dispatch(c, m)), after)
    ensures var t := Run(Step(Run(INITIAL, before), Dispatch(c, m)), after);
      && c < |t.conns| && IsRefused(t.conns[c])
      && forall k :: 0 <= k < |t.started| ==> t.started[k].0 != c
  {
    var s := Run(INITIAL, before);
    var u := Step(s, Dispatch(c, m));
    RunKeepsInv(INITIAL, before);
    StepKeepsStages(s, Dispatch(c, m));
    StepKeepsCommands(s, Dispatch(c, m));
    StepKeepsRevisions(s, Dispatch(c, m));
    DispatchEndsExactly(s, c, m);
    assert ConnStage(s.conns[c], c in s.members);
    HelloIsSentExactly(s, Dispatch(c, m), c);
    StaysRefused(u, after, c);
    RunKeepsInv(u, after);
    var t := Run(u, after);
    forall k | 0 <= k < |t.started| ensures t.started[k].0 != c {
      assert StartedValid(t, t.started[k].0, t.started[k].1);
    }
  }

  // ---------------------------------------------------------------- a broadcast that fails, a request that overtakes

  ghost predicate Reaches(s: State, events: seq<Event>, t: State) {
    IsRun(s, events) && Run(s, events) == t
  }

  lemma {:induction false} Extend(s: State, events: seq<Event>, t: State, e: Event, u: State)
    requires Reaches(s, events, t) && Enabled(t, e) && u == Step(t, e)
    ensures Reaches(s, events + [e], u)
    decreases |events|
  {
    if events == [] {
      assert ([] + [e])[1..] == [];
    } else {
      assert (events + [e])[1..] == events[1..] + [e];
      Extend(Step(s, events[0]), events[1..], t, e, u);
    }
  }

  // The connections and states that the two runs pass through; each lemma after them adds one event to a run.

  const HANDSHAKING := ACCEPTED.(stage := Handshaking, handshake := LoadingSnapshot(0))

  const GREETED := HANDSHAKING.(handshake := SendingHello(0), helloSent := true, outbox := [0])

  const READY := GREETED.(handshakeComplete := true, stage := Ready, handshake := Settled)

  function One(conn: Conn): State { INITIAL.(conns := [conn], members := {0}) }

  /** The first connection is ready and an announcement is queued, while `conn` is the second connection. */
  function Two(conn: Conn): State { INITIAL.(conns := [READY, conn], members := {0, 1}, queued := 1) }

  /** The broadcast of revision 1 is under way to the first connection. */
  function Publishing(conn: Conn, requests: nat, started: seq<(nat, nat)>): State {
    INITIAL.(conns := [READY, conn], members := {0, 1}, revision := 1, broadcast := Loading(1, [0]),
             requests := requests, started := started)
  }

  const ANNOUNCED := One(READY).(queued := 1)

  lemma AcceptReaches(s: State, events: seq<Event>)
    requires Reaches(s, events, INITIAL)
    ensures Reaches(s, events + [Accept], One(ACCEPTED))
  {
    assert {} + {0} == {0};
    Extend(s, events, INITIAL, Accept, One(ACCEPTED));
  }

  lemma HelloReaches(s: State, events: seq<Event>)
    requires Reaches(s, events, One(ACCEPTED))
    ensures Reaches(s, events + [Dispatch(0, Hello(true))], One(HANDSHAKING))
  {
    Extend(s, events, One(ACCEPTED), Dispatch(0, Hello(true)), One(HANDSHAKING));
  }

  lemma LoadedReaches(s: State, events: seq<Event>)
    requires Reaches(s, events, One(HANDSHAKING))
    ensures Reaches(s, events + [SnapshotLoaded(0)], One(GREETED))
  {
    assert [] + [0] == [0];
    Extend(s, events, One(HANDSHAKING), SnapshotLoaded(0), One(GREETED));
  }

  lemma ReadyReaches(s: State, events: seq<Event>)
    requires Reaches(s, events, One(GREETED))
    ensures Reaches(s, events + [HelloSent(0)], One(READY))
  {
    Extend(s, events, One(GREETED), HelloSent(0), One(READY));
  }

  lemma AnnouncedReaches(s: State, events: seq<Event>)
    requires Reaches(s, events, One(READY))
    ensures Reaches(s, events + [RequestBroadcast], ANNOUNCED)
  {
    Extend(s, events, One(READY), RequestBroadcast, ANNOUNCED);
  }

  /** A connection has become ready and a change is announced. */
  const BECOME_READY := [
    Accept, Dispatch(0, Hello(true)), SnapshotLoaded(0), HelloSent(0), RequestBroadcast]

  lemma BecomeReady(s: State)
    requires Reaches(s, [], INITIAL)
    ensures Reaches(s, BECOME_READY, ANNOUNCED)
  {
    var hello := Dispatch(0, Hello(true));
    AcceptReaches(s, []);
    HelloReaches(s, [] + [Accept]);
    LoadedReaches(s, [] + [Accept] + [hello]);
    ReadyReaches(s, [] + [Accept] + [hello] + [SnapshotLoaded(0)]);
    AnnouncedReaches(s, [] + [Accept] + [hello] + [SnapshotLoaded(0)] + [HelloSent(0)]);
    assert [] + [Accept] + [hello] + [SnapshotLoaded(0)] + [HelloSent(0)] + [RequestBroadcast] == BECOME_READY;
  }

  const LOADING := One(READY).(revision := 1, broadcast := Loading(1, [0]))

  const LEFT_BEHIND := One(READY.(missed := true)).(revision := 1)

  const STALE := One(READY.(missed := true, outbox := [], client := Some(0))).(revision := 1)

  /** A broadcast starts while the first connection is the only ready one. */
  lemma BroadcastToFirst(s: State)
    requires |s.conns| > 0 && s.conns[0] == READY && 0 in s.members && !s.closing
    requires forall c :: 1 <= c < |s.conns| ==> s.conns[c].stage != Ready
    requires s.broadcast.Idle? && s.queued == 1
    ensures Enabled(s, BroadcastStarts([0]))
    ensures var r := s.revision + 1;
      Step(s, BroadcastStarts([0])) == s.(queued := 0, revision := r, broadcast := Loading(r, [0]))
  {
    var marked := Mark(s.conns, [0], false);
    forall c | 0 <= c < |s.conns| ensures marked[c] == s.conns[c] { assert c in [0] <==> c == 0; }
    assert marked == s.conns;
  }

  lemma LoadingReaches(s: State, events: seq<Event>)
    requires Reaches(s, events, ANNOUNCED)
    ensures Reaches(s, events + [BroadcastStarts([0])], LOADING)
  {
    BroadcastToFirst(ANNOUNCED);
    Extend(s, events, ANNOUNCED, BroadcastStarts([0]), LOADING);
  }

  lemma FailingReaches(s: State, events: seq<Event>)
    requires Reaches(s, events, LOADING)
    ensures Reaches(s, events + [BroadcastFails], LEFT_BEHIND)
  {
    Extend(s, events, LOADING, BroadcastFails, LEFT_BEHIND);
  }

  lemma DeliveryReaches(s: State, events: seq<Event>)
    requires Reaches(s, events, LEFT_BEHIND)
    ensures Reaches(s, events + [Deliver(0)], STALE)
  {
    assert [0][1..] == [];
    Extend(s, events, LEFT_BEHIND, Deliver(0), STALE);
  }

  /** The broadcast fails, and what was sent before arrives. */
  const FAIL_BROADCAST := [BroadcastStarts([0]), BroadcastFails, Deliver(0)]

  /** Such a run exists: its client stays at revision 0 although nothing is on its way and revision 1 is out. */
  lemma FailedBroadcastHappens()
    ensures IsRun(INITIAL, BECOME_READY + FAIL_BROADCAST)
    ensures var s := Run(INITIAL, BECOME_READY + FAIL_BROADCAST);
      && |s.conns| == 1 && Live(s.conns[0]) && Quiescent(s, 0)
      && s.conns[0].client == Some(0) && s.revision == 1
  {
    BecomeReady(INITIAL);
    FailBroadcast(INITIAL, BECOME_READY);
  }

  lemma FailBroadcast(s: State, events: seq<Event>)
    requires Reaches(s, events, ANNOUNCED)
    ensures Reaches(s, events + FAIL_BROADCAST, STALE)
  {
    LoadingReaches(s, events);
    FailingReaches(s, events + [BroadcastStarts([0])]);
    DeliveryReaches(s, events + [BroadcastStarts([0])] + [BroadcastFails]);
    assert events + [BroadcastStarts([0])] + [BroadcastFails] + [Deliver(0)] == events + FAIL_BROADCAST;
  }

  const QUEUING := GREETED.(waiting := [0])

  const CATCHING_UP := READY.(waiting := [0], handshake := LoadingCatchUp(1))

  const SENDING := CATCHING_UP.(outbox := [0, 1], handshake := SendingCatchUp)

  const CAUGHT_UP := SENDING.(handshake := Settled)

  lemma SecondAcceptReaches(s: State, events: seq<Event>)
    requires Reaches(s, events, ANNOUNCED)
    ensures Reaches(s, events + [Accept], Two(ACCEPTED))
  {
    assert {0} + {1} == {0, 1};
    Extend(s, events, ANNOUNCED, Accept, Two(ACCEPTED));
  }

  lemma SecondHelloReaches(s: State, events: seq<Event>)
    requires Reaches(s, events, Two(ACCEPTED))
    ensures Reaches(s, events + [Dispatch(1, Hello(true))], Two(HANDSHAKING))
  {
    Extend(s, events, Two(ACCEPTED), Dispatch(1, Hello(true)), Two(HANDSHAKING));
  }

  lemma SecondLoadedReaches(s: State, events: seq<Event>)
    requires Reaches(s, events, Two(HANDSHAKING))
    ensures Reaches(s, events + [SnapshotLoaded(1)], Two(GREETED))
  {
    assert [] + [0] == [0];
    Extend(s, events, Two(HANDSHAKING), SnapshotLoaded(1), Two(GREETED));
  }

  lemma QueuingReaches(s: State, events: seq<Event>)
    requires Reaches(s, events, Two(GREETED))
    ensures Reaches(s, events + [Dispatch(1, Request)], Two(QUEUING).(requests := 1))
  {
    assert [] + [0] == [0];
    Extend(s, events, Two(GREETED), Dispatch(1, Request), Two(QUEUING).(requests := 1));
  }

  lemma PublishingReaches(s: State, events: seq<Event>)
    requires Reaches(s, events, Two(QUEUING).(requests := 1))
    ensures Reaches(s, events + [BroadcastStarts([0])], Publishing(QUEUING, 1, []))
  {
    BroadcastToFirst(Two(QUEUING).(requests := 1));
    Extend(s, events, Two(QUEUING).(requests := 1), BroadcastStarts([0]), Publishing(QUEUING, 1, []));
  }

  lemma CatchingUpReaches(s: State, events: seq<Event>)
    requires Reaches(s, events, Publishing(QUEUING, 1, []))
    ensures Reaches(s, events + [HelloSent(1)], Publishing(CATCHING_UP, 1, []))
  {
    Extend(s, events, Publishing(QUEUING, 1, []), HelloSent(1), Publishing(CATCHING_UP, 1, []));
  }

  lemma OvertakingReaches(s: State, events: seq<Event>)
    requires Reaches(s, events, Publishing(CATCHING_UP, 1, []))
    ensures Reaches(s, events + [Dispatch(1, Request)], Publishing(CATCHING_UP, 2, [(1, 1)]))
  {
    Extend(s, events, Publishing(CATCHING_UP, 1, []), Dispatch(1, Request), Publishing(CATCHING_UP, 2, [(1, 1)]));
  }

  lemma SendingReaches(s: State, events: seq<Event>)
    requires Reaches(s, events, Publishing(CATCHING_UP, 2, [(1, 1)]))
    ensures Reaches(s, events + [CatchUpLoaded(1)], Publishing(SENDING, 2, [(1, 1)]))
  {
    assert [0] + [1] == [0, 1];
    Extend(s, events, Publishing(CATCHING_UP, 2, [(1, 1)]), CatchUpLoaded(1), Publishing(SENDING, 2, [(1, 1)]));
  }

  lemma SettledReaches(s: State, events: seq<Event>)
    requires Reaches(s, events, Publishing(SENDING, 2, [(1, 1)]))
    ensures Reaches(s, events + [CatchUpSent(1)], Publishing(CAUGHT_UP, 2, [(1, 1)]))
  {
    Extend(s, events, Publishing(SENDING, 2, [(1, 1)]), CatchUpSent(1), Publishing(CAUGHT_UP, 2, [(1, 1)]));
  }

  lemma TakenUpReaches(s: State, events: seq<Event>)
    requires Reaches(s, events, Publishing(CAUGHT_UP, 2, [(1, 1)]))
    ensures Reaches(s, events + [RunWaiting(1)], Publishing(CAUGHT_UP.(waiting := []), 2, [(1, 1), (1, 0)]))
  {
    assert [0][1..] == [];
    assert [(1, 1)] + [(1, 0)] == [(1, 1), (1, 0)];
    Extend(s, events, Publishing(CAUGHT_UP, 2, [(1, 1)]), RunWaiting(1),
           Publishing(CAUGHT_UP.(waiting := []), 2, [(1, 1), (1, 0)]));
  }

  /** A second connection's hello is under way, with one request queued behind the handshake. */
  const QUEUE_BEHIND_HANDSHAKE := [Accept, Dispatch(1, Hello(true)), SnapshotLoaded(1), Dispatch(1, Request)]

  /** The revision moves meanwhile, so that a catch-up is due; another request arrives while it is loaded. */
  const OVERTAKE := [
    BroadcastStarts([0]), HelloSent(1), Dispatch(1, Request), CatchUpLoaded(1), CatchUpSent(1), RunWaiting(1)]

  lemma QueueBehindHandshake(s: State, events: seq<Event>)
    requires Reaches(s, events, ANNOUNCED)
    ensures Reaches(s, events + QUEUE_BEHIND_HANDSHAKE, Two(QUEUING).(requests := 1))
  {
    var hello := Dispatch(1, Hello(true));
    SecondAcceptReaches(s, events);
    SecondHelloReaches(s, events + [Accept]);
    SecondLoadedReaches(s, events + [Accept] + [hello]);
    QueuingReaches(s, events + [Accept] + [hello] + [SnapshotLoaded(1)]);
    assert events + [Accept] + [hello] + [SnapshotLoaded(1)] + [Dispatch(1, Request)]
      == events + QUEUE_BEHIND_HANDSHAKE;
  }

  lemma Overtake(s: State, events: seq<Event>)
    requires Reaches(s, events, Two(QUEUING).(requests := 1))
    ensures IsRun(s, events + OVERTAKE) && Run(s, events + OVERTAKE).started == [(1, 1), (1, 0)]
  {
    var third := [BroadcastStarts([0])] + [HelloSent(1)] + [Dispatch(1, Request)];
    PublishingReaches(s, events);
    CatchingUpReaches(s, events + [BroadcastStarts([0])]);
    OvertakingReaches(s, events + [BroadcastStarts([0])] + [HelloSent(1)]);
    assert events + [BroadcastStarts([0])] + [HelloSent(1)] + [Dispatch(1, Request)] == events + third;
    SendingReaches(s, events + third);
    SettledReaches(s, events + third + [CatchUpLoaded(1)]);
    TakenUpReaches(s, events + third + [CatchUpLoaded(1)] + [CatchUpSent(1)]);
    assert events + third + [CatchUpLoaded(1)] + [CatchUpSent(1)] + [RunWaiting(1)] == events + OVERTAKE;
  }

  /** A request that arrives while the catch-up is loaded overtakes one still queued behind the handshake. */
  lemma OvertakingHappens()
    ensures var events := BECOME_READY + QUEUE_BEHIND_HANDSHAKE + OVERTAKE;
      IsRun(INITIAL, events) && Run(INITIAL, events).started == [(1, 1), (1, 0)]
  {
    BecomeReady(INITIAL);
    QueueBehindHandshake(INITIAL, BECOME_READY);
    Overtake(INITIAL, BECOME_READY + QUEUE_BEHIND_HANDSHAKE);
  }
}

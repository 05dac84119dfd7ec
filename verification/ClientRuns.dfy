/**
 The active node's program inside a run of the whole system. Whatever the other node, the link, the
 operator and the validators do, a client that ended by itself ended as the `ActiveNode` object does
 after `Start`, given the answers the client got and the tower file it found.
 */
module ClientRuns {
  import opened Wrappers
  import opened Words
  import M = Messages
  import opened Protocol
  import opened Streams
  import opened ClientProgram
  import opened ClientScripts
  import Flow

  /** The answers the client got in a run: its actions, less the reads that had to wait. */
  function ClientAnswers(cfg: Config, s: State, events: seq<Event>): seq<ClientAction>
    decreases |events|
  {
    if events == [] then []
    else
      var e := events[0];
      (if e.ClientDoes? && ClientReady(s, e.ca) then [e.ca] else []) + ClientAnswers(cfg, Step(cfg, s, e), events[1..])
  }

  predicate ReadsTower(s: State, e: Event) {
    s.client.pc.CReadTower? && e.ClientDoes? && e.ca.ClientReadTower?
  }

  /** The tower file as the client found it; as it is in the end if the client does not look. */
  function TowerFound(cfg: Config, s: State, events: seq<Event>): seq<byte>
    decreases |events|
  {
    if events == [] || ReadsTower(s, events[0]) then s.client.tower
    else TowerFound(cfg, Step(cfg, s, events[0]), events[1..])
  }

  function Retowered(c: Client, tower: seq<byte>): Client {
    c.(tower := tower)
  }

  predicate Killed(c: Client) {
    c.pc.CDone? && c.pc.outcome.Crashed?
  }

  /** The client looks at its tower at one program point only. */
  predicate PastTower(pc: ClientPc) {
    pc.CSendTower? || pc.CAwaitOutcome? || pc.CRollback? || pc.CDone?
  }

  function RetoweredResult(r: ClientResult, tower: seq<byte>): ClientResult {
    match r
    case ClientBlocked => ClientBlocked
    case ClientMoved(n, sent, faults) => ClientMoved(Retowered(n, tower), sent, faults)
  }

  predicate IgnoresTower(r: ClientResult, retowered: ClientResult, tower: seq<byte>) {
    Same(retowered, RetoweredResult(r, tower))
  }

  lemma StayingIgnoresTower(c: Client, pc: ClientPc, tower: seq<byte>)
    ensures IgnoresTower(ClientStays(c, pc), ClientStays(Retowered(c, tower), pc), tower)
  {
  }

  lemma FailingIgnoresTower(c: Client, outcome: ClientOutcome, fault: Fault, tower: seq<byte>)
    ensures IgnoresTower(ClientFails(c, outcome, fault), ClientFails(Retowered(c, tower), outcome, fault), tower)
  {
  }

  lemma SendingIgnoresTower(
      c: Client, f: Frame, o: SendOutcome, next: ClientPc, failure: ClientOutcome, fault: Fault, tower: seq<byte>)
    ensures IgnoresTower(
              ClientSends(c, f, o, next, failure, fault), ClientSends(Retowered(c, tower), f, o, next, failure, fault), tower)
  {
  }

  lemma RequestIgnoresTower(cfg: Config, c: Client, o: SendOutcome, tower: seq<byte>)
    ensures IgnoresTower(ClientSendsRequest(cfg, c, o), ClientSendsRequest(cfg, Retowered(c, tower), o), tower)
  {
    var m := RequestMessage(cfg, c);
    SendingIgnoresTower(c.(msg := m), Gob(M.Encode(m)), o, CAwaitVersion, NotStarted, OpeningSendFault, tower);
    hide ClientSends, M.Encode, IgnoresTower, RequestMessage;
    RequestSame(cfg, c, tower);
    MessageThenTower(c, m, tower);
  }

  lemma RequestSame(cfg: Config, c: Client, tower: seq<byte>)
    ensures RequestMessage(cfg, Retowered(c, tower)) == RequestMessage(cfg, c)
  {
  }

  lemma MessageThenTower(c: Client, m: M.Message, tower: seq<byte>)
    ensures Same(Retowered(c, tower).(msg := m), Retowered(c.(msg := m), tower))
  {
  }

  lemma SignalIgnoresTower(cfg: Config, c: Client, tower: seq<byte>)
    ensures IgnoresTower(ClientAfterSignal(cfg, c), ClientAfterSignal(cfg, Retowered(c, tower)), tower)
  {
  }

  lemma OutcomeIgnoresTower(cfg: Config, c: Client, tower: seq<byte>)
    ensures IgnoresTower(ClientAfterOutcome(cfg, c), ClientAfterOutcome(cfg, Retowered(c, tower)), tower)
  {
  }

  lemma DecodingIgnoresTower(c: Client, m: M.Message, tower: seq<byte>)
    ensures Same(ClientDecodes(Retowered(c, tower), m), Retowered(ClientDecodes(c, m), tower))
  {
    hide M.Decode;
  }

  lemma ReadingIgnoresTower(cfg: Config, c: Client, frame: Option<Frame>, tower: seq<byte>)
    ensures IgnoresTower(ClientOnVersion(cfg, c, frame), ClientOnVersion(cfg, Retowered(c, tower), frame), tower)
    ensures IgnoresTower(ClientOnSignal(cfg, c, frame), ClientOnSignal(cfg, Retowered(c, tower), frame), tower)
    ensures IgnoresTower(ClientOnOutcome(cfg, c, frame), ClientOnOutcome(cfg, Retowered(c, tower), frame), tower)
  {
    hide ClientStays, ClientDecodes, ClientAfterSignal, ClientAfterOutcome, IgnoresTower;
    StayingIgnoresTower(c, CDone(NoSignal), tower);
    StayingIgnoresTower(c, CDone(ConnectionLost), tower);
    if frame.Some? {
      match frame.value
      case Version(v) => StayingIgnoresTower(c, if v == cfg.clientWire then CAwaitSignal else CDone(WireMismatch), tower);
      case Gob(m) =>
        DecodingIgnoresTower(c, m, tower);
        SignalIgnoresTower(cfg, ClientDecodes(c, m), tower);
        OutcomeIgnoresTower(cfg, ClientDecodes(c, m), tower);
    }
  }

  lemma HooksIgnoreTower(cfg: Config, c: Client, ok: bool, tower: seq<byte>)
    ensures IgnoresTower(ClientRunsHook(cfg, c, ok), ClientRunsHook(cfg, Retowered(c, tower), ok), tower)
    ensures IgnoresTower(ClientOnHooksOver(cfg, c), ClientOnHooksOver(cfg, Retowered(c, tower)), tower)
  {
  }

  lemma SlotIgnoresTower(c: Client, observed: uint64, next: Option<uint64>, tower: seq<byte>)
    ensures IgnoresTower(ClientOnSlot(c, observed, next), ClientOnSlot(Retowered(c, tower), observed, next), tower)
  {
    hide M.WithStartSlot;
  }

  lemma SwitchIgnoresTower(c: Client, o: CommandOutcome, start: Instant, end: Instant, tower: seq<byte>)
    ensures IgnoresTower(ClientSetsPassive(c, o, start, end), ClientSetsPassive(Retowered(c, tower), o, start, end), tower)
  {
    hide M.WithActiveSwitchStart, M.WithActiveSwitchEnd;
  }

  lemma RollbackIgnoresTower(cfg: Config, c: Client, o: CommandOutcome, tower: seq<byte>)
    ensures IgnoresTower(ClientRollsBack(cfg, c, o), ClientRollsBack(cfg, Retowered(c, tower), o), tower)
  {
  }

  lemma ReadingOwnTower(cfg: Config, c: Client, ok: bool, start: Instant, end: Instant)
    ensures IgnoresTower(ClientReadsTower(cfg, c, ok, start, end), ClientReadsTower(cfg, Retowered(c, c.tower), ok, start, end), c.tower)
  {
    hide M.WithTower, M.WithTowerStart;
  }

  /** A step with another tower in the file is the same step, unless it is the one that reads it. */
  lemma StepIgnoresTower(cfg: Config, c: Client, a: ClientAction, tower: seq<byte>)
    requires c.pc.CReadTower? && a.ClientReadTower? ==> tower == c.tower
    ensures IgnoresTower(ClientStep(cfg, c, a), ClientStep(cfg, Retowered(c, tower), a), tower)
  {
    hide IgnoresTower, ClientStays, ClientFails, ClientSends, ClientSendsRequest, ClientOnVersion, ClientOnSignal,
      ClientOnOutcome, ClientRunsHook, ClientOnHooksOver, ClientOnSlot, ClientSetsPassive, ClientReadsTower,
      ClientRollsBack, M.Encode;
    BlockedIgnoresTower(tower);
    match a
    case ClientSend(o) =>
      SendingIgnoresTower(c, Version(cfg.clientWire), o, CSendRequest, NotStarted, OpeningSendFault, tower);
      SendingIgnoresTower(c, Gob(M.Encode(c.msg)), o, CAwaitOutcome, TowerUnsent, TowerSendFault, tower);
      RequestIgnoresTower(cfg, c, o, tower);
    case ClientReceive(frame) => ReadingIgnoresTower(cfg, c, frame, tower);
    case ClientLeaderWait(_) =>
      StayingIgnoresTower(c, CPreHooks, tower);
      FailingIgnoresTower(c, WaitFailed, WaitFault, tower);
    case ClientHook(ok) => HooksIgnoreTower(cfg, c, ok, tower);
    case ClientHooksOver => HooksIgnoreTower(cfg, c, true, tower);
    case ClientNextSlot(observed, next) => SlotIgnoresTower(c, observed, next, tower);
    case ClientCommand(o, start, end) =>
      SwitchIgnoresTower(c, o, start, end, tower);
      RollbackIgnoresTower(cfg, c, o, tower);
    case ClientReadTower(ok, start, end) => ReadingOwnTower(cfg, c, ok, start, end);
  }

  lemma BlockedIgnoresTower(tower: seq<byte>)
    ensures IgnoresTower(ClientBlocked, ClientBlocked, tower)
  {
  }

  // ----- The client in a run

  /** The client an event leaves behind, unless it kills it. */
  lemma EventMovesClient(cfg: Config, s: State, e: Event, tower: seq<byte>)
    requires e.ClientDies? ==> s.client.pc.CDone?
    requires ReadsTower(s, e) ==> tower == s.client.tower
    ensures var acts := e.ClientDoes? && ClientReady(s, e.ca);
            && Same(Retowered(Step(cfg, s, e).client, tower),
                    if acts then Next(cfg, Retowered(s.client, tower), e.ca) else Retowered(s.client, tower))
            && (acts ==> StepSends(cfg, Retowered(s.client, tower), e.ca) == StepSends(cfg, s.client, e.ca))
  {
    hide ClientStep, ServerStep, CanReceive, IgnoresTower;
    if e.ClientDoes? {
      StepIgnoresTower(cfg, s.client, e.ca, tower);
      NextIgnoresTower(cfg, s.client, e.ca, tower);
    }
  }

  lemma NextIgnoresTower(cfg: Config, c: Client, a: ClientAction, tower: seq<byte>)
    requires IgnoresTower(ClientStep(cfg, c, a), ClientStep(cfg, Retowered(c, tower), a), tower)
    ensures Same(Next(cfg, Retowered(c, tower), a), Retowered(Next(cfg, c, a), tower))
    ensures StepSends(cfg, Retowered(c, tower), a) == StepSends(cfg, c, a)
  {
    hide ClientStep;
  }

  lemma TowerReadMoves(cfg: Config, c: Client, a: ClientAction)
    requires c.pc.CReadTower? && a.ClientReadTower?
    ensures ClientStep(cfg, c, a).ClientMoved?
  {
  }

  lemma PastTowerStays(cfg: Config, s: State, e: Event)
    requires PastTower(s.client.pc) || ReadsTower(s, e)
    ensures PastTower(Step(cfg, s, e).client.pc)
  {
    hide ClientStep, ServerStep, CanReceive;
    if ReadsTower(s, e) {
      TowerReadMoves(cfg, s.client, e.ca);
    }
    if e.ClientDoes? && ClientStep(cfg, s.client, e.ca).ClientMoved? {
      Flow.ClientFollowsEdge(cfg, s.client, e.ca);
    }
  }

  lemma EndedStays(cfg: Config, s: State, e: Event)
    requires s.client.pc.CDone?
    ensures Step(cfg, s, e).client.pc == s.client.pc
  {
    hide ClientStep, ServerStep, CanReceive;
    if e.ClientDoes? {
      Flow.ClientDoneEdge(cfg, s.client, e.ca);
    }
  }

  lemma {:induction false} KilledStays(cfg: Config, s: State, events: seq<Event>)
    requires Killed(s.client)
    ensures Killed(Run(cfg, s, events).client)
    decreases |events|
  {
    hide Step;
    if events != [] {
      EndedStays(cfg, s, events[0]);
      KilledStays(cfg, Step(cfg, s, events[0]), events[1..]);
    }
  }

  predicate SentUp(s: State, end: State, written: seq<Frame>) {
    Carried(s.toServer.frames, s.linkUp, end.toServer.frames, end.linkUp, written)
  }

  lemma EventCarries(cfg: Config, s: State, e: Event)
    ensures SentUp(s, Step(cfg, s, e), if e.ClientDoes? && ClientReady(s, e.ca) then StepSends(cfg, s.client, e.ca) else [])
  {
    hide ClientStep, ServerStep, CanReceive;
  }

  lemma SentUpConcat(s: State, mid: State, end: State, w: seq<Frame>, w': seq<Frame>)
    requires SentUp(s, mid, w) && SentUp(mid, end, w')
    ensures SentUp(s, end, w + w')
  {
    CarriedConcat(s.toServer.frames, s.linkUp, mid.toServer.frames, mid.linkUp, end.toServer.frames, end.linkUp, w, w');
  }

  /** The client in a run is the client alone, fed the answers it got, apart from later votes. */
  lemma {:induction false} ClientInRun(cfg: Config, s: State, events: seq<Event>, tower: seq<byte>)
    requires !Killed(Run(cfg, s, events).client)
    requires tower == TowerFound(cfg, s, events) || PastTower(s.client.pc)
    ensures var fed := Feed(cfg, Retowered(s.client, tower), ClientAnswers(cfg, s, events));
            Same(Retowered(Run(cfg, s, events).client, tower), fed.0) && SentUp(s, Run(cfg, s, events), fed.1)
    decreases |events|
  {
    hide Step, ClientStep, ClientReady, Feed, Carried, Killed, Next, StepSends;
    if events == [] {
      FeedNothing(cfg, Retowered(s.client, tower));
      NothingCarried(s.toServer.frames, s.linkUp);
    } else {
      var e, rest, s' := events[0], events[1..], Step(cfg, s, events[0]);
      var c := Retowered(s.client, tower);
      if ReadsTower(s, e) || PastTower(s.client.pc) { PastTowerStays(cfg, s, e); }
      if e.ClientDies? && !s.client.pc.CDone? { KilledAtOnce(cfg, s); KilledStays(cfg, s', rest); }
      EventMovesClient(cfg, s, e, tower);
      ClientInRun(cfg, s', rest, tower);
      EventCarries(cfg, s, e);
      var answers := ClientAnswers(cfg, s', rest);
      if e.ClientDoes? && ClientReady(s, e.ca) {
        FeedFront(cfg, c, e.ca, answers);
        SentUpConcat(s, s', Run(cfg, s', rest), StepSends(cfg, c, e.ca), Feed(cfg, Next(cfg, c, e.ca), answers).1);
      } else {
        assert [] + answers == answers && [] + Feed(cfg, c, answers).1 == Feed(cfg, c, answers).1;
        SentUpConcat(s, s', Run(cfg, s', rest), [], Feed(cfg, c, answers).1);
      }
    }
  }

  lemma KilledAtOnce(cfg: Config, s: State)
    requires !s.client.pc.CDone?
    ensures Killed(Step(cfg, s, ClientDies).client)
  {
  }

  /** Where `Start` leaves the node's fields is where the run left the client. */
  ghost predicate EndsAsIn(end: State, node: ActiveNode)
    reads node, node.stream
  {
    && node.at.pc == end.client.pc
    && Same(node.stream.message, end.client.msg) && Same(node.identities, end.client.identities)
    && node.active == end.client.active && node.skipTowerSync == end.client.skip
    && node.wentPassive == end.client.wentPassive
    && if end.linkUp then node.stream.written == end.toServer.frames else end.toServer.frames <= node.stream.written
  }

  /** Every run in which the client ends by itself is a run of `Start` on a fresh node: same outcome, same
      message, same role, and the same frames as far as the link carried them. */
  method StartInRun(cfg: Config, clientTower: seq<byte>, serverTower: Option<seq<byte>>, events: seq<Event>)
      returns (node: ActiveNode)
    requires var c := Run(cfg, Init(cfg, clientTower, serverTower), events).client; c.pc.CDone? && !Killed(c)
    ensures fresh(node) && fresh(node.stream) && node.cfg == cfg && node.Tracks()
    ensures EndsAsIn(Run(cfg, Init(cfg, clientTower, serverTower), events), node)
  {
    hide Run, Feed, ActiveNode.Tracks, EnvOf, ClientAnswers, TowerFound, Script, Killed;
    var s := Init(cfg, clientTower, serverTower);
    var answers, tower := ClientAnswers(cfg, s, events), TowerFound(cfg, s, events);
    ClientInRun(cfg, s, events, tower);
    AnswersAreAScript(cfg, Retowered(s.client, tower), answers);
    node := new ActiveNode(cfg, tower);
    node.Start(EnvOf(cfg, Retowered(s.client, tower), answers));
    TracksFed(node);
    EndedAlike(s, Run(cfg, s, events), node, tower);
  }

  lemma TracksFed(node: ActiveNode)
    requires node.Tracks()
    ensures Feed(node.cfg, node.start, node.trace) == (node.at, node.sent) && node.stream.written == node.sent
    ensures Same(node.at.msg, node.stream.message) && Same(node.at.identities, node.identities)
    ensures node.at.active == node.active && node.at.skip == node.skipTowerSync && node.at.wentPassive == node.wentPassive
  {
    hide Feed;
  }

  lemma EndedAlike(s: State, end: State, node: ActiveNode, tower: seq<byte>)
    requires s.linkUp && s.toServer.frames == [] && SentUp(s, end, node.stream.written)
    requires Same(Retowered(end.client, tower), node.at)
    requires Same(node.at.msg, node.stream.message) && Same(node.at.identities, node.identities)
    requires node.at.active == node.active && node.at.skip == node.skipTowerSync && node.at.wentPassive == node.wentPassive
    ensures EndsAsIn(end, node)
  {
    assert s.toServer.frames + node.stream.written == node.stream.written;
  }
}

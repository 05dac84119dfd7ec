/**
 The passive node's program inside a run of the whole system. Whatever the other node, the link, the
 operator and the validators do, a server that ended by itself ended as the `PassiveNode` object does
 after `HandleFailoverStream`, given the answers the server got.
 */
module ServerRuns {
  import opened Wrappers
  import opened Words
  import M = Messages
  import opened Protocol
  import opened Streams
  import opened ServerProgram
  import opened ServerScripts
  import opened ProtocolInvariant
  import opened Roles
  import opened Gates
  import opened ProtocolRuns
  import Flow

  /** The answers the server got in a run: its actions, less the reads that had to wait. */
  function ServerAnswers(cfg: Config, s: State, events: seq<Event>): seq<ServerAction>
    decreases |events|
  {
    if events == [] then []
    else
      var e := events[0];
      (if e.ServerDoes? && ServerReady(s, e.sa) then [e.sa] else []) + ServerAnswers(cfg, Step(cfg, s, e), events[1..])
  }

  function Retowered(v: Server, tower: Option<seq<byte>>): Server {
    v.(tower := tower)
  }

  predicate Killed(v: Server) {
    v.pc.SDone? && v.pc.outcome.ServerCrashed?
  }

  /** The server has switched or tried to, and has no more use for the tower file; its validator may
      write to it from now on. */
  predicate Settled(pc: ServerPc) {
    pc.SEndSlot? || pc.SSendDone? || pc.SSendRollback? || pc.SRollback? || pc.SDone?
  }

  function RetoweredResult(r: ServerResult, tower: Option<seq<byte>>): ServerResult {
    match r
    case ServerBlocked => ServerBlocked
    case ServerMoved(n, sent, faults) => ServerMoved(Retowered(n, tower), sent, faults)
  }

  predicate IgnoresTower(r: ServerResult, retowered: ServerResult, tower: Option<seq<byte>>) {
    Same(retowered, RetoweredResult(r, tower))
  }

  lemma BlockedIgnoresTower(tower: Option<seq<byte>>)
    ensures IgnoresTower(ServerBlocked, ServerBlocked, tower)
  {
  }

  lemma SendingIgnoresTower(v: Server, o: SendOutcome, next: ServerPc, failure: ServerPc, fault: Fault, tower: Option<seq<byte>>)
    ensures IgnoresTower(ServerSends(v, o, next, failure, fault), ServerSends(Retowered(v, tower), o, next, failure, fault), tower)
  {
    hide M.Encode;
  }

  lemma EndSlotIgnoresTower(v: Server, slot: Option<uint64>, tower: Option<seq<byte>>)
    ensures IgnoresTower(ServerRecordsEndSlot(v, slot), ServerRecordsEndSlot(Retowered(v, tower), slot), tower)
  {
    hide WithQueriedEndSlot, M.WithCompleted;
  }

  lemma RollbackIgnoresTower(cfg: Config, v: Server, o: CommandOutcome, tower: Option<seq<byte>>)
    ensures IgnoresTower(ServerRollsBack(cfg, v, o), ServerRollsBack(cfg, Retowered(v, tower), o), tower)
  {
  }

  /** Once settled, a step with another tower in the file is the same step. */
  lemma StepIgnoresTower(cfg: Config, v: Server, a: ServerAction, tower: Option<seq<byte>>)
    requires Settled(v.pc)
    ensures IgnoresTower(ServerStep(cfg, v, a), ServerStep(cfg, Retowered(v, tower), a), tower)
  {
    hide IgnoresTower, ServerSends, ServerRecordsEndSlot, ServerRollsBack;
    BlockedIgnoresTower(tower);
    match a
    case ServerSend(o) =>
      SendingIgnoresTower(v, o, SDone(Activated), SDone(CompletionUnsent), VerdictSendFault, tower);
      SendingIgnoresTower(v, o, SRollback, SRollback, VerdictSendFault, tower);
    case ServerEndSlot(slot) => EndSlotIgnoresTower(v, slot, tower);
    case ServerCommand(o, _, _) => RollbackIgnoresTower(cfg, v, o, tower);
    case _ =>
  }

  lemma SettledStays(cfg: Config, v: Server, a: ServerAction)
    requires Settled(v.pc)
    ensures Settled(Next(cfg, v, a).pc) && Next(cfg, v, a).tower == v.tower
  {
    if ServerStep(cfg, v, a).ServerMoved? {
      Flow.ServerFollowsEdge(cfg, v, a);
    }
    hide ServerStep, Flow.SameChecks;
  }

  /** The server an event leaves behind, unless it kills it. */
  lemma EventMovesServer(cfg: Config, s: State, e: Event)
    requires e.ServerDies? ==> s.server.pc.SDone?
    ensures var acts := e.ServerDoes? && ServerReady(s, e.sa);
            var n := if acts then Next(cfg, s.server, e.sa) else s.server;
            || Same(Step(cfg, s, e).server, n)
            || (e.ServerVotes? && s.server.active && Same(Step(cfg, s, e).server, Retowered(n, Some(e.serverTower))))
  {
    hide ClientStep, ServerStep, CanReceive;
  }

  lemma EndedStays(cfg: Config, s: State, e: Event)
    requires s.server.pc.SDone?
    ensures Step(cfg, s, e).server.pc == s.server.pc
  {
    hide ClientStep, ServerStep, CanReceive;
    if e.ServerDoes? {
      Flow.ServerDoneEdge(cfg, s.server, e.sa);
    }
  }

  lemma {:induction false} KilledStays(cfg: Config, s: State, events: seq<Event>)
    requires Killed(s.server)
    ensures Killed(Run(cfg, s, events).server)
    decreases |events|
  {
    hide Step;
    if events != [] {
      EndedStays(cfg, s, events[0]);
      KilledStays(cfg, Step(cfg, s, events[0]), events[1..]);
    }
  }

  lemma KilledAtOnce(cfg: Config, s: State)
    requires !s.server.pc.SDone?
    ensures Killed(Step(cfg, s, ServerDies).server)
  {
  }

  predicate SentDown(s: State, end: State, written: seq<Frame>) {
    Carried(s.toClient.frames, s.linkUp, end.toClient.frames, end.linkUp, written)
  }

  lemma EventCarries(cfg: Config, s: State, e: Event)
    ensures SentDown(s, Step(cfg, s, e), if e.ServerDoes? && ServerReady(s, e.sa) then StepSends(cfg, s.server, e.sa) else [])
  {
    hide ClientStep, ServerStep, CanReceive;
  }

  lemma SentDownConcat(s: State, mid: State, end: State, w: seq<Frame>, w': seq<Frame>)
    requires SentDown(s, mid, w) && SentDown(mid, end, w')
    ensures SentDown(s, end, w + w')
  {
    CarriedConcat(s.toClient.frames, s.linkUp, mid.toClient.frames, mid.linkUp, end.toClient.frames, end.linkUp, w, w');
  }

  /** Only a settled server can hold the active identity. */
  lemma ActiveIsSettled(cfg: Config, s: State)
    requires Good(cfg, s) && s.server.active
    ensures Settled(s.server.pc)
  {
    hide Inv, GateInv, Towers.TowerInv, Outcomes.EndInv, ClientRoles, VerdictRoles;
  }

  /** The server alone against the server in the run: the same, but that the latter's validator may have
      voted since it settled. */
  predicate Alike(v: Server, w: Server, voted: bool) {
    Same(v, w) || (voted && Settled(w.pc) && Same(v, Retowered(w, v.tower)))
  }

  predicate NoVotes(events: seq<Event>) {
    forall i :: 0 <= i < |events| ==> !events[i].ServerVotes?
  }

  lemma VotingKeepsAlike(v: Server, w: Server, tower: seq<byte>, voted: bool)
    requires Alike(v, w, voted) && Settled(w.pc)
    ensures Alike(v, Retowered(w, Some(tower)), true)
  {
  }

  lemma SettledActsAlike(cfg: Config, v: Server, w: Server, a: ServerAction)
    requires Alike(v, w, true) && Settled(w.pc)
    ensures Alike(Next(cfg, v, a), Next(cfg, w, a), true) && StepSends(cfg, v, a) == StepSends(cfg, w, a)
  {
    StepIgnoresTower(cfg, w, a, v.tower);
    SettledStays(cfg, w, a);
    hide ServerStep;
  }

  /** One event keeps them alike. */
  lemma EventKeepsAlike(cfg: Config, s: State, e: Event, v: Server, voted: bool)
    requires cfg.Valid() && Good(cfg, s) && Alike(v, s.server, voted)
    requires e.ServerDies? ==> s.server.pc.SDone?
    requires e.ServerVotes? ==> voted
    ensures var acts := e.ServerDoes? && ServerReady(s, e.sa);
            && Alike(if acts then Next(cfg, v, e.sa) else v, Step(cfg, s, e).server, voted)
            && (acts ==> StepSends(cfg, v, e.sa) == StepSends(cfg, s.server, e.sa))
  {
    EventMovesServer(cfg, s, e);
    hide Good, Step, ServerReady, Next, StepSends, Alike, Settled, Retowered, Same;
    var n := Step(cfg, s, e).server;
    if e.ServerVotes? && s.server.active {
      ActiveIsSettled(cfg, s);
      VotingKeepsAlike(v, s.server, e.serverTower, voted);
      AlikeToSame(v, Retowered(s.server, Some(e.serverTower)), n, voted);
      AlikeToSame(v, s.server, n, voted);
    } else if e.ServerDoes? && ServerReady(s, e.sa) {
      ActsAlike(cfg, v, s.server, e.sa, voted);
      AlikeToSame(Next(cfg, v, e.sa), Next(cfg, s.server, e.sa), n, voted);
    } else {
      AlikeToSame(v, s.server, n, voted);
    }
  }

  lemma AlikeToSame(v: Server, w: Server, w': Server, voted: bool)
    ensures Alike(v, w, voted) && Same(w', w) ==> Alike(v, w', voted)
  {
    hide Settled, Retowered;
  }

  lemma ActsAlike(cfg: Config, v: Server, w: Server, a: ServerAction, voted: bool)
    requires Alike(v, w, voted)
    ensures Alike(Next(cfg, v, a), Next(cfg, w, a), voted) && StepSends(cfg, v, a) == StepSends(cfg, w, a)
  {
    hide Next, StepSends, Settled, Retowered;
    if !Same(v, w) {
      SettledActsAlike(cfg, v, w, a);
    }
  }

  /** The server in a run is the server alone, fed the answers it got, apart from its validator's votes. */
  lemma {:induction false} ServerInRun(cfg: Config, s: State, events: seq<Event>, v: Server, voted: bool)
    requires cfg.Valid() && Good(cfg, s) && Alike(v, s.server, voted)
    requires !Killed(Run(cfg, s, events).server)
    requires NoVotes(events) || voted
    ensures var fed := Feed(cfg, v, ServerAnswers(cfg, s, events));
            Alike(fed.0, Run(cfg, s, events).server, voted) && SentDown(s, Run(cfg, s, events), fed.1)
    decreases |events|
  {
    hide Good, Step, ServerStep, ServerReady, Feed, Carried, Killed, Next, StepSends, Alike;
    if events == [] {
      FeedNothing(cfg, v);
      NothingCarried(s.toClient.frames, s.linkUp);
    } else {
      var e, rest, s' := events[0], events[1..], Step(cfg, s, events[0]);
      if e.ServerDies? && !s.server.pc.SDone? { KilledAtOnce(cfg, s); KilledStays(cfg, s', rest); }
      EventKeepsAlike(cfg, s, e, v, voted);
      StepKeepsGood(cfg, s, e);
      EventCarries(cfg, s, e);
      var answers := ServerAnswers(cfg, s', rest);
      if e.ServerDoes? && ServerReady(s, e.sa) {
        var n := Next(cfg, v, e.sa);
        ServerInRun(cfg, s', rest, n, voted);
        FeedFront(cfg, v, e.sa, answers);
        SentDownConcat(s, s', Run(cfg, s', rest), StepSends(cfg, v, e.sa), Feed(cfg, n, answers).1);
      } else {
        ServerInRun(cfg, s', rest, v, voted);
        assert [] + answers == answers && [] + Feed(cfg, v, answers).1 == Feed(cfg, v, answers).1;
        SentDownConcat(s, s', Run(cfg, s', rest), [], Feed(cfg, v, answers).1);
      }
    }
  }

  /** Where `HandleFailoverStream` leaves the node's fields is where the run left the server. */
  ghost predicate EndsAsIn(end: State, node: PassiveNode)
    reads node, node.stream
  {
    && node.at.pc == end.server.pc
    && Same(node.stream.message, end.server.msg) && Same(node.identities, end.server.identities)
    && node.active == end.server.active
    && if end.linkUp then node.stream.written == end.toClient.frames else end.toClient.frames <= node.stream.written
  }

  /** Every run in which the server ends by itself is a run of `HandleFailoverStream` on a fresh node: same
      outcome, same message, same role, the same tower file until its validator votes, and the same frames
      as far as the link carried them. */
  method HandleInRun(cfg: Config, clientTower: seq<byte>, serverTower: Option<seq<byte>>, events: seq<Event>)
      returns (node: PassiveNode)
    requires cfg.Valid()
    requires var v := Run(cfg, Init(cfg, clientTower, serverTower), events).server; v.pc.SDone? && !Killed(v)
    ensures fresh(node) && fresh(node.stream) && node.cfg == cfg && node.Tracks()
    ensures var end := Run(cfg, Init(cfg, clientTower, serverTower), events);
            EndsAsIn(end, node) && (NoVotes(events) ==> Same(node.towerFile, end.server.tower))
  {
    hide Run, Feed, Good, PassiveNode.Tracks, EnvOf, ServerAnswers, Script, Killed, Alike;
    var s := Init(cfg, clientTower, serverTower);
    var answers := ServerAnswers(cfg, s, events);
    InitIsGood(cfg, clientTower, serverTower);
    AlikeAtFirst(s.server, !NoVotes(events));
    ServerInRun(cfg, s, events, s.server, !NoVotes(events));
    SameEnd(Feed(cfg, s.server, answers).0, Run(cfg, s, events).server, !NoVotes(events));
    AnswersAreAScript(cfg, s.server, answers);
    node := new PassiveNode(cfg, serverTower);
    node.HandleFailoverStream(EnvOf(cfg, s.server, answers));
    TracksFed(node);
    EndedAlike(s, Run(cfg, s, events), node, !NoVotes(events));
  }

  lemma AlikeAtFirst(v: Server, voted: bool)
    ensures Alike(v, v, voted)
  {
  }

  lemma SameEnd(v: Server, w: Server, voted: bool)
    requires Alike(v, w, voted)
    ensures v.pc == w.pc
  {
  }

  lemma TracksFed(node: PassiveNode)
    requires node.Tracks()
    ensures Feed(node.cfg, node.start, node.trace) == (node.at, node.sent) && node.stream.written == node.sent
    ensures Same(node.at.msg, node.stream.message) && Same(node.at.identities, node.identities)
    ensures node.at.active == node.active && Same(node.at.tower, node.towerFile)
  {
    hide Feed;
  }

  lemma EndedAlike(s: State, end: State, node: PassiveNode, voted: bool)
    requires s.linkUp && s.toClient.frames == [] && SentDown(s, end, node.stream.written)
    requires Alike(node.at, end.server, voted)
    requires Same(node.at.msg, node.stream.message) && Same(node.at.identities, node.identities)
    requires node.at.active == node.active && Same(node.at.tower, node.towerFile)
    ensures EndsAsIn(end, node) && (!voted ==> Same(node.towerFile, end.server.tower))
  {
    assert s.toClient.frames + node.stream.written == node.stream.written;
  }
}

/** Every run is short, no state is a deadlock, and every run can be brought to its end. */
module Progress {
  import opened Wrappers
  import opened Words
  import opened Messages
  import opened Protocol
  import opened ProtocolInvariant
  import opened Flow
  import opened Roles
  import opened Gates
  import opened ProtocolRuns

  // ----- The measure

  function HooksLeft(hooks: seq<Hook>, run: seq<bool>): nat {
    if |run| < |hooks| then |hooks| - |run| else 0
  }

  /** A bound on the steps the client has left. */
  function ClientRank(cfg: Config, c: Client): nat {
    match c.pc
    case CSendVersion => 12 + |cfg.preWhenActive|
    case CSendRequest => 11 + |cfg.preWhenActive|
    case CAwaitVersion => 10 + |cfg.preWhenActive|
    case CAwaitSignal => 9 + |cfg.preWhenActive|
    case CLeaderWait => 8 + |cfg.preWhenActive|
    case CPreHooks => 7 + HooksLeft(cfg.preWhenActive, c.notes.hooksRun)
    case CNextSlot => 6
    case CSetPassive => 5
    case CReadTower => 4
    case CSendTower => 3
    case CAwaitOutcome => 2
    case CRollback => 1
    case CDone(_) => 0
  }

  /** A bound on the steps the server has left. */
  function ServerRank(cfg: Config, v: Server): nat {
    match v.pc
    case SAwaitVersion => 16 + |cfg.preWhenPassive|
    case SAwaitRequest => 15 + |cfg.preWhenPassive|
    case SSendVersion => 14 + |cfg.preWhenPassive|
    case SGossip => 13 + |cfg.preWhenPassive|
    case SConfirm => 12 + |cfg.preWhenPassive|
    case SSample => 11 + |cfg.preWhenPassive|
    case SPrepareTower => 10 + |cfg.preWhenPassive|
    case SPreHooks => 9 + HooksLeft(cfg.preWhenPassive, v.checks.hooksRun)
    case SSendProceed => 8
    case SAwaitTower => 7
    case SWriteTower => 6
    case SSetActive => 5
    case SEndSlot => 4
    case SSendDone => 3
    case SSendRollback => 3
    case SRollback => 2
    case SReject(_) => 1
    case SDone(_) => 0
  }

  function Rank(cfg: Config, s: State): nat {
    ClientRank(cfg, s.client) + ServerRank(cfg, s.server)
  }

  /** One of the two programs takes a step, or dies. */
  predicate Effective(cfg: Config, s: State, e: Event) {
    match e
    case ClientDoes(a) => ClientReady(s, a) && ClientStep(cfg, s.client, a).ClientMoved?
    case ServerDoes(a) => ServerReady(s, a) && ServerStep(cfg, s.server, a).ServerMoved?
    case ClientDies => !s.client.pc.CDone?
    case ServerDies => !s.server.pc.SDone?
    case _ => false
  }

  lemma PreparingRankFalls(cfg: Config, c: Client, a: ClientAction)
    requires Preparing(c.pc) && ClientStep(cfg, c, a).ClientMoved?
    requires ClientEdge(cfg, c, a, ClientStep(cfg, c, a))
    ensures ClientRank(cfg, ClientStep(cfg, c, a).next) < ClientRank(cfg, c)
  {
    hide ClientStep, SameVersion, SameClient;
  }

  lemma SwitchingRankFalls(cfg: Config, c: Client, a: ClientAction)
    requires !Preparing(c.pc) && ClientStep(cfg, c, a).ClientMoved?
    requires ClientEdge(cfg, c, a, ClientStep(cfg, c, a))
    ensures ClientRank(cfg, ClientStep(cfg, c, a).next) < ClientRank(cfg, c)
  {
    hide ClientStep, SameClient;
  }

  lemma ClientRankFalls(cfg: Config, c: Client, a: ClientAction)
    requires ClientStep(cfg, c, a).ClientMoved?
    ensures ClientRank(cfg, ClientStep(cfg, c, a).next) < ClientRank(cfg, c)
  {
    ClientFollowsEdge(cfg, c, a);
    hide ClientStep, ClientEdge, ClientRank;
    if Preparing(c.pc) {
      PreparingRankFalls(cfg, c, a);
    } else {
      SwitchingRankFalls(cfg, c, a);
    }
  }

  lemma CheckingRankFalls(cfg: Config, v: Server, a: ServerAction)
    requires Checking(v.pc) && ServerStep(cfg, v, a).ServerMoved?
    requires ServerCheckEdge(cfg, v, a, ServerStep(cfg, v, a))
    ensures ServerRank(cfg, ServerStep(cfg, v, a).next) < ServerRank(cfg, v)
  {
    hide ServerStep, SameVersion, GossipShows, SameRoles, SameChecks;
  }

  lemma FinishingRankFalls(cfg: Config, v: Server, a: ServerAction)
    requires !Checking(v.pc) && !v.pc.SDone? && ServerStep(cfg, v, a).ServerMoved?
    requires ServerFinishEdge(cfg, v, a, ServerStep(cfg, v, a))
    ensures ServerRank(cfg, ServerStep(cfg, v, a).next) < ServerRank(cfg, v)
  {
    hide ServerStep, SameRoles, SameChecks;
  }

  lemma ServerRankFalls(cfg: Config, v: Server, a: ServerAction)
    requires ServerStep(cfg, v, a).ServerMoved?
    ensures ServerRank(cfg, ServerStep(cfg, v, a).next) < ServerRank(cfg, v)
  {
    ServerFollowsEdge(cfg, v, a);
    hide ServerStep, ServerCheckEdge, ServerFinishEdge, ServerRank;
    if Checking(v.pc) {
      CheckingRankFalls(cfg, v, a);
    } else {
      FinishingRankFalls(cfg, v, a);
    }
  }

  lemma StepLowersRank(cfg: Config, s: State, e: Event)
    ensures Rank(cfg, Step(cfg, s, e)) <= Rank(cfg, s)
    ensures Effective(cfg, s, e) ==> Rank(cfg, Step(cfg, s, e)) < Rank(cfg, s)
  {
    hide ClientStep, ServerStep, CanReceive;
    if e.ClientDoes? && Effective(cfg, s, e) {
      ClientRankFalls(cfg, s.client, e.ca);
    } else if e.ServerDoes? && Effective(cfg, s, e) {
      ServerRankFalls(cfg, s.server, e.sa);
    }
  }

  /** How many events of a run were steps of a program. */
  function Steps(cfg: Config, s: State, events: seq<Event>): nat
    decreases |events|
  {
    if events == [] then 0
    else (if Effective(cfg, s, events[0]) then 1 else 0) + Steps(cfg, Step(cfg, s, events[0]), events[1..])
  }

  lemma {:induction false} StepsBounded(cfg: Config, s: State, events: seq<Event>)
    ensures Steps(cfg, s, events) + Rank(cfg, Run(cfg, s, events)) <= Rank(cfg, s)
    decreases |events|
  {
    hide Step, Effective, Rank;
    if events != [] {
      StepLowersRank(cfg, s, events[0]);
      StepsBounded(cfg, Step(cfg, s, events[0]), events[1..]);
    }
  }

  /** Whatever the environment does, the two programs together take a bounded number of steps. */
  lemma RunsAreBounded(cfg: Config, clientTower: seq<byte>, serverTower: Option<seq<byte>>, events: seq<Event>)
    ensures Steps(cfg, Init(cfg, clientTower, serverTower), events) <= 28 + |cfg.preWhenActive| + |cfg.preWhenPassive|
  {
    hide Run, Steps;
    StepsBounded(cfg, Init(cfg, clientTower, serverTower), events);
  }

  // ----- No deadlock

  /** The client can only wait: for a frame on an open stream to a peer that still runs. */
  predicate ClientWaiting(s: State) {
    ClientReads(s.client.pc) && s.toClient.read >= |s.toClient.frames| && s.linkUp && !s.server.pc.SDone?
  }

  predicate ServerAwaits(pc: ServerPc) {
    pc.SAwaitVersion? || pc.SAwaitRequest? || pc.SAwaitTower?
  }

  predicate ServerWaiting(s: State) {
    ServerAwaits(s.server.pc) && s.toServer.read >= |s.toServer.frames| && s.linkUp && !s.client.pc.CDone?
  }

  predicate Finished(s: State) {
    s.client.pc.CDone? && s.server.pc.SDone?
  }

  /** The two nodes never wait for each other, because the client goes by the mode the server's
      message carries and not by a flag of its own; and neither waits for a node that has ended. */
  lemma NeverBothWaiting(cfg: Config, s: State)
    requires cfg.Valid() && Inv(cfg, s) && !Finished(s)
    ensures !(s.client.pc.CDone? || ClientWaiting(s)) || !(s.server.pc.SDone? || ServerWaiting(s))
  {
    hide UpFrames, DownFrames, ReplyMatches, SameIdentities, FinishingMessage, BaseMessage, GoAheadMessage,
      RejectMessage, FreshMessage, SentRequest, OwnRequest, ClientAdds, ClientProgress, TowerSent, MessageAt;
  }

  /** The next frame, or a failed read when there will be none. */
  function NextFrame(ch: Channel): Option<Frame> {
    if ch.read < |ch.frames| then Some(ch.frames[ch.read]) else None
  }

  /** What the client does next when the environment answers well. */
  function ClientNext(cfg: Config, s: State): ClientAction {
    match s.client.pc
    case CSendVersion => ClientSend(Sent)
    case CSendRequest => ClientSend(Sent)
    case CSendTower => ClientSend(Sent)
    case CLeaderWait => ClientLeaderWait(true)
    case CPreHooks => if |s.client.notes.hooksRun| < |cfg.preWhenActive| then ClientHook(true) else ClientHooksOver
    case CNextSlot => ClientNextSlot(0, Some(1))
    case CSetPassive => ClientCommand(Succeeded, 1, 1)
    case CReadTower => ClientReadTower(true, 1, 1)
    case CRollback => ClientCommand(Succeeded, 1, 1)
    case _ => ClientReceive(NextFrame(s.toClient))
  }

  function ServerNext(cfg: Config, s: State): ServerAction {
    match s.server.pc
    case SSendVersion => ServerSend(Sent)
    case SReject(_) => ServerSend(Sent)
    case SSendProceed => ServerSend(Sent)
    case SSendDone => ServerSend(Sent)
    case SSendRollback => ServerSend(Sent)
    case SGossip => ServerGossip(Some((cfg.clientInfo.publicIP, cfg.clientInfo.ActivePubKey())))
    case SConfirm => ServerConfirm(true)
    case SSample => ServerSample(Some(CreditsSample(1, 0, 1)))
    case SPrepareTower => ServerPrepareTower(true)
    case SPreHooks => if |s.server.checks.hooksRun| < |cfg.preWhenPassive| then ServerHook(true) else ServerHooksOver
    case SWriteTower => ServerWriteTower(Written, 1)
    case SSetActive => ServerCommand(Succeeded, 1, 1)
    case SEndSlot => ServerEndSlot(Some(1))
    case SRollback => ServerCommand(Succeeded, 1, 1)
    case _ => ServerReceive(NextFrame(s.toServer))
  }

  /** A schedule that favours the server: the client moves only when the server waits or has ended. */
  function Next(cfg: Config, s: State): Event {
    if s.server.pc.SDone? || ServerWaiting(s) then ClientDoes(ClientNext(cfg, s)) else ServerDoes(ServerNext(cfg, s))
  }

  lemma ClientCanMove(cfg: Config, s: State)
    requires !s.client.pc.CDone? && !ClientWaiting(s)
    requires s.client.pc.CPreHooks? ==> |s.client.notes.hooksRun| <= |cfg.preWhenActive|
    ensures Effective(cfg, s, ClientDoes(ClientNext(cfg, s)))
  {
    hide Encode, Decode, RequestMessage, WithStartSlot, WithTowerStart, WithTower, WithActiveSwitchStart,
      WithActiveSwitchEnd, SameVersion;
  }

  lemma ServerCanMove(cfg: Config, s: State)
    requires !s.server.pc.SDone? && !ServerWaiting(s)
    requires s.server.pc.SPreHooks? ==> |s.server.checks.hooksRun| <= |cfg.preWhenPassive|
    ensures Effective(cfg, s, ServerDoes(ServerNext(cfg, s)))
  {
    hide Encode, Decode, WithServerPart, WithError, RejectText, WithSample, WithGoAhead, WithTowerWritten,
      WithPassiveSwitchStart, WithPassiveSwitchEnd, WithRollbackRequired, WithQueriedEndSlot, WithCompleted,
      SameVersion, GossipShows;
  }

  lemma HooksNeverOverrun(cfg: Config, s: State)
    requires GateInv(cfg, s)
    ensures s.client.pc.CPreHooks? ==> |s.client.notes.hooksRun| <= |cfg.preWhenActive|
    ensures s.server.pc.SPreHooks? ==> |s.server.checks.hooksRun| <= |cfg.preWhenPassive|
  {
    hide MessageAt, GatesUpTo;
  }

  /** No deadlock: until both programs have ended, one of them can take a step. */
  lemma DeadlockFree(cfg: Config, s: State)
    requires cfg.Valid() && Reachable(cfg, s) && !Finished(s)
    ensures Effective(cfg, s, Next(cfg, s))
  {
    ReachableGood(cfg, s);
    NextMoves(cfg, s);
  }

  lemma NextMoves(cfg: Config, s: State)
    requires cfg.Valid() && Good(cfg, s) && !Finished(s)
    ensures Effective(cfg, s, Next(cfg, s))
  {
    hide Inv, RoleInv, GateInv, Effective, ClientNext, ServerNext, ClientWaiting, ServerWaiting;
    NeverBothWaiting(cfg, s);
    HooksNeverOverrun(cfg, s);
    if s.server.pc.SDone? || ServerWaiting(s) {
      ClientCanMove(cfg, s);
    } else {
      ServerCanMove(cfg, s);
    }
  }

  lemma ClientNextIsClean(cfg: Config, s: State)
    ensures Step(cfg, s, ClientDoes(ClientNext(cfg, s))).faults == s.faults
    ensures Step(cfg, s, ClientDoes(ClientNext(cfg, s))).linkUp == s.linkUp
  {
    hide Encode, Decode, RequestMessage, WithStartSlot, WithTowerStart, WithTower, WithActiveSwitchStart,
      WithActiveSwitchEnd, SameVersion, CanReceive;
  }

  lemma ServerNextIsClean(cfg: Config, s: State)
    requires s.server.pc.SGossip? ==> HearsClient(cfg, s.server.msg)
    ensures Step(cfg, s, ServerDoes(ServerNext(cfg, s))).faults == s.faults
    ensures Step(cfg, s, ServerDoes(ServerNext(cfg, s))).linkUp == s.linkUp
  {
    hide Encode, Decode, WithServerPart, WithError, RejectText, WithSample, WithGoAhead, WithTowerWritten,
      WithPassiveSwitchStart, WithPassiveSwitchEnd, WithRollbackRequired, WithQueriedEndSlot, WithCompleted,
      SameVersion, CanReceive;
  }

  lemma GossipHears(cfg: Config, s: State)
    requires cfg.Valid() && Inv(cfg, s)
    ensures s.server.pc.SGossip? ==> HearsClient(cfg, s.server.msg)
  {
    hide UpFrames, DownFrames, ReplyMatches, SameIdentities, ClientMessage, BaseMessage, HearsClient;
    if s.server.pc.SGossip? {
      ServerHearsClient(cfg, s.server.msg);
    }
  }

  /** The favourable schedule adds no fault and gets closer to the end. */
  lemma NextProgresses(cfg: Config, s: State)
    requires cfg.Valid() && Good(cfg, s) && !Finished(s)
    ensures var n := Step(cfg, s, Next(cfg, s));
            Good(cfg, n) && n.faults == s.faults && n.linkUp == s.linkUp && Rank(cfg, n) < Rank(cfg, s)
  {
    GossipHears(cfg, s);
    hide Good, Effective, ClientNext, ServerNext, ClientWaiting, ServerWaiting, Rank, Step;
    NextMoves(cfg, s);
    StepKeepsGood(cfg, s, Next(cfg, s));
    StepLowersRank(cfg, s, Next(cfg, s));
    ClientNextIsClean(cfg, s);
    ServerNextIsClean(cfg, s);
  }

  /** From every reachable state the two programs can be brought to their ends without a new fault. */
  lemma {:induction false} CanFinish(cfg: Config, s: State) returns (events: seq<Event>)
    requires cfg.Valid() && Good(cfg, s)
    ensures Finished(Run(cfg, s, events)) && Run(cfg, s, events).faults == s.faults
    decreases Rank(cfg, s)
  {
    hide Good, Next, Step, Rank;
    if Finished(s) {
      events := [];
    } else {
      NextProgresses(cfg, s);
      var rest := CanFinish(cfg, Step(cfg, s, Next(cfg, s)));
      events := [Next(cfg, s)] + rest;
      assert events[1..] == rest;
    }
  }
}

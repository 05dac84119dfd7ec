/** The credit sample the server takes before its go-ahead, and the messages that carry it. */
module Samples {
  import opened Wrappers
  import opened Words
  import opened Messages
  import opened Protocol
  import opened ProtocolInvariant
  import opened Flow
  import opened Gates
  import opened Agreement
  import opened ProtocolRuns
  import Outcomes

  /** The message holds this one sample, under the client's active public key, and no other. */
  predicate HoldsOnly(cfg: Config, m: Message, sample: Option<CreditsSample>) {
    sample.Some? && m.creditSamples == map[cfg.clientInfo.ActivePubKey() := [sample.value]]
  }

  /** The message's active node is the client, as far as its key goes. */
  predicate ForClient(cfg: Config, m: Message) {
    m.activeNodeInfo.ActivePubKey() == cfg.clientInfo.ActivePubKey()
  }

  /** The server has not asked for its sample yet. */
  predicate Unsampled(pc: ServerPc) {
    pc.SAwaitVersion? || pc.SAwaitRequest? || pc.SSendVersion? || pc.SGossip? || pc.SConfirm? || pc.SSample?
  }

  /** The server holds its sample, to the end if it completes. */
  predicate Sampled(pc: ServerPc) {
    || pc.SPrepareTower? || pc.SPreHooks? || pc.SSendProceed? || Proceeding(pc)
    || EndsAs(pc, Activated) || EndsAs(pc, CompletionUnsent) || EndsAs(pc, ActivationUndone)
  }

  predicate ServerSamples(cfg: Config, v: Server) {
    && (Unsampled(v.pc) ==> v.msg.creditSamples == map[] && v.checks.sampled.None?)
    && (Sampled(v.pc) ==> HoldsOnly(cfg, v.msg, v.checks.sampled) && ForClient(cfg, v.msg))
  }

  ghost predicate SampleInv(cfg: Config, s: State) {
    && ServerSamples(cfg, s.server)
    && (|s.toClient.frames| >= 2 && Reply(s.toClient.frames).canProceed ==>
          HoldsOnly(cfg, Reply(s.toClient.frames), s.server.checks.sampled))
  }

  // ----- The server keeps it

  lemma SampleIsKept(cfg: Config, v: Server, x: CreditsSample)
    requires v.msg.creditSamples == map[] && v.msg.activeNodeInfo.ActivePubKey() == cfg.clientInfo.ActivePubKey()
    ensures HoldsOnly(cfg, ServerTakesSample(v, x).msg, Some(x)) && ServerTakesSample(v, x).checks.sampled == Some(x)
    ensures ForClient(cfg, ServerTakesSample(v, x).msg)
  {
    assert [] + [x] == [x];
  }

  /** With an answer the sample is taken; without one the server refuses. */
  lemma SamplingStep(cfg: Config, v: Server, a: ServerAction)
    requires cfg.Valid() && v.pc.SSample? && BaseMessage(cfg, v.msg) && v.msg.creditSamples == map[]
    requires ServerStep(cfg, v, a).ServerMoved? && ServerCheckEdge(cfg, v, a, ServerStep(cfg, v, a))
    ensures var n := ServerStep(cfg, v, a).next;
            n.pc.SReject? || (n.pc.SPrepareTower? && HoldsOnly(cfg, n.msg, n.checks.sampled) && ForClient(cfg, n.msg))
  {
    ServerHearsClient(cfg, v.msg);
    hide BaseMessage, ServerTakesSample, ServerRejects, HoldsOnly, NodeInfo.ActivePubKey, SameRoles;
    if a.ServerSample? && a.sample.Some? {
      SampleIsKept(cfg, v, a.sample.value);
    } else {
      hide ServerStep;
    }
  }

  /** Nothing else the server does touches the samples. */
  predicate SameSamples(v: Server, r: ServerResult) {
    r.ServerMoved? ==>
      && r.next.msg.creditSamples == v.msg.creditSamples
      && r.next.msg.activeNodeInfo == v.msg.activeNodeInfo
  }

  lemma RejectingKeepsSamples(v: Server, why: Reject, faults: set<Fault>)
    ensures ServerRejects(v, why, faults).ServerMoved? && SameSamples(v, ServerRejects(v, why, faults))
  {
    hide RejectText;
  }

  lemma VersionKeepsSamples(cfg: Config, v: Server, a: ServerAction)
    requires v.pc.SSendVersion?
    ensures SameSamples(v, ServerStep(cfg, v, a))
  {
    hide SameVersion, ServerRejects, WithServerPart;
    var info := cfg.serverInfo.(identities := v.identities);
    ServerPartKeepsSamples(v.msg, cfg.dryRun, cfg.skipTowerSync, info);
    RejectingKeepsSamples(v.(msg := WithServerPart(v.msg, cfg.dryRun, cfg.skipTowerSync, info)), OtherVersion, {});
  }

  lemma ServerPartKeepsSamples(m: Message, dryRun: bool, skip: bool, info: NodeInfo)
    ensures var w := WithServerPart(m, dryRun, skip, info);
            w.creditSamples == m.creditSamples && w.activeNodeInfo == m.activeNodeInfo
  {
  }

  lemma GossipKeepsSamples(cfg: Config, v: Server, a: ServerAction)
    requires v.pc.SGossip?
    ensures SameSamples(v, ServerStep(cfg, v, a))
  {
    hide GossipShows, ServerRejects;
    if a.ServerGossip? {
      var seen := v.(checks := v.checks.(gossip := a.answer));
      RejectingKeepsSamples(v, GossipUnanswered, {GossipFault});
      RejectingKeepsSamples(seen, GossipDisagrees, {GossipFault});
      RejectingKeepsSamples(seen, RollbackDiffers, {});
    }
  }

  lemma OpeningKeepsSamples(cfg: Config, v: Server, a: ServerAction)
    requires v.pc.SAwaitVersion? || v.pc.SReject? || v.pc.SConfirm?
    ensures SameSamples(v, ServerStep(cfg, v, a))
  {
    hide Encode, RejectText;
  }

  lemma PreparingKeepsSamples(cfg: Config, v: Server, a: ServerAction)
    requires v.pc.SPrepareTower? || v.pc.SPreHooks? || v.pc.SSendProceed?
    ensures SameSamples(v, ServerStep(cfg, v, a))
  {
    hide Encode, RejectText;
  }

  lemma SwitchKeepsSamples(cfg: Config, v: Server, a: ServerAction)
    requires v.pc.SWriteTower? || v.pc.SSetActive?
    ensures SameSamples(v, ServerStep(cfg, v, a))
  {
  }

  lemma VerdictKeepsSamples(cfg: Config, v: Server, a: ServerAction)
    requires v.pc.SEndSlot? || v.pc.SSendDone? || v.pc.SSendRollback? || v.pc.SRollback?
    ensures SameSamples(v, ServerStep(cfg, v, a))
  {
    hide Encode;
  }

  lemma StepKeepsSamples(cfg: Config, v: Server, a: ServerAction)
    requires !v.pc.SSample? && !v.pc.SAwaitRequest? && !v.pc.SAwaitTower? && !v.pc.SDone?
    ensures SameSamples(v, ServerStep(cfg, v, a))
  {
    hide ServerStep, SameSamples;
    match v.pc
    case SSendVersion => VersionKeepsSamples(cfg, v, a);
    case SGossip => GossipKeepsSamples(cfg, v, a);
    case SPrepareTower => PreparingKeepsSamples(cfg, v, a);
    case SPreHooks => PreparingKeepsSamples(cfg, v, a);
    case SSendProceed => PreparingKeepsSamples(cfg, v, a);
    case SWriteTower => SwitchKeepsSamples(cfg, v, a);
    case SSetActive => SwitchKeepsSamples(cfg, v, a);
    case SAwaitVersion => OpeningKeepsSamples(cfg, v, a);
    case SReject(_) => OpeningKeepsSamples(cfg, v, a);
    case SConfirm => OpeningKeepsSamples(cfg, v, a);
    case _ => VerdictKeepsSamples(cfg, v, a);
  }

  /** No other step changes the recorded answer either, or takes the server past or back before it. */
  lemma StepKeepsAnswer(cfg: Config, v: Server, a: ServerAction, r: ServerResult)
    requires r.ServerMoved? && ServerEdge(cfg, v, a, r) && !v.pc.SSample?
    ensures r.next.checks.sampled == v.checks.sampled
    ensures (Unsampled(r.next.pc) ==> Unsampled(v.pc)) && (Sampled(r.next.pc) ==> Sampled(v.pc))
  {
    hide HookRan, SameVersion, GossipShows, SameRoles;
    if Checking(v.pc) {
      hide ServerFinishEdge;
    } else {
      hide ServerCheckEdge;
    }
  }

  /** The tower message carries the samples of the reply. */
  lemma TowerSamples(cfg: Config, s: State)
    requires Inv(cfg, s) && |s.toServer.frames| >= 3
    ensures |s.toClient.frames| >= 2 && Reply(s.toClient.frames).canProceed
    ensures Tower(s.toServer.frames).creditSamples == Reply(s.toClient.frames).creditSamples
    ensures Tower(s.toServer.frames).activeNodeInfo.identities == Reply(s.toClient.frames).activeNodeInfo.identities
  {
    hide DownFrames, ServerMessage, ClientMessage, ReplyMatches, SameIdentities, MessageAt, SwitchTimed, TowerFilled;
  }

  lemma TowerIsSampled(cfg: Config, s: State, a: ServerAction)
    requires cfg.Valid() && Inv(cfg, s) && SampleInv(cfg, s) && ServerReady(s, a)
    requires s.server.pc.SAwaitTower? && ServerStep(cfg, s.server, a).ServerMoved?
    ensures ServerSamples(cfg, ServerStep(cfg, s.server, a).next)
  {
    hide Inv, ServerStep, ServerEdge, Decode, ServerReceivesTower, MessageAt;
    ServerFollowsEdge(cfg, s.server, a);
    AwaitingMoves(cfg, s.server, a, ServerStep(cfg, s.server, a));
    if a.ServerReceive? && a.frame.Some? {
      ServerHearsTower(cfg, s, a);
      Outcomes.TowerStepReceives(cfg, s.server, a);
      TowerSamples(cfg, s);
      TowerIsForClient(cfg, s);
    }
  }

  lemma AwaitingMoves(cfg: Config, v: Server, a: ServerAction, r: ServerResult)
    requires r.ServerMoved? && ServerEdge(cfg, v, a, r) && v.pc.SAwaitTower?
    ensures a.ServerReceive? && r.next.checks == v.checks && !Unsampled(r.next.pc)
    ensures Sampled(r.next.pc) ==> a.frame.Some?
  {
    hide SameRoles;
  }

  /** The public key survives the loss of the private one. */
  lemma TowerIsForClient(cfg: Config, s: State)
    requires cfg.Valid() && Inv(cfg, s) && |s.toServer.frames| >= 3
    ensures ForClient(cfg, Tower(s.toServer.frames))
  {
    TowerSamples(cfg, s);
    hide UpFrames, ServerMessage, ClientMessage, ReplyMatches, SameIdentities, MessageAt, VerdictFrame;
  }

  lemma RequestIsUnsampled(cfg: Config, v: Server, tower: Message)
    requires ServerMessage(cfg, v.pc, v.msg, tower)
    ensures v.pc.SAwaitRequest? || v.pc.SSendVersion? ==> v.msg.creditSamples == map[]
  {
    hide BaseMessage, RejectMessage, GoAheadMessage, FinishingMessage;
  }

  lemma SamplingHoldsBase(cfg: Config, pc: ServerPc, m: Message, tower: Message)
    requires ServerMessage(cfg, pc, m, tower)
    ensures pc.SSample? ==> BaseMessage(cfg, m)
  {
    hide BaseMessage;
  }

  lemma ServerSamplesStep(cfg: Config, s: State, a: ServerAction)
    requires cfg.Valid() && Inv(cfg, s) && SampleInv(cfg, s) && ServerReady(s, a)
    requires ServerStep(cfg, s.server, a).ServerMoved? && ServerEdge(cfg, s.server, a, ServerStep(cfg, s.server, a))
    requires var n := ServerStep(cfg, s.server, a).next; ServerMessage(cfg, n.pc, n.msg, Tower(s.toServer.frames))
    ensures var n := ServerStep(cfg, s.server, a).next;
            ServerSamples(cfg, n) && (!s.server.pc.SSample? ==> n.checks.sampled == s.server.checks.sampled)
  {
    hide ServerStep, ServerCheckEdge, ServerFinishEdge, HoldsOnly, ServerMessage, ClientMessage, UpFrames, DownFrames,
      ReplyMatches, SameIdentities, Counts, MessageAt, BaseMessage, SameSamples;
    var v, r := s.server, ServerStep(cfg, s.server, a);
    if v.pc.SSample? {
      SamplingHoldsBase(cfg, v.pc, v.msg, Tower(s.toServer.frames));
      SamplingStep(cfg, v, a);
    } else {
      StepKeepsAnswer(cfg, v, a, r);
      if v.pc.SAwaitTower? {
        TowerIsSampled(cfg, s, a);
      } else if v.pc.SAwaitRequest? {
        RequestMoves(cfg, v, a, r);
        RequestIsUnsampled(cfg, r.next, Tower(s.toServer.frames));
      } else {
        SamplesStay(cfg, v, a);
      }
    }
  }

  lemma RequestMoves(cfg: Config, v: Server, a: ServerAction, r: ServerResult)
    requires r.ServerMoved? && ServerEdge(cfg, v, a, r) && v.pc.SAwaitRequest?
    ensures r.next.pc.SSendVersion? || EndsAs(r.next.pc, NoRequest)
  {
  }

  lemma SamplesStay(cfg: Config, v: Server, a: ServerAction)
    requires !v.pc.SSample? && !v.pc.SAwaitRequest? && !v.pc.SAwaitTower? && !v.pc.SDone?
    requires ServerStep(cfg, v, a).ServerMoved? && ServerSamples(cfg, v)
    requires var n := ServerStep(cfg, v, a).next;
             && n.checks.sampled == v.checks.sampled
             && (Unsampled(n.pc) ==> Unsampled(v.pc)) && (Sampled(n.pc) ==> Sampled(v.pc))
    ensures ServerSamples(cfg, ServerStep(cfg, v, a).next)
  {
    hide ServerStep;
    StepKeepsSamples(cfg, v, a);
  }

  lemma EncodeKeepsSamples(m: Message)
    ensures Encode(m).creditSamples == m.creditSamples && Encode(m).canProceed == m.canProceed
  {
  }

  /** The go-ahead goes out with the sample; a refusal is none. */
  lemma ReplyKeepsSample(cfg: Config, v: Server, a: ServerAction, r: ServerResult, down: Channel, linkUp: bool)
    requires r.ServerMoved? && ServerEdge(cfg, v, a, r) && ServerSamples(cfg, v)
    requires WrittenUpTo(down, ServerSent(v.pc), v.pc.SRollback? || v.pc.SDone?, linkUp)
    requires |down.frames| >= 2 && Reply(down.frames).canProceed ==> HoldsOnly(cfg, Reply(down.frames), v.checks.sampled)
    requires v.pc.SReject? ==> !v.msg.canProceed
    requires !v.pc.SSample? ==> r.next.checks.sampled == v.checks.sampled
    ensures var down' := down.Append(r.sent, linkUp).frames;
            |down'| >= 2 && Reply(down').canProceed ==> HoldsOnly(cfg, Reply(down'), r.next.checks.sampled)
  {
    EncodeKeepsSamples(v.msg);
    hide Encode, HookRan, SameVersion, GossipShows, SameRoles, SameChecks;
    if Checking(v.pc) {
      hide ServerFinishEdge;
    } else {
      hide ServerCheckEdge;
    }
  }

  lemma ServerActionKeepsSamples(cfg: Config, s: State, a: ServerAction)
    requires cfg.Valid() && Inv(cfg, s) && SampleInv(cfg, s) && Inv(cfg, ServerEvent(cfg, s, a))
    ensures SampleInv(cfg, ServerEvent(cfg, s, a))
  {
    hide DownFrames, UpFrames, ClientMessage, ReplyMatches, SameIdentities, MessageAt, ServerStep, ServerMessage, ServerEdge,
      ServerSamples, HoldsOnly;
    var v := s.server;
    if ServerReady(s, a) && ServerStep(cfg, v, a).ServerMoved? {
      ServerFollowsEdge(cfg, v, a);
      RefusalSaysNo(cfg, v.pc, v.msg, Tower(s.toServer.frames));
      ServerSamplesStep(cfg, s, a);
      ReplyKeepsSample(cfg, v, a, ServerStep(cfg, v, a), s.toClient, s.linkUp);
    }
  }

  lemma RefusalSaysNo(cfg: Config, pc: ServerPc, m: Message, tower: Message)
    requires ServerMessage(cfg, pc, m, tower)
    ensures pc.SReject? ==> !m.canProceed
  {
    hide BaseMessage, GoAheadMessage, FinishingMessage;
  }

  // ----- In every run

  lemma OtherEventsKeepSamples(cfg: Config, s: State, e: Event)
    requires SampleInv(cfg, s) && s.toClient.Valid() && !e.ServerDoes?
    ensures SampleInv(cfg, Step(cfg, s, e))
  {
    hide ClientStep, CanReceive, HoldsOnly;
    if e.LinkDrops? {
      CutKeepsFrames(s.toClient, e.keepToClient);
    }
  }

  lemma {:induction false} RunKeepsSamples(cfg: Config, s: State, events: seq<Event>)
    requires cfg.Valid() && Inv(cfg, s) && SampleInv(cfg, s)
    ensures SampleInv(cfg, Run(cfg, s, events))
    decreases |events|
  {
    hide Inv, SampleInv, ServerEvent;
    if events != [] {
      StepKeepsInv(cfg, s, events[0]);
      if events[0].ServerDoes? {
        ServerActionKeepsSamples(cfg, s, events[0].sa);
      } else {
        ChannelsValid(cfg, s);
        OtherEventsKeepSamples(cfg, s, events[0]);
      }
      RunKeepsSamples(cfg, Step(cfg, s, events[0]), events[1..]);
    }
  }

  lemma ReachableSamples(cfg: Config, s: State)
    requires cfg.Valid() && Reachable(cfg, s)
    ensures SampleInv(cfg, s)
  {
    hide Inv, Run, SampleInv, Init;
    var clientTower, serverTower, events :| s == Run(cfg, Init(cfg, clientTower, serverTower), events);
    InitKeepsInv(cfg, clientTower, serverTower);
    NoSampleAtFirst(cfg, clientTower, serverTower);
    RunKeepsSamples(cfg, Init(cfg, clientTower, serverTower), events);
  }

  lemma NoSampleAtFirst(cfg: Config, clientTower: seq<byte>, serverTower: Option<seq<byte>>)
    ensures SampleInv(cfg, Init(cfg, clientTower, serverTower))
  {
  }

  lemma AskingRecords(cfg: Config, v: Server, a: ServerAction)
    requires v.pc.SSample?
    ensures var r := ServerStep(cfg, v, a);
            && (a.ServerSample? ==> r.ServerMoved?)
            && (r.ServerMoved? ==>
                  r.next.checks.sampled == if a.ServerSample? && a.sample.Some? then a.sample else v.checks.sampled)
  {
    hide WithSample, WithError, RejectText;
  }

  lemma ServerRecords(cfg: Config, s: State, a: ServerAction)
    ensures var answered := s.server.pc.SSample? && a.ServerSample? && a.sample.Some?;
            ServerEvent(cfg, s, a).server.checks.sampled == if answered then a.sample else s.server.checks.sampled
  {
    hide ServerStep, ServerEdge, CanReceive;
    if s.server.pc.SSample? {
      AskingRecords(cfg, s.server, a);
    } else if ServerStep(cfg, s.server, a).ServerMoved? {
      ServerFollowsEdge(cfg, s.server, a);
      StepKeepsAnswer(cfg, s.server, a, ServerStep(cfg, s.server, a));
    }
  }

  /** The recorded sample is the answer the server got when it asked, and stays. */
  lemma SampleIsTheAnswer(cfg: Config, s: State, e: Event)
    requires cfg.Valid() && Reachable(cfg, s)
    ensures var answered := s.server.pc.SSample? && e.ServerDoes? && e.sa.ServerSample? && e.sa.sample.Some?;
            Step(cfg, s, e).server.checks.sampled == if answered then e.sa.sample else s.server.checks.sampled
    ensures s.server.pc.SSample? ==> s.server.checks.sampled.None?
  {
    ReachableSamples(cfg, s);
    hide Reachable, HoldsOnly, ForClient, MessageAt, ServerEvent, ClientStep, ClientReady;
    if e.ServerDoes? {
      ServerRecords(cfg, s, e.sa);
    }
  }

  // ----- What the messages carry

  lemma VerdictSamples(cfg: Config, s: State)
    requires Inv(cfg, s) && |s.toClient.frames| >= 3
    ensures Reply(s.toClient.frames).canProceed
    ensures Verdict(s.toClient.frames).creditSamples == Reply(s.toClient.frames).creditSamples
  {
    if !cfg.skipTowerSync {
      VerdictHasTower(cfg, s);
      TowerSamples(cfg, s);
    }
    hide UpFrames, ServerMessage, ClientMessage, ReplyMatches, SameIdentities, MessageAt, ReplyFrame;
  }

  lemma VerdictHasTower(cfg: Config, s: State)
    requires Inv(cfg, s) && |s.toClient.frames| >= 3 && !cfg.skipTowerSync
    ensures |s.toServer.frames| >= 3
  {
    hide UpFrames, ServerMessage, ClientMessage, ReplyMatches, SameIdentities, MessageAt, ReplyFrame, VerdictFrame;
  }
}

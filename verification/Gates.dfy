/** The checks that stand before the switch: what has been passed at each program point. */
module Gates {
  import opened Wrappers
  import opened Words
  import opened Messages
  import opened Protocol
  import opened ProtocolInvariant
  import opened Flow

  /** Every hook that had to succeed did; the list ran in order, so `run` is a prefix's results. */
  predicate HooksHeld(hooks: seq<Hook>, run: seq<bool>) {
    && |run| <= |hooks|
    && forall i :: 0 <= i < |run| ==> run[i] || !hooks[i].mustSucceed
  }

  predicate HooksDone(hooks: seq<Hook>, run: seq<bool>) {
    |run| == |hooks| && HooksHeld(hooks, run)
  }

  /** The server has passed its first `n` checks, in the order of the program. */
  ghost predicate GatesUpTo(cfg: Config, v: Server, n: nat) {
    && (n >= 1 ==> cfg.clientWire == cfg.serverWire)
    && (n >= 2 ==> cfg.clientVersion == cfg.serverVersion)
    && (n >= 3 ==> v.checks.gossip == Some((cfg.clientInfo.publicIP, cfg.clientInfo.ActivePubKey())))
    && (n >= 3 ==> cfg.serverRollback == cfg.clientRollback)
    && (n >= 4 ==> v.checks.confirmed && v.checks.plan.Some? && BaseMessage(cfg, v.checks.plan.value))
    && (n >= 5 ==> v.checks.sampled.Some?)
    && (n >= 6 ==> v.checks.towerReady)
    && (n >= 7 ==> HooksDone(cfg.preWhenPassive, v.checks.hooksRun))
  }

  ghost predicate AllGates(cfg: Config, v: Server) {
    GatesUpTo(cfg, v, 7)
  }

  function GateStage(pc: ServerPc): nat {
    match pc
    case SAwaitRequest => 1
    case SSendVersion => 1
    case SGossip => 2
    case SConfirm => 3
    case SSample => 4
    case SPrepareTower => 5
    case SPreHooks => 6
    case SReject(_) => 0
    case SAwaitVersion => 0
    case SDone(_) => 0
    case _ => 7
  }

  ghost predicate ServerGates(cfg: Config, v: Server) {
    && GatesUpTo(cfg, v, GateStage(v.pc))
    && (v.pc.SPreHooks? ==> HooksHeld(cfg.preWhenPassive, v.checks.hooksRun))
    && (v.active || v.activated ==> AllGates(cfg, v) && !Checking(v.pc))
    && (Checking(v.pc) && !v.pc.SPreHooks? && !v.pc.SReject? ==> v.checks.hooksRun == [])
  }

  /** The client has run its set-identity command, whatever came of it. */
  predicate Attempted(c: Client) {
    c.wentPassive || (c.pc.CDone? && c.pc.outcome.SetPassiveFailed?)
  }

  ghost predicate ClientGates(cfg: Config, c: Client, read: nat, down: seq<Frame>) {
    && (Preparing(c.pc) || c.pc.CNextSlot? || c.pc.CSetPassive? ==> !c.wentPassive)
    && (Preparing(c.pc) && !c.pc.CPreHooks? ==> c.notes.hooksRun == [])
    && (c.pc.CPreHooks? ==> HooksHeld(cfg.preWhenActive, c.notes.hooksRun))
    && (c.pc.CNextSlot? || c.pc.CSetPassive? || AfterSwitch(c.pc) || Attempted(c) ==> HooksDone(cfg.preWhenActive, c.notes.hooksRun))
    && (AfterSwitch(c.pc) || Attempted(c) ==> read >= 2 && Reply(down).canProceed)
  }

  ghost predicate GateInv(cfg: Config, s: State) {
    && ServerGates(cfg, s.server)
    && (|s.toClient.frames| >= 2 && Reply(s.toClient.frames).canProceed ==> AllGates(cfg, s.server))
    && ClientGates(cfg, s.client, s.toClient.read, s.toClient.frames)
  }

  // ----- The server

  /** What the client's request tells the server; the public key survives the loss of the private one. */
  ghost predicate HearsClient(cfg: Config, m: Message) {
    && m.activeNodeInfo.failoverVersion == cfg.clientVersion
    && m.activeNodeInfo.publicIP == cfg.clientInfo.publicIP
    && m.activeNodeInfo.ActivePubKey() == cfg.clientInfo.ActivePubKey()
    && m.activeRollbackEnabled == cfg.clientRollback
  }

  lemma ServerHearsClient(cfg: Config, m: Message)
    requires cfg.Valid()
    requires SentRequest(cfg, m) || BaseMessage(cfg, m)
    ensures HearsClient(cfg, m)
  {
  }

  lemma HookRanHolds(hooks: seq<Hook>, run: seq<bool>, run': seq<bool>, ok: bool, goesOn: bool)
    requires HooksHeld(hooks, run) && HookRan(hooks, run, run', ok, goesOn)
    ensures goesOn ==> HooksHeld(hooks, run')
  {
    assert forall i :: 0 <= i < |run| ==> run'[i] == run'[..|run|][i];
  }

  lemma CheckingKeepsGates(cfg: Config, v: Server, a: ServerAction)
    requires ServerGates(cfg, v) && Checking(v.pc)
    requires ServerStep(cfg, v, a).ServerMoved? && ServerCheckEdge(cfg, v, a, ServerStep(cfg, v, a))
    requires v.pc.SAwaitVersion? && a.ServerReceive? && a.frame.Some? ==> a.frame.value == Version(cfg.clientWire)
    requires v.pc.SSendVersion? || v.pc.SGossip? ==> HearsClient(cfg, v.msg)
    requires v.pc.SConfirm? ==> BaseMessage(cfg, v.msg)
    ensures ServerGates(cfg, ServerStep(cfg, v, a).next)
  {
    hide ServerStep, BaseMessage, HooksHeld, HookRan;
    var n := ServerStep(cfg, v, a).next;
    if v.pc.SPreHooks? && a.ServerHook? {
      HookRanHolds(cfg.preWhenPassive, v.checks.hooksRun, n.checks.hooksRun, a.ok, n.pc.SPreHooks?);
    }
    NoHooksYet(cfg.preWhenPassive);
  }

  lemma NoHooksYet(hooks: seq<Hook>)
    ensures HooksHeld(hooks, [])
  {
  }

  lemma FinishingKeepsGates(cfg: Config, v: Server, a: ServerAction)
    requires ServerGates(cfg, v) && !Checking(v.pc) && !v.pc.SDone?
    requires ServerStep(cfg, v, a).ServerMoved? && ServerFinishEdge(cfg, v, a, ServerStep(cfg, v, a))
    ensures ServerGates(cfg, ServerStep(cfg, v, a).next)
    ensures AllGates(cfg, v) ==> AllGates(cfg, ServerStep(cfg, v, a).next)
  {
    hide ServerStep, BaseMessage, HooksHeld, GossipShows, SameVersion;
  }

  /** Only the go-ahead tells the client to proceed, and it goes out with every check passed. */
  lemma ReplyKeepsGates(cfg: Config, v: Server, a: ServerAction, down: Channel, linkUp: bool)
    requires ServerStep(cfg, v, a).ServerMoved? && ServerEdge(cfg, v, a, ServerStep(cfg, v, a))
    requires ServerGates(cfg, v) && WrittenUpTo(down, ServerSent(v.pc), v.pc.SRollback? || v.pc.SDone?, linkUp)
    requires |down.frames| >= 2 && Reply(down.frames).canProceed ==> AllGates(cfg, v)
    requires v.pc.SReject? ==> !v.msg.canProceed
    ensures var r := ServerStep(cfg, v, a);
            var down' := down.Append(r.sent, linkUp).frames;
            |down'| >= 2 && Reply(down').canProceed ==> AllGates(cfg, r.next)
  {
    hide ServerStep, GatesUpTo, HooksHeld, SameVersion, GossipShows;
    if Checking(v.pc) {
      hide ServerFinishEdge;
    } else {
      FinishingKeepsGates(cfg, v, a);
      hide ServerCheckEdge, ServerFinishEdge;
    }
  }

  lemma RejectionSaysNo(cfg: Config, m: Message, why: Reject)
    requires RejectMessage(cfg, m, why)
    ensures !m.canProceed
  {
  }

  lemma ClientGatesSeeSameReply(cfg: Config, c: Client, read: nat, down: seq<Frame>, down': seq<Frame>)
    requires ClientGates(cfg, c, read, down)
    requires read <= |down| && read <= |down'| && forall i :: 0 <= i < read ==> down'[i] == down[i]
    ensures ClientGates(cfg, c, read, down')
  {
    hide HooksHeld;
  }

  lemma ServerGatesStep(cfg: Config, v: Server, a: ServerAction)
    requires cfg.Valid()
    requires ServerGates(cfg, v) && ServerStep(cfg, v, a).ServerMoved?
    requires v.pc.SAwaitVersion? && a.ServerReceive? && a.frame.Some? ==> a.frame.value == Version(cfg.clientWire)
    requires v.pc.SSendVersion? ==> SentRequest(cfg, v.msg)
    requires v.pc.SGossip? || v.pc.SConfirm? ==> BaseMessage(cfg, v.msg)
    ensures ServerGates(cfg, ServerStep(cfg, v, a).next) && ServerEdge(cfg, v, a, ServerStep(cfg, v, a))
  {
    hide ServerStep, ServerGates, ServerCheckEdge, ServerFinishEdge, SentRequest, BaseMessage, HearsClient;
    ServerFollowsEdge(cfg, v, a);
    if Checking(v.pc) {
      if v.pc.SSendVersion? || v.pc.SGossip? {
        ServerHearsClient(cfg, v.msg);
      }
      CheckingKeepsGates(cfg, v, a);
    } else {
      FinishingKeepsGates(cfg, v, a);
    }
  }

  lemma ServerActionKeepsGates(cfg: Config, s: State, a: ServerAction)
    requires cfg.Valid() && Inv(cfg, s) && GateInv(cfg, s)
    ensures GateInv(cfg, ServerEvent(cfg, s, a))
  {
    hide DownFrames, ClientMessage, ReplyMatches, SameIdentities, MessageAt, ServerStep, ServerGates, AllGates,
      ClientGates, FinishingMessage, BaseMessage, GoAheadMessage, RejectMessage, FreshMessage, SentRequest, ServerEdge;
    var v := s.server;
    if ServerReady(s, a) && ServerStep(cfg, v, a).ServerMoved? {
      var s' := ServerEvent(cfg, s, a);
      ServerGatesStep(cfg, v, a);
      if v.pc.SReject? {
        RejectionSaysNo(cfg, v.msg, v.pc.why);
      }
      ReplyKeepsGates(cfg, v, a, s.toClient, s.linkUp);
      ClientGatesSeeSameReply(cfg, s.client, s.toClient.read, s.toClient.frames, s'.toClient.frames);
    }
  }

  // ----- The client

  lemma PreparingKeepsGates(cfg: Config, c: Client, a: ClientAction, read: nat, read': nat, down: seq<Frame>)
    requires ClientGates(cfg, c, read, down) && read' >= read && Preparing(c.pc)
    requires ClientStep(cfg, c, a).ClientMoved? && ClientEdge(cfg, c, a, ClientStep(cfg, c, a))
    ensures ClientGates(cfg, ClientStep(cfg, c, a).next, read', down)
  {
    hide ClientStep, ClientEdge, ClientGates;
    if c.pc.CPreHooks? {
      HookingKeepsGates(cfg, c, a, ClientStep(cfg, c, a), read, read', down);
    } else {
      OpeningKeepsGates(cfg, c, a, ClientStep(cfg, c, a), read, read', down);
    }
  }

  lemma HookingKeepsGates(cfg: Config, c: Client, a: ClientAction, r: ClientResult, read: nat, read': nat, down: seq<Frame>)
    requires ClientGates(cfg, c, read, down) && c.pc.CPreHooks? && r.ClientMoved? && ClientEdge(cfg, c, a, r)
    ensures ClientGates(cfg, r.next, read', down)
  {
    hide MessageAt, HooksHeld, HookRan;
    if a.ClientHook? {
      HookRanHolds(cfg.preWhenActive, c.notes.hooksRun, r.next.notes.hooksRun, a.ok, r.next.pc.CPreHooks?);
    }
  }

  lemma OpeningKeepsGates(cfg: Config, c: Client, a: ClientAction, r: ClientResult, read: nat, read': nat, down: seq<Frame>)
    requires ClientGates(cfg, c, read, down) && Preparing(c.pc) && !c.pc.CPreHooks? && r.ClientMoved? && ClientEdge(cfg, c, a, r)
    ensures ClientGates(cfg, r.next, read', down)
  {
    hide MessageAt, SameVersion, HooksHeld, HookRan;
    NoHooksYet(cfg.preWhenActive);
  }

  lemma SwitchingKeepsGates(cfg: Config, c: Client, a: ClientAction, read: nat, read': nat, down: seq<Frame>)
    requires ClientGates(cfg, c, read, down) && read' >= read && !Preparing(c.pc)
    requires ClientStep(cfg, c, a).ClientMoved? && ClientEdge(cfg, c, a, ClientStep(cfg, c, a))
    requires c.pc.CSetPassive? ==> read >= 2 && Reply(down).canProceed
    ensures ClientGates(cfg, ClientStep(cfg, c, a).next, read', down)
  {
    hide ClientStep, MessageAt, HooksDone;
  }

  lemma ClientActionKeepsGates(cfg: Config, s: State, a: ClientAction)
    requires cfg.Valid() && Inv(cfg, s) && GateInv(cfg, s)
    ensures GateInv(cfg, ClientEvent(cfg, s, a))
  {
    hide UpFrames, DownFrames, ServerMessage, ReplyMatches, SameIdentities, MessageAt, ClientStep, ServerGates,
      AllGates, ClientGates, ClientProgress, ClientAdds, TowerSent, FreshMessage, OwnRequest, ClientEdge;
    var c := s.client;
    if ClientReady(s, a) && ClientStep(cfg, c, a).ClientMoved? {
      var s' := ClientEvent(cfg, s, a);
      ClientFollowsEdge(cfg, c, a);
      if Preparing(c.pc) {
        PreparingKeepsGates(cfg, c, a, s.toClient.read, s'.toClient.read, s.toClient.frames);
      } else {
        SwitchingKeepsGates(cfg, c, a, s.toClient.read, s'.toClient.read, s.toClient.frames);
      }
    }
  }

  // ----- The environment

  lemma LinkDropKeepsGates(cfg: Config, s: State, i: nat, j: nat)
    requires cfg.Valid() && Inv(cfg, s) && GateInv(cfg, s)
    ensures GateInv(cfg, DropLink(s, i, j))
  {
    hide UpFrames, DownFrames, ServerMessage, ReplyMatches, SameIdentities, MessageAt, ClientMessage, ServerGates,
      AllGates, ClientGates;
    CutKeepsFrames(s.toClient, j);
    ClientGatesSeeSameReply(cfg, s.client, s.toClient.read, s.toClient.frames, s.toClient.Cut(j).frames);
  }

  lemma DeadNodesKeepGates(cfg: Config, c: Client, v: Server, read: nat, down: seq<Frame>)
    ensures ClientGates(cfg, c, read, down) && !c.pc.CDone? ==> ClientGates(cfg, c.(pc := CDone(Crashed)), read, down)
    ensures ServerGates(cfg, v) ==> ServerGates(cfg, v.(pc := SDone(ServerCrashed)))
    ensures AllGates(cfg, v.(pc := SDone(ServerCrashed))) == AllGates(cfg, v)
  {
    hide MessageAt, GossipShows, HooksHeld, BaseMessage, SameVersion;
  }

  lemma TowersKeepGates(cfg: Config, c: Client, v: Server, read: nat, down: seq<Frame>, tower: seq<byte>)
    ensures ClientGates(cfg, c.(tower := tower), read, down) == ClientGates(cfg, c, read, down)
    ensures ServerGates(cfg, v.(tower := Some(tower))) == ServerGates(cfg, v)
    ensures AllGates(cfg, v.(tower := Some(tower))) == AllGates(cfg, v)
  {
    hide MessageAt, GossipShows, HooksHeld, BaseMessage, SameVersion;
  }

  lemma DeathAndVotesKeepGates(cfg: Config, s: State, tower: seq<byte>)
    requires GateInv(cfg, s)
    ensures GateInv(cfg, KillClient(s)) && GateInv(cfg, KillServer(s))
    ensures GateInv(cfg, VoteOnClient(s, tower)) && GateInv(cfg, VoteOnServer(s, tower))
  {
    hide MessageAt, ClientGates, ServerGates, AllGates;
    DeadNodesKeepGates(cfg, s.client, s.server, s.toClient.read, s.toClient.frames);
    TowersKeepGates(cfg, s.client, s.server, s.toClient.read, s.toClient.frames, tower);
  }
}

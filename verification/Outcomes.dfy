/**
 How runs end when no message is lost, no node dies and no command or file of the hand-over fails
 except, possibly, the server's set-identity command.
 */
module Outcomes {
  import opened Wrappers
  import opened Words
  import opened Messages
  import opened Protocol
  import opened ProtocolInvariant
  import opened Flow
  import opened Roles
  import opened Agreement
  import opened Gates

  /** Nothing was lost on the way: the faults that can leave both nodes passive, less the one the
      rollback is for. */
  predicate Lossless(faults: set<Fault>) {
    && OpeningSendFault !in faults && TowerSendFault !in faults && VersionSendFault !in faults
    && ReplySendFault !in faults && VerdictSendFault !in faults && LinkFault !in faults && CrashFault !in faults
    && ClientCommandFault !in faults && TowerReadFault !in faults && TowerWriteFault !in faults
  }

  /** One of the checks on either node came out against the failover. */
  predicate StopsFailover(faults: set<Fault>) {
    || WaitFault in faults || HookFault in faults || GossipFault in faults || DeclinedFault in faults
    || SampleFault in faults || PrepareFault in faults
  }

  /** Something stops the failover before the client gives up its identity. */
  predicate Stopped(cfg: Config, faults: set<Fault>) {
    !cfg.Compatible() || StopsFailover(faults)
  }

  /** What a failed check leads to. */
  predicate Halted(c: ClientPc, v: ServerPc) {
    || v.SReject? || (v.SDone? && v.outcome.Rejected?)
    || (c.CDone? && (c.outcome.WaitFailed? || c.outcome.PreHookFailed? || c.outcome.SlotFailed?))
  }

  ghost predicate ClientEnd(
      cfg: Config, c: Client, sent: nat, down: seq<Frame>, vpc: ServerPc, stopped: bool, unmade: bool) {
    && (!c.wentPassive ==> c.active)
    && (c.pc.CDone? && !c.wentPassive ==> sent == 2 && stopped)
    && (c.pc.CDone? && c.wentPassive ==>
          && sent == (if cfg.skipTowerSync then 2 else 3)
          && (!cfg.dryRun && !(c.pc.outcome.RolledBack? && unmade) ==>
                c.active == (c.pc.outcome.RolledBack? && cfg.toActiveCmd != ""))
          && (match c.pc.outcome
              case Completed => |down| == 3 && Verdict(down).isSuccessfullyCompleted
              case RolledBack => |down| == 3 && Verdict(down).rollbackRequired
              case ConnectionLost => EndsAs(vpc, ActivationFailed)
              case _ => false))
  }

  ghost predicate ServerEnd(
      cfg: Config, v: Server, failed: bool, undone: bool, down: seq<Frame>, cpc: ClientPc, stopped: bool) {
    && (v.pc.SReject? ==> stopped)
    && (|down| >= 2 && !Reply(down).canProceed ==> stopped)
    && (v.pc.SRollback? ==> |down| == 3)
    && (v.pc.SDone? ==>
          match v.pc.outcome
          case Activated => |down| == 3 && v.activated
          case ActivationFailed => |down| == 2 && failed && !cfg.serverRollback
          case ActivationUndone =>
            |down| == 3 && failed && cfg.serverRollback && (v.active ==> cfg.toPassiveCmd == "" || undone)
          case OtherWire => stopped && |down| == 0
          case Rejected(_) => stopped && |down| == 2 && !Reply(down).canProceed
          case NoTower => stopped && |down| == 2 && cpc.CDone?
          case _ => false)
  }

  ghost predicate EndInv(cfg: Config, s: State) {
    Lossless(s.faults) ==>
      && s.linkUp
      && (StopsFailover(s.faults) ==> Halted(s.client.pc, s.server.pc))
      && ClientEnd(cfg, s.client, |s.toServer.frames|, s.toClient.frames, s.server.pc, Stopped(cfg, s.faults), ToActiveFault in s.faults)
      && ServerEnd(cfg, s.server, ServerCommandFault in s.faults, ToPassiveFault in s.faults, s.toClient.frames, s.client.pc,
                   Stopped(cfg, s.faults))
  }

  // ----- The client

  /** What a frame that arrives is, or why none does. */
  ghost predicate ClientHears(cfg: Config, c: Client, a: ClientAction, read: nat, down: seq<Frame>, vpc: ServerPc) {
    a.ClientReceive? && ClientReads(c.pc) ==>
      && read == ClientRead(c.pc)
      && (a.frame.Some? ==> read < |down| && down[read] == a.frame.value)
      && (a.frame.None? ==> vpc.SDone? && read >= |down|)
  }

  ghost predicate ClientUnderstands(cfg: Config, c: Client, a: ClientAction, next: Client, down: seq<Frame>) {
    && (c.pc.CAwaitSignal? && a.ClientReceive? && a.frame.Some? ==>
          next.msg.canProceed == Reply(down).canProceed && next.msg.passiveNodeInfo.failoverVersion == cfg.serverVersion)
    && (c.pc.CAwaitOutcome? && a.ClientReceive? && a.frame.Some? && a.frame.value.Gob? ==>
          && next.msg.rollbackRequired == a.frame.value.message.rollbackRequired
          && next.msg.isSuccessfullyCompleted == a.frame.value.message.isSuccessfullyCompleted)
  }

  /** What the stream holds for the client. */
  ghost predicate ClientFrames(cfg: Config, down: seq<Frame>) {
    && |down| <= 3
    && (|down| >= 1 ==> down[0] == Version(cfg.serverWire))
    && (|down| >= 2 ==> down[1].Gob?)
    && (|down| >= 3 ==>
          && down[2].Gob?
          && (Verdict(down).isSuccessfullyCompleted <==> !Verdict(down).rollbackRequired)
          && (Verdict(down).rollbackRequired ==> cfg.serverRollback))
  }

  lemma ReadingClientEnds(
      cfg: Config, c: Client, a: ClientAction, sent: nat, read: nat, down: seq<Frame>, v: Server, failed: bool, undone: bool,
      stopped: bool, unmade: bool)
    requires ClientReads(c.pc) && (!cfg.Compatible() ==> stopped)
    requires ClientStep(cfg, c, a).ClientMoved? && ClientEdge(cfg, c, a, ClientStep(cfg, c, a))
    requires ClientEnd(cfg, c, sent, down, v.pc, stopped, unmade)
    requires ServerEnd(cfg, v, failed, undone, down, c.pc, stopped) && ClientFrames(cfg, down)
    requires ClientHears(cfg, c, a, read, down, v.pc) && ClientUnderstands(cfg, c, a, ClientStep(cfg, c, a).next, down)
    requires if AfterSwitch(c.pc) then
               && c.wentPassive && (cfg.dryRun || !c.active) && sent == (if cfg.skipTowerSync then 2 else 3)
               && |down| >= 2 && Reply(down).canProceed && cfg.clientRollback == cfg.serverRollback
             else sent == 2 && !c.wentPassive
    ensures ClientEnd(cfg, ClientStep(cfg, c, a).next, sent, down, v.pc, stopped, unmade)
  {
    hide ClientStep;
  }

  lemma ActingClientEnds(
      cfg: Config, c: Client, a: ClientAction, sent: nat, sent': nat, down: seq<Frame>, vpc: ServerPc, stopped: bool, unmade: bool)
    requires !ClientReads(c.pc)
    requires ClientStep(cfg, c, a).ClientMoved? && ClientEdge(cfg, c, a, ClientStep(cfg, c, a))
    requires Lossless(ClientStep(cfg, c, a).faults)
    requires ClientEnd(cfg, c, sent, down, vpc, stopped, unmade)
    requires c.pc.CLeaderWait? || c.pc.CPreHooks? || c.pc.CNextSlot? ==> sent' == 2 && !c.wentPassive
    requires c.pc.CRollback? ==>
               && c.wentPassive && (cfg.dryRun || !c.active) && sent' == (if cfg.skipTowerSync then 2 else 3)
               && |down| == 3 && Verdict(down).rollbackRequired && c.msg.isDryRunFailover == cfg.dryRun
    ensures var r := ClientStep(cfg, c, a);
            ClientEnd(cfg, r.next, sent', down, vpc, stopped || WaitFault in r.faults || HookFault in r.faults,
                      unmade || ToActiveFault in r.faults)
  {
    hide ClientStep, MessageAt;
  }

  lemma InvMakesClientFrames(cfg: Config, s: State)
    requires Inv(cfg, s) && RoleInv(cfg, s)
    ensures ClientFrames(cfg, s.toClient.frames)
  {
    hide ServerMessage, ClientMessage, ReplyMatches, SameIdentities, ReplyFrame, UpFrames, ClientRoles, ServerRoles,
      BeforeServer;
  }

  lemma DecodedNext(cfg: Config, c: Client, a: ClientAction)
    requires (c.pc.CAwaitSignal? || c.pc.CAwaitOutcome?) && a.ClientReceive? && a.frame.Some? && a.frame.value.Gob?
    ensures var r := ClientStep(cfg, c, a); r.ClientMoved? && r.next.msg == ClientDecodes(c, a.frame.value.message).msg
  {
    hide ClientDecodes, SameVersion;
  }

  lemma ClientUnderstandsFrame(cfg: Config, s: State, a: ClientAction)
    requires cfg.Valid() && Inv(cfg, s) && ClientReady(s, a) && ClientStep(cfg, s.client, a).ClientMoved?
    ensures ClientUnderstands(cfg, s.client, a, ClientStep(cfg, s.client, a).next, s.toClient.frames)
  {
    hide Inv, ClientReady, ClientStep, ClientDecodes, Reply, Verdict;
    if s.client.pc.CAwaitSignal? && a.ClientReceive? && a.frame.Some? {
      ClientHearsReply(cfg, s, a);
      DecodedNext(cfg, s.client, a);
    } else if s.client.pc.CAwaitOutcome? && a.ClientReceive? && a.frame.Some? {
      ClientHearsVerdict(cfg, s, a);
      DecodedNext(cfg, s.client, a);
    }
  }

  /** The go-ahead implies equal rollback flags. */
  lemma SwitchedWithGates(cfg: Config, s: State)
    requires Inv(cfg, s) && GateInv(cfg, s)
    requires AfterSwitch(s.client.pc)
    ensures |s.toClient.frames| >= 2 && Reply(s.toClient.frames).canProceed && cfg.clientRollback == cfg.serverRollback
  {
    hide ServerMessage, ClientMessage, ReplyMatches, SameIdentities, ReplyFrame, UpFrames, DownFrames, GossipShows,
      SameVersion, BaseMessage, HooksDone, MessageAt, ServerGates;
  }

  lemma ServerEndSeesClientMove(
      cfg: Config, v: Server, failed: bool, undone: bool, down: seq<Frame>, cpc: ClientPc, cpc': ClientPc, stopped: bool, stopped': bool)
    requires ServerEnd(cfg, v, failed, undone, down, cpc, stopped) && !cpc.CDone? && (stopped ==> stopped')
    ensures ServerEnd(cfg, v, failed, undone, down, cpc', stopped')
  {
    hide MessageAt;
  }

  lemma FaultsAdd(cfg: Config, faults: set<Fault>, more: set<Fault>)
    ensures Stopped(cfg, faults + more) == (Stopped(cfg, faults) || StopsFailover(more))
    ensures StopsFailover(faults + more) == (StopsFailover(faults) || StopsFailover(more))
    ensures Lossless(faults + more) == (Lossless(faults) && Lossless(more))
  {
  }

  lemma ReadingClientKeepsEnd(cfg: Config, s: State, a: ClientAction)
    requires cfg.Valid() && Inv(cfg, s) && RoleInv(cfg, s) && GateInv(cfg, s)
    requires Lossless(s.faults) && EndInv(cfg, s)
    requires ClientReady(s, a) && ClientStep(cfg, s.client, a).ClientMoved? && ClientReads(s.client.pc)
    ensures ClientEnd(cfg, ClientStep(cfg, s.client, a).next, |s.toServer.frames|, s.toClient.frames, s.server.pc,
                      Stopped(cfg, s.faults), ToActiveFault in s.faults)
    ensures ClientStep(cfg, s.client, a).faults == {} && ClientStep(cfg, s.client, a).sent.None?
  {
    hide UpFrames, DownFrames, ServerMessage, ReplyMatches, SameIdentities, MessageAt, ClientStep, ServerRoles,
      Lossless, ClientEnd, ServerEnd, ClientFrames, ClientEdge, ClientUnderstands, FreshMessage, OwnRequest, ClientAdds,
      ClientProgress, VerdictRoles, ServerGates, AllGates;
    var c := s.client;
    ClientFollowsEdge(cfg, c, a);
    ClientWritesAndFaults(cfg, c, a);
    InvMakesClientFrames(cfg, s);
    ClientUnderstandsFrame(cfg, s, a);
    if AfterSwitch(c.pc) {
      SwitchedWithGates(cfg, s);
    }
    ReadingClientAddsNoFault(cfg, c, a);
    ReadingClientEnds(cfg, c, a, |s.toServer.frames|, s.toClient.read, s.toClient.frames, s.server, ServerCommandFault in s.faults,
                      ToPassiveFault in s.faults, Stopped(cfg, s.faults), ToActiveFault in s.faults);
  }

  lemma ActingClientKeepsEnd(cfg: Config, s: State, a: ClientAction)
    requires cfg.Valid() && Inv(cfg, s) && RoleInv(cfg, s) && GateInv(cfg, s)
    requires ClientStep(cfg, s.client, a).ClientMoved? && !ClientReads(s.client.pc)
    requires Lossless(s.faults) && EndInv(cfg, s) && Lossless(ClientStep(cfg, s.client, a).faults)
    ensures var r := ClientStep(cfg, s.client, a);
            ClientEnd(cfg, r.next, |s.toServer.Append(r.sent, s.linkUp).frames|, s.toClient.frames, s.server.pc,
                      Stopped(cfg, s.faults) || StopsFailover(r.faults), ToActiveFault in s.faults || ToActiveFault in r.faults)
  {
    hide UpFrames, DownFrames, ServerMessage, ReplyMatches, SameIdentities, MessageAt, ClientStep, ServerRoles,
      Lossless, Stopped, ClientEnd, ServerEnd, ClientEdge, FreshMessage, OwnRequest, ClientAdds, ClientProgress,
      VerdictRoles, ServerGates, AllGates;
    var c, r := s.client, ClientStep(cfg, s.client, a);
    ClientFollowsEdge(cfg, c, a);
    ClientWritesAndFaults(cfg, c, a);
    ActingClientFaults(cfg, c, a);
    ActingClientEnds(cfg, c, a, |s.toServer.frames|, |s.toServer.Append(r.sent, s.linkUp).frames|, s.toClient.frames, s.server.pc,
                     Stopped(cfg, s.faults), ToActiveFault in s.faults);
  }

  lemma ClientActionKeepsEnd(cfg: Config, s: State, a: ClientAction)
    requires cfg.Valid() && Inv(cfg, s) && RoleInv(cfg, s) && GateInv(cfg, s) && EndInv(cfg, s)
    ensures EndInv(cfg, ClientEvent(cfg, s, a))
  {
    hide Inv, RoleInv, GateInv, MessageAt, ClientStep, ClientEnd, ServerEnd, Lossless, Stopped, StopsFailover;
    var c, r, s' := s.client, ClientStep(cfg, s.client, a), ClientEvent(cfg, s, a);
    if ClientReady(s, a) && r.ClientMoved? && Lossless(s'.faults) {
      FaultsAdd(cfg, s.faults, r.faults);
      ClientWritesAndFaults(cfg, c, a);
      if ClientReads(c.pc) {
        ReadingClientKeepsEnd(cfg, s, a);
        assert s.faults + {} == s.faults;
      } else {
        ActingClientKeepsEnd(cfg, s, a);
      }
      if StopsFailover(s'.faults) {
        ClientHalts(cfg, c, a, s.server.pc);
      }
      ServerEndSeesClientMove(cfg, s.server, ServerCommandFault in s.faults, ToPassiveFault in s.faults, s.toClient.frames, c.pc,
                              r.next.pc, Stopped(cfg, s.faults), Stopped(cfg, s'.faults));
    }
  }

  lemma ClientHalts(cfg: Config, c: Client, a: ClientAction, vpc: ServerPc)
    requires ClientStep(cfg, c, a).ClientMoved? && (Halted(c.pc, vpc) || StopsFailover(ClientStep(cfg, c, a).faults))
    ensures Halted(ClientStep(cfg, c, a).next.pc, vpc)
  {
    ClientFollowsEdge(cfg, c, a);
    hide ClientStep, SameVersion;
  }

  lemma ReadingClientAddsNoFault(cfg: Config, c: Client, a: ClientAction)
    requires ClientReads(c.pc)
    requires ClientStep(cfg, c, a).ClientMoved? && ClientEdge(cfg, c, a, ClientStep(cfg, c, a))
    ensures ClientStep(cfg, c, a).faults == {}
  {
    hide ClientStep, SameVersion;
  }

  lemma ActingClientFaults(cfg: Config, c: Client, a: ClientAction)
    requires !ClientReads(c.pc)
    requires ClientStep(cfg, c, a).ClientMoved? && ClientEdge(cfg, c, a, ClientStep(cfg, c, a))
    ensures var f := ClientStep(cfg, c, a).faults;
            GossipFault !in f && DeclinedFault !in f && SampleFault !in f && PrepareFault !in f
  {
    hide ClientStep;
  }

  // ----- The server

  /** What a frame that arrives is, or why none does. */
  ghost predicate ServerHears(cfg: Config, v: Server, a: ServerAction, r: ServerResult, cpc: ClientPc, stopped: bool)
    requires r.ServerMoved?
  {
    && (v.pc.SAwaitVersion? && a.ServerReceive? ==> a.frame == Some(Version(cfg.clientWire)))
    && (v.pc.SAwaitRequest? && a.ServerReceive? ==> a.frame.Some? && a.frame.value.Gob?)
    && (v.pc.SAwaitTower? && a.ServerReceive? ==>
          if a.frame.Some? then a.frame.value.Gob? && r.next.pc.SWriteTower? else cpc.CDone? && stopped)
    && (v.pc.SSendVersion? || v.pc.SGossip? ==> HearsClient(cfg, v.msg))
  }

  lemma CheckingServerEnds(
      cfg: Config, v: Server, a: ServerAction, failed: bool, undone: bool, down: Channel, cpc: ClientPc, stopped: bool)
    requires Checking(v.pc) && (!cfg.Compatible() ==> stopped)
    requires ServerStep(cfg, v, a).ServerMoved? && ServerCheckEdge(cfg, v, a, ServerStep(cfg, v, a))
    requires Lossless(ServerStep(cfg, v, a).faults) && ServerHears(cfg, v, a, ServerStep(cfg, v, a), cpc, stopped)
    requires ServerEnd(cfg, v, failed, undone, down.frames, cpc, stopped) && |down.frames| == ServerSent(v.pc)
    requires v.pc.SReject? ==> !v.msg.canProceed
    ensures var r := ServerStep(cfg, v, a);
            ServerEnd(cfg, r.next, failed, undone, down.Append(r.sent, true).frames, cpc, stopped || StopsFailover(r.faults))
  {
    hide ServerStep, GossipShows, HookRan, SameChecks;
  }

  /** The server's ending, or its way there, after a step past the go-ahead. */
  ghost predicate EndsOn(cfg: Config, r: ServerResult, failed: bool, undone: bool, down: Channel, cpc: ClientPc, stopped: bool)
    requires r.ServerMoved?
  {
    && ServerEnd(cfg, r.next, failed || ServerCommandFault in r.faults, undone || ToPassiveFault in r.faults,
                 down.Append(r.sent, true).frames, cpc, stopped)
    && !StopsFailover(r.faults)
  }

  lemma ReceivingServerEnds(
      cfg: Config, v: Server, a: ServerAction, r: ServerResult, failed: bool, lied: bool, undone: bool, read: nat,
      down: Channel, cpc: ClientPc, stopped: bool)
    requires v.pc.SSendProceed? || v.pc.SAwaitTower? || v.pc.SWriteTower?
    requires r.ServerMoved? && ServerFinishEdge(cfg, v, a, r)
    requires Lossless(r.faults) && ServerHears(cfg, v, a, r, cpc, stopped)
    requires ServerEnd(cfg, v, failed, undone, down.frames, cpc, stopped) && ServerRoles(cfg, v, failed, lied, read)
    requires v.pc.SRollback? || |down.frames| == ServerSent(v.pc)
    requires v.pc.SSendProceed? ==> v.msg.canProceed
    ensures EndsOn(cfg, r, failed, undone, down, cpc, stopped)
  {
    hide SameChecks;
  }

  lemma SwitchingServerEnds(
      cfg: Config, v: Server, a: ServerAction, r: ServerResult, failed: bool, lied: bool, undone: bool, read: nat,
      down: Channel, cpc: ClientPc, stopped: bool)
    requires v.pc.SSetActive? || v.pc.SEndSlot?
    requires r.ServerMoved? && ServerFinishEdge(cfg, v, a, r)
    requires Lossless(r.faults) && ServerHears(cfg, v, a, r, cpc, stopped)
    requires ServerEnd(cfg, v, failed, undone, down.frames, cpc, stopped) && ServerRoles(cfg, v, failed, lied, read)
    requires |down.frames| == ServerSent(v.pc)
    ensures EndsOn(cfg, r, failed, undone, down, cpc, stopped)
  {
    hide SameChecks;
  }

  lemma ClosingServerEnds(
      cfg: Config, v: Server, a: ServerAction, r: ServerResult, failed: bool, lied: bool, undone: bool, read: nat,
      down: Channel, cpc: ClientPc, stopped: bool)
    requires v.pc.SSendDone? || v.pc.SSendRollback?
    requires r.ServerMoved? && ServerFinishEdge(cfg, v, a, r)
    requires Lossless(r.faults) && ServerHears(cfg, v, a, r, cpc, stopped)
    requires ServerEnd(cfg, v, failed, undone, down.frames, cpc, stopped) && ServerRoles(cfg, v, failed, lied, read)
    requires |down.frames| == ServerSent(v.pc)
    ensures EndsOn(cfg, r, failed, undone, down, cpc, stopped)
  {
    hide SameChecks;
  }

  lemma RevertingServerEnds(
      cfg: Config, v: Server, a: ServerAction, r: ServerResult, failed: bool, lied: bool, undone: bool, read: nat,
      down: Channel, cpc: ClientPc, stopped: bool)
    requires v.pc.SRollback?
    requires r.ServerMoved? && ServerFinishEdge(cfg, v, a, r)
    requires Lossless(r.faults) && ServerHears(cfg, v, a, r, cpc, stopped)
    requires ServerEnd(cfg, v, failed, undone, down.frames, cpc, stopped) && ServerRoles(cfg, v, failed, lied, read)
    ensures EndsOn(cfg, r, failed, undone, down, cpc, stopped)
  {
    hide SameChecks;
  }

  lemma FinishingServerEnds(
      cfg: Config, v: Server, a: ServerAction, failed: bool, lied: bool, undone: bool, read: nat, down: Channel, cpc: ClientPc,
      stopped: bool)
    requires !Checking(v.pc) && !v.pc.SDone?
    requires ServerStep(cfg, v, a).ServerMoved? && ServerFinishEdge(cfg, v, a, ServerStep(cfg, v, a))
    requires Lossless(ServerStep(cfg, v, a).faults) && ServerHears(cfg, v, a, ServerStep(cfg, v, a), cpc, stopped)
    requires ServerEnd(cfg, v, failed, undone, down.frames, cpc, stopped) && ServerRoles(cfg, v, failed, lied, read)
    requires v.pc.SRollback? || |down.frames| == ServerSent(v.pc)
    requires v.pc.SSendProceed? ==> v.msg.canProceed
    ensures EndsOn(cfg, ServerStep(cfg, v, a), failed, undone, down, cpc, stopped)
  {
    var r := ServerStep(cfg, v, a);
    hide ServerStep, ServerFinishEdge, ServerHears, ServerEnd, ServerRoles, EndsOn, Lossless;
    if v.pc.SSendProceed? || v.pc.SAwaitTower? || v.pc.SWriteTower? {
      ReceivingServerEnds(cfg, v, a, r, failed, lied, undone, read, down, cpc, stopped);
    } else if v.pc.SSetActive? || v.pc.SEndSlot? {
      SwitchingServerEnds(cfg, v, a, r, failed, lied, undone, read, down, cpc, stopped);
    } else if v.pc.SRollback? {
      RevertingServerEnds(cfg, v, a, r, failed, lied, undone, read, down, cpc, stopped);
    } else {
      ClosingServerEnds(cfg, v, a, r, failed, lied, undone, read, down, cpc, stopped);
    }
  }

  lemma TowerStepReceives(cfg: Config, v: Server, a: ServerAction)
    requires v.pc.SAwaitTower? && a.ServerReceive? && a.frame.Some? && a.frame.value.Gob?
    ensures ServerStep(cfg, v, a) == ServerReceivesTower(cfg, v, a.frame.value.message)
  {
    hide ServerReceivesTower;
  }

  lemma ServerHearsWell(cfg: Config, s: State, a: ServerAction)
    requires cfg.Valid() && Inv(cfg, s) && s.linkUp && ServerReady(s, a) && ServerStep(cfg, s.server, a).ServerMoved?
    requires ClientEnd(
      cfg, s.client, |s.toServer.frames|, s.toClient.frames, s.server.pc, Stopped(cfg, s.faults), ToActiveFault in s.faults)
    ensures ServerHears(cfg, s.server, a, ServerStep(cfg, s.server, a), s.client.pc, Stopped(cfg, s.faults))
  {
    hide DownFrames, ClientMessage, ReplyMatches, SameIdentities, TowerFrame, Encode, RequestOf, HearsClient, Stopped,
      FinishingMessage, BaseMessage, GoAheadMessage, RejectMessage, FreshMessage, SentRequest, ServerStep,
      ServerReceivesTower;
    var v := s.server;
    if v.pc.SSendVersion? || v.pc.SGossip? {
      ServerHearsClient(cfg, v.msg);
    } else if v.pc.SAwaitTower? && a.ServerReceive? && a.frame.Some? {
      ServerHearsTower(cfg, s, a);
      TowerStepReceives(cfg, v, a);
    }
  }

  /** An ended client has seen all it will: the server still running has nothing more to tell it. */
  lemma ClientEndStays(
      cfg: Config, c: Client, sent: nat, down: seq<Frame>, vpc: ServerPc, down': seq<Frame>, vpc': ServerPc, stopped: bool,
      stopped': bool, unmade: bool)
    requires ClientEnd(cfg, c, sent, down, vpc, stopped, unmade) && !vpc.SDone? && (stopped ==> stopped')
    requires |down| <= |down'| <= 3 && forall i :: 0 <= i < |down| ==> down'[i] == down[i]
    ensures ClientEnd(cfg, c, sent, down', vpc', stopped', unmade)
  {
    hide MessageAt;
    if |down| == 3 {
      assert down' == down;
    }
  }

  lemma ServerActionKeepsEnd(cfg: Config, s: State, a: ServerAction)
    requires cfg.Valid() && Inv(cfg, s) && RoleInv(cfg, s) && EndInv(cfg, s) && Inv(cfg, ServerEvent(cfg, s, a))
    ensures EndInv(cfg, ServerEvent(cfg, s, a))
  {
    hide UpFrames, DownFrames, ClientMessage, ServerMessage, ReplyMatches, SameIdentities, MessageAt, ServerStep,
      ClientRoles, ServerRoles, ClientEnd, ServerEnd, ServerCheckEdge, ServerFinishEdge, VerdictRoles, ServerHears,
      Lossless, Stopped, StopsFailover;
    var v, r, s' := s.server, ServerStep(cfg, s.server, a), ServerEvent(cfg, s, a);
    if ServerReady(s, a) && r.ServerMoved? && Lossless(s'.faults) {
      var failed, undone := ServerCommandFault in s.faults, ToPassiveFault in s.faults;
      FaultsAdd(cfg, s.faults, r.faults);
      ServerFollowsEdge(cfg, v, a);
      ServerHearsWell(cfg, s, a);
      ServerMessageAllows(cfg, v.pc, v.msg, Tower(s.toServer.frames));
      ServerFaults(cfg, v, a);
      if Checking(v.pc) {
        IncompatibleStops(cfg, s.faults);
        CheckingServerEnds(cfg, v, a, failed, undone, s.toClient, s.client.pc, Stopped(cfg, s.faults));
      } else {
        FinishingServerEnds(cfg, v, a, failed, ServerCommandLied in s.faults, undone, s.toServer.read, s.toClient, s.client.pc,
                            Stopped(cfg, s.faults));
      }
      if StopsFailover(s'.faults) {
        ServerHalts(cfg, v, a, s.client.pc);
      }
      ClientEndStays(cfg, s.client, |s.toServer.frames|, s.toClient.frames, v.pc, s'.toClient.frames, s'.server.pc,
                     Stopped(cfg, s.faults), Stopped(cfg, s'.faults), ToActiveFault in s.faults);
    }
  }

  lemma ServerHalts(cfg: Config, v: Server, a: ServerAction, cpc: ClientPc)
    requires ServerStep(cfg, v, a).ServerMoved? && ServerEdge(cfg, v, a, ServerStep(cfg, v, a))
    requires Halted(cpc, v.pc) || StopsFailover(ServerStep(cfg, v, a).faults)
    ensures Halted(cpc, ServerStep(cfg, v, a).next.pc)
  {
    hide ServerStep, GossipShows, HookRan, SameChecks, SameVersion, SameRoles;
  }

  lemma IncompatibleStops(cfg: Config, faults: set<Fault>)
    ensures !cfg.Compatible() ==> Stopped(cfg, faults)
  {
  }

  lemma ServerFaults(cfg: Config, v: Server, a: ServerAction)
    requires ServerStep(cfg, v, a).ServerMoved? && ServerEdge(cfg, v, a, ServerStep(cfg, v, a))
    ensures ToActiveFault !in ServerStep(cfg, v, a).faults
    ensures Checking(v.pc) ==> ServerCommandFault !in ServerStep(cfg, v, a).faults && ToPassiveFault !in ServerStep(cfg, v, a).faults
  {
    hide ServerStep, GossipShows, HookRan, SameChecks, SameVersion;
  }

  lemma ServerMessageAllows(cfg: Config, pc: ServerPc, m: Message, tower: Message)
    requires ServerMessage(cfg, pc, m, tower)
    ensures pc.SSendProceed? ==> m.canProceed
    ensures pc.SReject? ==> !m.canProceed
  {
  }

  // ----- The environment

  lemma EnvironmentKeepsEnd(cfg: Config, s: State, i: nat, j: nat, tower: seq<byte>)
    requires EndInv(cfg, s) && RoleInv(cfg, s)
    ensures EndInv(cfg, DropLink(s, i, j)) && EndInv(cfg, KillClient(s)) && EndInv(cfg, KillServer(s))
    ensures EndInv(cfg, VoteOnClient(s, tower)) && EndInv(cfg, VoteOnServer(s, tower))
  {
    hide MessageAt, ClientRoles, ServerRoles, VerdictRoles, Stopped;
    assert LinkFault in DropLink(s, i, j).faults;
    assert KillClient(s) == s || CrashFault in KillClient(s).faults;
    assert KillServer(s) == s || CrashFault in KillServer(s).faults;
  }
}

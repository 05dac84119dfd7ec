/**
 What holds in every reachable state of the two nodes, under every interleaving, command failure,
 lost message and dead process.
 */
module Safety {
  import opened Wrappers
  import opened Messages
  import opened Protocol
  import opened ProtocolInvariant
  import opened Flow
  import opened Roles
  import opened Gates
  import opened Towers
  import opened Outcomes
  import opened ProtocolRuns
  import opened Agreement
  import Samples

  predicate BothActive(s: State) {
    s.client.active && s.server.active
  }

  /** With tower sync the two nodes hold the active identity together only while a server's failed
      command that nevertheless took effect is being rolled back on both nodes. */
  lemma MutualExclusion(cfg: Config, s: State)
    requires cfg.Valid() && Reachable(cfg, s) && !cfg.skipTowerSync
    requires BothActive(s)
    ensures ServerCommandLied in s.faults && cfg.serverRollback && cfg.clientRollback && cfg.toActiveCmd != "" && !cfg.dryRun
  {
    hide Inv, GateInv, TowerInv, EndInv, Reachable, MessageAt;
    ReachableGood(cfg, s);
    ReadsAreWritten(cfg, s);
  }

  /** Neither node has read more than the other has written. */
  lemma ReadsAreWritten(cfg: Config, s: State)
    requires Inv(cfg, s)
    ensures s.toServer.read <= |s.toServer.frames| && s.toClient.read <= |s.toClient.frames|
  {
    hide UpFrames, DownFrames, ServerMessage, ClientMessage, ReplyMatches, SameIdentities;
  }

  /** If the client takes its identity back, or sets out to, the server's command reported an error,
      the server is not the active node, and both nodes have rollback enabled. */
  lemma RollbackOnlyOnSignal(cfg: Config, s: State)
    requires cfg.Valid() && Reachable(cfg, s)
    requires s.client.pc.CRollback? || Leaves(s.client.pc, RolledBack) || (s.client.wentPassive && s.client.active && !cfg.dryRun)
    ensures ServerCommandFault in s.faults && !s.server.activated
    ensures cfg.clientRollback && cfg.serverRollback
    ensures s.server.active ==> ServerCommandLied in s.faults
    ensures s.client.active && s.client.wentPassive && !cfg.dryRun ==> cfg.toActiveCmd != ""
  {
    hide TowerInv, EndInv, Reachable, MessageAt, UpFrames, DownFrames, ServerMessage, ClientMessage, ReplyMatches,
      SameIdentities, ServerGates, ClientGates, GossipShows, HooksDone, BaseMessage, SameVersion, VerdictFrame;
    ReachableGood(cfg, s);
    VerdictAfterGoAhead(cfg, s);
  }

  lemma VerdictAfterGoAhead(cfg: Config, s: State)
    requires Inv(cfg, s) && |s.toClient.frames| >= 3
    ensures Reply(s.toClient.frames).canProceed
  {
    hide UpFrames, ServerMessage, ClientMessage, ReplyMatches, SameIdentities, ReplyFrame, VerdictFrame;
  }

  lemma DryRunRoles(cfg: Config, s: State)
    requires RoleInv(cfg, s) && cfg.dryRun
    ensures s.client.active && !s.server.active && ServerCommandFault !in s.faults
    ensures |s.toClient.frames| >= 3 ==> !Verdict(s.toClient.frames).rollbackRequired
  {
    hide MessageAt;
  }

  /** In a dry run neither identity ever changes, no rollback is ever called for, and once the
      client has the go-ahead it goes by the server's flag. */
  lemma DryRunChangesNothing(cfg: Config, s: State)
    requires cfg.Valid() && Reachable(cfg, s)
    requires cfg.dryRun
    ensures s.client.active && !s.server.active
    ensures ServerCommandFault !in s.faults
    ensures forall i: nat :: i < |s.toClient.frames| && s.toClient.frames[i].Gob? ==> !s.toClient.frames[i].message.rollbackRequired
    ensures Told(s.client.pc) || s.client.pc.CRollback? ==> s.client.msg.isDryRunFailover
  {
    ReachableGood(cfg, s);
    hide Good, Inv, RoleInv, Reachable, Told, Reply, Verdict;
    GoodHasInv(cfg, s);
    DryRunRoles(cfg, s);
    RepliesDontRollBack(cfg, s);
    NoFrameRollsBack(s.toClient.frames);
    if Told(s.client.pc) || s.client.pc.CRollback? {
      ClientKnowsMode(cfg, s);
    }
  }

  lemma NoFrameRollsBack(down: seq<Frame>)
    requires |down| <= 3 && (|down| >= 1 ==> down[0].Version?)
    requires |down| >= 2 ==> !Reply(down).rollbackRequired
    requires |down| >= 3 ==> !Verdict(down).rollbackRequired
    ensures forall i: nat :: i < |down| && down[i].Gob? ==> !down[i].message.rollbackRequired
  {
  }

  lemma RepliesDontRollBack(cfg: Config, s: State)
    requires Inv(cfg, s)
    ensures |s.toClient.frames| >= 1 ==> s.toClient.frames[0].Version?
    ensures |s.toClient.frames| >= 2 ==> !Reply(s.toClient.frames).rollbackRequired
    ensures |s.toClient.frames| <= 3
  {
    hide UpFrames, ServerMessage, ClientMessage, ReplyMatches, SameIdentities, VerdictFrame;
  }

  lemma SwitchReadTower(cfg: Config, s: State)
    requires Inv(cfg, s) && !cfg.skipTowerSync && s.server.pc.SSetActive?
    ensures s.toServer.read == 3 && |s.toServer.frames| >= 3
  {
    hide UpFrames, DownFrames, ServerMessage, ClientMessage, ReplyMatches, SameIdentities;
  }

  lemma SwitchFollowsClient(cfg: Config, s: State)
    requires RoleInv(cfg, s) && s.server.pc.SSetActive? && |s.toServer.frames| >= 3 && !cfg.dryRun
    requires s.toClient.read <= |s.toClient.frames|
    ensures !s.client.active && s.client.wentPassive && !s.server.active
  {
    hide MessageAt;
  }

  lemma TowersMeet(cfg: Config, s: State)
    requires TowerInv(cfg, s) && !cfg.skipTowerSync && !cfg.dryRun
    requires s.server.pc.SSetActive? && |s.toServer.frames| >= 3 && !s.client.active && !s.server.active
    ensures s.server.tower == Some(s.client.tower)
  {
    hide TowerBytes, MessageAt;
  }

  /** When the server is about to switch, the client no longer votes and the server's tower is the
      client's: the client's tower changes only while it is active, so no vote is missing. */
  lemma TowerHandedOver(cfg: Config, s: State)
    requires cfg.Valid() && Reachable(cfg, s)
    requires !cfg.skipTowerSync && !cfg.dryRun && s.server.pc.SSetActive?
    ensures !s.client.active && s.client.wentPassive && !s.server.active
    ensures s.server.tower == Some(s.client.tower)
  {
    ReachableGood(cfg, s);
    hide Inv, RoleInv, TowerInv, GateInv, EndInv, Reachable;
    ReadsAreWritten(cfg, s);
    SwitchReadTower(cfg, s);
    SwitchFollowsClient(cfg, s);
    TowersMeet(cfg, s);
  }

  /** The client's tower changes only while the client is active, whatever happens. */
  lemma TowerFrozenWhilePassive(cfg: Config, s: State, e: Event)
    requires !s.client.active
    ensures Step(cfg, s, e).client.tower == s.client.tower
  {
    hide ClientStep, ServerStep, CanReceive, SameVersion, HookRan;
    if e.ClientDoes? && ClientReady(s, e.ca) && ClientStep(cfg, s.client, e.ca).ClientMoved? {
      ClientFollowsEdge(cfg, s.client, e.ca);
    }
  }

  /** Hence every successful activation starts from the client's last tower. */
  lemma ActivationUsesHandedTower(cfg: Config, s: State, a: ServerAction)
    requires cfg.Valid() && Reachable(cfg, s)
    requires !cfg.skipTowerSync && !cfg.dryRun
    requires !s.server.activated && ServerEvent(cfg, s, a).server.activated
    ensures var s' := ServerEvent(cfg, s, a);
            s'.server.active && s'.server.tower == Some(s'.client.tower) && !s'.client.active
  {
    hide Reachable, Good, ServerStep, SameChecks, GossipShows, HookRan, SameVersion, CanReceive;
    ServerFollowsEdge(cfg, s.server, a);
    assert s.server.pc.SSetActive?;
    TowerHandedOver(cfg, s);
  }

  /** The go-ahead, the verdict and the message a completed server ends with hold the one sample the server
      took, as it was answered, under the client's active public key, and nothing else. */
  lemma SampleTravels(cfg: Config, s: State)
    requires cfg.Valid() && Reachable(cfg, s)
    ensures var down, sample := s.toClient.frames, s.server.checks.sampled;
            && (|down| >= 2 && Reply(down).canProceed ==>
                  sample.Some? && Reply(down).creditSamples == map[cfg.clientInfo.ActivePubKey() := [sample.value]])
            && (|down| >= 3 ==>
                  sample.Some? && Verdict(down).creditSamples == map[cfg.clientInfo.ActivePubKey() := [sample.value]])
            && (EndsAs(s.server.pc, Activated) ==>
                  sample.Some? && s.server.msg.creditSamples == map[cfg.clientInfo.ActivePubKey() := [sample.value]])
  {
    Samples.ReachableSamples(cfg, s);
    ReachableGood(cfg, s);
    hide Reachable, Good, Inv, MessageAt;
    GoodHasInv(cfg, s);
    if |s.toClient.frames| >= 3 {
      Samples.VerdictSamples(cfg, s);
    }
  }

  /** Once the client has run its set-identity command, every check on both nodes had passed: wire
      and program versions, gossip showing the client's own IP and active key, equal rollback flags,
      the operator's consent to a plan built from both configurations, the credit sample, the tower
      file, and every pre hook that must succeed. */
  lemma GateSafety(cfg: Config, s: State)
    requires cfg.Valid() && Reachable(cfg, s)
    ensures Attempted(s.client) ==>
              && AllGates(cfg, s.server) && HooksDone(cfg.preWhenActive, s.client.notes.hooksRun)
              && s.toClient.read >= 2 && Reply(s.toClient.frames).canProceed && s.server.checks.sampled.Some?
              && Reply(s.toClient.frames).creditSamples
                   == map[cfg.clientInfo.ActivePubKey() := [s.server.checks.sampled.value]]
    ensures s.server.active || s.server.activated ==> AllGates(cfg, s.server)
  {
    hide TowerInv, EndInv, RoleInv, Reachable, MessageAt, GatesUpTo, UpFrames, DownFrames, ServerMessage, ClientMessage,
      ReplyMatches, SameIdentities, HooksDone;
    ReachableGood(cfg, s);
    if Attempted(s.client) {
      AttemptedHasReply(cfg, s.client, s.toClient.read, s.toClient.frames);
      ReadsAreWritten(cfg, s);
      SampleTravels(cfg, s);
    }
  }

  lemma AttemptedHasReply(cfg: Config, c: Client, read: nat, down: seq<Frame>)
    requires ClientGates(cfg, c, read, down) && Attempted(c)
    ensures read >= 2 && Reply(down).canProceed
  {
    hide HooksDone, HooksHeld, MessageAt;
  }

  /** The server's gossip check, for a client at this address with this key: an answer passes if it is just
      these two and the rollback flags agree, and each refusal has its own cause. */
  predicate GossipDecides(cfg: Config, ip: string, key: string, answer: Option<(string, string)>, pc: ServerPc) {
    && (pc.SConfirm? <==> answer == Some((ip, key)) && cfg.serverRollback == cfg.clientRollback)
    && (pc == SReject(RollbackDiffers) <==> answer == Some((ip, key)) && cfg.serverRollback != cfg.clientRollback)
    && (pc == SReject(GossipDisagrees) <==> answer.Some? && answer != Some((ip, key)))
    && (pc == SReject(GossipUnanswered) <==> answer.None?)
  }

  ghost predicate ChecksGossipFor(cfg: Config, ip: string, key: string) {
    forall s, answer :: Reachable(cfg, s) && s.server.pc.SGossip? ==>
      GossipDecides(cfg, ip, key, answer, ServerEvent(cfg, s, ServerGossip(answer)).server.pc)
  }

  lemma GossipChecked(cfg: Config, v: Server, answer: Option<(string, string)>)
    requires v.pc.SGossip? && HearsClient(cfg, v.msg)
    ensures var r := ServerStep(cfg, v, ServerGossip(answer));
            r.ServerMoved?
            && GossipDecides(cfg, cfg.clientInfo.publicIP, cfg.clientInfo.ActivePubKey(), answer, r.next.pc)
  {
    hide RejectText;
  }

  lemma CheckingHolds(cfg: Config, s: State)
    requires Inv(cfg, s) && s.server.pc.SGossip?
    ensures BaseMessage(cfg, s.server.msg)
  {
    hide Counts, UpFrames, DownFrames, ClientMessage, ReplyMatches, SameIdentities, BaseMessage;
  }

  /** In every run the server asks gossip for the client's own address and active key. */
  lemma GossipGate(cfg: Config)
    requires cfg.Valid()
    ensures ChecksGossipFor(cfg, cfg.clientInfo.publicIP, cfg.clientInfo.ActivePubKey())
  {
    hide Reachable, Good, Inv, BaseMessage, HearsClient, ServerStep, GossipDecides;
    forall s, answer | Reachable(cfg, s) && s.server.pc.SGossip?
      ensures GossipDecides(cfg, cfg.clientInfo.publicIP, cfg.clientInfo.ActivePubKey(), answer,
                            ServerEvent(cfg, s, ServerGossip(answer)).server.pc)
    {
      ReachableGood(cfg, s);
      GoodHasInv(cfg, s);
      CheckingHolds(cfg, s);
      ServerHearsClient(cfg, s.server.msg);
      GossipChecked(cfg, s.server, answer);
    }
  }

  // ----- Agreement

  /** The reply leaves the client with exactly the message the server encoded, in both modes; the
      client takes the mode from it, and reports a refusal in the server's words. The identities it held
      are those of the message now: the public keys and key files are the same, the private keys gone. */
  lemma ReplyAgrees(cfg: Config, s: State, m: Message)
    requires cfg.Valid() && Reachable(cfg, s)
    requires s.client.pc.CAwaitSignal? && ClientReady(s, ClientReceive(Some(Gob(m))))
    ensures var n := ClientEvent(cfg, s, ClientReceive(Some(Gob(m)))).client;
            && n.msg == m && n.identities == m.activeNodeInfo.identities
            && SentAs(cfg.clientInfo.identities, n.identities)
            && m.isDryRunFailover == cfg.dryRun && m.skipTowerSync == cfg.skipTowerSync
            && (cfg.Compatible() ==>
                  if m.canProceed then n.pc.CLeaderWait? && n.skip == cfg.skipTowerSync
                  else n.pc.CDone? && n.pc.outcome == Refused(m.errorMessage))
  {
    hide Good, Inv, Reachable, ClientDecodes, ClientEvent, ClientReady, MessageAt, SentAs;
    ReachableGood(cfg, s);
    GoodHasInv(cfg, s);
    ClientHearsReply(cfg, s, ClientReceive(Some(Gob(m))));
    ReplyIsTaken(cfg, s, m);
    ReplyCarries(cfg, s);
  }

  lemma ReplyIsTaken(cfg: Config, s: State, m: Message)
    requires s.client.pc.CAwaitSignal? && ClientReady(s, ClientReceive(Some(Gob(m))))
    ensures var n, d := ClientEvent(cfg, s, ClientReceive(Some(Gob(m)))).client, ClientDecodes(s.client, m).msg;
            && n.msg == d && n.identities == d.activeNodeInfo.identities
            && (d.passiveNodeInfo.failoverVersion == cfg.clientVersion ==>
                  if d.canProceed then n.pc.CLeaderWait? && n.skip == d.skipTowerSync
                  else n.pc.CDone? && n.pc.outcome == Refused(d.errorMessage))
  {
    hide Decode;
  }

  /** What the server sends has lost the private keys of both nodes. */
  lemma ReplyCarries(cfg: Config, s: State)
    requires Inv(cfg, s) && |s.toClient.frames| >= 2
    ensures SentAs(cfg.clientInfo.identities, Reply(s.toClient.frames).activeNodeInfo.identities)
    ensures SentAs(cfg.serverInfo.identities, Reply(s.toClient.frames).passiveNodeInfo.identities)
  {
    hide UpFrames, ServerMessage, ClientMessage, ReplyMatches, SameIdentities, VerdictFrame, MessageAt;
  }

  lemma TowerCarries(cfg: Config, s: State)
    requires Inv(cfg, s) && |s.toServer.frames| >= 3
    ensures SentAs(cfg.serverInfo.identities, Tower(s.toServer.frames).passiveNodeInfo.identities)
  {
    hide DownFrames, ServerMessage, ClientMessage, ReplyMatches, SameIdentities, MessageAt, SwitchTimed, TowerFilled, SentAs;
    Samples.TowerSamples(cfg, s);
    ReplyCarries(cfg, s);
  }

  /** The verdict does so too with tower sync; without it, at least its flags arrive. */
  lemma VerdictAgrees(cfg: Config, s: State, m: Message)
    requires cfg.Valid() && Reachable(cfg, s)
    requires s.client.pc.CAwaitOutcome? && ClientReady(s, ClientReceive(Some(Gob(m))))
    ensures var n := ClientEvent(cfg, s, ClientReceive(Some(Gob(m)))).client;
            && (!cfg.skipTowerSync ==> n.msg == m)
            && n.msg.rollbackRequired == m.rollbackRequired
            && n.msg.isSuccessfullyCompleted == m.isSuccessfullyCompleted
            && n.msg.isDryRunFailover == cfg.dryRun && n.msg.skipTowerSync == cfg.skipTowerSync
  {
    hide Inv, RoleInv, GateInv, TowerInv, EndInv, Reachable, ClientDecodes, ClientReady, ClientEvent;
    ReachableGood(cfg, s);
    VerdictIsDecoded(cfg, s, m);
    ClientHearsVerdict(cfg, s, ClientReceive(Some(Gob(m))));
  }

  /** The request and the tower message leave the server with exactly what the client encoded. */
  lemma ServerDecodeAgrees(cfg: Config, s: State, m: Message)
    requires cfg.Valid() && Reachable(cfg, s)
    requires s.server.pc.SAwaitRequest? || s.server.pc.SAwaitTower?
    requires ServerReady(s, ServerReceive(Some(Gob(m))))
    ensures ServerEvent(cfg, s, ServerReceive(Some(Gob(m)))).server.msg == m
    ensures s.server.pc.SAwaitTower? ==>
              var held := ServerEvent(cfg, s, ServerReceive(Some(Gob(m)))).server.identities;
              held == m.passiveNodeInfo.identities && SentAs(cfg.serverInfo.identities, held)
    ensures s.server.pc.SAwaitTower? ==> cfg.towerHash(m.activeNodeInfo.towerFileBytes) == m.activeNodeInfo.towerFileHash
  {
    hide Inv, RoleInv, GateInv, TowerInv, EndInv, Reachable, Decode, Encode, RequestOf, SentAs;
    ReachableGood(cfg, s);
    if s.server.pc.SAwaitRequest? {
      ServerHearsRequest(cfg, s, ServerReceive(Some(Gob(m))));
    } else {
      ServerHearsTower(cfg, s, ServerReceive(Some(Gob(m))));
      TowerCarries(cfg, s);
    }
  }

  // ----- Branches no run takes

  /** "rollback disabled", "no success and no rollback", and "tower file hash mismatch". */
  predicate DeadBranch(s: State) {
    Leaves(s.client.pc, RollbackDisabled) || Leaves(s.client.pc, ServerGaveUp) || EndsAs(s.server.pc, HashMismatch)
  }

  lemma ClientSparesDeadBranches(cfg: Config, s: State, a: ClientAction)
    requires cfg.Valid() && Good(cfg, s) && !DeadBranch(s)
    ensures !DeadBranch(ClientEvent(cfg, s, a))
  {
    hide UpFrames, ServerMessage, ClientMessage, ReplyMatches, SameIdentities, ServerRoles, GateInv, TowerInv, EndInv,
      ReplyFrame, ClientStep, ClientEdge, MessageAt, BeforeServer, ClientDecodes;
    if ClientReady(s, a) && ClientStep(cfg, s.client, a).ClientMoved? {
      ClientFollowsEdge(cfg, s.client, a);
      ClientLeavesWell(cfg, s.client, a);
      if s.client.pc.CAwaitOutcome? && a.ClientReceive? && a.frame.Some? {
        ClientHearsVerdict(cfg, s, a);
        DecodedNext(cfg, s.client, a);
        SwitchedWithGates(cfg, s);
      }
    }
  }

  lemma ClientLeavesWell(cfg: Config, c: Client, a: ClientAction)
    requires ClientStep(cfg, c, a).ClientMoved? && ClientEdge(cfg, c, a, ClientStep(cfg, c, a))
    ensures var n := ClientStep(cfg, c, a).next;
            Leaves(n.pc, RollbackDisabled) || Leaves(n.pc, ServerGaveUp) ==>
              && c.pc.CAwaitOutcome? && a.ClientReceive? && a.frame.Some? && a.frame.value.Gob?
              && (if n.msg.rollbackRequired then !(cfg.clientRollback && c.wentPassive) else !n.msg.isSuccessfullyCompleted)
  {
    hide ClientStep, SameVersion;
  }

  lemma ServerSparesDeadBranches(cfg: Config, s: State, a: ServerAction)
    requires cfg.Valid() && Good(cfg, s) && !DeadBranch(s)
    ensures !DeadBranch(ServerEvent(cfg, s, a))
  {
    hide Inv, RoleInv, GateInv, TowerInv, EndInv, ServerStep, ServerCheckEdge, ServerFinishEdge, CanReceive;
    if ServerReady(s, a) && ServerStep(cfg, s.server, a).ServerMoved? {
      ServerFollowsEdge(cfg, s.server, a);
      MismatchOnlyOnTower(cfg, s.server, a);
      if s.server.pc.SAwaitTower? && a.ServerReceive? && a.frame.Some? {
        ServerHearsTower(cfg, s, a);
        TowerStepReceives(cfg, s.server, a);
      }
    }
  }

  lemma MismatchOnlyOnTower(cfg: Config, v: Server, a: ServerAction)
    requires ServerStep(cfg, v, a).ServerMoved? && ServerEdge(cfg, v, a, ServerStep(cfg, v, a))
    ensures EndsAs(ServerStep(cfg, v, a).next.pc, HashMismatch) ==>
              v.pc.SAwaitTower? && a.ServerReceive? && a.frame.Some? && a.frame.value.Gob?
  {
    hide ServerStep, SameVersion, GossipShows, HookRan, SameRoles, SameChecks;
  }

  lemma {:induction false} RunsSpareDeadBranches(cfg: Config, s: State, events: seq<Event>)
    requires cfg.Valid() && Good(cfg, s) && !DeadBranch(s)
    ensures !DeadBranch(Run(cfg, s, events))
    decreases |events|
  {
    hide Good, ClientEvent, ServerEvent;
    if events != [] {
      var e := events[0];
      StepKeepsGood(cfg, s, e);
      if e.ClientDoes? {
        ClientSparesDeadBranches(cfg, s, e.ca);
      } else if e.ServerDoes? {
        ServerSparesDeadBranches(cfg, s, e.sa);
      }
      RunsSpareDeadBranches(cfg, Step(cfg, s, e), events[1..]);
    }
  }

  /** The client's "rollback disabled" and "no verdict" branches and the server's hash mismatch are
      never taken: every signal to roll back finds a client that can obey it, every verdict says one
      of the two, and the stream delivers the tower bytes that were hashed. */
  lemma DeadBranchesUnreachable(cfg: Config, s: State)
    requires cfg.Valid() && Reachable(cfg, s)
    ensures !DeadBranch(s)
  {
    hide Good, Run;
    var clientTower, serverTower, events :| s == Run(cfg, Init(cfg, clientTower, serverTower), events);
    InitIsGood(cfg, clientTower, serverTower);
    RunsSpareDeadBranches(cfg, Init(cfg, clientTower, serverTower), events);
  }
}

/**
 Who holds the active identity, in every state of every run.
 */
module Roles {
  import opened Words
  import opened Messages
  import opened Protocol
  import opened ProtocolInvariant
  import opened Flow

  // ----- What the two programs do to the roles

  ghost predicate ClientRoles(cfg: Config, c: Client, sent: nat, read: nat, down: seq<Frame>) {
    && (sent >= 3 ==> c.wentPassive)
    && (AfterSwitch(c.pc) ==> c.wentPassive)
    && (cfg.dryRun ==> c.active)
    && (c.pc.CRollback? ==> cfg.clientRollback)
    && (c.pc.CRollback? || Leaves(c.pc, RolledBack) ==> c.wentPassive && read >= 3 && Verdict(down).rollbackRequired)
    && (!cfg.dryRun && c.wentPassive && c.active ==>
          && c.pc.CDone? && cfg.clientRollback && cfg.toActiveCmd != ""
          && read >= 3 && Verdict(down).rollbackRequired)
  }

  ghost predicate ServerRoles(cfg: Config, v: Server, failed: bool, lied: bool, read: nat) {
    && (v.active ==> v.activated || lied)
    && (v.activated && !cfg.dryRun ==> v.active)
    && (cfg.dryRun ==> !v.active && !failed)
    && (lied ==> failed)
    && (v.activated ==> !failed && (v.pc.SEndSlot? || v.pc.SSendDone? || v.pc.SDone?))
    && (v.pc.SEndSlot? || v.pc.SSendDone? ==> v.activated)
    && (failed ==> v.pc.SSendRollback? || v.pc.SRollback? || v.pc.SDone?)
    && (v.pc.SSendRollback? || v.pc.SRollback? ==> failed && cfg.serverRollback)
    && (!cfg.skipTowerSync && (v.activated || failed) ==> read == 3)
  }

  ghost predicate VerdictRoles(cfg: Config, activated: bool, failed: bool, down: seq<Frame>) {
    |down| >= 3 ==>
      && (Verdict(down).rollbackRequired ==> failed && cfg.serverRollback)
      && (Verdict(down).isSuccessfullyCompleted ==> activated)
  }

  ghost predicate RoleInv(cfg: Config, s: State) {
    && ClientRoles(cfg, s.client, |s.toServer.frames|, s.toClient.read, s.toClient.frames)
    && ServerRoles(cfg, s.server, ServerCommandFault in s.faults, ServerCommandLied in s.faults, s.toServer.read)
    && VerdictRoles(cfg, s.server.activated, ServerCommandFault in s.faults, s.toClient.frames)
  }

  // ----- The client

  /** The client knows the server's mode, not its own flag. */
  lemma ClientKnowsMode(cfg: Config, s: State)
    requires Inv(cfg, s)
    requires Told(s.client.pc) || s.client.pc.CRollback?
    ensures s.client.msg.isDryRunFailover == cfg.dryRun && s.client.skip == cfg.skipTowerSync
  {
    hide UpFrames, ServerMessage, ReplyMatches, SameIdentities, MessageAt, RequestOf, ClientProgress, TowerSent;
  }

  lemma PreparingKeepsRoles(cfg: Config, c: Client, a: ClientAction, sent: nat, sent': nat, read: nat, read': nat, down: seq<Frame>)
    requires ClientRoles(cfg, c, sent, read, down)
    requires Preparing(c.pc) && ClientStep(cfg, c, a).ClientMoved? && ClientEdge(cfg, c, a, ClientStep(cfg, c, a))
    requires ClientStep(cfg, c, a).next.pc.CRollback? ==> read' >= 3 && Verdict(down).rollbackRequired
    requires c.pc.CSetPassive? || c.pc.CRollback? ==> c.msg.isDryRunFailover == cfg.dryRun
    requires c.pc.CRollback? ==> read >= 3 && Verdict(down).rollbackRequired
    requires sent' >= 3 ==> sent >= 3 || c.pc.CSendTower?
    requires read' >= read
    ensures ClientRoles(cfg, ClientStep(cfg, c, a).next, sent', read', down)
  {
    hide ClientStep, MessageAt, SameVersion, HookRan;
  }

  lemma SwitchingKeepsRoles(cfg: Config, c: Client, a: ClientAction, sent: nat, sent': nat, read: nat, read': nat, down: seq<Frame>)
    requires ClientRoles(cfg, c, sent, read, down)
    requires !Preparing(c.pc) && ClientStep(cfg, c, a).ClientMoved? && ClientEdge(cfg, c, a, ClientStep(cfg, c, a))
    requires ClientStep(cfg, c, a).next.pc.CRollback? ==> read' >= 3 && Verdict(down).rollbackRequired
    requires c.pc.CSetPassive? || c.pc.CRollback? ==> c.msg.isDryRunFailover == cfg.dryRun
    requires c.pc.CRollback? ==> read >= 3 && Verdict(down).rollbackRequired
    requires sent' >= 3 ==> sent >= 3 || c.pc.CSendTower?
    requires read' >= read
    ensures ClientRoles(cfg, ClientStep(cfg, c, a).next, sent', read', down)
  {
    hide ClientStep, MessageAt;
  }

  lemma ClientRolesStep(cfg: Config, c: Client, a: ClientAction, sent: nat, sent': nat, read: nat, read': nat, down: seq<Frame>)
    requires ClientRoles(cfg, c, sent, read, down)
    requires ClientStep(cfg, c, a).ClientMoved?
    requires ClientStep(cfg, c, a).next.pc.CRollback? ==> read' >= 3 && Verdict(down).rollbackRequired
    requires c.pc.CSetPassive? || c.pc.CRollback? ==> c.msg.isDryRunFailover == cfg.dryRun
    requires c.pc.CRollback? ==> read >= 3 && Verdict(down).rollbackRequired
    requires sent' >= 3 ==> sent >= 3 || c.pc.CSendTower?
    requires read' >= read
    ensures ClientRoles(cfg, ClientStep(cfg, c, a).next, sent', read', down)
  {
    ClientFollowsEdge(cfg, c, a);
    hide ClientStep, ClientEdge, ClientRoles, MessageAt;
    if Preparing(c.pc) {
      PreparingKeepsRoles(cfg, c, a, sent, sent', read, read', down);
    } else {
      SwitchingKeepsRoles(cfg, c, a, sent, sent', read, read', down);
    }
  }

  lemma ClientActionKeepsRoles(cfg: Config, s: State, a: ClientAction)
    requires cfg.Valid() && Inv(cfg, s) && RoleInv(cfg, s) && Inv(cfg, ClientEvent(cfg, s, a))
    ensures RoleInv(cfg, ClientEvent(cfg, s, a))
  {
    hide UpFrames, DownFrames, ServerMessage, ReplyMatches, SameIdentities, MessageAt, ClientProgress, TowerSent,
      ClientAdds, TowerFilled, SwitchTimed, FreshMessage, OwnRequest, ClientStep, ClientRoles, ServerRoles;
    var r := ClientStep(cfg, s.client, a);
    if ClientReady(s, a) && r.ClientMoved? {
      var s' := ClientEvent(cfg, s, a);
      if s.client.pc.CSetPassive? || s.client.pc.CRollback? {
        ClientKnowsMode(cfg, s);
      }
      ClientWritesAndFaults(cfg, s.client, a);
      ClientRolesStep(cfg, s.client, a, |s.toServer.frames|, |s'.toServer.frames|, s.toClient.read, s'.toClient.read, s.toClient.frames);
      assert ClientRoles(cfg, s'.client, |s'.toServer.frames|, s'.toClient.read, s'.toClient.frames);
    }
  }

  lemma ClientWritesAndFaults(cfg: Config, c: Client, a: ClientAction)
    ensures var r := ClientStep(cfg, c, a);
            r.ClientMoved? ==>
              && !c.pc.CDone?
              && ServerCommandFault !in r.faults && ServerCommandLied !in r.faults && ToPassiveFault !in r.faults
              && EndSlotFault !in r.faults
              && (r.sent.Some? ==> ClientWrites(c.pc))
  {
    if ClientStep(cfg, c, a).ClientMoved? {
      ClientFollowsEdge(cfg, c, a);
    }
    hide ClientStep, SameVersion;
  }

  // ----- The server

  lemma CheckingKeepsRoles(cfg: Config, v: Server, a: ServerAction, failed: bool, lied: bool, read: nat, read': nat)
    requires ServerRoles(cfg, v, failed, lied, read) && Checking(v.pc)
    requires ServerStep(cfg, v, a).ServerMoved? && ServerCheckEdge(cfg, v, a, ServerStep(cfg, v, a))
    ensures var r := ServerStep(cfg, v, a);
            ServerRoles(cfg, r.next, failed || ServerCommandFault in r.faults, lied || ServerCommandLied in r.faults, read')
  {
    hide ServerStep, SameVersion, GossipShows, SameChecks, HookRan;
  }

  lemma FinishingKeepsRoles(cfg: Config, v: Server, a: ServerAction, failed: bool, lied: bool, read: nat, read': nat)
    requires ServerRoles(cfg, v, failed, lied, read) && !Checking(v.pc) && !v.pc.SDone?
    requires ServerStep(cfg, v, a).ServerMoved? && ServerFinishEdge(cfg, v, a, ServerStep(cfg, v, a))
    requires v.pc.SSetActive? ==> (cfg.skipTowerSync || read == 3)
    requires !v.pc.SAwaitTower? ==> read' == read
    ensures var r := ServerStep(cfg, v, a);
            ServerRoles(cfg, r.next, failed || ServerCommandFault in r.faults, lied || ServerCommandLied in r.faults, read')
  {
    hide ServerStep, SameChecks;
  }

  lemma ServerReadsWhenAwaiting(cfg: Config, v: Server, a: ServerAction)
    requires ServerStep(cfg, v, a).ServerMoved?
    ensures a.ServerReceive? ==> v.pc.SAwaitVersion? || v.pc.SAwaitRequest? || v.pc.SAwaitTower?
  {
    hide Decode;
  }

  lemma ServerRolesStep(cfg: Config, v: Server, a: ServerAction, failed: bool, lied: bool, read: nat, read': nat)
    requires ServerRoles(cfg, v, failed, lied, read)
    requires ServerStep(cfg, v, a).ServerMoved?
    requires v.pc.SSetActive? ==> (cfg.skipTowerSync || read == 3)
    requires !Checking(v.pc) && !v.pc.SAwaitTower? ==> read' == read
    ensures var r := ServerStep(cfg, v, a);
            ServerRoles(cfg, r.next, failed || ServerCommandFault in r.faults, lied || ServerCommandLied in r.faults, read')
  {
    ServerFollowsEdge(cfg, v, a);
    hide ServerStep, SameVersion, GossipShows, SameChecks, HookRan, ServerRoles;
    if Checking(v.pc) {
      CheckingKeepsRoles(cfg, v, a, failed, lied, read, read');
    } else {
      FinishingKeepsRoles(cfg, v, a, failed, lied, read, read');
    }
  }

  lemma ServerVerdictStep(
      cfg: Config, v: Server, a: ServerAction, failed: bool, lied: bool, read: nat, down: Channel, down': seq<Frame>, linkUp: bool)
    requires ServerStep(cfg, v, a).ServerMoved? && ServerEdge(cfg, v, a, ServerStep(cfg, v, a))
    requires ServerRoles(cfg, v, failed, lied, read)
    requires VerdictRoles(cfg, v.activated, failed, down.frames) && |down.frames| <= ServerSent(v.pc)
    requires v.pc.SSendDone? ==> v.msg.isSuccessfullyCompleted && !v.msg.rollbackRequired
    requires v.pc.SSendRollback? ==> v.msg.rollbackRequired && !v.msg.isSuccessfullyCompleted
    requires down' == down.Append(ServerStep(cfg, v, a).sent, linkUp).frames
    ensures var r := ServerStep(cfg, v, a);
            VerdictRoles(cfg, r.next.activated, failed || ServerCommandFault in r.faults, down')
  {
    hide ServerStep, SameVersion, GossipShows, SameChecks, HookRan;
    if Checking(v.pc) {
      hide ServerFinishEdge;
    } else {
      hide ServerCheckEdge;
    }
  }

  /** What was read stays readable: frames are only added, or cut behind the reader. */
  lemma ReadVerdictStays(cfg: Config, c: Client, sent: nat, sent': nat, read: nat, down: seq<Frame>, down': seq<Frame>)
    requires ClientRoles(cfg, c, sent, read, down) && sent' <= sent
    requires read <= |down| && read <= |down'| && forall i :: 0 <= i < read ==> down'[i] == down[i]
    ensures ClientRoles(cfg, c, sent', read, down')
  {
  }

  lemma ServerActionKeepsRoles(cfg: Config, s: State, a: ServerAction)
    requires cfg.Valid() && Inv(cfg, s) && RoleInv(cfg, s) && Inv(cfg, ServerEvent(cfg, s, a))
    ensures RoleInv(cfg, ServerEvent(cfg, s, a))
  {
    hide UpFrames, DownFrames, ClientMessage, ReplyMatches, SameIdentities, MessageAt, ServerStep, ClientRoles,
      ServerRoles, VerdictRoles, ServerEdge, FinishingMessage, BaseMessage, GoAheadMessage, RejectMessage, FreshMessage,
      SentRequest;
    var r := ServerStep(cfg, s.server, a);
    if ServerReady(s, a) && r.ServerMoved? {
      var s' := ServerEvent(cfg, s, a);
      ServerReadsWhenAwaiting(cfg, s.server, a);
      ServerRolesStep(cfg, s.server, a, ServerCommandFault in s.faults, ServerCommandLied in s.faults, s.toServer.read, s'.toServer.read);
      ServerFollowsEdge(cfg, s.server, a);
      assert s.server.pc.SSendDone? || s.server.pc.SSendRollback? ==>
          ServerMessage(cfg, s.server.pc, s.server.msg, Tower(s.toServer.frames));
      ReadVerdictStays(
        cfg, s.client, |s.toServer.frames|, |s.toServer.frames|, s.toClient.read, s.toClient.frames, s'.toClient.frames);
      ServerVerdictStep(
        cfg, s.server, a, ServerCommandFault in s.faults, ServerCommandLied in s.faults, s.toServer.read, s.toClient,
        s'.toClient.frames, s.linkUp);
    }
  }

  // ----- The environment

  lemma LinkDropKeepsRoles(cfg: Config, s: State, i: nat, j: nat)
    requires cfg.Valid() && Inv(cfg, s) && RoleInv(cfg, s)
    ensures RoleInv(cfg, DropLink(s, i, j))
  {
    hide UpFrames, DownFrames, ServerMessage, ClientMessage, ReplyMatches, SameIdentities, ClientRoles, ServerRoles,
      MessageAt;
    CutKeepsFrames(s.toClient, j);
    CutKeepsFrames(s.toServer, i);
    ReadVerdictStays(
      cfg, s.client, |s.toServer.frames|, |s.toServer.Cut(i).frames|, s.toClient.read, s.toClient.frames, s.toClient.Cut(j).frames);
  }

  lemma DeadNodesKeepRoles(
      cfg: Config, c: Client, v: Server, sent: nat, read: nat, down: seq<Frame>, failed: bool, lied: bool, serverRead: nat)
    ensures ClientRoles(cfg, c, sent, read, down) && !c.pc.CDone? ==> ClientRoles(cfg, c.(pc := CDone(Crashed)), sent, read, down)
    ensures ServerRoles(cfg, v, failed, lied, serverRead) ==> ServerRoles(cfg, v.(pc := SDone(ServerCrashed)), failed, lied, serverRead)
  {
    hide MessageAt;
  }

  lemma DeathKeepsRoles(cfg: Config, s: State)
    requires RoleInv(cfg, s)
    ensures RoleInv(cfg, KillClient(s)) && RoleInv(cfg, KillServer(s))
  {
    hide ClientRoles, ServerRoles, VerdictRoles;
    DeadNodesKeepRoles(cfg, s.client, s.server, |s.toServer.frames|, s.toClient.read, s.toClient.frames,
                       ServerCommandFault in s.faults, ServerCommandLied in s.faults, s.toServer.read);
  }

  lemma VotesKeepRoles(cfg: Config, s: State, tower: seq<byte>)
    requires RoleInv(cfg, s)
    ensures RoleInv(cfg, VoteOnClient(s, tower)) && RoleInv(cfg, VoteOnServer(s, tower))
  {
    hide MessageAt;
  }
}

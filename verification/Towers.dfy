/** Whose tower bytes are where, between the client's switch and the server's. */
module Towers {
  import opened Wrappers
  import opened Words
  import opened Messages
  import opened Protocol
  import opened ProtocolInvariant
  import opened Flow
  import opened Roles

  function TowerBytes(m: Message): seq<byte> {
    m.activeNodeInfo.towerFileBytes
  }

  ghost predicate ClientTower(cfg: Config, c: Client, up: seq<Frame>) {
    !cfg.dryRun ==>
      && (c.pc.CSendTower? ==> TowerBytes(c.msg) == c.tower)
      && (|up| >= 3 && !c.active ==> TowerBytes(Tower(up)) == c.tower)
  }

  ghost predicate ServerTower(cfg: Config, v: Server, up: seq<Frame>) {
    !cfg.skipTowerSync && v.pc.SSetActive? && !v.active ==> v.tower == Some(TowerBytes(Tower(up)))
  }

  ghost predicate TowerInv(cfg: Config, s: State) {
    ClientTower(cfg, s.client, s.toServer.frames) && ServerTower(cfg, s.server, s.toServer.frames)
  }

  lemma ClientTowerStep(cfg: Config, c: Client, a: ClientAction, up: Channel, linkUp: bool)
    requires ClientStep(cfg, c, a).ClientMoved?
    requires ClientTower(cfg, c, up.frames) && |up.frames| <= ClientSent(c.pc, c.skip)
    requires c.pc.CSetPassive? || Preparing(c.pc) || c.pc.CNextSlot? || c.pc.CReadTower? ==> |up.frames| <= 2
    ensures var r := ClientStep(cfg, c, a);
            ClientTower(cfg, r.next, up.Append(r.sent, linkUp).frames)
  {
    ClientFollowsEdge(cfg, c, a);
    hide ClientStep, ClientEdge, ClientTower;
    if Preparing(c.pc) {
      PreparingKeepsTower(cfg, c, a, ClientStep(cfg, c, a), up, linkUp);
    } else {
      SwitchingKeepsTower(cfg, c, a, ClientStep(cfg, c, a), up, linkUp);
    }
  }

  lemma PreparingKeepsTower(cfg: Config, c: Client, a: ClientAction, r: ClientResult, up: Channel, linkUp: bool)
    requires r.ClientMoved? && ClientEdge(cfg, c, a, r) && Preparing(c.pc)
    requires |up.frames| <= ClientSent(c.pc, c.skip) && |up.frames| <= 2
    ensures ClientTower(cfg, r.next, up.Append(r.sent, linkUp).frames)
  {
    hide SameVersion, HookRan, TowerBytes, MessageAt;
  }

  lemma SwitchingKeepsTower(cfg: Config, c: Client, a: ClientAction, r: ClientResult, up: Channel, linkUp: bool)
    requires r.ClientMoved? && ClientEdge(cfg, c, a, r) && !Preparing(c.pc)
    requires ClientTower(cfg, c, up.frames) && |up.frames| <= ClientSent(c.pc, c.skip)
    requires c.pc.CSetPassive? || c.pc.CNextSlot? || c.pc.CReadTower? ==> |up.frames| <= 2
    ensures ClientTower(cfg, r.next, up.Append(r.sent, linkUp).frames)
  {
    hide SameVersion, HookRan;
  }

  lemma ClientActionKeepsTower(cfg: Config, s: State, a: ClientAction)
    requires cfg.Valid() && Inv(cfg, s) && RoleInv(cfg, s) && TowerInv(cfg, s)
    ensures TowerInv(cfg, ClientEvent(cfg, s, a))
  {
    hide UpFrames, DownFrames, ServerMessage, ReplyMatches, SameIdentities, MessageAt, ClientStep, ServerRoles,
      ClientRoles, ClientMessage, ClientTower, FreshMessage, VerdictRoles;
    var c := s.client;
    if ClientReady(s, a) && ClientStep(cfg, c, a).ClientMoved? {
      ClientTowerStep(cfg, c, a, s.toServer, s.linkUp);
      AppendKeepsFrames(s.toServer, ClientStep(cfg, c, a).sent, s.linkUp);
    }
  }

  lemma ServerTowerStep(cfg: Config, v: Server, a: ServerAction, up: seq<Frame>)
    requires ServerStep(cfg, v, a).ServerMoved?
    requires ServerTower(cfg, v, up)
    requires v.pc.SWriteTower? ==> TowerBytes(v.msg) == TowerBytes(Tower(up))
    ensures ServerTower(cfg, ServerStep(cfg, v, a).next, up)
  {
    ServerFollowsEdge(cfg, v, a);
    hide ServerStep, SameVersion, GossipShows, HookRan, SameRoles, SameChecks, MessageAt, ServerCheckEdge,
      ServerFinishEdge, TowerBytes;
    if v.pc.SWriteTower? {
      WrittenTower(cfg, v, a);
    } else if !cfg.skipTowerSync {
      OnlyWritingLeadsToSwitch(cfg, v, a);
    }
  }

  lemma WrittenTower(cfg: Config, v: Server, a: ServerAction)
    requires v.pc.SWriteTower?
    requires ServerStep(cfg, v, a).ServerMoved? && ServerFinishEdge(cfg, v, a, ServerStep(cfg, v, a))
    ensures var n := ServerStep(cfg, v, a).next; n.pc.SSetActive? ==> n.tower == Some(TowerBytes(v.msg))
  {
    hide ServerStep;
  }

  lemma OnlyWritingLeadsToSwitch(cfg: Config, v: Server, a: ServerAction)
    requires !v.pc.SWriteTower? && !cfg.skipTowerSync
    requires ServerStep(cfg, v, a).ServerMoved? && ServerEdge(cfg, v, a, ServerStep(cfg, v, a))
    ensures !ServerStep(cfg, v, a).next.pc.SSetActive?
  {
    hide ServerStep, SameVersion, GossipShows, HookRan, SameRoles, SameChecks;
  }

  lemma FinishingHoldsTower(cfg: Config, m: Message, tower: Message)
    requires !cfg.skipTowerSync && FinishingMessage(cfg, m, tower)
    ensures TowerBytes(m) == TowerBytes(tower)
  {
  }

  lemma ServerActionKeepsTower(cfg: Config, s: State, a: ServerAction)
    requires cfg.Valid() && Inv(cfg, s) && TowerInv(cfg, s)
    ensures TowerInv(cfg, ServerEvent(cfg, s, a))
  {
    hide UpFrames, DownFrames, ReplyMatches, SameIdentities, MessageAt, ServerStep, ClientMessage, ClientTower,
      ServerTower, FinishingMessage, BaseMessage, GoAheadMessage, RejectMessage, FreshMessage, SentRequest, TowerBytes;
    var v := s.server;
    if ServerReady(s, a) && ServerStep(cfg, v, a).ServerMoved? {
      if v.pc.SWriteTower? {
        FinishingHoldsTower(cfg, v.msg, Tower(s.toServer.frames));
      }
      ServerTowerStep(cfg, v, a, s.toServer.frames);
    }
  }

  lemma LinkDropKeepsTower(cfg: Config, s: State, i: nat, j: nat)
    requires cfg.Valid() && Inv(cfg, s) && TowerInv(cfg, s)
    ensures TowerInv(cfg, DropLink(s, i, j))
  {
    hide UpFrames, DownFrames, ReplyMatches, SameIdentities, MessageAt, ClientMessage, TowerBytes;
    CutKeepsFrames(s.toServer, i);
  }

  lemma DeathAndVotesKeepTower(cfg: Config, s: State, tower: seq<byte>)
    requires cfg.Valid() && Inv(cfg, s) && RoleInv(cfg, s) && TowerInv(cfg, s)
    ensures TowerInv(cfg, KillClient(s)) && TowerInv(cfg, KillServer(s))
    ensures TowerInv(cfg, VoteOnClient(s, tower)) && TowerInv(cfg, VoteOnServer(s, tower))
  {
    hide MessageAt, TowerBytes, UpFrames, DownFrames, ReplyMatches, SameIdentities, ClientMessage, ServerMessage;
  }
}

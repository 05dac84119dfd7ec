/**
 What a successful decode leaves in the receiver's message, although zero leaves are never sent
 and decoding only merges.
 */
module Agreement {
  import opened Wrappers
  import opened Messages
  import opened Protocol
  import opened ProtocolInvariant
  import ClientInvariant
  import ServerInvariant

  /** The client has read the server's reply. */
  lemma ClientHearsReply(cfg: Config, s: State, a: ClientAction)
    requires cfg.Valid() && Inv(cfg, s)
    requires s.client.pc.CAwaitSignal? && ClientReady(s, a) && a.ClientReceive? && a.frame.Some?
    ensures a.frame.value == Gob(Reply(s.toClient.frames)) && |s.toClient.frames| >= 2
    ensures ClientDecodes(s.client, Reply(s.toClient.frames)).msg == Reply(s.toClient.frames)
    ensures var r := Reply(s.toClient.frames);
            r.isDryRunFailover == cfg.dryRun && r.skipTowerSync == cfg.skipTowerSync
            && r.passiveNodeInfo.failoverVersion == cfg.serverVersion
  {
    hide UpFrames, ServerMessage, ReplyMatches, SameIdentities, RequestOf, Decode, ReplyFrame, Encode;
    ReplyTells(cfg, Reply(s.toClient.frames));
    ClientInvariant.ClientDecodesReply(cfg, Reply(s.toClient.frames));
  }

  lemma ReplyTells(cfg: Config, r: Message)
    requires cfg.Valid()
    ensures ReplyFrame(cfg, r) ==>
              && r.isDryRunFailover == cfg.dryRun && r.skipTowerSync == cfg.skipTowerSync
              && r.passiveNodeInfo.failoverVersion == cfg.serverVersion
  {
  }

  /** The verdict's flags reach the client in both modes; with tower sync its whole message does. */
  lemma ClientHearsVerdict(cfg: Config, s: State, a: ClientAction)
    requires cfg.Valid() && Inv(cfg, s)
    requires s.client.pc.CAwaitOutcome? && ClientReady(s, a) && a.ClientReceive? && a.frame.Some?
    ensures a.frame.value == Gob(Verdict(s.toClient.frames)) && |s.toClient.frames| == 3
    ensures var v, m := Verdict(s.toClient.frames), ClientDecodes(s.client, Verdict(s.toClient.frames)).msg;
            && m.rollbackRequired == v.rollbackRequired && m.isSuccessfullyCompleted == v.isSuccessfullyCompleted
            && m.isDryRunFailover == cfg.dryRun && m.skipTowerSync == cfg.skipTowerSync
            && (!cfg.skipTowerSync ==> m == v)
  {
    hide ServerMessage, ReplyMatches, SameIdentities, RequestOf, Decode, ReplyFrame, VerdictFrame, Encode, BeforeClient,
      ClientProgress, TowerFrame;
    assert !cfg.skipTowerSync ==> Tower(s.toServer.frames) == s.client.msg;
    ClientInvariant.ClientDecodesVerdict(cfg, s.client.msg, s.toServer.frames, s.toClient.frames);
  }

  /** The server reads the client's request. */
  lemma ServerHearsRequest(cfg: Config, s: State, a: ServerAction)
    requires cfg.Valid() && Inv(cfg, s)
    requires s.server.pc.SAwaitRequest? && ServerReady(s, a) && a.ServerReceive? && a.frame.Some?
    ensures a.frame.value == Gob(Encode(RequestOf(cfg)))
    ensures Decode(s.server.msg, Encode(RequestOf(cfg))) == Encode(RequestOf(cfg))
  {
    hide DownFrames, ClientMessage, ReplyMatches, SameIdentities, RequestOf, Decode, ReplyFrame, Encode;
    FreshDecode(RequestOf(cfg));
  }

  /** The server reads the tower message, and its hash check passes. */
  lemma ServerHearsTower(cfg: Config, s: State, a: ServerAction)
    requires cfg.Valid() && Inv(cfg, s)
    requires s.server.pc.SAwaitTower? && ServerReady(s, a) && a.ServerReceive? && a.frame.Some?
    ensures !cfg.skipTowerSync && a.frame.value == Gob(Tower(s.toServer.frames)) && |s.toServer.frames| >= 3
    ensures var t, r := Tower(s.toServer.frames), ServerReceivesTower(cfg, s.server, Tower(s.toServer.frames));
            r.ServerMoved? && r.next.msg == t && r.next.pc.SWriteTower?
  {
    hide ClientMessage, SameIdentities, RequestOf, Decode, ReplyFrame, Encode, ReplyMatches, GoAheadMessage,
      ServerReceivesTower;
    ServerInvariant.TowerArrives(cfg, s, a);
    ServerInvariant.ServerTakesTower(cfg, s.server, s.toServer.frames, s.toClient.frames);
  }

  /** What a verdict leaves in the client's message. */
  lemma VerdictIsDecoded(cfg: Config, s: State, m: Message)
    requires s.client.pc.CAwaitOutcome? && ClientReady(s, ClientReceive(Some(Gob(m))))
    ensures ClientEvent(cfg, s, ClientReceive(Some(Gob(m)))).client.msg == ClientDecodes(s.client, m).msg
  {
    hide ClientDecodes, CanReceive;
  }
}

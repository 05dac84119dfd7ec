/** Every action of the client keeps the protocol's invariant, one program point at a time. */
module ClientInvariant {
  import opened Wrappers
  import opened Words
  import opened Messages
  import opened Protocol
  import opened ProtocolInvariant

  // ----- While the client neither writes nor reads

  /** A client that neither wrote nor read: what its own part of the invariant must say. */
  ghost predicate ClientQuiet(cfg: Config, c: Client, next: Client, up: seq<Frame>, down: seq<Frame>) {
    && ClientMessage(cfg, next.pc, next, up, down)
    && next.identities == c.identities
    && (next.pc.CDone? ||
        (ClientSent(next.pc, next.skip) == ClientSent(c.pc, c.skip) && ClientRead(next.pc) == ClientRead(c.pc)))
  }

  ghost predicate QuietResult(cfg: Config, c: Client, r: ClientResult, up: seq<Frame>, down: seq<Frame>) {
    r.ClientMoved? ==>
      && !c.pc.CDone? && r.sent.None? && (Told(r.next.pc) || r.next.pc.CDone?)
      && ClientQuiet(cfg, c, r.next, up, down)
  }

  lemma QuietClientKeepsInv(cfg: Config, s: State, next: Client, faults: set<Fault>)
    requires cfg.Valid() && Inv(cfg, s)
    requires Told(s.client.pc) || s.client.pc.CRollback?
    requires Told(next.pc) || next.pc.CDone?
    requires ClientQuiet(cfg, s.client, next, s.toServer.frames, s.toClient.frames)
    ensures Inv(cfg, ClientApply(s, ClientMoved(next, None, faults), false))
  {
    hide UpFrames, DownFrames, ServerMessage, ClientMessage, MessageAt, ReplyMatches;
  }

  lemma SlotOnlyAdds(m: Message, before: Message, slot: uint64)
    requires ClientAdds(m, before)
    ensures ClientAdds(WithStartSlot(m, slot), before) && WithStartSlot(m, slot).failoverStartSlot == slot
  {
  }

  lemma SwitchOnlyAdds(m: Message, before: Message, start: Instant, end: Instant)
    requires ClientAdds(m, before)
    ensures var w := WithActiveSwitchEnd(WithActiveSwitchStart(m, start), end);
            ClientAdds(w, before) && SwitchTimed(w) && w.failoverStartSlot == m.failoverStartSlot
  {
  }

  lemma TowerOnlyAdds(cfg: Config, m: Message, before: Message, tower: seq<byte>, start: Instant, end: Instant)
    requires ClientAdds(m, before) && SwitchTimed(m)
    ensures var w := WithTower(WithTowerStart(m, start), tower, cfg.towerHash(tower), end);
            ClientAdds(w, before) && SwitchTimed(w) && TowerFilled(cfg, w) && w.failoverStartSlot == m.failoverStartSlot
  {
  }

  lemma ClientWaits(cfg: Config, c: Client, a: ClientAction, up: seq<Frame>, down: seq<Frame>)
    requires c.pc.CLeaderWait? || c.pc.CPreHooks?
    requires ClientMessage(cfg, c.pc, c, up, down)
    ensures QuietResult(cfg, c, ClientStep(cfg, c, a), up, down)
  {
    hide Reply, Verdict, FreshMessage, OwnRequest, ClientAdds, TowerSent, SwitchTimed, TowerFilled, Encode,
      WithStartSlot;
  }

  lemma ClientTakesSlot(cfg: Config, c: Client, a: ClientAction, up: seq<Frame>, down: seq<Frame>)
    requires c.pc.CNextSlot?
    requires ClientMessage(cfg, c.pc, c, up, down)
    ensures QuietResult(cfg, c, ClientStep(cfg, c, a), up, down)
  {
    hide Reply, Verdict, FreshMessage, OwnRequest, ClientAdds, TowerSent, SwitchTimed, TowerFilled, Encode,
      WithStartSlot;
    if a.ClientNextSlot? && a.next.Some? {
      SlotOnlyAdds(c.msg, Reply(down), a.next.value);
    }
  }

  lemma ClientSwitches(cfg: Config, c: Client, a: ClientAction, up: seq<Frame>, down: seq<Frame>)
    requires c.pc.CSetPassive? && |up| <= 2
    requires ClientMessage(cfg, c.pc, c, up, down)
    ensures QuietResult(cfg, c, ClientStep(cfg, c, a), up, down)
  {
    hide Reply, Verdict, FreshMessage, OwnRequest, ClientAdds, SwitchTimed, TowerFilled, Tower, Encode,
      WithActiveSwitchStart, WithActiveSwitchEnd;
    if a.ClientCommand? {
      SwitchOnlyAdds(c.msg, Reply(down), a.start, a.end);
    }
  }

  lemma ClientTakesTower(cfg: Config, c: Client, a: ClientAction, up: seq<Frame>, down: seq<Frame>)
    requires c.pc.CReadTower?
    requires ClientMessage(cfg, c.pc, c, up, down)
    ensures QuietResult(cfg, c, ClientStep(cfg, c, a), up, down)
  {
    hide Reply, Verdict, FreshMessage, OwnRequest, ClientAdds, TowerSent, SwitchTimed, TowerFilled, Encode,
      WithTowerStart, WithTower;
    if a.ClientReadTower? {
      TowerOnlyAdds(cfg, c.msg, Reply(down), c.tower, a.start, a.end);
    }
  }

  lemma ClientReverts(cfg: Config, c: Client, a: ClientAction, up: seq<Frame>, down: seq<Frame>)
    requires c.pc.CRollback? || c.pc.CDone?
    ensures QuietResult(cfg, c, ClientStep(cfg, c, a), up, down)
  {
    hide Reply, Verdict, FreshMessage, OwnRequest, ClientAdds, TowerSent, ClientProgress, Encode;
  }

  lemma ClientActsAlone(cfg: Config, c: Client, a: ClientAction, up: seq<Frame>, down: seq<Frame>)
    requires c.pc.CLeaderWait? || c.pc.CPreHooks? || c.pc.CNextSlot? || c.pc.CSetPassive? || c.pc.CReadTower?
             || c.pc.CRollback? || c.pc.CDone?
    requires c.pc.CSetPassive? ==> |up| <= 2
    requires ClientMessage(cfg, c.pc, c, up, down)
    ensures QuietResult(cfg, c, ClientStep(cfg, c, a), up, down)
  {
    hide ClientStep, ClientMessage, QuietResult;
    match c.pc
    case CNextSlot => ClientTakesSlot(cfg, c, a, up, down);
    case CSetPassive => ClientSwitches(cfg, c, a, up, down);
    case CReadTower => ClientTakesTower(cfg, c, a, up, down);
    case CRollback => ClientReverts(cfg, c, a, up, down);
    case CDone(_) => ClientReverts(cfg, c, a, up, down);
    case _ => ClientWaits(cfg, c, a, up, down);
  }

  /** The frame the client writes when it has already written `n`. */
  ghost predicate UpFrameFits(cfg: Config, n: nat, f: Frame, down: Channel) {
    match n
    case 0 => f == Version(cfg.clientWire)
    case 1 => f == Gob(Encode(RequestOf(cfg)))
    case 2 =>
      && !cfg.skipTowerSync && f.Gob?
      && down.read >= 2 && Reply(down.frames).canProceed && TowerFrame(cfg, f.message, Reply(down.frames))
    case _ => false
  }

  ghost predicate ClientWrote(cfg: Config, c: Client, r: ClientResult, up: Channel, down: Channel, linkUp: bool) {
    var n := ClientSent(c.pc, c.skip);
    && r.ClientMoved?
    && n <= 2
    && (r.sent.Some? ==> UpFrameFits(cfg, n, r.sent.value, down))
    && r.next.identities == c.identities
    && ClientMessage(cfg, r.next.pc, r.next, up.Append(r.sent, linkUp).frames, down.frames)
    && (r.next.pc.CDone? || (
          && r.sent.Some?
          && (r.next.pc.CSendRequest? || r.next.pc.CAwaitVersion? || r.next.pc.CAwaitOutcome?)
          && (c.pc.CSendTower? ==> r.next.pc.CAwaitOutcome?)
          && ClientSent(r.next.pc, r.next.skip) == n + 1
          && ClientRead(r.next.pc) == ClientRead(c.pc)))
  }

  lemma UpFrameKeepsFrames(cfg: Config, up: Channel, down: Channel, f: Option<Frame>, linkUp: bool)
    requires up.Valid() && up.read <= |up.frames| <= 2
    requires UpFrames(cfg, up, down) && DownFrames(cfg, up, down)
    requires f.Some? && linkUp ==> UpFrameFits(cfg, |up.frames|, f.value, down)
    ensures UpFrames(cfg, up.Append(f, linkUp), down) && DownFrames(cfg, up.Append(f, linkUp), down)
  {
    hide ReplyFrame, TowerFrame, VerdictFrame, Encode, RequestOf;
  }

  lemma ServerMessageIgnoresTower(cfg: Config, pc: ServerPc, m: Message, t: Message, t': Message)
    requires !Finishing(pc) || cfg.skipTowerSync
    ensures ServerMessage(cfg, pc, m, t) == ServerMessage(cfg, pc, m, t')
  {
    hide BaseOf, GoAhead, Encode, RequestOf, BeforeServer;
  }

  lemma WritingClientCounts(
      cfg: Config, c: ClientPc, skip: bool, n: ClientPc, skip': bool, v: ServerPc, up: Channel, down: Channel,
      f: Option<Frame>, linkUp: bool)
    requires Counts(cfg, c, skip, v, up, down, linkUp)
    requires !c.CDone? && ClientSent(c, skip) <= 2
    requires n.CDone? || (f.Some? && ClientSent(n, skip') == ClientSent(c, skip) + 1 && ClientRead(n) == ClientRead(c))
    ensures Counts(cfg, n, skip', v, up.Append(f, linkUp), down, linkUp)
  {
    hide ServerSent, ServerRead;
  }

  lemma WritingClientFrames(cfg: Config, s: State, r: ClientResult)
    requires Inv(cfg, s) && ClientWrote(cfg, s.client, r, s.toServer, s.toClient, s.linkUp)
    requires s.client.pc.CSendVersion? || s.client.pc.CSendRequest? || s.client.pc.CSendTower?
    ensures UpFrames(cfg, s.toServer.Append(r.sent, s.linkUp), s.toClient)
    ensures DownFrames(cfg, s.toServer.Append(r.sent, s.linkUp), s.toClient)
  {
    hide UpFrames, DownFrames, ServerMessage, ClientMessage, MessageAt, ReplyMatches, UpFrameFits, SameIdentities;
    UpFrameKeepsFrames(cfg, s.toServer, s.toClient, r.sent, s.linkUp);
  }

  lemma WritingClientServerMessage(cfg: Config, s: State, r: ClientResult)
    requires Inv(cfg, s) && ClientWrote(cfg, s.client, r, s.toServer, s.toClient, s.linkUp)
    requires s.client.pc.CSendVersion? || s.client.pc.CSendRequest? || s.client.pc.CSendTower?
    ensures ServerMessage(cfg, s.server.pc, s.server.msg, Tower(s.toServer.Append(r.sent, s.linkUp).frames))
  {
    hide UpFrames, DownFrames, ServerMessage, ClientMessage, MessageAt, ReplyMatches, UpFrameFits, SameIdentities;
    ServerMessageIgnoresTower(
      cfg, s.server.pc, s.server.msg, Tower(s.toServer.frames), Tower(s.toServer.Append(r.sent, s.linkUp).frames));
  }

  lemma WritingClientKeepsInv(cfg: Config, s: State, r: ClientResult)
    requires cfg.Valid() && Inv(cfg, s)
    requires s.client.pc.CSendVersion? || s.client.pc.CSendRequest? || s.client.pc.CSendTower?
    requires ClientWrote(cfg, s.client, r, s.toServer, s.toClient, s.linkUp)
    ensures Inv(cfg, ClientApply(s, r, false))
  {
    hide UpFrames, DownFrames, ServerMessage, ClientMessage, Tower, Reply, ReplyMatches, UpFrameFits, Channel.Append;
    WritingClientCounts(cfg, s.client.pc, s.client.skip, r.next.pc, r.next.skip, s.server.pc, s.toServer, s.toClient, r.sent, s.linkUp);
    WritingClientFrames(cfg, s, r);
    WritingClientServerMessage(cfg, s, r);
    hide Counts;
  }

  lemma ClientWritesVersion(cfg: Config, c: Client, a: ClientAction, up: Channel, down: Channel, linkUp: bool)
    requires c.pc.CSendVersion?
    requires ClientMessage(cfg, c.pc, c, up.frames, down.frames)
    ensures var r := ClientStep(cfg, c, a); r.ClientMoved? ==> ClientWrote(cfg, c, r, up, down, linkUp)
  {
    hide MessageAt, Encode, RequestOf;
  }

  lemma ClientWritesRequest(cfg: Config, c: Client, a: ClientAction, up: Channel, down: Channel, linkUp: bool)
    requires cfg.Valid()
    requires c.pc.CSendRequest? && c.identities == cfg.clientInfo.identities
    requires ClientMessage(cfg, c.pc, c, up.frames, down.frames)
    ensures var r := ClientStep(cfg, c, a); r.ClientMoved? ==> ClientWrote(cfg, c, r, up, down, linkUp)
  {
    hide MessageAt;
    assert RequestMessage(cfg, c) == RequestOf(cfg);
  }

  lemma TowerGoesOut(cfg: Config, c: Client, o: SendOutcome, up: Channel, down: Channel, linkUp: bool)
    requires |up.frames| <= 2 && (linkUp ==> |up.frames| == 2) && down.read >= 2
    requires c.pc.CSendTower? && Encode(c.msg) == c.msg
    requires ClientMessage(cfg, c.pc, c, up.frames, down.frames)
    ensures ClientWrote(
              cfg, c, ClientSends(c, Gob(c.msg), o, CAwaitOutcome, TowerUnsent, TowerSendFault), up, down, linkUp)
  {
    hide BeforeClient, ReplyFrame, SwitchTimed, TowerFilled;
  }

  lemma ClientWritesTower(cfg: Config, c: Client, a: ClientAction, up: Channel, down: Channel, linkUp: bool)
    requires up.Valid() && |up.frames| <= 2 && (linkUp ==> |up.frames| == 2) && down.read >= 2
    requires c.pc.CSendTower?
    requires ClientMessage(cfg, c.pc, c, up.frames, down.frames)
    requires ReplyFrame(cfg, Reply(down.frames))
    ensures var r := ClientStep(cfg, c, a); r.ClientMoved? ==> ClientWrote(cfg, c, r, up, down, linkUp)
  {
    TowerAdds(cfg, c, up.frames, down.frames);
    hide Encode, BeforeClient, ReplyFrame, ClientMessage, ClientWrote, ClientSends;
    ReplyIsEncoded(cfg, Reply(down.frames));
    AddingKeepsEncoded(c.msg, Reply(down.frames));
    if a.ClientSend? {
      TowerGoesOut(cfg, c, a.sent, up, down, linkUp);
    }
  }

  lemma TowerAdds(cfg: Config, c: Client, up: seq<Frame>, down: seq<Frame>)
    requires c.pc.CSendTower? && ClientMessage(cfg, c.pc, c, up, down)
    ensures BeforeClient(c.msg) == Reply(down)
  {
    hide BeforeClient, MessageAt, ClientProgress;
  }

  // What the client decodes.

  /** The reply tells the client everything it already knew: the merge acts as an overwrite. */
  lemma ClientDecodesReply(cfg: Config, r: Message)
    requires cfg.Valid() && ReplyFrame(cfg, r)
    ensures Decode(RequestOf(cfg), r) == r
    ensures BeforeClient(r) == r && !r.rollbackRequired && !r.isSuccessfullyCompleted
    ensures r.skipTowerSync == cfg.skipTowerSync && r.isDryRunFailover == cfg.dryRun
    ensures SameIdentities(r.activeNodeInfo.identities, cfg.clientInfo.identities, false)
  {
    ReplyIsEncoded(cfg, r);
    OverwriteIffCovered(RequestOf(cfg), r);
    hide Decode;
  }

  ghost predicate ClientHasRead(cfg: Config, c: Client, r: ClientResult, received: bool, up: seq<Frame>, down: seq<Frame>) {
    && r.ClientMoved? && r.sent.None?
    && SameIdentities(r.next.identities, cfg.clientInfo.identities, r.next.pc.CAwaitSignal?)
    && ClientMessage(cfg, r.next.pc, r.next, up, down)
    && (r.next.pc.CDone? || (
          && received
          && (r.next.pc.CAwaitSignal? || r.next.pc.CLeaderWait? || r.next.pc.CRollback?)
          && ClientSent(r.next.pc, r.next.skip) == ClientSent(c.pc, c.skip)
          && ClientRead(r.next.pc) == ClientRead(c.pc) + 1))
  }

  lemma ReadingClientCounts(
      cfg: Config, c: ClientPc, skip: bool, n: ClientPc, skip': bool, v: ServerPc, up: Channel, down: Channel, linkUp: bool, received: bool)
    requires Counts(cfg, c, skip, v, up, down, linkUp) && !c.CDone?
    requires ClientRead(c) <= 2 && (received ==> down.read < |down.frames|)
    requires n.CDone? || (received && ClientSent(n, skip') == ClientSent(c, skip) && ClientRead(n) == ClientRead(c) + 1)
    ensures Counts(cfg, n, skip', v, up, Consume(down, received), linkUp)
  {
    hide ServerSent, ServerRead;
  }

  lemma ReadingKeepsFrames(cfg: Config, up: Channel, down: Channel, received: bool)
    requires UpFrames(cfg, up, down) && DownFrames(cfg, up, down)
    ensures UpFrames(cfg, up, Consume(down, received)) && DownFrames(cfg, up, Consume(down, received))
    ensures Consume(down, received).frames == down.frames
  {
    hide ReplyFrame, TowerFrame, VerdictFrame, MessageAt, Encode, RequestOf;
  }

  lemma ReadingClientKeepsInv(cfg: Config, s: State, r: ClientResult, received: bool)
    requires cfg.Valid() && Inv(cfg, s)
    requires s.client.pc.CAwaitVersion? || s.client.pc.CAwaitSignal? || s.client.pc.CAwaitOutcome?
    requires received ==> s.toClient.read < |s.toClient.frames|
    requires ClientHasRead(cfg, s.client, r, received, s.toServer.frames, s.toClient.frames)
    ensures Inv(cfg, ClientApply(s, r, received))
  {
    hide UpFrames, DownFrames, ServerMessage, ClientMessage, ReplyMatches, Tower, Reply, Consume;
    ReadingClientCounts(
      cfg, s.client.pc, s.client.skip, r.next.pc, r.next.skip, s.server.pc, s.toServer, s.toClient, s.linkUp, received);
    ReadingKeepsFrames(cfg, s.toServer, s.toClient, received);
    hide Counts;
  }

  lemma ClientReadsVersion(cfg: Config, c: Client, a: ClientAction, up: seq<Frame>, down: seq<Frame>)
    requires cfg.Valid()
    requires c.pc.CAwaitVersion? && c.identities == cfg.clientInfo.identities
    requires ClientMessage(cfg, c.pc, c, up, down)
    ensures var r := ClientStep(cfg, c, a);
            r.ClientMoved? ==> ClientHasRead(cfg, c, r, a.ClientReceive? && a.frame.Some?, up, down)
  {
    hide MessageAt, RequestOf;
  }

  lemma ClientTakesReply(cfg: Config, c: Client, up: seq<Frame>, down: seq<Frame>)
    requires cfg.Valid()
    requires c.pc.CAwaitSignal? && c.msg == RequestOf(cfg) && ReplyFrame(cfg, Reply(down))
    ensures ClientHasRead(cfg, c, ClientAfterSignal(cfg, ClientDecodes(c, Reply(down))), true, up, down)
  {
    hide Decode, BeforeClient, RequestOf, ReplyFrame, MessageAt;
    ClientDecodesReply(cfg, Reply(down));
  }

  lemma ClientReadsReply(cfg: Config, c: Client, a: ClientAction, up: seq<Frame>, down: seq<Frame>)
    requires cfg.Valid()
    requires c.pc.CAwaitSignal? && c.identities == cfg.clientInfo.identities
    requires ClientMessage(cfg, c.pc, c, up, down)
    requires a.ClientReceive? && a.frame.Some? ==> |down| >= 2 && a.frame.value == down[1]
    requires |down| >= 2 ==> down[1].Gob? && ReplyFrame(cfg, Reply(down))
    ensures var r := ClientStep(cfg, c, a);
            r.ClientMoved? ==> ClientHasRead(cfg, c, r, a.ClientReceive? && a.frame.Some?, up, down)
  {
    hide RequestOf, ReplyFrame, ClientAfterSignal, ClientDecodes;
    if a.ClientReceive? && a.frame.Some? {
      ClientTakesReply(cfg, c, up, down);
    }
  }

  /** The verdict's flags reach the client in both modes. With tower sync the client's message is
      the one the verdict was built on, so the merge is again an overwrite; without it the client
      keeps what it added itself. */
  lemma ClientDecodesVerdict(cfg: Config, m: Message, up: seq<Frame>, down: seq<Frame>)
    requires cfg.Valid() && ReplyFrame(cfg, Reply(down)) && BeforeClient(m) == Reply(down)
    requires VerdictFrame(Verdict(down), if cfg.skipTowerSync then Reply(down) else m)
    ensures var d := Decode(m, Verdict(down));
            && d.rollbackRequired == Verdict(down).rollbackRequired
            && d.isSuccessfullyCompleted == Verdict(down).isSuccessfullyCompleted
            && d.isDryRunFailover == cfg.dryRun && d.skipTowerSync == cfg.skipTowerSync
            && SameIdentities(d.activeNodeInfo.identities, cfg.clientInfo.identities, false)
    ensures !cfg.skipTowerSync ==> Decode(m, Verdict(down)) == Verdict(down)
  {
    var v := Verdict(down);
    hide MessageAt;
    ReplyIsEncoded(cfg, Reply(down));
    AddingKeepsEncoded(m, Reply(down));
    AddingKeepsEncoded(v, if cfg.skipTowerSync then Reply(down) else m);
    OverwriteIffCovered(m, v);
  }

  lemma OutcomeHasRead(cfg: Config, c: Client, d: Client, up: seq<Frame>, down: seq<Frame>)
    requires c.pc.CAwaitOutcome? && d.skip == c.skip == cfg.skipTowerSync
    requires d.msg.rollbackRequired == Verdict(down).rollbackRequired && d.msg.isDryRunFailover == cfg.dryRun
    requires SameIdentities(d.identities, cfg.clientInfo.identities, false)
    ensures ClientHasRead(cfg, c, ClientAfterOutcome(cfg, d), true, up, down)
  {
    hide Verdict;
  }

  lemma DecodedFields(c: Client, m: Message)
    ensures var d, msg := ClientDecodes(c, m), Decode(c.msg, m);
            Same(d.msg, msg) && d.skip == c.skip && Same(d.identities, msg.activeNodeInfo.identities)
  {
    hide Decode;
  }

  lemma WaitingHoldsReply(cfg: Config, c: Client, up: seq<Frame>, down: seq<Frame>)
    requires c.pc.CAwaitOutcome? && |up| <= 3 && ClientMessage(cfg, c.pc, c, up, down)
    ensures c.skip == cfg.skipTowerSync && BeforeClient(c.msg) == Reply(down) && (|up| == 3 ==> Tower(up) == c.msg)
  {
    hide BeforeClient, MessageAt, ClientProgress;
  }

  lemma ClientTakesVerdict(cfg: Config, c: Client, up: Channel, down: Channel)
    requires cfg.Valid() && up.Valid()
    requires c.pc.CAwaitOutcome? && |up.frames| <= 3 && |down.frames| >= 3
    requires ClientMessage(cfg, c.pc, c, up.frames, down.frames)
    requires DownFrames(cfg, up, down) && ReplyFrame(cfg, Reply(down.frames))
    ensures ClientHasRead(
              cfg, c, ClientAfterOutcome(cfg, ClientDecodes(c, Verdict(down.frames))), true, up.frames, down.frames)
  {
    hide ReplyFrame, VerdictFrame, Decode, BeforeClient, MessageAt, ClientMessage, ClientHasRead, ClientAfterOutcome,
      ClientDecodes, UpFrames, SameIdentities;
    WaitingHoldsReply(cfg, c, up.frames, down.frames);
    ClientDecodesVerdict(cfg, c.msg, up.frames, down.frames);
    DecodedFields(c, Verdict(down.frames));
    OutcomeHasRead(cfg, c, ClientDecodes(c, Verdict(down.frames)), up.frames, down.frames);
  }

  lemma ClientReadsVerdict(cfg: Config, c: Client, a: ClientAction, up: Channel, down: Channel)
    requires cfg.Valid() && up.Valid()
    requires c.pc.CAwaitOutcome? && |up.frames| <= 3
    requires SameIdentities(c.identities, cfg.clientInfo.identities, false)
    requires ClientMessage(cfg, c.pc, c, up.frames, down.frames)
    requires DownFrames(cfg, up, down)
    requires |down.frames| >= 2 ==> ReplyFrame(cfg, Reply(down.frames))
    requires a.ClientReceive? && a.frame.Some? ==> |down.frames| >= 3 && a.frame.value == down.frames[2]
    ensures var r := ClientStep(cfg, c, a);
            r.ClientMoved? ==> ClientHasRead(cfg, c, r, a.ClientReceive? && a.frame.Some?, up.frames, down.frames)
  {
    hide ReplyFrame, VerdictFrame, ClientAfterOutcome, ClientDecodes, BeforeClient, Reply, SameIdentities,
      ClientProgress;
    if a.ClientReceive? && a.frame.Some? {
      ClientTakesVerdict(cfg, c, up, down);
    }
  }

  lemma ClientReadsOnlyWhenWaiting(cfg: Config, c: Client, a: ClientAction)
    ensures a.ClientReceive? && ClientStep(cfg, c, a).ClientMoved? ==>
              c.pc.CAwaitVersion? || c.pc.CAwaitSignal? || c.pc.CAwaitOutcome?
    ensures c.pc.CDone? ==> ClientStep(cfg, c, a).ClientBlocked?
  {
  }

  lemma ClientKeepsInv(cfg: Config, s: State, a: ClientAction)
    requires cfg.Valid() && Inv(cfg, s)
    ensures Inv(cfg, ClientEvent(cfg, s, a))
  {
    var up, down, c := s.toServer, s.toClient, s.client;
    var r := ClientStep(cfg, c, a);
    ClientReadsOnlyWhenWaiting(cfg, c, a);
    hide ClientStep, ClientMessage, ServerMessage, ReplyMatches, MessageAt, TowerFrame, ReplyFrame, VerdictFrame;
    if ClientReady(s, a) && r.ClientMoved? {
      var received := a.ClientReceive? && a.frame.Some?;
      match c.pc
      case CSendVersion => ClientWritesVersion(cfg, c, a, up, down, s.linkUp); WritingClientKeepsInv(cfg, s, r);
      case CSendRequest => ClientWritesRequest(cfg, c, a, up, down, s.linkUp); WritingClientKeepsInv(cfg, s, r);
      case CSendTower => ClientWritesTower(cfg, c, a, up, down, s.linkUp); WritingClientKeepsInv(cfg, s, r);
      case CAwaitVersion => ClientReadsVersion(cfg, c, a, up.frames, down.frames); ReadingClientKeepsInv(cfg, s, r, received);
      case CAwaitSignal => ClientReadsReply(cfg, c, a, up.frames, down.frames); ReadingClientKeepsInv(cfg, s, r, received);
      case CAwaitOutcome => ClientReadsVerdict(cfg, c, a, up, down); ReadingClientKeepsInv(cfg, s, r, received);
      case CDone(_) =>
      case _ => ClientActsAlone(cfg, c, a, up.frames, down.frames); QuietClientKeepsInv(cfg, s, r.next, r.faults);
    }
  }
}

/** Every action of the server keeps the protocol's invariant, one program point at a time. */
module ServerInvariant {
  import opened Wrappers
  import opened Words
  import opened Messages
  import opened Protocol
  import opened ProtocolInvariant
  import opened Flow

  // ----- While the server neither writes nor reads

  predicate ServerQuiet(cfg: Config, s: Server, r: ServerResult) {
    r.ServerMoved? ==>
      && !s.pc.SDone?
      && r.sent.None?
      && r.next.identities == s.identities
      && (r.next.pc.SDone? || (
            && Finishing(r.next.pc) == Finishing(s.pc)
            && ServerSent(r.next.pc) == ServerSent(s.pc)
            && ServerRead(r.next.pc, cfg.skipTowerSync) == ServerRead(s.pc, cfg.skipTowerSync)))
  }

  ghost predicate ServerSays(cfg: Config, r: ServerResult, tower: Message, down: seq<Frame>) {
    r.ServerMoved? ==>
      && ServerMessage(cfg, r.next.pc, r.next.msg, tower)
      && ReplyMatches(Proceeding(r.next.pc), r.next.msg.creditSamples, down)
  }

  lemma QuietServerKeepsInv(cfg: Config, s: State, r: ServerResult)
    requires cfg.Valid() && Inv(cfg, s)
    requires r.ServerMoved?
    requires ServerQuiet(cfg, s.server, r) && ServerSays(cfg, r, Tower(s.toServer.frames), s.toClient.frames)
    ensures Inv(cfg, ServerApply(s, r, false))
  {
    hide UpFrames, DownFrames, ServerMessage, ClientMessage, MessageAt, ReplyMatches;
  }

  lemma WritingTowerKeepsBefore(cfg: Config, m: Message, tower: Message, down: seq<Frame>, at: nat)
    requires FinishingMessage(cfg, m, tower) && ReplyMatches(true, m.creditSamples, down)
    ensures var w := WithTowerWritten(m, at);
            && FinishingMessage(cfg, w, tower) && ReplyMatches(true, w.creditSamples, down)
            && w.isSuccessfullyCompleted == m.isSuccessfullyCompleted && w.rollbackRequired == m.rollbackRequired
  {
  }

  lemma SwitchStartKeepsBefore(cfg: Config, m: Message, tower: Message, down: seq<Frame>, start: nat)
    requires FinishingMessage(cfg, m, tower) && ReplyMatches(true, m.creditSamples, down)
    ensures var w := WithPassiveSwitchStart(m, start);
            && FinishingMessage(cfg, w, tower) && ReplyMatches(true, w.creditSamples, down)
            && w.isSuccessfullyCompleted == m.isSuccessfullyCompleted && w.rollbackRequired == m.rollbackRequired
  {
  }

  lemma SwitchEndKeepsBefore(cfg: Config, m: Message, tower: Message, down: seq<Frame>, end: nat)
    requires FinishingMessage(cfg, m, tower) && ReplyMatches(true, m.creditSamples, down)
    ensures var w := WithPassiveSwitchEnd(m, end);
            && FinishingMessage(cfg, w, tower) && ReplyMatches(true, w.creditSamples, down)
            && w.isSuccessfullyCompleted == m.isSuccessfullyCompleted && w.rollbackRequired == m.rollbackRequired
  {
  }

  lemma RollbackKeepsBefore(cfg: Config, m: Message, tower: Message, down: seq<Frame>)
    requires FinishingMessage(cfg, m, tower) && ReplyMatches(true, m.creditSamples, down)
    ensures var w := WithRollbackRequired(m);
            && FinishingMessage(cfg, w, tower) && ReplyMatches(true, w.creditSamples, down)
            && w.isSuccessfullyCompleted == m.isSuccessfullyCompleted && w.rollbackRequired
  {
  }

  lemma EndSlotKeepsBefore(cfg: Config, m: Message, tower: Message, down: seq<Frame>, q: Option<uint64>)
    requires FinishingMessage(cfg, m, tower) && ReplyMatches(true, m.creditSamples, down)
    ensures var w := WithQueriedEndSlot(m, q);
            && FinishingMessage(cfg, w, tower) && ReplyMatches(true, w.creditSamples, down)
            && w.isSuccessfullyCompleted == m.isSuccessfullyCompleted && w.rollbackRequired == m.rollbackRequired
  {
  }

  lemma CompletingKeepsBefore(cfg: Config, m: Message, tower: Message, down: seq<Frame>)
    requires FinishingMessage(cfg, m, tower) && ReplyMatches(true, m.creditSamples, down)
    ensures var w := WithCompleted(m);
            && FinishingMessage(cfg, w, tower) && ReplyMatches(true, w.creditSamples, down)
            && w.isSuccessfullyCompleted && w.rollbackRequired == m.rollbackRequired
  {
  }

  lemma RejectingKeepsBase(cfg: Config, m: Message, why: Reject)
    requires BaseMessage(cfg, m)
    ensures RejectMessage(cfg, WithError(m, RejectText(why)), why)
  {
    hide BaseOf, RejectText;
  }

  lemma SamplingKeepsBase(cfg: Config, m: Message, pubkey: string, x: CreditsSample)
    requires BaseMessage(cfg, m)
    ensures BaseMessage(cfg, WithSample(m, pubkey, x))
  {
    hide BaseOf;
  }

  lemma AllowingMakesGoAhead(cfg: Config, m: Message)
    requires BaseMessage(cfg, m)
    ensures GoAheadMessage(cfg, WithGoAhead(m))
  {
    hide BaseOf;
  }

  lemma ServerMissesSwitch(cfg: Config, s: Server, tookEffect: bool, tower: Message, down: seq<Frame>)
    requires s.pc.SSetActive?
    requires ServerMessage(cfg, s.pc, s.msg, tower) && ReplyMatches(true, s.msg.creditSamples, down)
    ensures ServerSays(cfg, ServerFailsToActivate(cfg, s, tookEffect), tower, down)
  {
    hide FreshMessage, SentRequest, BaseMessage, RejectMessage, GoAheadMessage, FinishingMessage, ReplyMatches,
      WithRollbackRequired;
    RollbackKeepsBefore(cfg, s.msg, tower, down);
    NothingSentMatches(s.msg.creditSamples, down);
  }

  lemma ServerSwitches(cfg: Config, s: Server, o: CommandOutcome, start: Instant, end: Instant, tower: Message, down: seq<Frame>)
    requires s.pc.SSetActive?
    requires ServerMessage(cfg, s.pc, s.msg, tower) && ReplyMatches(true, s.msg.creditSamples, down)
    ensures ServerSays(cfg, ServerSetsActive(cfg, s, o, start, end), tower, down)
  {
    hide FreshMessage, SentRequest, BaseMessage, RejectMessage, GoAheadMessage, FinishingMessage, ReplyMatches,
      WithPassiveSwitchStart, WithPassiveSwitchEnd, ServerFailsToActivate;
    var began := WithPassiveSwitchStart(s.msg, start);
    SwitchStartKeepsBefore(cfg, s.msg, tower, down, start);
    if cfg.dryRun || o.Succeeded? {
      SwitchEndKeepsBefore(cfg, began, tower, down, end);
      assert ServerSays(cfg, ServerSetsActive(cfg, s, o, start, end), tower, down);
    } else {
      ServerMissesSwitch(cfg, s.(msg := began), o.tookEffect, tower, down);
    }
  }

  lemma ServerFillsTower(cfg: Config, s: Server, w: WriteOutcome, at: Instant, tower: Message, down: seq<Frame>)
    requires s.pc.SWriteTower? && !cfg.skipTowerSync
    requires ServerMessage(cfg, s.pc, s.msg, tower) && ReplyMatches(true, s.msg.creditSamples, down)
    ensures ServerSays(cfg, ServerWritesTower(s, w, at), tower, down)
  {
    hide FreshMessage, SentRequest, BaseMessage, RejectMessage, GoAheadMessage, FinishingMessage, ReplyMatches,
      WithTowerWritten;
    if w.Written? {
      WritingTowerKeepsBefore(cfg, s.msg, tower, down, at);
      assert ServerSays(cfg, ServerWritesTower(s, w, at), tower, down);
    } else {
      NothingSentMatches(s.msg.creditSamples, down);
    }
  }

  lemma ServerConcludes(cfg: Config, s: Server, q: Option<uint64>, tower: Message, down: seq<Frame>)
    requires s.pc.SEndSlot?
    requires ServerMessage(cfg, s.pc, s.msg, tower) && ReplyMatches(true, s.msg.creditSamples, down)
    ensures ServerSays(cfg, ServerRecordsEndSlot(s, q), tower, down)
  {
    hide FreshMessage, SentRequest, BaseMessage, RejectMessage, GoAheadMessage, FinishingMessage, ReplyMatches,
      WithCompleted, WithQueriedEndSlot;
    EndSlotKeepsBefore(cfg, s.msg, tower, down, q);
    CompletingKeepsBefore(cfg, WithQueriedEndSlot(s.msg, q), tower, down);
  }

  lemma ServerReverts(cfg: Config, s: Server, o: CommandOutcome, tower: Message, down: seq<Frame>)
    requires s.pc.SRollback?
    ensures ServerSays(cfg, ServerRollsBack(cfg, s, o), tower, down)
  {
    hide FreshMessage, SentRequest, BaseMessage, RejectMessage, GoAheadMessage, FinishingMessage, ReplyMatches;
    NothingSentMatches(s.msg.creditSamples, down);
  }

  lemma ServerRefuses(cfg: Config, s: Server, why: Reject, faults: set<Fault>, tower: Message, down: seq<Frame>)
    requires BaseMessage(cfg, s.msg)
    ensures ServerSays(cfg, ServerRejects(s, why, faults), tower, down)
  {
    hide FreshMessage, SentRequest, BaseMessage, RejectMessage, GoAheadMessage, FinishingMessage, ReplyMatches,
      WithError, RejectText;
    RejectingKeepsBase(cfg, s.msg, why);
    NothingSentMatches(WithError(s.msg, RejectText(why)).creditSamples, down);
  }

  lemma ServerChecksGossip(cfg: Config, s: Server, answer: Option<(string, string)>, tower: Message, down: seq<Frame>)
    requires s.pc.SGossip? && BaseMessage(cfg, s.msg)
    ensures ServerSays(cfg, ServerAfterGossip(cfg, s, answer), tower, down)
  {
    hide FreshMessage, SentRequest, BaseMessage, RejectMessage, GoAheadMessage, FinishingMessage, ReplyMatches,
      GossipShows, ServerRejects;
    var seen := s.(checks := s.checks.(gossip := answer));
    ServerRefuses(cfg, s, GossipUnanswered, {GossipFault}, tower, down);
    ServerRefuses(cfg, seen, GossipDisagrees, {GossipFault}, tower, down);
    ServerRefuses(cfg, seen, RollbackDiffers, {}, tower, down);
    NothingSentMatches(s.msg.creditSamples, down);
  }

  lemma ServerAsks(cfg: Config, s: Server, a: ServerAction, tower: Message, down: seq<Frame>)
    requires s.pc.SConfirm? && BaseMessage(cfg, s.msg)
    ensures ServerSays(cfg, ServerStep(cfg, s, a), tower, down)
  {
    hide FreshMessage, SentRequest, BaseMessage, RejectMessage, GoAheadMessage, FinishingMessage, ReplyMatches,
      ServerRejects;
    ServerRefuses(cfg, s.(checks := s.checks.(plan := Some(s.msg), confirmed := false)), Declined, {DeclinedFault}, tower, down);
    NothingSentMatches(s.msg.creditSamples, down);
  }

  lemma ServerSamples(cfg: Config, s: Server, a: ServerAction, tower: Message, down: seq<Frame>)
    requires s.pc.SSample? && BaseMessage(cfg, s.msg)
    ensures ServerSays(cfg, ServerStep(cfg, s, a), tower, down)
  {
    hide FreshMessage, SentRequest, BaseMessage, RejectMessage, GoAheadMessage, FinishingMessage, ReplyMatches,
      ServerRejects, WithSample;
    ServerRefuses(cfg, s, SampleUnavailable, {SampleFault}, tower, down);
    if a.ServerSample? && a.sample.Some? {
      var pubkey := s.msg.activeNodeInfo.ActivePubKey();
      SamplingKeepsBase(cfg, s.msg, pubkey, a.sample.value);
      NothingSentMatches(WithSample(s.msg, pubkey, a.sample.value).creditSamples, down);
    }
  }

  lemma ServerPrepares(cfg: Config, s: Server, ok: bool, tower: Message, down: seq<Frame>)
    requires s.pc.SPrepareTower? && BaseMessage(cfg, s.msg)
    ensures ServerSays(cfg, ServerPreparesTower(cfg, s, ok), tower, down)
  {
    hide FreshMessage, SentRequest, BaseMessage, RejectMessage, GoAheadMessage, FinishingMessage, ReplyMatches,
      ServerRejects;
    ServerRefuses(cfg, s, TowerNotPrepared, {PrepareFault}, tower, down);
    NothingSentMatches(s.msg.creditSamples, down);
  }

  lemma ServerHooks(cfg: Config, s: Server, ok: bool, tower: Message, down: seq<Frame>)
    requires s.pc.SPreHooks? && BaseMessage(cfg, s.msg)
    ensures ServerSays(cfg, ServerRunsHook(cfg, s, ok), tower, down)
  {
    hide FreshMessage, SentRequest, BaseMessage, RejectMessage, GoAheadMessage, FinishingMessage, ReplyMatches,
      ServerRejects;
    ServerRefuses(cfg, s.(checks := s.checks.(hooksRun := s.checks.hooksRun + [ok])), ServerHookFailed, {HookFault}, tower, down);
    NothingSentMatches(s.msg.creditSamples, down);
  }

  lemma ServerAllows(cfg: Config, s: Server, tower: Message, down: seq<Frame>)
    requires s.pc.SPreHooks? && BaseMessage(cfg, s.msg)
    ensures ServerSays(cfg, ServerStep(cfg, s, ServerHooksOver), tower, down)
  {
    hide FreshMessage, SentRequest, BaseMessage, RejectMessage, GoAheadMessage, FinishingMessage, ReplyMatches,
      WithGoAhead;
    AllowingMakesGoAhead(cfg, s.msg);
    NothingSentMatches(WithGoAhead(s.msg).creditSamples, down);
  }

  /** Program points at which the server neither writes nor reads. */
  predicate ServerAlone(pc: ServerPc) {
    || pc.SGossip? || pc.SConfirm? || pc.SSample? || pc.SPrepareTower? || pc.SPreHooks?
    || pc.SWriteTower? || pc.SSetActive? || pc.SEndSlot? || pc.SRollback?
  }

  /** Frame counts and identities while the server neither writes nor reads. */
  lemma ServerActsQuietly(cfg: Config, s: Server, a: ServerAction)
    requires ServerAlone(s.pc)
    ensures ServerQuiet(cfg, s, ServerStep(cfg, s, a))
  {
    hide ServerStep, GossipShows, HookRan, SameRoles, SameChecks, ServerCheckEdge, ServerFinishEdge;
    if ServerStep(cfg, s, a).ServerMoved? {
      ServerFollowsEdge(cfg, s, a);
      if Checking(s.pc) {
        CheckingIsQuiet(cfg, s, a);
      } else {
        FinishingIsQuiet(cfg, s, a);
      }
    }
  }

  lemma CheckingIsQuiet(cfg: Config, s: Server, a: ServerAction)
    requires ServerAlone(s.pc) && Checking(s.pc) && ServerStep(cfg, s, a).ServerMoved?
    requires ServerCheckEdge(cfg, s, a, ServerStep(cfg, s, a))
    ensures ServerQuiet(cfg, s, ServerStep(cfg, s, a))
  {
    hide ServerStep, GossipShows, HookRan, SameRoles, SameChecks;
  }

  lemma FinishingIsQuiet(cfg: Config, s: Server, a: ServerAction)
    requires ServerAlone(s.pc) && !Checking(s.pc) && ServerStep(cfg, s, a).ServerMoved?
    requires ServerFinishEdge(cfg, s, a, ServerStep(cfg, s, a))
    ensures ServerQuiet(cfg, s, ServerStep(cfg, s, a))
  {
    hide ServerStep, SameRoles, SameChecks;
  }

  lemma ServerSpeaks(cfg: Config, s: Server, a: ServerAction, tower: Message, down: seq<Frame>)
    requires ServerAlone(s.pc)
    requires ServerMessage(cfg, s.pc, s.msg, tower) && ReplyMatches(Proceeding(s.pc), s.msg.creditSamples, down)
    ensures ServerSays(cfg, ServerStep(cfg, s, a), tower, down)
  {
    hide FreshMessage, SentRequest, BaseMessage, RejectMessage, GoAheadMessage, FinishingMessage, ReplyMatches,
      ServerSays, ServerSends, ServerAfterVersion, ServerAfterGossip, ServerPreparesTower, ServerRunsHook,
      ServerReceivesTower, ServerWritesTower, ServerSetsActive, ServerRecordsEndSlot, ServerRollsBack,
      ServerTakesSample, ServerRejects, ServerStays, ServerFails, WithGoAhead;
    match (s.pc, a)
    case (SGossip, ServerGossip(answer)) => ServerChecksGossip(cfg, s, answer, tower, down);
    case (SConfirm, _) => ServerAsks(cfg, s, a, tower, down);
    case (SSample, _) => ServerSamples(cfg, s, a, tower, down);
    case (SPrepareTower, ServerPrepareTower(ok)) => ServerPrepares(cfg, s, ok, tower, down);
    case (SPreHooks, ServerHook(ok)) => ServerHooks(cfg, s, ok, tower, down);
    case (SPreHooks, ServerHooksOver) => ServerAllows(cfg, s, tower, down);
    case (SWriteTower, ServerWriteTower(w, at)) => ServerFillsTower(cfg, s, w, at, tower, down);
    case (SSetActive, ServerCommand(o, start, end)) => ServerSwitches(cfg, s, o, start, end, tower, down);
    case (SEndSlot, ServerEndSlot(q)) => ServerConcludes(cfg, s, q, tower, down);
    case (SRollback, ServerCommand(o, _, _)) => ServerReverts(cfg, s, o, tower, down);
    case _ => BlockedSays(cfg, tower, down);
  }

  lemma BlockedSays(cfg: Config, tower: Message, down: seq<Frame>)
    ensures ServerSays(cfg, ServerBlocked, tower, down)
  {
  }

  // The server writes.

  ghost predicate DownFrameFits(cfg: Config, n: nat, f: Frame, up: Channel, down: seq<Frame>) {
    match n
    case 0 => f == Version(cfg.serverWire)
    case 1 => f.Gob? && ReplyFrame(cfg, f.message)
    case 2 =>
      && f.Gob? && Reply(down).canProceed
      && (!cfg.skipTowerSync ==> up.read == 3)
      && VerdictFrame(f.message, if cfg.skipTowerSync then Reply(down) else Tower(up.frames))
    case _ => false
  }

  lemma DownFrameKeepsFrames(cfg: Config, up: Channel, down: Channel, f: Option<Frame>, linkUp: bool)
    requires down.Valid() && |down.frames| <= 2
    requires UpFrames(cfg, up, down) && DownFrames(cfg, up, down)
    requires f.Some? && linkUp ==> DownFrameFits(cfg, |down.frames|, f.value, up, down.frames)
    ensures UpFrames(cfg, up, down.Append(f, linkUp)) && DownFrames(cfg, up, down.Append(f, linkUp))
  {
    hide ReplyFrame, TowerFrame, VerdictFrame, Encode, RequestOf;
  }

  lemma DownFrameKeepsClientMessage(cfg: Config, c: Client, up: seq<Frame>, down: Channel, f: Option<Frame>, linkUp: bool)
    requires down.Valid() && |down.frames| <= 2
    requires ReadUpTo(down.read, ClientRead(c.pc), c.pc.CDone?)
    requires ClientMessage(cfg, c.pc, c, up, down.frames)
    ensures ClientMessage(cfg, c.pc, c, up, down.Append(f, linkUp).frames)
  {
    hide FreshMessage, OwnRequest, ClientAdds, TowerSent, ClientProgress;
  }

  ghost predicate ServerWrote(cfg: Config, s: Server, r: ServerResult, up: Channel, down: Channel, linkUp: bool) {
    var n := ServerSent(s.pc);
    && r.ServerMoved?
    && n <= 2
    && (r.sent.Some? && linkUp ==> DownFrameFits(cfg, n, r.sent.value, up, down.frames))
    && r.next.identities == s.identities
    && ServerMessage(cfg, r.next.pc, r.next.msg, Tower(up.frames))
    && ReplyMatches(Proceeding(r.next.pc), r.next.msg.creditSamples, down.Append(r.sent, linkUp).frames)
    && (r.next.pc.SDone? || (
          && ServerSent(r.next.pc) == n + 1 && (r.sent.Some? || r.next.pc.SRollback?)
          && (Finishing(r.next.pc) == Finishing(s.pc) || cfg.skipTowerSync)
          && ServerRead(r.next.pc, cfg.skipTowerSync) == ServerRead(s.pc, cfg.skipTowerSync)))
  }

  predicate ServerWriting(pc: ServerPc) {
    pc.SSendVersion? || pc.SReject? || pc.SSendProceed? || pc.SSendDone? || pc.SSendRollback?
  }

  lemma WritingServerCounts(
      cfg: Config, c: ClientPc, skip: bool, v: ServerPc, n: ServerPc, up: Channel, down: Channel, f: Option<Frame>, linkUp: bool)
    requires Counts(cfg, c, skip, v, up, down, linkUp)
    requires !v.SRollback? && !v.SDone? && ServerSent(v) <= 2
    requires n.SDone? || (
               ServerSent(n) == ServerSent(v) + 1 && (f.Some? || n.SRollback?)
               && ServerRead(n, cfg.skipTowerSync) == ServerRead(v, cfg.skipTowerSync))
    ensures Counts(cfg, c, skip, n, up, down.Append(f, linkUp), linkUp)
  {
    hide ClientSent, ClientRead;
  }

  lemma WritingServerKeepsInv(cfg: Config, s: State, r: ServerResult)
    requires cfg.Valid() && Inv(cfg, s)
    requires ServerWriting(s.server.pc)
    requires ServerWrote(cfg, s.server, r, s.toServer, s.toClient, s.linkUp)
    ensures Inv(cfg, ServerApply(s, r, false))
  {
    hide UpFrames, DownFrames, ServerMessage, ClientMessage, MessageAt, ReplyMatches, DownFrameFits, Tower, Reply,
      Channel.Append;
    WritingServerCounts(cfg, s.client.pc, s.client.skip, s.server.pc, r.next.pc, s.toServer, s.toClient, r.sent, s.linkUp);
    WritingFrames(cfg, s, r);
    hide Counts;
    AppendKeepsFrames(s.toClient, r.sent, s.linkUp);
  }

  lemma WritingFrames(cfg: Config, s: State, r: ServerResult)
    requires Inv(cfg, s) && ServerWriting(s.server.pc)
    requires ServerWrote(cfg, s.server, r, s.toServer, s.toClient, s.linkUp)
    ensures var down := s.toClient.Append(r.sent, s.linkUp);
            && UpFrames(cfg, s.toServer, down) && DownFrames(cfg, s.toServer, down)
            && ClientMessage(cfg, s.client.pc, s.client, s.toServer.frames, down.frames)
  {
    hide UpFrames, DownFrames, ServerMessage, ClientMessage, MessageAt, ReplyMatches, DownFrameFits, SameIdentities;
    DownFrameKeepsFrames(cfg, s.toServer, s.toClient, r.sent, s.linkUp);
    DownFrameKeepsClientMessage(cfg, s.client, s.toServer.frames, s.toClient, r.sent, s.linkUp);
  }

  lemma PreparesServerPart(cfg: Config, m: Message, held: Option<Identities>)
    requires SentRequest(cfg, m) && held == cfg.serverInfo.identities
    ensures BaseMessage(cfg, WithServerPart(m, cfg.dryRun, cfg.skipTowerSync, cfg.serverInfo.(identities := held)))
  {
    hide Encode, RequestOf;
    assert cfg.serverInfo.(identities := held) == cfg.serverInfo;
  }

  lemma AcceptingVersionWrote(cfg: Config, s: Server, m: Message, up: Channel, down: Channel, linkUp: bool)
    requires s.pc.SSendVersion? && BaseMessage(cfg, m)
    ensures ServerWrote(cfg, s, ServerMoved(s.(pc := SGossip, msg := m), Some(Version(cfg.serverWire)), {}), up, down, linkUp)
  {
    hide BaseMessage, ReplyMatches, MessageAt, VerdictFrame, ReplyFrame;
    NothingSentMatches(m.creditSamples, down.Append(Some(Version(cfg.serverWire)), linkUp).frames);
  }

  lemma RefusingVersionWrote(cfg: Config, s: Server, m: Message, up: Channel, down: Channel, linkUp: bool)
    requires s.pc.SSendVersion? && BaseMessage(cfg, m)
    ensures var refusing := s.(pc := SReject(OtherVersion), msg := WithError(m, RejectText(OtherVersion)));
            ServerWrote(cfg, s, ServerMoved(refusing, Some(Version(cfg.serverWire)), {}), up, down, linkUp)
  {
    hide BaseMessage, RejectMessage, ReplyMatches, MessageAt, VerdictFrame, ReplyFrame, WithError, RejectText;
    RejectingKeepsBase(cfg, m, OtherVersion);
    NothingSentMatches(
      WithError(m, RejectText(OtherVersion)).creditSamples, down.Append(Some(Version(cfg.serverWire)), linkUp).frames);
  }

  lemma ServerAddsItsPart(cfg: Config, s: Server, up: Channel, down: Channel, linkUp: bool)
    requires s.pc.SSendVersion? && SentRequest(cfg, s.msg) && s.identities == cfg.serverInfo.identities
    ensures ServerWrote(cfg, s, ServerAfterVersion(cfg, s), up, down, linkUp)
  {
    hide SentRequest, BaseMessage, ServerWrote, WithServerPart, WithError, RejectText, SameVersion;
    var m := WithServerPart(s.msg, cfg.dryRun, cfg.skipTowerSync, cfg.serverInfo.(identities := s.identities));
    PreparesServerPart(cfg, s.msg, s.identities);
    AcceptingVersionWrote(cfg, s, m, up, down, linkUp);
    RefusingVersionWrote(cfg, s, m, up, down, linkUp);
  }

  lemma ServerWritesVersion(cfg: Config, s: Server, o: SendOutcome, up: Channel, down: Channel, linkUp: bool)
    requires s.pc.SSendVersion? && SentRequest(cfg, s.msg) && s.identities == cfg.serverInfo.identities
    ensures ServerWrote(cfg, s, ServerStep(cfg, s, ServerSend(o)), up, down, linkUp)
  {
    hide FreshMessage, SentRequest, BaseMessage, RejectMessage, GoAheadMessage, FinishingMessage, ReplyMatches,
      ServerAfterVersion, ServerSends;
    if o.Sent? {
      ServerAddsItsPart(cfg, s, up, down, linkUp);
    } else {
      NothingSentMatches(s.msg.creditSamples, down.Append(ServerStep(cfg, s, ServerSend(o)).sent, linkUp).frames);
    }
  }

  /** A rejection, or a go-ahead, as it goes out. */
  lemma ReplyGoesOut(cfg: Config, m: Message)
    requires GoAheadMessage(cfg, m) || exists why :: RejectMessage(cfg, m, why)
    ensures ReplyFrame(cfg, Encode(m)) && Encode(m).creditSamples == m.creditSamples
    ensures GoAheadMessage(cfg, m) ==> Encode(m).canProceed
  {
  }

  lemma RejectionWrote(cfg: Config, s: Server, o: SendOutcome, up: Channel, down: Channel, linkUp: bool)
    requires s.pc.SReject? && RejectMessage(cfg, s.msg, s.pc.why)
    ensures ServerWrote(cfg, s, ServerSends(s, o, SDone(Rejected(s.pc.why)), SDone(Rejected(s.pc.why)), ReplySendFault), up, down, linkUp)
  {
    hide RejectText, RejectMessage, GoAheadMessage, ReplyMatches, ReplyFrame, VerdictFrame, MessageAt, Encode;
    ReplyGoesOut(cfg, s.msg);
    var end := SDone(Rejected(s.pc.why));
    NothingSentMatches(s.msg.creditSamples, down.Append(ServerSends(s, o, end, end, ReplySendFault).sent, linkUp).frames);
  }

  lemma ServerWritesRejection(cfg: Config, s: Server, o: SendOutcome, up: Channel, down: Channel, linkUp: bool)
    requires s.pc.SReject? && RejectMessage(cfg, s.msg, s.pc.why)
    ensures ServerWrote(cfg, s, ServerStep(cfg, s, ServerSend(o)), up, down, linkUp)
  {
    hide RejectMessage, ServerWrote, ServerSends;
    RejectionWrote(cfg, s, o, up, down, linkUp);
  }

  lemma GoAheadIsFinishing(cfg: Config, m: Message, tower: Message)
    requires GoAheadMessage(cfg, m) && cfg.skipTowerSync
    ensures FinishingMessage(cfg, m, tower) && !m.isSuccessfullyCompleted && !m.rollbackRequired
  {
  }

  lemma GoAheadMatches(cfg: Config, m: Message, down: Channel, f: Option<Frame>, linkUp: bool)
    requires GoAheadMessage(cfg, m)
    requires down.Valid() && |down.frames| <= 1 && (linkUp ==> |down.frames| == 1)
    requires f.Some? ==> f == Some(Gob(Encode(m)))
    ensures ReplyMatches(true, m.creditSamples, down.Append(f, linkUp).frames)
  {
    hide Encode, GoAheadMessage, ReplyFrame;
    ReplyGoesOut(cfg, m);
  }

  lemma ServerMissesGoAhead(cfg: Config, s: Server, o: SendOutcome, next: ServerPc, up: Channel, down: Channel, linkUp: bool)
    requires s.pc.SSendProceed? && GoAheadMessage(cfg, s.msg) && o.SendFailed?
    ensures ServerWrote(cfg, s, ServerSends(s, o, next, SDone(ProceedUnsent), ReplySendFault), up, down, linkUp)
  {
    hide FreshMessage, SentRequest, BaseMessage, RejectMessage, GoAheadMessage, FinishingMessage, ReplyMatches,
      ReplyFrame, Encode;
    ReplyGoesOut(cfg, s.msg);
    NothingSentMatches(
      s.msg.creditSamples, down.Append(ServerSends(s, o, next, SDone(ProceedUnsent), ReplySendFault).sent, linkUp).frames);
  }

  lemma ServerWritesGoAhead(cfg: Config, s: Server, o: SendOutcome, next: ServerPc, up: Channel, down: Channel, linkUp: bool)
    requires down.Valid() && |down.frames| <= 1 && (linkUp ==> |down.frames| == 1)
    requires s.pc.SSendProceed? && GoAheadMessage(cfg, s.msg) && o.Sent?
    requires next == if cfg.skipTowerSync then SSetActive else SAwaitTower
    ensures ServerWrote(cfg, s, ServerSends(s, o, next, SDone(ProceedUnsent), ReplySendFault), up, down, linkUp)
  {
    hide FreshMessage, SentRequest, BaseMessage, RejectMessage, GoAheadMessage, FinishingMessage, ReplyMatches,
      ReplyFrame, Encode;
    ReplyGoesOut(cfg, s.msg);
    GoAheadMatches(cfg, s.msg, down, Some(Gob(Encode(s.msg))), linkUp);
    if cfg.skipTowerSync {
      GoAheadIsFinishing(cfg, s.msg, Tower(up.frames));
      assert ServerWrote(cfg, s, ServerSends(s, o, next, SDone(ProceedUnsent), ReplySendFault), up, down, linkUp);
    }
  }

  /** The verdict is the go-ahead, or the tower message, with the outcome added. */
  lemma VerdictGoesOut(cfg: Config, m: Message, up: Channel, down: seq<Frame>)
    requires |down| == 2 && ReplyFrame(cfg, Reply(down)) && ReplyMatches(true, m.creditSamples, down)
    requires FinishingMessage(cfg, m, Tower(up.frames))
    requires !cfg.skipTowerSync ==> up.read == 3 && Encode(Tower(up.frames)) == Tower(up.frames)
    requires m.isSuccessfullyCompleted <==> !m.rollbackRequired
    ensures DownFrameFits(cfg, 2, Gob(Encode(m)), up, down)
  {
    hide MessageAt;
    if cfg.skipTowerSync {
      assert Encode(GoAhead(cfg, m.creditSamples)) == Reply(down);
    }
  }

  lemma VerdictKeepsReply(samples: map<string, seq<CreditsSample>>, down: Channel, f: Option<Frame>, linkUp: bool)
    requires down.Valid() && ReplyMatches(true, samples, down.frames) && (linkUp ==> |down.frames| == 2)
    ensures ReplyMatches(true, samples, down.Append(f, linkUp).frames)
    ensures ReplyMatches(false, samples, down.Append(f, linkUp).frames)
  {
  }

  lemma ServerWritesCompletion(cfg: Config, s: Server, o: SendOutcome, up: Channel, down: Channel, linkUp: bool)
    requires down.Valid() && (linkUp ==> |down.frames| == 2 && ReplyFrame(cfg, Reply(down.frames)))
    requires s.pc.SSendDone? && ServerMessage(cfg, s.pc, s.msg, Tower(up.frames))
    requires ReplyMatches(true, s.msg.creditSamples, down.frames)
    requires !cfg.skipTowerSync ==> up.read == 3 && Encode(Tower(up.frames)) == Tower(up.frames)
    ensures ServerWrote(cfg, s, ServerSends(s, o, SDone(Activated), SDone(CompletionUnsent), VerdictSendFault), up, down, linkUp)
  {
    hide MessageAt, FreshMessage, SentRequest, BaseMessage, RejectMessage, GoAheadMessage, FinishingMessage,
      ReplyMatches, ReplyFrame, Encode, DownFrameFits;
    VerdictKeepsReply(
      s.msg.creditSamples, down, ServerSends(s, o, SDone(Activated), SDone(CompletionUnsent), VerdictSendFault).sent,
      linkUp);
    if linkUp {
      VerdictGoesOut(cfg, s.msg, up, down.frames);
    }
  }

  lemma ServerWritesRollback(cfg: Config, s: Server, o: SendOutcome, up: Channel, down: Channel, linkUp: bool)
    requires down.Valid() && (linkUp ==> |down.frames| == 2 && ReplyFrame(cfg, Reply(down.frames)))
    requires s.pc.SSendRollback? && ServerMessage(cfg, s.pc, s.msg, Tower(up.frames))
    requires ReplyMatches(true, s.msg.creditSamples, down.frames)
    requires !cfg.skipTowerSync ==> up.read == 3 && Encode(Tower(up.frames)) == Tower(up.frames)
    ensures ServerWrote(cfg, s, ServerSends(s, o, SRollback, SRollback, VerdictSendFault), up, down, linkUp)
  {
    hide MessageAt, FreshMessage, SentRequest, BaseMessage, RejectMessage, GoAheadMessage, FinishingMessage,
      ReplyMatches, ReplyFrame, Encode, DownFrameFits;
    VerdictKeepsReply(s.msg.creditSamples, down, ServerSends(s, o, SRollback, SRollback, VerdictSendFault).sent, linkUp);
    if linkUp {
      VerdictGoesOut(cfg, s.msg, up, down.frames);
    }
  }

  lemma ServerWrites(cfg: Config, s: Server, o: SendOutcome, up: Channel, down: Channel, linkUp: bool)
    requires ServerWriting(s.pc)
    requires WrittenUpTo(down, ServerSent(s.pc), false, linkUp)
    requires s.identities == cfg.serverInfo.identities || !s.pc.SSendVersion?
    requires ServerMessage(cfg, s.pc, s.msg, Tower(up.frames))
    requires ReplyMatches(Proceeding(s.pc), s.msg.creditSamples, down.frames)
    requires |down.frames| >= 2 ==> ReplyFrame(cfg, Reply(down.frames))
    requires Finishing(s.pc) && !cfg.skipTowerSync ==> up.read == 3 && Encode(Tower(up.frames)) == Tower(up.frames)
    ensures ServerWrote(cfg, s, ServerStep(cfg, s, ServerSend(o)), up, down, linkUp)
  {
    hide FreshMessage, SentRequest, BaseMessage, RejectMessage, GoAheadMessage, FinishingMessage, ReplyMatches,
      ReplyFrame, Encode, ServerWrote, ServerSends, ServerAfterVersion;
    match s.pc
    case SSendVersion => ServerWritesVersion(cfg, s, o, up, down, linkUp);
    case SReject(_) => ServerWritesRejection(cfg, s, o, up, down, linkUp);
    case SSendProceed =>
      var next := if cfg.skipTowerSync then SSetActive else SAwaitTower;
      if o.Sent? { ServerWritesGoAhead(cfg, s, o, next, up, down, linkUp); }
      else { ServerMissesGoAhead(cfg, s, o, next, up, down, linkUp); }
    case SSendDone => ServerWritesCompletion(cfg, s, o, up, down, linkUp);
    case SSendRollback => ServerWritesRollback(cfg, s, o, up, down, linkUp);
  }

  // The server reads.

  ghost predicate ServerHasRead(cfg: Config, s: Server, r: ServerResult, received: bool, up: seq<Frame>, down: seq<Frame>) {
    && r.ServerMoved? && r.sent.None?
    && SameIdentities(r.next.identities, cfg.serverInfo.identities,
                      !r.next.pc.SDone? && (cfg.skipTowerSync || !Finishing(r.next.pc)))
    && ServerMessage(cfg, r.next.pc, r.next.msg, Tower(up))
    && ReplyMatches(Proceeding(r.next.pc), r.next.msg.creditSamples, down)
    && (r.next.pc.SDone? || (
          && received
          && ServerSent(r.next.pc) == ServerSent(s.pc)
          && ServerRead(r.next.pc, cfg.skipTowerSync) == ServerRead(s.pc, cfg.skipTowerSync) + 1))
  }

  predicate ServerReading(pc: ServerPc) {
    pc.SAwaitVersion? || pc.SAwaitRequest? || pc.SAwaitTower?
  }

  lemma ReadingServerCounts(
      cfg: Config, c: ClientPc, skip: bool, v: ServerPc, n: ServerPc, up: Channel, down: Channel, linkUp: bool, received: bool)
    requires Counts(cfg, c, skip, v, up, down, linkUp) && ServerReading(v)
    requires received ==> up.read < |up.frames|
    requires n.SDone? || (
               received && ServerSent(n) == ServerSent(v)
               && ServerRead(n, cfg.skipTowerSync) == ServerRead(v, cfg.skipTowerSync) + 1)
    ensures Counts(cfg, c, skip, n, Consume(up, received), down, linkUp)
  {
    hide ClientSent, ClientRead;
  }

  /** The server reads only before it has written its verdict. */
  lemma ReadingKeepsFrames(cfg: Config, up: Channel, down: Channel, received: bool)
    requires UpFrames(cfg, up, down) && DownFrames(cfg, up, down) && |down.frames| <= 2
    ensures UpFrames(cfg, Consume(up, received), down) && DownFrames(cfg, Consume(up, received), down)
  {
    hide ReplyFrame, TowerFrame, VerdictFrame, MessageAt, Encode, RequestOf;
  }

  lemma ReadingServerWrote(cfg: Config, s: State)
    requires Inv(cfg, s) && ServerReading(s.server.pc)
    ensures |s.toClient.frames| <= 2
  {
    hide UpFrames, DownFrames, ServerMessage, ClientMessage, ReplyMatches, SameIdentities;
  }

  lemma ReadingServerKeepsInv(cfg: Config, s: State, r: ServerResult, received: bool)
    requires cfg.Valid() && Inv(cfg, s)
    requires ServerReading(s.server.pc)
    requires received ==> s.toServer.read < |s.toServer.frames|
    requires ServerHasRead(cfg, s.server, r, received, s.toServer.frames, s.toClient.frames)
    ensures Inv(cfg, ServerApply(s, r, received))
  {
    hide UpFrames, DownFrames, ServerMessage, ClientMessage, ReplyMatches, SameIdentities, Tower, Reply, Consume;
    ReadingServerWrote(cfg, s);
    ReadingKeepsFrames(cfg, s.toServer, s.toClient, received);
    ReadingServerCounts(
      cfg, s.client.pc, s.client.skip, s.server.pc, r.next.pc, s.toServer, s.toClient, s.linkUp, received);
    ConsumeKeepsFrames(s.toServer, received);
    hide Counts;
  }

  lemma ConsumeKeepsFrames(ch: Channel, received: bool)
    ensures Consume(ch, received).frames == ch.frames
  {
  }

  lemma ServerDecodesRequest(cfg: Config, m: Message)
    requires FreshMessage(m)
    ensures SentRequest(cfg, Decode(m, Encode(RequestOf(cfg))))
  {
    hide Encode, RequestOf, Decode;
    FreshDecode(RequestOf(cfg));
  }

  /** The tower message holds everything the server sent and what the client added since: the
      merge acts as an overwrite, and the hash the client computed is the one the server checks. */
  lemma ServerDecodesTower(cfg: Config, m: Message, t: Message, r: Message)
    requires cfg.Valid() && GoAheadMessage(cfg, m) && ReplyFrame(cfg, r) && r.canProceed
    requires r.creditSamples == m.creditSamples && TowerFrame(cfg, t, r)
    ensures Decode(m, t) == t
    ensures SameIdentities(t.passiveNodeInfo.identities, cfg.serverInfo.identities, false)
    ensures FinishingMessage(cfg, t, t) || cfg.skipTowerSync
    ensures t.creditSamples == m.creditSamples && !t.isSuccessfullyCompleted && !t.rollbackRequired
    ensures Encode(t) == t
  {
    ReplyIsEncoded(cfg, r);
    TowerTellsMore(cfg, m, t, r);
    TowerOnlyAdds(cfg, t, r);
    hide Decode, Covered, BeforeClient, BeforeServer, Encode, GoAheadMessage, FinishingMessage, ReplyFrame, SwitchTimed,
      TowerFilled;
    AddingKeepsEncoded(t, r);
    OverwriteIffCovered(m, t);
  }

  lemma TowerTellsMore(cfg: Config, m: Message, t: Message, r: Message)
    requires cfg.Valid() && GoAheadMessage(cfg, m) && ReplyFrame(cfg, r) && r.canProceed
    requires r.creditSamples == m.creditSamples && TowerFrame(cfg, t, r)
    ensures Covered(m, t)
  {
  }

  lemma TowerOnlyAdds(cfg: Config, t: Message, r: Message)
    requires cfg.Valid() && ReplyFrame(cfg, r) && TowerFrame(cfg, t, r)
    ensures SameIdentities(t.passiveNodeInfo.identities, cfg.serverInfo.identities, false)
    ensures FinishingMessage(cfg, t, t) || cfg.skipTowerSync
    ensures t.creditSamples == r.creditSamples && !t.isSuccessfullyCompleted && !t.rollbackRequired
  {
  }

  /** A read that changed no more than the program point. */
  lemma ReadingOnHasRead(cfg: Config, s: Server, pc: ServerPc, received: bool, up: seq<Frame>, down: seq<Frame>)
    requires cfg.Valid() && s.identities == cfg.serverInfo.identities
    requires pc.SDone? || (s.pc.SAwaitVersion? && pc.SAwaitRequest? && received && FreshMessage(s.msg))
    ensures ServerHasRead(cfg, s, ServerStays(s, pc), received, up, down)
  {
    hide FreshMessage, ReplyMatches, MessageAt;
    NothingSentMatches(s.msg.creditSamples, down);
  }

  lemma RequestHasRead(cfg: Config, s: Server, up: seq<Frame>, down: seq<Frame>)
    requires cfg.Valid() && s.identities == cfg.serverInfo.identities && s.pc.SAwaitRequest? && FreshMessage(s.msg)
    ensures ServerHasRead(
              cfg, s, ServerStays(s.(msg := Decode(s.msg, Encode(RequestOf(cfg)))), SSendVersion), true, up, down)
  {
    hide FreshMessage, SentRequest, ReplyMatches, MessageAt, Encode, RequestOf, Decode;
    ServerDecodesRequest(cfg, s.msg);
    NothingSentMatches(Decode(s.msg, Encode(RequestOf(cfg))).creditSamples, down);
  }

  lemma ServerReadsVersion(cfg: Config, s: Server, a: ServerAction, up: seq<Frame>, down: seq<Frame>)
    requires cfg.Valid()
    requires s.pc.SAwaitVersion? && FreshMessage(s.msg) && s.identities == cfg.serverInfo.identities
    ensures var r := ServerStep(cfg, s, a);
            r.ServerMoved? ==> ServerHasRead(cfg, s, r, a.ServerReceive? && a.frame.Some?, up, down)
  {
    hide FreshMessage, ServerHasRead, ServerStays;
    if a.ServerReceive? {
      ReadingOnHasRead(cfg, s, SDone(NoRequest), a.frame.Some?, up, down);
      if a.frame.Some? && a.frame.value.Version? {
        ReadingOnHasRead(cfg, s, if a.frame.value.version == cfg.serverWire then SAwaitRequest else SDone(OtherWire), true, up, down);
      }
    }
  }

  lemma ServerReadsRequest(cfg: Config, s: Server, a: ServerAction, up: seq<Frame>, down: seq<Frame>)
    requires cfg.Valid()
    requires s.pc.SAwaitRequest? && FreshMessage(s.msg) && s.identities == cfg.serverInfo.identities
    requires a.ServerReceive? && a.frame.Some? ==> a.frame.value == Gob(Encode(RequestOf(cfg)))
    ensures var r := ServerStep(cfg, s, a);
            r.ServerMoved? ==> ServerHasRead(cfg, s, r, a.ServerReceive? && a.frame.Some?, up, down)
  {
    hide FreshMessage, ServerHasRead, ServerStays, Decode, Encode, RequestOf;
    if a.ServerReceive? {
      ReadingOnHasRead(cfg, s, SDone(NoRequest), a.frame.Some?, up, down);
      RequestHasRead(cfg, s, up, down);
    }
  }

  lemma TowerIsTaken(cfg: Config, s: Server, t: Message)
    requires Decode(s.msg, t) == t && cfg.towerHash(t.activeNodeInfo.towerFileBytes) == t.activeNodeInfo.towerFileHash
    ensures var n := s.(msg := t, identities := t.passiveNodeInfo.identities);
            Same(ServerReceivesTower(cfg, s, t), ServerStays(n, SWriteTower))
  {
    hide Decode;
  }

  lemma TakenHasRead(cfg: Config, s: Server, t: Message, up: seq<Frame>, down: seq<Frame>)
    requires s.pc.SAwaitTower? && !cfg.skipTowerSync && t == Tower(up)
    requires FinishingMessage(cfg, t, t) && !t.isSuccessfullyCompleted && !t.rollbackRequired
    requires ReplyMatches(true, t.creditSamples, down)
    requires SameIdentities(t.passiveNodeInfo.identities, cfg.serverInfo.identities, false)
    ensures ServerHasRead(
              cfg, s, ServerStays(s.(msg := t, identities := t.passiveNodeInfo.identities), SWriteTower), true, up, down)
  {
    hide FinishingMessage, ReplyMatches, MessageAt;
  }

  /** The hash check cannot fail on an uncorrupted stream. */
  lemma ServerTakesTower(cfg: Config, s: Server, up: seq<Frame>, down: seq<Frame>)
    requires cfg.Valid() && !cfg.skipTowerSync
    requires s.pc.SAwaitTower? && GoAheadMessage(cfg, s.msg) && ReplyMatches(true, s.msg.creditSamples, down)
    requires |down| >= 2 && ReplyFrame(cfg, Reply(down)) && TowerFrame(cfg, Tower(up), Reply(down))
    ensures var r := ServerReceivesTower(cfg, s, Tower(up));
            ServerHasRead(cfg, s, r, true, up, down) && r.next.pc.SWriteTower? && r.next.msg == Tower(up)
  {
    GoAheadIsReply(cfg, s.msg, down);
    ServerDecodesTower(cfg, s.msg, Tower(up), Reply(down));
    hide GoAheadMessage, FinishingMessage, ReplyMatches, ReplyFrame, Encode, Decode, BeforeClient, Reply, Tower,
      ServerHasRead, ServerReceivesTower, SameIdentities;
    TowerIsTaken(cfg, s, Tower(up));
    TakenHasRead(cfg, s, Tower(up), up, down);
  }

  lemma GoAheadIsReply(cfg: Config, m: Message, down: seq<Frame>)
    requires |down| >= 2 && ReplyMatches(true, m.creditSamples, down)
    ensures Reply(down).canProceed && Reply(down).creditSamples == m.creditSamples
  {
    hide MessageAt;
  }

  lemma ServerReadsTower(cfg: Config, s: Server, a: ServerAction, up: seq<Frame>, down: seq<Frame>)
    requires cfg.Valid()
    requires s.pc.SAwaitTower? && GoAheadMessage(cfg, s.msg) && s.identities == cfg.serverInfo.identities
    requires ReplyMatches(true, s.msg.creditSamples, down)
    requires a.ServerReceive? && a.frame.Some? ==>
               && !cfg.skipTowerSync && a.frame.value == Gob(Tower(up))
               && |down| >= 2 && ReplyFrame(cfg, Reply(down)) && TowerFrame(cfg, Tower(up), Reply(down))
    ensures var r := ServerStep(cfg, s, a);
            r.ServerMoved? ==> ServerHasRead(cfg, s, r, a.ServerReceive? && a.frame.Some?, up, down)
  {
    hide FreshMessage, SentRequest, BaseMessage, RejectMessage, GoAheadMessage, FinishingMessage, ReplyMatches,
      ReplyFrame, TowerFrame, Tower, Reply, Encode, Decode, ServerSends, ServerAfterVersion, ServerReceivesTower;
    if a.ServerReceive? && a.frame.Some? {
      ServerTakesTower(cfg, s, up, down);
    } else {
      NothingSentMatches(s.msg.creditSamples, down);
    }
  }

  lemma ServerActionsFit(cfg: Config, s: Server, a: ServerAction)
    ensures ServerStep(cfg, s, a).ServerMoved? ==>
              && !s.pc.SDone?
              && (a.ServerReceive? <==> ServerReading(s.pc))
              && (a.ServerSend? <==> ServerWriting(s.pc))
  {
    hide Decode;
  }

  lemma TowerIsEncoded(cfg: Config, up: Channel, down: Channel)
    requires UpFrames(cfg, up, down) && DownFrames(cfg, up, down) && down.Valid()
    requires |up.frames| >= 3
    ensures Encode(Tower(up.frames)) == Tower(up.frames)
  {
    hide Encode, BeforeClient, BeforeServer, MessageAt, ReplyFrame;
    ReplyIsEncoded(cfg, Reply(down.frames));
    AddingKeepsEncoded(Tower(up.frames), Reply(down.frames));
  }

  lemma ServerActsAlone(cfg: Config, s: State, a: ServerAction)
    requires cfg.Valid() && Inv(cfg, s)
    requires ServerAlone(s.server.pc) && ServerStep(cfg, s.server, a).ServerMoved?
    ensures Inv(cfg, ServerApply(s, ServerStep(cfg, s.server, a), false))
  {
    hide ServerStep, ServerMessage, ClientMessage, ReplyMatches, UpFrames, DownFrames, ServerApply, ServerQuiet,
      ServerSays;
    var v := s.server;
    ServerSpeaks(cfg, v, a, Tower(s.toServer.frames), s.toClient.frames);
    ServerActsQuietly(cfg, v, a);
    QuietServerKeepsInv(cfg, s, ServerStep(cfg, v, a));
  }

  lemma ServerWritesKeepsInv(cfg: Config, s: State, o: SendOutcome)
    requires cfg.Valid() && Inv(cfg, s)
    requires ServerWriting(s.server.pc)
    ensures Inv(cfg, ServerApply(s, ServerStep(cfg, s.server, ServerSend(o)), false))
  {
    hide ServerStep, ServerMessage, ClientMessage, ReplyMatches, MessageAt, ReplyFrame, VerdictFrame, TowerFrame,
      Encode, RequestOf, ServerApply, ServerWrote;
    if Finishing(s.server.pc) && !cfg.skipTowerSync {
      TowerIsEncoded(cfg, s.toServer, s.toClient);
    }
    ServerWrites(cfg, s.server, o, s.toServer, s.toClient, s.linkUp);
    WritingServerKeepsInv(cfg, s, ServerStep(cfg, s.server, ServerSend(o)));
  }

  lemma ServerReadsKeepsInv(cfg: Config, s: State, a: ServerAction)
    requires cfg.Valid() && Inv(cfg, s)
    requires ServerReading(s.server.pc) && ServerReady(s, a) && ServerStep(cfg, s.server, a).ServerMoved?
    requires a.ServerReceive?
    ensures Inv(cfg, ServerApply(s, ServerStep(cfg, s.server, a), a.frame.Some?))
  {
    hide ServerStep, ClientMessage, ReplyMatches, MessageAt, ReplyFrame, VerdictFrame, TowerFrame, Encode, RequestOf,
      ServerApply, ServerHasRead, FreshMessage, SentRequest, BaseMessage, RejectMessage, GoAheadMessage,
      FinishingMessage;
    var v, up, down := s.server, s.toServer.frames, s.toClient.frames;
    match v.pc {
      case SAwaitVersion => ServerReadsVersion(cfg, v, a, up, down);
      case SAwaitRequest => ServerReadsRequest(cfg, v, a, up, down);
      case SAwaitTower => TowerArrives(cfg, s, a); ServerReadsTower(cfg, v, a, up, down);
    }
    ReadingServerKeepsInv(cfg, s, ServerStep(cfg, v, a), a.frame.Some?);
  }

  lemma TowerArrives(cfg: Config, s: State, a: ServerAction)
    requires cfg.Valid() && Inv(cfg, s)
    requires s.server.pc.SAwaitTower? && ServerReady(s, a)
    requires a.ServerReceive?
    ensures a.frame.Some? ==>
              && !cfg.skipTowerSync && a.frame.value == Gob(Tower(s.toServer.frames))
              && |s.toClient.frames| >= 2 && ReplyFrame(cfg, Reply(s.toClient.frames))
              && TowerFrame(cfg, Tower(s.toServer.frames), Reply(s.toClient.frames))
  {
    hide ServerMessage, ClientMessage, ReplyMatches, ReplyFrame, VerdictFrame, TowerFrame, Encode, RequestOf;
  }

  lemma ServerKeepsInv(cfg: Config, s: State, a: ServerAction)
    requires cfg.Valid() && Inv(cfg, s)
    ensures Inv(cfg, ServerEvent(cfg, s, a))
  {
    ServerActionsFit(cfg, s.server, a);
    hide ServerStep, Inv;
    if ServerReady(s, a) && ServerStep(cfg, s.server, a).ServerMoved? {
      if ServerWriting(s.server.pc) {
        ServerWritesKeepsInv(cfg, s, a.sent);
      } else if ServerReading(s.server.pc) {
        ServerReadsKeepsInv(cfg, s, a);
      } else {
        ServerActsAlone(cfg, s, a);
      }
    }
  }
}

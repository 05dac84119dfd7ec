/**
 What the clocks and the slot queries answered in a run, kept as history beside the two programs, and
 which messages carry it. The programs overwrite fields of a message that both nodes merge into; what is
 read once is never lost or changed on the way.
 */
module Readings {
  import opened Wrappers
  import opened Words
  import opened Messages
  import opened Protocol
  import opened ProtocolInvariant
  import opened Flow
  import opened Agreement
  import opened ProtocolRuns
  import ServerInvariant
  import Outcomes
  import Roles

  // ----- The history

  /** The slot the client was in and the one it waited for, and the instants around its set-identity
      command and its reading of the tower file; zero where nothing was read yet. */
  datatype ClientReadings = ClientReadings(
    observed: uint64, startSlot: uint64, commandStart: nat, commandEnd: nat, towerStart: nat, towerEnd: nat)

  /** When the tower file was written, the instants around the set-identity command, and the end slot. */
  datatype ServerReadings = ServerReadings(written: nat, commandStart: nat, commandEnd: nat, endSlot: Option<uint64>)

  datatype History = History(client: ClientReadings, server: ServerReadings)

  const NO_CLIENT := ClientReadings(0, 0, 0, 0, 0, 0)
  const NO_SERVER := ServerReadings(0, 0, 0, None)

  function ReadByClient(pc: ClientPc, a: ClientAction, h: ClientReadings): ClientReadings {
    match (pc, a)
    case (CNextSlot, ClientNextSlot(observed, Some(slot))) => h.(observed := observed, startSlot := slot)
    case (CSetPassive, ClientCommand(_, start, end)) => h.(commandStart := start, commandEnd := end)
    case (CReadTower, ClientReadTower(_, start, end)) => h.(towerStart := start, towerEnd := end)
    case _ => h
  }

  function ReadByServer(pc: ServerPc, a: ServerAction, h: ServerReadings): ServerReadings {
    match (pc, a)
    case (SWriteTower, ServerWriteTower(_, at)) => h.(written := at)
    case (SSetActive, ServerCommand(_, start, end)) => h.(commandStart := start, commandEnd := end)
    case (SEndSlot, ServerEndSlot(slot)) => h.(endSlot := slot)
    case _ => h
  }

  /** The history after one more event; an event that is not enabled leaves none. */
  function Noted(cfg: Config, s: State, e: Event, h: History): History {
    match e
    case ClientDoes(a) =>
      if ClientReady(s, a) && ClientStep(cfg, s.client, a).ClientMoved? then
        h.(client := ReadByClient(s.client.pc, a, h.client))
      else h
    case ServerDoes(a) =>
      if ServerReady(s, a) && ServerStep(cfg, s.server, a).ServerMoved? then
        h.(server := ReadByServer(s.server.pc, a, h.server))
      else h
    case _ => h
  }

  function HistoryFrom(cfg: Config, s: State, events: seq<Event>, h: History): History
    decreases |events|
  {
    if events == [] then h else HistoryFrom(cfg, Step(cfg, s, events[0]), events[1..], Noted(cfg, s, events[0], h))
  }

  function HistoryOf(cfg: Config, clientTower: seq<byte>, serverTower: Option<seq<byte>>, events: seq<Event>): History {
    HistoryFrom(cfg, Init(cfg, clientTower, serverTower), events, History(NO_CLIENT, NO_SERVER))
  }

  // ----- What a message holds of it

  predicate HoldsClient(m: Message, h: ClientReadings) {
    && m.failoverStartSlot == h.startSlot
    && m.activeNodeSetIdentityStartTime == h.commandStart && m.activeNodeSetIdentityEndTime == h.commandEnd
    && m.activeNodeSyncTowerFileStartTime == h.towerStart && m.activeNodeSyncTowerFileEndTime == h.towerEnd
  }

  predicate HoldsServer(m: Message, h: ServerReadings) {
    && m.passiveNodeSyncTowerFileEndTime == h.written
    && m.passiveNodeSetIdentityStartTime == h.commandStart && m.passiveNodeSetIdentityEndTime == h.commandEnd
  }

  /** An end slot before the start slot is taken to be the start slot; a failed query leaves zero. */
  function EndSlot(answer: Option<uint64>, start: uint64): uint64 {
    if answer.None? then 0 else if answer.value < start then start else answer.value
  }

  /** With tower sync the server knows the client's readings, without it none. */
  predicate ClientPart(cfg: Config, m: Message, h: ClientReadings) {
    HoldsClient(m, if cfg.skipTowerSync then NO_CLIENT else h)
  }

  /** What a server that has completed says. */
  predicate Complete(cfg: Config, m: Message, h: History) {
    && ClientPart(cfg, m, h.client) && HoldsServer(m, h.server)
    && m.failoverEndSlot == EndSlot(h.server.endSlot, m.failoverStartSlot)
  }

  // ----- The invariant

  predicate ClientKept(c: Client, h: ClientReadings) {
    && (c.pc.CSetPassive? || AfterSwitch(c.pc) || c.wentPassive || h != NO_CLIENT ==> h.startSlot > h.observed)
    && (Preparing(c.pc) || c.pc.CNextSlot? ==> h == NO_CLIENT)
    && (c.pc.CSetPassive? ==> h == NO_CLIENT.(observed := h.observed, startSlot := h.startSlot))
    && (c.pc.CReadTower? ==> h.towerStart == 0 == h.towerEnd)
    && (!c.pc.CDone? || Leaves(c.pc, Completed) || Leaves(c.pc, RolledBack) ==> HoldsClient(c.msg, h))
  }

  predicate Completes(pc: ServerPc) {
    pc.SSendDone? || EndsAs(pc, Activated) || EndsAs(pc, CompletionUnsent)
  }

  predicate ServerKept(cfg: Config, v: Server, h: History, queryFailed: bool) {
    && (v.pc.SWriteTower? || v.pc.SSetActive? || v.pc.SEndSlot? ==>
          && ClientPart(cfg, v.msg, h.client) && HoldsServer(v.msg, h.server)
          && h.server.endSlot.None? && v.msg.failoverEndSlot == 0)
    && (v.pc.SWriteTower? ==> h.server == NO_SERVER && !cfg.skipTowerSync)
    && (cfg.skipTowerSync ==> h.server.written == 0)
    && (v.pc.SSetActive? ==> h.server == NO_SERVER.(written := h.server.written))
    && (v.pc.SSendRollback? ==> ClientPart(cfg, v.msg, h.client))
    && (Checking(v.pc) || v.pc.SSendProceed? || v.pc.SAwaitTower? ==> h.server == NO_SERVER)
    && (Completes(v.pc) ==> Complete(cfg, v.msg, h) && (queryFailed <==> h.server.endSlot.None?))
    && (queryFailed ==> Completes(v.pc) || EndsAs(v.pc, ServerCrashed))
  }

  ghost predicate TowerKept(up: seq<Frame>, h: ClientReadings) {
    |up| >= 3 ==> HoldsClient(Tower(up), h)
  }

  ghost predicate VerdictKept(cfg: Config, pc: ServerPc, down: seq<Frame>, h: History) {
    |down| >= 3 ==>
      && (pc.SRollback? || pc.SDone?)
      && ClientPart(cfg, Verdict(down), h.client)
      && (Verdict(down).isSuccessfullyCompleted ==> Completes(pc) && Complete(cfg, Verdict(down), h))
  }

  /** A client that has completed holds the server's readings too. */
  ghost predicate CompletedKept(c: Client, read: nat, down: seq<Frame>, h: ServerReadings) {
    Leaves(c.pc, Completed) ==>
      && read >= 3 && HoldsServer(c.msg, h)
      && Verdict(down).isSuccessfullyCompleted && c.msg.failoverEndSlot == Verdict(down).failoverEndSlot
  }

  ghost predicate ReadingInv(cfg: Config, s: State, h: History) {
    && ClientKept(s.client, h.client)
    && ServerKept(cfg, s.server, h, EndSlotFault in s.faults)
    && TowerKept(s.toServer.frames, h.client)
    && VerdictKept(cfg, s.server.pc, s.toClient.frames, h)
    && CompletedKept(s.client, s.toClient.read, s.toClient.frames, h.server)
    && (!cfg.skipTowerSync && Completes(s.server.pc) ==> s.toServer.read == 3)
  }

  lemma NothingReadAtFirst(cfg: Config, clientTower: seq<byte>, serverTower: Option<seq<byte>>)
    ensures ReadingInv(cfg, Init(cfg, clientTower, serverTower), History(NO_CLIENT, NO_SERVER))
  {
  }

  // ----- The client keeps it

  lemma SlotIsRead(cfg: Config, c: Client, a: ClientAction, h: ClientReadings)
    requires c.pc.CNextSlot? && ClientStep(cfg, c, a).ClientMoved? && ClientKept(c, h)
    ensures ClientKept(ClientStep(cfg, c, a).next, ReadByClient(c.pc, a, h))
  {
  }

  lemma CommandIsTimed(cfg: Config, c: Client, a: ClientAction, h: ClientReadings)
    requires c.pc.CSetPassive? && ClientStep(cfg, c, a).ClientMoved? && ClientKept(c, h)
    ensures ClientKept(ClientStep(cfg, c, a).next, ReadByClient(c.pc, a, h))
  {
  }

  lemma TowerIsTimed(cfg: Config, c: Client, a: ClientAction, h: ClientReadings)
    requires c.pc.CReadTower? && ClientStep(cfg, c, a).ClientMoved? && ClientKept(c, h)
    ensures ClientKept(ClientStep(cfg, c, a).next, ReadByClient(c.pc, a, h))
  {
    hide WithTowerStart, WithTower, HoldsClient;
    if a.ClientReadTower? {
      TowerHolds(cfg, c.msg, c.tower, a.start, a.end, h);
    }
  }

  lemma TowerHolds(cfg: Config, m: Message, tower: seq<byte>, start: Instant, end: Instant, h: ClientReadings)
    requires HoldsClient(m, h)
    ensures HoldsClient(WithTower(WithTowerStart(m, start), tower, cfg.towerHash(tower), end), h.(towerStart := start, towerEnd := end))
  {
  }

  lemma RequestHoldsNothing(cfg: Config, c: Client)
    requires HoldsClient(c.msg, NO_CLIENT)
    ensures HoldsClient(RequestMessage(cfg, c), NO_CLIENT)
  {
  }

  lemma RequestReadsNothing(cfg: Config, c: Client, a: ClientAction, h: ClientReadings)
    requires c.pc.CSendRequest? && ClientStep(cfg, c, a).ClientMoved? && ClientKept(c, h)
    ensures ClientKept(ClientStep(cfg, c, a).next, h) && ReadByClient(c.pc, a, h) == h
  {
    RequestHoldsNothing(cfg, c);
    hide Encode, RequestMessage;
  }

  lemma OpeningReadsNothing(cfg: Config, c: Client, a: ClientAction, h: ClientReadings)
    requires ClientStep(cfg, c, a).ClientMoved? && ClientKept(c, h)
    requires c.pc.CSendVersion? || c.pc.CAwaitVersion?
    ensures ClientKept(ClientStep(cfg, c, a).next, h) && ReadByClient(c.pc, a, h) == h
  {
  }

  lemma WaitingReadsNothing(cfg: Config, c: Client, a: ClientAction, h: ClientReadings)
    requires ClientStep(cfg, c, a).ClientMoved? && ClientKept(c, h)
    requires c.pc.CLeaderWait? || c.pc.CPreHooks?
    ensures ClientKept(ClientStep(cfg, c, a).next, h) && ReadByClient(c.pc, a, h) == h
  {
  }

  lemma ClosingReadsNothing(cfg: Config, c: Client, a: ClientAction, h: ClientReadings)
    requires ClientStep(cfg, c, a).ClientMoved? && ClientKept(c, h)
    requires c.pc.CSendTower? || c.pc.CRollback?
    ensures ClientKept(ClientStep(cfg, c, a).next, h) && ReadByClient(c.pc, a, h) == h
  {
    hide Encode;
  }

  /** The reply tells nothing of the hand-over. */
  lemma ReplyReadsNothing(cfg: Config, s: State, a: ClientAction, h: ClientReadings)
    requires cfg.Valid() && Inv(cfg, s) && s.client.pc.CAwaitSignal? && ClientKept(s.client, h)
    requires ClientReady(s, a) && ClientStep(cfg, s.client, a).ClientMoved?
    ensures ClientKept(ClientStep(cfg, s.client, a).next, h) && ReadByClient(s.client.pc, a, h) == h
  {
    hide Inv, Decode, MessageAt, HoldsClient;
    if a.ClientReceive? && a.frame.Some? {
      ClientHearsReply(cfg, s, a);
      ReplyHoldsNothing(cfg, s);
    }
  }

  lemma ReplyHoldsNothing(cfg: Config, s: State)
    requires Inv(cfg, s) && |s.toClient.frames| >= 2
    ensures HoldsClient(Reply(s.toClient.frames), NO_CLIENT) && HoldsServer(Reply(s.toClient.frames), NO_SERVER)
    ensures Reply(s.toClient.frames).failoverEndSlot == 0
  {
    hide UpFrames, ServerMessage, ClientMessage, ReplyMatches, SameIdentities, MessageAt, VerdictFrame;
  }

  // What the verdict adds.

  lemma MergeHolds(m: Message, v: Message, h: ClientReadings, hs: ServerReadings)
    requires HoldsClient(m, h) && (HoldsClient(v, h) || HoldsClient(v, NO_CLIENT))
    requires HoldsServer(m, NO_SERVER) && m.failoverEndSlot == 0
    ensures HoldsClient(Decode(m, v), h) && Decode(m, v).failoverEndSlot == v.failoverEndSlot
    ensures HoldsServer(v, hs) ==> HoldsServer(Decode(m, v), hs)
  {
    hide DecodeNode;
  }

  lemma WaitingHoldsNoServer(cfg: Config, s: State)
    requires Inv(cfg, s) && s.client.pc.CAwaitOutcome? && |s.toClient.frames| >= 2
    ensures HoldsServer(s.client.msg, NO_SERVER) && s.client.msg.failoverEndSlot == 0
  {
    ReplyHoldsNothing(cfg, s);
    hide UpFrames, ServerMessage, ReplyMatches, SameIdentities, MessageAt, VerdictFrame, ReplyFrame, ClientProgress, TowerSent;
  }

  lemma VerdictReads(cfg: Config, c: Client, m: Message)
    requires c.pc.CAwaitOutcome?
    ensures var n := ClientAfterOutcome(cfg, ClientDecodes(c, m)).next;
            && n.msg == Decode(c.msg, m)
            && (n.pc.CRollback? || (n.pc.CDone? && (Leaves(n.pc, Completed) ==> n.msg.isSuccessfullyCompleted)))
            && !Leaves(n.pc, RolledBack)
  {
    hide Decode;
  }

  lemma OutcomeStep(cfg: Config, c: Client, a: ClientAction, m: Message)
    requires c.pc.CAwaitOutcome? && a == ClientReceive(Some(Gob(m)))
    ensures ClientStep(cfg, c, a) == ClientAfterOutcome(cfg, ClientDecodes(c, m))
  {
    hide ClientAfterOutcome, ClientDecodes;
  }

  lemma MergedHolds(cfg: Config, c: Client, m: Message, pc: ServerPc, down: seq<Frame>, h: History)
    requires c.pc.CAwaitOutcome? && ClientKept(c, h.client) && HoldsServer(c.msg, NO_SERVER) && c.msg.failoverEndSlot == 0
    requires |down| == 3 && VerdictKept(cfg, pc, down, h) && m == Decode(c.msg, Verdict(down))
    ensures HoldsClient(m, h.client) && m.failoverEndSlot == Verdict(down).failoverEndSlot
    ensures Verdict(down).isSuccessfullyCompleted ==> HoldsServer(m, h.server)
  {
    hide HoldsClient, HoldsServer, Decode, MessageAt;
    MergeHolds(c.msg, Verdict(down), h.client, h.server);
  }

  lemma VerdictRead(cfg: Config, c: Client, pc: ServerPc, down: seq<Frame>, h: History)
    requires c.pc.CAwaitOutcome? && ClientKept(c, h.client) && HoldsServer(c.msg, NO_SERVER) && c.msg.failoverEndSlot == 0
    requires |down| == 3 && VerdictKept(cfg, pc, down, h)
    requires ClientDecodes(c, Verdict(down)).msg.isSuccessfullyCompleted == Verdict(down).isSuccessfullyCompleted
    ensures var n := ClientAfterOutcome(cfg, ClientDecodes(c, Verdict(down))).next;
            ClientKept(n, h.client) && CompletedKept(n, 3, down, h.server)
  {
    var v, n := Verdict(down), ClientAfterOutcome(cfg, ClientDecodes(c, Verdict(down))).next;
    VerdictReads(cfg, c, v);
    DecodedMessage(c, v);
    hide ClientDecodes, ClientAfterOutcome, Decode, HoldsClient, HoldsServer, VerdictKept, MessageAt, ClientKept, CompletedKept;
    MergedHolds(cfg, c, n.msg, pc, down, h);
    ReadingEndsWell(c, n, down, h);
  }

  lemma ReadingEndsWell(c: Client, n: Client, down: seq<Frame>, h: History)
    requires c.pc.CAwaitOutcome? && ClientKept(c, h.client)
    requires n.pc.CRollback? || (n.pc.CDone? && (Leaves(n.pc, Completed) ==> Verdict(down).isSuccessfullyCompleted))
    requires HoldsClient(n.msg, h.client) && n.msg.failoverEndSlot == Verdict(down).failoverEndSlot
    requires Verdict(down).isSuccessfullyCompleted ==> HoldsServer(n.msg, h.server)
    ensures ClientKept(n, h.client) && CompletedKept(n, 3, down, h.server)
  {
    hide HoldsClient, HoldsServer, MessageAt;
  }

  lemma DecodedMessage(c: Client, m: Message)
    ensures ClientDecodes(c, m).msg == Decode(c.msg, m)
  {
    hide Decode;
  }

  lemma VerdictIsRead(cfg: Config, s: State, a: ClientAction, h: History)
    requires cfg.Valid() && Inv(cfg, s) && s.client.pc.CAwaitOutcome?
    requires ClientKept(s.client, h.client) && VerdictKept(cfg, s.server.pc, s.toClient.frames, h)
    requires ClientReady(s, a) && ClientStep(cfg, s.client, a).ClientMoved?
    ensures var n := ClientStep(cfg, s.client, a).next;
            && ClientKept(n, h.client) && ReadByClient(s.client.pc, a, h.client) == h.client
            && CompletedKept(n, Consume(s.toClient, a.ClientReceive? && a.frame.Some?).read, s.toClient.frames, h.server)
  {
    ClientFollowsEdge(cfg, s.client, a);
    OutcomeMoves(cfg, s.client, a, ClientStep(cfg, s.client, a));
    hide Inv, ClientStep, ClientDecodes, ClientAfterOutcome, ClientKept, VerdictKept, CompletedKept, MessageAt, ClientEdge;
    AwaitingRead(cfg, s);
    if a.frame.Some? {
      ClientHearsVerdict(cfg, s, a);
      OutcomeStep(cfg, s.client, a, Verdict(s.toClient.frames));
      WaitingHoldsNoServer(cfg, s);
      VerdictRead(cfg, s.client, s.server.pc, s.toClient.frames, h);
    } else {
      LostReadsNothing(s.client, ClientStep(cfg, s.client, a).next, s.toClient.read, s.toClient.frames, h);
    }
  }

  lemma OutcomeMoves(cfg: Config, c: Client, a: ClientAction, r: ClientResult)
    requires r.ClientMoved? && ClientEdge(cfg, c, a, r) && c.pc.CAwaitOutcome?
    ensures a.ClientReceive? && (a.frame.None? ==> Leaves(r.next.pc, ConnectionLost))
  {
    hide SameClient;
  }

  lemma AwaitingRead(cfg: Config, s: State)
    requires Inv(cfg, s) && s.client.pc.CAwaitOutcome?
    ensures s.toClient.read == 2
  {
    hide UpFrames, DownFrames, ServerMessage, ClientMessage, ReplyMatches, SameIdentities;
  }

  lemma LostReadsNothing(c: Client, n: Client, read: nat, down: seq<Frame>, h: History)
    requires c.pc.CAwaitOutcome? && ClientKept(c, h.client) && Leaves(n.pc, ConnectionLost)
    ensures ClientKept(n, h.client) && CompletedKept(n, read, down, h.server)
  {
    hide HoldsClient, HoldsServer, MessageAt;
  }

  // The rest of the invariant, when the client acts.

  lemma ClientReadingsStep(cfg: Config, s: State, a: ClientAction, h: History)
    requires cfg.Valid() && Inv(cfg, s) && ReadingInv(cfg, s, h)
    requires ClientReady(s, a) && ClientStep(cfg, s.client, a).ClientMoved?
    ensures var n := ClientStep(cfg, s.client, a).next;
            && ClientKept(n, ReadByClient(s.client.pc, a, h.client))
            && CompletedKept(n, Consume(s.toClient, a.ClientReceive? && a.frame.Some?).read, s.toClient.frames, h.server)
  {
    hide Inv, ClientStep, ClientKept, ServerKept, VerdictKept, TowerKept, HoldsServer, MessageAt, Consume, ReadByClient,
      ClientReady, CompletedKept;
    var c := s.client;
    match c.pc
    case CAwaitOutcome => VerdictIsRead(cfg, s, a, h);
    case _ =>
      NotCompletedYet(cfg, c, a, Consume(s.toClient, a.ClientReceive? && a.frame.Some?).read, s.toClient.frames, h.server);
      match c.pc {
        case CSendVersion => OpeningReadsNothing(cfg, c, a, h.client);
        case CSendRequest => RequestReadsNothing(cfg, c, a, h.client);
        case CAwaitVersion => OpeningReadsNothing(cfg, c, a, h.client);
        case CAwaitSignal => ReplyReadsNothing(cfg, s, a, h.client);
        case CLeaderWait => WaitingReadsNothing(cfg, c, a, h.client);
        case CPreHooks => WaitingReadsNothing(cfg, c, a, h.client);
        case CNextSlot => SlotIsRead(cfg, c, a, h.client);
        case CSetPassive => CommandIsTimed(cfg, c, a, h.client);
        case CReadTower => TowerIsTimed(cfg, c, a, h.client);
        case _ => ClosingReadsNothing(cfg, c, a, h.client);
      }
  }

  /** Only the verdict completes the client. */
  lemma NotCompletedYet(cfg: Config, c: Client, a: ClientAction, read: nat, down: seq<Frame>, h: ServerReadings)
    requires !c.pc.CAwaitOutcome? && ClientStep(cfg, c, a).ClientMoved?
    ensures CompletedKept(ClientStep(cfg, c, a).next, read, down, h) && !c.pc.CDone?
  {
    ClientFollowsEdge(cfg, c, a);
    hide ClientStep, SameVersion, HookRan, HoldsServer, MessageAt;
  }

  lemma ReadsBeforeTower(cfg: Config, s: State, a: ClientAction, h: ClientReadings)
    requires Inv(cfg, s)
    ensures ReadByClient(s.client.pc, a, h) == h || |s.toServer.frames| <= 2
    ensures s.toServer.read <= |s.toServer.frames|
    ensures Finishing(s.server.pc) && !cfg.skipTowerSync ==> s.toServer.read == 3
  {
    hide UpFrames, DownFrames, ServerMessage, ClientMessage, ReplyMatches, SameIdentities;
  }

  lemma VerdictNeedsTower(cfg: Config, s: State)
    requires Inv(cfg, s)
    ensures |s.toClient.frames| >= 3 && !cfg.skipTowerSync ==> s.toServer.read == 3
  {
    hide Counts, UpFrames, ServerMessage, ClientMessage, ReplyMatches, SameIdentities, VerdictFrame, ReplyFrame;
  }

  lemma ServerKeepsReadings(cfg: Config, v: Server, down: seq<Frame>, h: History, h': History, queryFailed: bool)
    requires ServerKept(cfg, v, h, queryFailed) && VerdictKept(cfg, v.pc, down, h) && h'.server == h.server
    requires h'.client == h.client || cfg.skipTowerSync || !(Finishing(v.pc) || Completes(v.pc) || |down| >= 3)
    ensures ServerKept(cfg, v, h', queryFailed) && VerdictKept(cfg, v.pc, down, h')
  {
    hide HoldsClient, HoldsServer, MessageAt;
  }

  lemma TowerIsKept(cfg: Config, c: Client, a: ClientAction, up: Channel, linkUp: bool, h: ClientReadings)
    requires ClientStep(cfg, c, a).ClientMoved? && ClientKept(c, h) && TowerKept(up.frames, h)
    requires |up.frames| <= ClientSent(c.pc, c.skip)
    requires ReadByClient(c.pc, a, h) == h || |up.frames| <= 2
    ensures TowerKept(up.Append(ClientStep(cfg, c, a).sent, linkUp).frames, ReadByClient(c.pc, a, h))
  {
    ClientFollowsEdge(cfg, c, a);
    EncodeHolds(c.msg, h);
    Roles.ClientWritesAndFaults(cfg, c, a);
    hide ClientStep, ClientKept, HoldsClient, Encode, SameVersion, HookRan;
    if c.pc.CSendTower? {
      SendingHolds(c, h);
    }
  }

  lemma SendingHolds(c: Client, h: ClientReadings)
    requires c.pc.CSendTower? && ClientKept(c, h)
    ensures HoldsClient(c.msg, h)
  {
  }

  lemma EncodeHolds(m: Message, h: ClientReadings)
    ensures HoldsClient(Encode(m), h) <==> HoldsClient(m, h)
  {
  }

  lemma ClientActionKeepsReadings(cfg: Config, s: State, a: ClientAction, h: History)
    requires cfg.Valid() && Inv(cfg, s) && ReadingInv(cfg, s, h)
    ensures ReadingInv(cfg, ClientEvent(cfg, s, a), Noted(cfg, s, ClientDoes(a), h))
  {
    hide Inv, ClientStep, ClientReady, ClientKept, ServerKept, VerdictKept, TowerKept, CompletedKept, MessageAt, Channel.Append,
      ReadByClient;
    var c, r := s.client, ClientStep(cfg, s.client, a);
    if ClientReady(s, a) && r.ClientMoved? {
      var h' := h.(client := ReadByClient(c.pc, a, h.client));
      ClientReadingsStep(cfg, s, a, h);
      ReadsBeforeTower(cfg, s, a, h.client);
      VerdictNeedsTower(cfg, s);
      Roles.ClientWritesAndFaults(cfg, c, a);
      ServerKeepsReadings(cfg, s.server, s.toClient.frames, h, h', EndSlotFault in s.faults);
      ClientWrote(cfg, s);
      TowerIsKept(cfg, c, a, s.toServer, s.linkUp, h.client);
      AppendReads(s.toServer, r.sent, s.linkUp);
    }
  }

  lemma AppendReads(ch: Channel, f: Option<Frame>, linkUp: bool)
    ensures ch.Append(f, linkUp).read == ch.read
  {
  }

  lemma ClientWrote(cfg: Config, s: State)
    requires Inv(cfg, s)
    ensures |s.toServer.frames| <= ClientSent(s.client.pc, s.client.skip)
  {
    hide UpFrames, DownFrames, ServerMessage, ClientMessage, ReplyMatches, SameIdentities;
  }

  // ----- The server keeps it

  /** A go-ahead without tower sync, or a tower message, holds nothing of the server's part yet. */
  lemma GoAheadHoldsNothing(cfg: Config, m: Message)
    requires GoAheadMessage(cfg, m)
    ensures HoldsClient(m, NO_CLIENT) && HoldsServer(m, NO_SERVER) && m.failoverEndSlot == 0
  {
  }

  lemma TowerHoldsNoServer(cfg: Config, t: Message, r: Message)
    requires TowerFrame(cfg, t, r) && HoldsServer(r, NO_SERVER) && r.failoverEndSlot == 0
    ensures HoldsServer(t, NO_SERVER) && t.failoverEndSlot == 0
  {
  }

  lemma CheckingReadsNothing(cfg: Config, v: Server, a: ServerAction, r: ServerResult, h: History)
    requires r.ServerMoved? && ServerCheckEdge(cfg, v, a, r) && Checking(v.pc) && ServerKept(cfg, v, h, false)
    ensures ServerKept(cfg, r.next, h, false) && EndSlotFault !in r.faults && ReadByServer(v.pc, a, h.server) == h.server
  {
    hide SameVersion, GossipShows, HookRan, SameRoles, HoldsClient, HoldsServer;
  }

  lemma ProceedingReadsNothing(cfg: Config, v: Server, a: ServerAction, r: ServerResult, h: History)
    requires r.ServerMoved? && ServerFinishEdge(cfg, v, a, r) && v.pc.SSendProceed? && ServerKept(cfg, v, h, false)
    requires r.next.msg == v.msg && GoAheadMessage(cfg, v.msg)
    ensures ServerKept(cfg, r.next, h, false) && EndSlotFault !in r.faults && ReadByServer(v.pc, a, h.server) == h.server
  {
    GoAheadHoldsNothing(cfg, v.msg);
    hide SameRoles, SameChecks, HoldsClient, HoldsServer, GoAheadMessage;
  }

  lemma SendingKeepsMessage(cfg: Config, v: Server, a: ServerAction)
    requires v.pc.SSendProceed? && ServerStep(cfg, v, a).ServerMoved?
    ensures ServerStep(cfg, v, a).next.msg == v.msg
  {
    hide Encode;
  }

  lemma TowerTaken(cfg: Config, s: State, a: ServerAction, h: History)
    requires cfg.Valid() && Inv(cfg, s) && ReadingInv(cfg, s, h) && s.server.pc.SAwaitTower?
    requires ServerReady(s, a) && ServerStep(cfg, s.server, a).ServerMoved?
    ensures var r := ServerStep(cfg, s.server, a);
            ServerKept(cfg, r.next, h, false) && EndSlotFault !in r.faults && ReadByServer(s.server.pc, a, h.server) == h.server
  {
    ServerFollowsEdge(cfg, s.server, a);
    AwaitingMoves(cfg, s.server, a, ServerStep(cfg, s.server, a));
    hide Inv, ServerStep, Decode, HoldsClient, HoldsServer, ServerReceivesTower, MessageAt, ClientKept, CompletedKept, VerdictKept,
      TowerFrame, ServerKept, ServerEdge;
    if a.frame.Some? {
      ServerHearsTower(cfg, s, a);
      Outcomes.TowerStepReceives(cfg, s.server, a);
      ReplyBeforeTower(cfg, s);
      ReplyHoldsNothing(cfg, s);
      TowerHoldsNoServer(cfg, Tower(s.toServer.frames), Reply(s.toClient.frames));
    }
    TakenIsKept(cfg, s.server, ServerStep(cfg, s.server, a).next, h, EndSlotFault in s.faults);
  }

  lemma AwaitingMoves(cfg: Config, v: Server, a: ServerAction, r: ServerResult)
    requires r.ServerMoved? && ServerEdge(cfg, v, a, r) && v.pc.SAwaitTower?
    ensures a.ServerReceive? && r.faults == {}
    ensures if a.frame.Some? && a.frame.value.Gob? then r.next.pc.SWriteTower? || EndsAs(r.next.pc, HashMismatch)
            else EndsAs(r.next.pc, NoTower)
  {
    hide SameRoles, SameChecks;
  }

  lemma TakenIsKept(cfg: Config, v: Server, n: Server, h: History, queryFailed: bool)
    requires ServerKept(cfg, v, h, queryFailed) && v.pc.SAwaitTower?
    requires EndsAs(n.pc, NoTower) || (
               && n.pc.SWriteTower? && !cfg.skipTowerSync
               && HoldsClient(n.msg, h.client) && HoldsServer(n.msg, NO_SERVER) && n.msg.failoverEndSlot == 0)
    ensures ServerKept(cfg, n, h, false)
  {
    hide HoldsClient, HoldsServer;
  }

  lemma ReplyBeforeTower(cfg: Config, s: State)
    requires Inv(cfg, s) && |s.toServer.frames| >= 3
    ensures !cfg.skipTowerSync && |s.toClient.frames| >= 2
    ensures TowerFrame(cfg, Tower(s.toServer.frames), Reply(s.toClient.frames))
  {
    hide DownFrames, ServerMessage, ClientMessage, ReplyMatches, SameIdentities, MessageAt, TowerFrame;
  }

  lemma WriteIsTimed(cfg: Config, v: Server, a: ServerAction, h: History)
    requires v.pc.SWriteTower? && ServerStep(cfg, v, a).ServerMoved? && ServerKept(cfg, v, h, false)
    ensures var r, h' := ServerStep(cfg, v, a), h.(server := ReadByServer(v.pc, a, h.server));
            ServerKept(cfg, r.next, h', false) && EndSlotFault !in r.faults
  {
    hide Complete;
  }

  lemma SwitchHolds(cfg: Config, m: Message, start: Instant, end: Instant, h: History)
    requires ClientPart(cfg, m, h.client) && HoldsServer(m, h.server)
    ensures var began := WithPassiveSwitchStart(m, start);
            && ClientPart(cfg, began, h.client) && ClientPart(cfg, WithRollbackRequired(began), h.client)
            && ClientPart(cfg, WithPassiveSwitchEnd(began, end), h.client)
            && HoldsServer(WithPassiveSwitchEnd(began, end), h.server.(commandStart := start, commandEnd := end))
            && WithPassiveSwitchEnd(began, end).failoverEndSlot == m.failoverEndSlot
  {
  }

  lemma SwitchMissed(cfg: Config, v: Server, tookEffect: bool, h: History)
    requires ClientPart(cfg, WithRollbackRequired(v.msg), h.client)
    requires cfg.skipTowerSync ==> h.server.written == 0
    ensures var r := ServerFailsToActivate(cfg, v, tookEffect);
            r.ServerMoved? && ServerKept(cfg, r.next, h, false) && EndSlotFault !in r.faults
  {
    hide WithRollbackRequired, ClientPart, HoldsServer, Complete;
  }

  lemma SwitchIsTimed(cfg: Config, v: Server, a: ServerAction, h: History)
    requires v.pc.SSetActive? && ServerStep(cfg, v, a).ServerMoved? && ServerKept(cfg, v, h, false)
    ensures var r, h' := ServerStep(cfg, v, a), h.(server := ReadByServer(v.pc, a, h.server));
            ServerKept(cfg, r.next, h', false) && EndSlotFault !in r.faults
  {
    hide WithPassiveSwitchStart, WithPassiveSwitchEnd, WithRollbackRequired, ClientPart, HoldsServer, Complete,
      ServerFailsToActivate;
    if a.ServerCommand? {
      SwitchHolds(cfg, v.msg, a.start, a.end, h);
      if !cfg.dryRun && a.outcome.Failed? {
        hide ServerKept;
        SwitchMissed(cfg, v.(msg := WithPassiveSwitchStart(v.msg, a.start)), a.outcome.tookEffect,
                     h.(server := h.server.(commandStart := a.start, commandEnd := a.end)));
      }
    }
  }

  lemma EndSlotIsRead(cfg: Config, v: Server, a: ServerAction, h: History)
    requires v.pc.SEndSlot? && ServerStep(cfg, v, a).ServerMoved? && ServerKept(cfg, v, h, false)
    ensures var r, h' := ServerStep(cfg, v, a), h.(server := ReadByServer(v.pc, a, h.server));
            ServerKept(cfg, r.next, h', EndSlotFault in r.faults)
  {
  }

  lemma ClosingKeepsReadings(cfg: Config, v: Server, a: ServerAction, h: History, queryFailed: bool)
    requires v.pc.SSendDone? || v.pc.SSendRollback?
    requires ServerStep(cfg, v, a).ServerMoved? && ServerKept(cfg, v, h, queryFailed)
    ensures var r := ServerStep(cfg, v, a);
            && ServerKept(cfg, r.next, h, queryFailed) && EndSlotFault !in r.faults
            && ReadByServer(v.pc, a, h.server) == h.server
  {
    hide Encode, ClientPart, HoldsServer, Complete;
  }

  lemma RevertingKeepsReadings(cfg: Config, v: Server, a: ServerAction, h: History, queryFailed: bool)
    requires v.pc.SRollback? && ServerStep(cfg, v, a).ServerMoved? && ServerKept(cfg, v, h, queryFailed)
    ensures var r := ServerStep(cfg, v, a);
            && ServerKept(cfg, r.next, h, queryFailed) && EndSlotFault !in r.faults
            && ReadByServer(v.pc, a, h.server) == h.server
  {
    hide ClientPart, HoldsServer, Complete;
  }

  /** One step of the server against its own part of the invariant. */
  ghost predicate ServerStepKeeps(cfg: Config, v: Server, a: ServerAction, r: ServerResult, h: History, queryFailed: bool) {
    r.ServerMoved? ==>
      ServerKept(cfg, r.next, h.(server := ReadByServer(v.pc, a, h.server)), queryFailed || EndSlotFault in r.faults)
  }

  lemma SwitchingServerKeeps(cfg: Config, v: Server, a: ServerAction, h: History, queryFailed: bool)
    requires Finishing(v.pc) && ServerKept(cfg, v, h, queryFailed)
    ensures ServerStepKeeps(cfg, v, a, ServerStep(cfg, v, a), h, queryFailed)
  {
    QueryNotYet(cfg, v, h, queryFailed);
    hide ServerStep, ServerKept, ReadByServer;
    if ServerStep(cfg, v, a).ServerMoved? {
      match v.pc {
        case SWriteTower => WriteIsTimed(cfg, v, a, h);
        case SSetActive => SwitchIsTimed(cfg, v, a, h);
        case SEndSlot => EndSlotIsRead(cfg, v, a, h);
        case SRollback => RevertingKeepsReadings(cfg, v, a, h, queryFailed);
        case _ => ClosingKeepsReadings(cfg, v, a, h, queryFailed);
      }
    }
  }

  lemma QueryNotYet(cfg: Config, v: Server, h: History, queryFailed: bool)
    requires ServerKept(cfg, v, h, queryFailed)
    ensures queryFailed ==> v.pc.SSendDone? || v.pc.SDone?
  {
    hide HoldsClient, HoldsServer, EndSlot;
  }

  lemma GoAheadIsSent(cfg: Config, pc: ServerPc, m: Message, tower: Message)
    requires ServerMessage(cfg, pc, m, tower)
    ensures pc.SSendProceed? ==> GoAheadMessage(cfg, m)
    ensures pc.SSendRollback? ==> !m.isSuccessfullyCompleted
  {
    hide FreshMessage, SentRequest, BaseMessage, RejectMessage, GoAheadMessage, FinishingMessage;
  }

  lemma StartingServerKeeps(cfg: Config, s: State, a: ServerAction, h: History)
    requires cfg.Valid() && Inv(cfg, s) && ReadingInv(cfg, s, h) && !Finishing(s.server.pc)
    requires ServerReady(s, a)
    ensures ServerStepKeeps(cfg, s.server, a, ServerStep(cfg, s.server, a), h, EndSlotFault in s.faults)
  {
    var v, r := s.server, ServerStep(cfg, s.server, a);
    QueryNotYet(cfg, v, h, EndSlotFault in s.faults);
    GoAheadIsSent(cfg, v.pc, v.msg, Tower(s.toServer.frames));
    hide ServerStep, ServerCheckEdge, ServerFinishEdge, ServerKept, ReadByServer, ServerMessage, ClientMessage, UpFrames, DownFrames,
      ReplyMatches, SameIdentities, Counts, ClientKept, CompletedKept, VerdictKept, TowerKept, ServerReady, MessageAt,
      GoAheadMessage;
    if r.ServerMoved? {
      ServerFollowsEdge(cfg, v, a);
      if Checking(v.pc) {
        CheckingReadsNothing(cfg, v, a, r, h);
      } else if v.pc.SSendProceed? {
        SendingKeepsMessage(cfg, v, a);
        ProceedingReadsNothing(cfg, v, a, r, h);
      } else {
        TowerTaken(cfg, s, a, h);
      }
    }
  }

  /** The verdict goes out with everything, and nothing is read after it. */
  lemma VerdictIsKept(
      cfg: Config, v: Server, a: ServerAction, r: ServerResult, down: Channel, linkUp: bool, h: History, queryFailed: bool)
    requires r.ServerMoved? && ServerEdge(cfg, v, a, r)
    requires |down.frames| <= ServerSent(v.pc)
    requires ServerKept(cfg, v, h, queryFailed) && VerdictKept(cfg, v.pc, down.frames, h)
    requires v.pc.SSendRollback? ==> !v.msg.isSuccessfullyCompleted
    ensures var h' := h.(server := ReadByServer(v.pc, a, h.server));
            && VerdictKept(cfg, r.next.pc, down.Append(r.sent, linkUp).frames, h')
            && (|down.frames| >= 3 ==> h' == h)
  {
    hide ServerCheckEdge, ServerFinishEdge;
    if Checking(v.pc) {
      NoVerdictYet(cfg, v, a, r, down, linkUp, h);
    } else {
      VerdictGoesOut(cfg, v, a, r, down, linkUp, h, queryFailed);
    }
  }

  lemma NoVerdictYet(cfg: Config, v: Server, a: ServerAction, r: ServerResult, down: Channel, linkUp: bool, h: History)
    requires r.ServerMoved? && ServerCheckEdge(cfg, v, a, r) && Checking(v.pc) && |down.frames| <= ServerSent(v.pc)
    ensures |down.Append(r.sent, linkUp).frames| <= 2
  {
    hide SameVersion, GossipShows, HookRan, SameRoles, SameChecks;
  }

  lemma EncodeReports(cfg: Config, m: Message, h: History)
    ensures ClientPart(cfg, Encode(m), h.client) <==> ClientPart(cfg, m, h.client)
    ensures Complete(cfg, Encode(m), h) <==> Complete(cfg, m, h)
    ensures Encode(m).isSuccessfullyCompleted == m.isSuccessfullyCompleted
  {
  }

  lemma VerdictGoesOut(
      cfg: Config, v: Server, a: ServerAction, r: ServerResult, down: Channel, linkUp: bool, h: History, queryFailed: bool)
    requires r.ServerMoved? && ServerFinishEdge(cfg, v, a, r) && !Checking(v.pc) && !v.pc.SDone?
    requires |down.frames| <= ServerSent(v.pc)
    requires ServerKept(cfg, v, h, queryFailed) && VerdictKept(cfg, v.pc, down.frames, h)
    requires v.pc.SSendRollback? ==> !v.msg.isSuccessfullyCompleted
    ensures var h' := h.(server := ReadByServer(v.pc, a, h.server));
            && VerdictKept(cfg, r.next.pc, down.Append(r.sent, linkUp).frames, h')
            && (|down.frames| >= 3 ==> h' == h)
  {
    EncodeReports(cfg, v.msg, h);
    hide Encode, SameRoles, SameChecks, ClientPart, HoldsServer, EndSlot;
    if v.pc.SSendDone? {
      assert VerdictKept(cfg, r.next.pc, down.Append(r.sent, linkUp).frames, h);
    } else if v.pc.SSendRollback? {
      assert VerdictKept(cfg, r.next.pc, down.Append(r.sent, linkUp).frames, h);
    } else if v.pc.SRollback? {
      assert VerdictKept(cfg, r.next.pc, down.Append(r.sent, linkUp).frames, h);
    } else {
      assert |down.Append(r.sent, linkUp).frames| <= 2;
    }
  }

  lemma ServerPartStep(cfg: Config, s: State, a: ServerAction, h: History)
    requires cfg.Valid() && Inv(cfg, s) && ReadingInv(cfg, s, h) && ServerReady(s, a)
    ensures ServerStepKeeps(cfg, s.server, a, ServerStep(cfg, s.server, a), h, EndSlotFault in s.faults)
  {
    hide Inv, ServerStep, ServerStepKeeps, ServerReady, ClientKept, ServerKept, VerdictKept, TowerKept, CompletedKept;
    if Finishing(s.server.pc) {
      SwitchingServerKeeps(cfg, s.server, a, h, EndSlotFault in s.faults);
    } else {
      StartingServerKeeps(cfg, s, a, h);
    }
  }

  lemma VerdictStep(cfg: Config, s: State, a: ServerAction, h: History)
    requires cfg.Valid() && Inv(cfg, s) && ReadingInv(cfg, s, h) && ServerStep(cfg, s.server, a).ServerMoved?
    ensures var r, h' := ServerStep(cfg, s.server, a), h.(server := ReadByServer(s.server.pc, a, h.server));
            && VerdictKept(cfg, r.next.pc, s.toClient.Append(r.sent, s.linkUp).frames, h')
            && (|s.toClient.frames| >= 3 ==> h' == h)
  {
    ServerWrote(cfg, s);
    ServerFollowsEdge(cfg, s.server, a);
    hide Counts, UpFrames, DownFrames, ClientMessage, ReplyMatches, SameIdentities, ServerMessage, ServerStep, ClientKept,
      ServerKept, VerdictKept, TowerKept, CompletedKept, ServerEdge, ReadByServer, Channel.Append;
    GoAheadIsSent(cfg, s.server.pc, s.server.msg, Tower(s.toServer.frames));
    VerdictIsKept(cfg, s.server, a, ServerStep(cfg, s.server, a), s.toClient, s.linkUp, h, EndSlotFault in s.faults);
  }

  lemma CompletingHasTower(cfg: Config, s: State, a: ServerAction, h: History)
    requires Inv(cfg, s) && ServerStep(cfg, s.server, a).ServerMoved?
    ensures Completes(ServerStep(cfg, s.server, a).next.pc) ==>
              (!cfg.skipTowerSync ==> s.toServer.read == 3) && !a.ServerReceive?
  {
    ReadsBeforeTower(cfg, s, ClientLeaderWait(true), h.client);
    ServerFollowsEdge(cfg, s.server, a);
    ServerInvariant.ServerActionsFit(cfg, s.server, a);
    hide Inv, ServerStep, ServerEdge;
    OnlyFinishingCompletes(cfg, s.server, a, ServerStep(cfg, s.server, a));
  }

  lemma CompletedStays(c: Client, read: nat, down: seq<Frame>, down': seq<Frame>, h: ServerReadings, h': ServerReadings)
    requires CompletedKept(c, read, down, h) && read <= |down| <= |down'|
    requires forall i :: 0 <= i < |down| ==> down'[i] == down[i]
    requires |down| >= 3 ==> h' == h
    ensures CompletedKept(c, read, down', h')
  {
    hide HoldsServer;
  }

  lemma PartsOfServer(cfg: Config, s: State, r: ServerResult, received: bool, h: History, h': History)
    requires r.ServerMoved? && h'.client == h.client && ReadingInv(cfg, s, h)
    requires ServerKept(cfg, r.next, h', EndSlotFault in s.faults || EndSlotFault in r.faults)
    requires VerdictKept(cfg, r.next.pc, s.toClient.Append(r.sent, s.linkUp).frames, h')
    requires CompletedKept(s.client, s.toClient.read, s.toClient.Append(r.sent, s.linkUp).frames, h'.server)
    requires !cfg.skipTowerSync && Completes(r.next.pc) ==> s.toServer.read == 3 && !received
    requires s.toClient.Append(r.sent, s.linkUp).read == s.toClient.read
    ensures ReadingInv(cfg, ServerApply(s, r, received), h')
  {
    hide ClientKept, ServerKept, VerdictKept, TowerKept, CompletedKept, Channel.Append, Completes;
  }

  lemma ServerActionKeepsReadings(cfg: Config, s: State, a: ServerAction, h: History)
    requires cfg.Valid() && Inv(cfg, s) && ReadingInv(cfg, s, h)
    ensures ReadingInv(cfg, ServerEvent(cfg, s, a), Noted(cfg, s, ServerDoes(a), h))
  {
    hide Inv, ServerStep, ServerReady, ReadingInv, ServerKept, VerdictKept, CompletedKept, Channel.Append, ReadByServer, Completes,
      ServerApply;
    var v, r := s.server, ServerStep(cfg, s.server, a);
    if ServerReady(s, a) && r.ServerMoved? {
      ServerWrote(cfg, s);
      CompletedNow(cfg, s, h);
      ServerPartStep(cfg, s, a, h);
      VerdictStep(cfg, s, a, h);
      CompletingHasTower(cfg, s, a, h);
      AppendKeepsFrames(s.toClient, r.sent, s.linkUp);
      CompletedStays(s.client, s.toClient.read, s.toClient.frames, s.toClient.Append(r.sent, s.linkUp).frames, h.server,
                     ReadByServer(v.pc, a, h.server));
      PartsOfServer(cfg, s, r, a.ServerReceive? && a.frame.Some?, h, h.(server := ReadByServer(v.pc, a, h.server)));
    } else {
      NothingApplied(s, r, a.ServerReceive? && a.frame.Some?);
    }
  }

  lemma NothingApplied(s: State, r: ServerResult, received: bool)
    ensures r.ServerBlocked? ==> ServerApply(s, r, received) == s
  {
  }

  lemma CompletedNow(cfg: Config, s: State, h: History)
    requires ReadingInv(cfg, s, h)
    ensures CompletedKept(s.client, s.toClient.read, s.toClient.frames, h.server)
  {
    hide ClientKept, ServerKept, VerdictKept, TowerKept, CompletedKept;
  }

  lemma ServerWrote(cfg: Config, s: State)
    requires Inv(cfg, s)
    ensures s.toClient.read <= |s.toClient.frames| <= ServerSent(s.server.pc)
  {
    hide UpFrames, DownFrames, ServerMessage, ClientMessage, ReplyMatches, SameIdentities;
  }

  lemma OnlyFinishingCompletes(cfg: Config, v: Server, a: ServerAction, r: ServerResult)
    requires r.ServerMoved? && ServerEdge(cfg, v, a, r)
    ensures Completes(r.next.pc) ==> Finishing(v.pc)
  {
    hide SameVersion, GossipShows, HookRan, SameRoles, SameChecks;
  }

  // ----- In every run

  lemma LinkDropKeepsReadings(cfg: Config, s: State, i: nat, j: nat, h: History)
    requires ReadingInv(cfg, s, h) && s.toServer.Valid() && s.toClient.Valid()
    ensures ReadingInv(cfg, DropLink(s, i, j), h)
  {
    CutKeepsFrames(s.toServer, i);
    CutKeepsFrames(s.toClient, j);
    hide HoldsClient, HoldsServer, ClientPart, Complete, MessageAt, ClientKept, ServerKept, Channel.Cut;
  }

  lemma DeadServerKept(cfg: Config, v: Server, h: History, queryFailed: bool, down: seq<Frame>)
    requires ServerKept(cfg, v, h, queryFailed) && VerdictKept(cfg, v.pc, down, h) && !v.pc.SDone?
    ensures ServerKept(cfg, v.(pc := SDone(ServerCrashed)), h, queryFailed)
    ensures VerdictKept(cfg, SDone(ServerCrashed), down, h)
  {
    hide HoldsClient, HoldsServer, ClientPart, Complete, MessageAt;
  }

  lemma DeadClientKept(c: Client, read: nat, down: seq<Frame>, h: History)
    requires ClientKept(c, h.client)
    ensures var dead := c.(pc := CDone(Crashed)); ClientKept(dead, h.client) && CompletedKept(dead, read, down, h.server)
  {
    hide HoldsClient, HoldsServer, MessageAt;
  }

  lemma DeathKeepsReadings(cfg: Config, s: State, h: History)
    requires ReadingInv(cfg, s, h)
    ensures ReadingInv(cfg, KillClient(s), h) && ReadingInv(cfg, KillServer(s), h)
  {
    hide ClientKept, ServerKept, VerdictKept, TowerKept, CompletedKept;
    DeadClientKept(s.client, s.toClient.read, s.toClient.frames, h);
    if !s.server.pc.SDone? {
      DeadServerKept(cfg, s.server, h, EndSlotFault in s.faults, s.toClient.frames);
    }
  }

  lemma VotesKeepReadings(cfg: Config, s: State, tower: seq<byte>, h: History)
    requires ReadingInv(cfg, s, h)
    ensures ReadingInv(cfg, VoteOnClient(s, tower), h) && ReadingInv(cfg, VoteOnServer(s, tower), h)
  {
    hide HoldsClient, HoldsServer, ClientPart, Complete, MessageAt;
  }

  lemma {:induction false} RunKeepsReadings(cfg: Config, s: State, events: seq<Event>, h: History)
    requires cfg.Valid() && Inv(cfg, s) && ReadingInv(cfg, s, h)
    ensures ReadingInv(cfg, Run(cfg, s, events), HistoryFrom(cfg, s, events, h))
    decreases |events|
  {
    hide Inv, ReadingInv, ClientEvent, ServerEvent, DropLink, KillClient, KillServer, VoteOnClient, VoteOnServer, ClientReady,
      ServerReady, ClientStep, ServerStep;
    if events != [] {
      var e := events[0];
      StepKeepsInv(cfg, s, e);
      match e {
        case ClientDoes(a) => ClientActionKeepsReadings(cfg, s, a, h);
        case ServerDoes(a) => ServerActionKeepsReadings(cfg, s, a, h);
        case LinkDrops(i, j) => ChannelsValid(cfg, s); LinkDropKeepsReadings(cfg, s, i, j, h);
        case ClientDies => DeathKeepsReadings(cfg, s, h);
        case ServerDies => DeathKeepsReadings(cfg, s, h);
        case ClientVotes(tower) => VotesKeepReadings(cfg, s, tower, h);
        case ServerVotes(tower) => VotesKeepReadings(cfg, s, tower, h);
      }
      RunKeepsReadings(cfg, Step(cfg, s, e), events[1..], Noted(cfg, s, e, h));
    }
  }

  lemma RunReadings(cfg: Config, clientTower: seq<byte>, serverTower: Option<seq<byte>>, events: seq<Event>)
    requires cfg.Valid()
    ensures ReadingInv(cfg, Run(cfg, Init(cfg, clientTower, serverTower), events), HistoryOf(cfg, clientTower, serverTower, events))
  {
    hide Inv, Run, ReadingInv, Init, HistoryFrom;
    InitKeepsInv(cfg, clientTower, serverTower);
    NothingReadAtFirst(cfg, clientTower, serverTower);
    RunKeepsReadings(cfg, Init(cfg, clientTower, serverTower), events, History(NO_CLIENT, NO_SERVER));
  }
}

/**
 What each ending says, in every run: who holds the active identity after it, which faults lead to it,
 and how the other node can have ended. Nothing here assumes that the stream delivers or that a command
 works.
 */
module Trails {
  import opened Wrappers
  import opened Words
  import opened Messages
  import opened Protocol
  import opened ProtocolInvariant
  import opened Flow
  import opened Roles
  import opened ProtocolRuns
  import Agreement
  import Outcomes

  // ----- The client's column of the table

  /** A check on either node ended the client's program. */
  predicate EndsBeforeSwitch(o: ClientOutcome) {
    || o.NotStarted? || o.NoSignal? || o.WireMismatch? || o.VersionMismatch? || o.Refused? || o.WaitFailed?
    || o.PreHookFailed? || o.SlotFailed?
  }

  /** Who is active once the client is where it is; `unmade` says that its rollback command failed. */
  predicate ClientRow(cfg: Config, c: Client, unmade: bool) {
    if !c.pc.CDone? then c.wentPassive == AfterSwitch(c.pc) && c.active == (!c.wentPassive || cfg.dryRun)
    else if EndsBeforeSwitch(c.pc.outcome) then !c.wentPassive && c.active
    else if c.pc.outcome.SetPassiveFailed? then !c.wentPassive
    else if c.pc.outcome.Crashed? then c.active == (!c.wentPassive || cfg.dryRun)
    else if c.pc.outcome.RolledBack? then
      c.wentPassive && (!unmade ==> c.active == (cfg.toActiveCmd != "" || cfg.dryRun))
    else c.wentPassive && c.active == cfg.dryRun
  }

  /** A failed write, command or read ends the client's program there and then. */
  predicate ClientTrail(cfg: Config, c: Client, faults: set<Fault>) {
    && ClientRow(cfg, c, ToActiveFault in faults)
    && (OpeningSendFault in faults ==> Leaves(c.pc, NotStarted))
    && (ClientCommandFault in faults ==> Leaves(c.pc, SetPassiveFailed))
    && (TowerReadFault in faults ==> Leaves(c.pc, TowerUnread))
    && (TowerSendFault in faults ==> Leaves(c.pc, TowerUnsent))
  }

  // ----- The server's

  predicate EndsBeforeGoAhead(o: ServerOutcome) {
    o.NoRequest? || o.OtherWire? || o.VersionUnsent? || o.Rejected?
  }

  predicate EndsForTower(o: ServerOutcome) {
    o.NoTower? || o.HashMismatch? || o.TowerUnwritten?
  }

  predicate ServerRow(cfg: Config, v: Server, failed: bool, lied: bool, undone: bool) {
    && (lied ==> failed) && (failed ==> !cfg.dryRun)
    && match v.pc
       case SEndSlot => v.activated && !failed && v.active == !cfg.dryRun
       case SSendDone => v.activated && !failed && v.active == !cfg.dryRun
       case SSendRollback => !v.activated && failed && cfg.serverRollback && v.active == lied
       case SRollback => !v.activated && failed && cfg.serverRollback && v.active == lied
       case SDone(o) =>
         if o.Activated? || o.CompletionUnsent? then v.activated && !failed && v.active == !cfg.dryRun
         else if o.ActivationFailed? then !v.activated && failed && !cfg.serverRollback && v.active == lied
         else if o.ActivationUndone? then
           && !v.activated && failed && cfg.serverRollback && (v.active ==> lied)
           && (!undone ==> v.active == (lied && cfg.toPassiveCmd == ""))
         else if o.ServerCrashed? then v.active == ((v.activated || lied) && !cfg.dryRun)
         else !v.activated && !failed && !v.active && (EndsForTower(o) ==> !cfg.skipTowerSync)
       case _ => !v.activated && !failed && !v.active
  }

  predicate ServerTrail(cfg: Config, v: Server, faults: set<Fault>) {
    && ServerRow(cfg, v, ServerCommandFault in faults, ServerCommandLied in faults, ToPassiveFault in faults)
    && (VersionSendFault in faults ==> EndsAs(v.pc, VersionUnsent))
    && (ReplySendFault in faults ==> v.pc.SDone? && (v.pc.outcome.Rejected? || v.pc.outcome.ProceedUnsent?))
    && (EndsAs(v.pc, ProceedUnsent) ==> ReplySendFault in faults)
    && (TowerWriteFault in faults ==> EndsAs(v.pc, TowerUnwritten))
    && (VerdictSendFault in faults ==>
          EndsAs(v.pc, CompletionUnsent) || (ServerCommandFault in faults && (v.pc.SRollback? || v.pc.SDone?)))
  }

  // ----- Between them

  predicate LinkTrail(cpc: ClientPc, vpc: ServerPc, linkUp: bool, faults: set<Fault>) {
    && (LinkFault in faults ==> !linkUp)
    && (CrashFault in faults ==> Leaves(cpc, Crashed) || EndsAs(vpc, ServerCrashed))
    && (Leaves(cpc, Crashed) || EndsAs(vpc, ServerCrashed) ==> CrashFault in faults)
  }

  /** The server has sent its go-ahead, or tried to. */
  predicate PastGoAhead(pc: ServerPc) {
    Proceeding(pc) || (pc.SDone? && !EndsBeforeGoAhead(pc.outcome))
  }

  /** What the frames on the stream say about the server that sent them. */
  ghost predicate FrameTrail(vpc: ServerPc, down: seq<Frame>) {
    && (|down| >= 2 ==>
          if Reply(down).canProceed then PastGoAhead(vpc)
          else vpc.SDone? && vpc.outcome.Rejected? && Reply(down).errorMessage == RejectText(vpc.outcome.why))
    && (|down| >= 3 ==>
          if Verdict(down).isSuccessfullyCompleted then EndsAs(vpc, Activated) || EndsAs(vpc, CompletionUnsent)
          else vpc.SRollback? || EndsAs(vpc, ActivationUndone) || EndsAs(vpc, ServerCrashed))
  }

  /** What the client's ending says about the frames it read. */
  ghost predicate ReadTrail(c: Client, read: nat, down: seq<Frame>) {
    && (c.pc.CDone? && c.pc.outcome.Refused? ==>
          read >= 2 && !Reply(down).canProceed && c.pc.outcome.reason == Reply(down).errorMessage)
    && (Leaves(c.pc, Completed) ==> read >= 3 && Verdict(down).isSuccessfullyCompleted)
    && (c.pc.CRollback? || Leaves(c.pc, RolledBack) ==> read >= 3 && Verdict(down).rollbackRequired)
  }

  ghost predicate TrailInv(cfg: Config, s: State) {
    && ClientTrail(cfg, s.client, s.faults)
    && ServerTrail(cfg, s.server, s.faults)
    && LinkTrail(s.client.pc, s.server.pc, s.linkUp, s.faults)
    && FrameTrail(s.server.pc, s.toClient.frames)
    && ReadTrail(s.client, s.toClient.read, s.toClient.frames)
  }

  // ----- The client keeps it

  lemma PreparingKeepsTrail(cfg: Config, c: Client, a: ClientAction, r: ClientResult, faults: set<Fault>)
    requires r.ClientMoved? && ClientEdge(cfg, c, a, r) && (Preparing(c.pc) || c.pc.CNextSlot?)
    requires ClientTrail(cfg, c, faults)
    ensures ClientTrail(cfg, r.next, faults + r.faults)
  {
    hide HookRan, SameVersion;
  }

  lemma SwitchingKeepsTrail(cfg: Config, c: Client, a: ClientAction, r: ClientResult, faults: set<Fault>)
    requires r.ClientMoved? && ClientEdge(cfg, c, a, r) && !Preparing(c.pc) && !c.pc.CNextSlot?
    requires c.pc.CSetPassive? || c.pc.CRollback? ==> c.msg.isDryRunFailover == cfg.dryRun
    requires ClientTrail(cfg, c, faults)
    ensures ClientTrail(cfg, r.next, faults + r.faults)
  {
    hide HookRan, SameVersion;
  }

  const CLIENT_FAULTS := {OpeningSendFault, WaitFault, HookFault, ClientCommandFault, TowerReadFault, TowerSendFault, ToActiveFault}

  lemma ClientFaultsAre(cfg: Config, c: Client, a: ClientAction, r: ClientResult)
    requires r.ClientMoved? && ClientEdge(cfg, c, a, r)
    ensures r.faults <= CLIENT_FAULTS && !Leaves(r.next.pc, Crashed) && !c.pc.CDone?
  {
    hide HookRan, SameVersion, SameClient;
  }

  lemma ClientFaultsSpareServer(cfg: Config, v: Server, faults: set<Fault>, more: set<Fault>)
    requires ServerTrail(cfg, v, faults) && more <= CLIENT_FAULTS
    ensures ServerTrail(cfg, v, faults + more)
  {
  }

  lemma ClientStepKeepsTrail(cfg: Config, c: Client, a: ClientAction, faults: set<Fault>)
    requires ClientStep(cfg, c, a).ClientMoved?
    requires c.pc.CSetPassive? || c.pc.CRollback? ==> c.msg.isDryRunFailover == cfg.dryRun
    requires ClientTrail(cfg, c, faults)
    ensures var r := ClientStep(cfg, c, a);
            ClientTrail(cfg, r.next, faults + r.faults) && r.faults <= CLIENT_FAULTS && !Leaves(r.next.pc, Crashed) && !c.pc.CDone?
  {
    ClientFollowsEdge(cfg, c, a);
    hide ClientStep, ClientEdge, ClientTrail;
    ClientFaultsAre(cfg, c, a, ClientStep(cfg, c, a));
    if Preparing(c.pc) || c.pc.CNextSlot? {
      PreparingKeepsTrail(cfg, c, a, ClientStep(cfg, c, a), faults);
    } else {
      SwitchingKeepsTrail(cfg, c, a, ClientStep(cfg, c, a), faults);
    }
  }

  /** An ending that reports what was read reports the frame itself. */
  lemma EndingReportsFrame(cfg: Config, c: Client, a: ClientAction, r: ClientResult, read: nat, down: seq<Frame>)
    requires r.ClientMoved? && ClientEdge(cfg, c, a, r)
    requires c.pc.CAwaitSignal? && a.ClientReceive? && a.frame.Some? ==> 
               && read >= 2 && r.next.msg.canProceed == Reply(down).canProceed
               && r.next.msg.errorMessage == Reply(down).errorMessage
    requires c.pc.CAwaitOutcome? && a.ClientReceive? && a.frame.Some? ==>
               && read >= 3 && r.next.msg.rollbackRequired == Verdict(down).rollbackRequired
               && r.next.msg.isSuccessfullyCompleted == Verdict(down).isSuccessfullyCompleted
    requires c.pc.CRollback? ==> read >= 3 && Verdict(down).rollbackRequired
    ensures ReadTrail(r.next, read, down)
  {
    hide HookRan, SameVersion, SameClient, MessageAt;
  }

  /** What the client's message says after a read is what the frame said. */
  lemma HeardFrame(cfg: Config, s: State, a: ClientAction)
    requires cfg.Valid() && Inv(cfg, s) && ClientReady(s, a) && ClientStep(cfg, s.client, a).ClientMoved?
    requires a.ClientReceive? && a.frame.Some?
    ensures var m := ClientStep(cfg, s.client, a).next.msg;
            && (s.client.pc.CAwaitSignal? ==>
                  && m.canProceed == Reply(s.toClient.frames).canProceed
                  && m.errorMessage == Reply(s.toClient.frames).errorMessage)
            && (s.client.pc.CAwaitOutcome? ==>
                  && m.rollbackRequired == Verdict(s.toClient.frames).rollbackRequired
                  && m.isSuccessfullyCompleted == Verdict(s.toClient.frames).isSuccessfullyCompleted)
  {
    Outcomes.ClientUnderstandsFrame(cfg, s, a);
    hide Inv, ClientStep, ClientReady, Reply, Verdict, ClientDecodes;
    if s.client.pc.CAwaitOutcome? {
      Agreement.ClientHearsVerdict(cfg, s, a);
    } else if s.client.pc.CAwaitSignal? {
      Agreement.ClientHearsReply(cfg, s, a);
      SignalIsDecoded(cfg, s.client, Reply(s.toClient.frames));
    }
  }

  lemma SignalIsDecoded(cfg: Config, c: Client, m: Message)
    requires c.pc.CAwaitSignal?
    ensures var r := ClientStep(cfg, c, ClientReceive(Some(Gob(m)))); r.ClientMoved? && r.next.msg == ClientDecodes(c, m).msg
  {
    hide Decode, SameVersion;
  }

  lemma ClientActionReports(cfg: Config, s: State, a: ClientAction)
    requires cfg.Valid() && Inv(cfg, s) && ReadTrail(s.client, s.toClient.read, s.toClient.frames)
    requires ClientReady(s, a) && ClientStep(cfg, s.client, a).ClientMoved?
    ensures var n := ClientEvent(cfg, s, a); ReadTrail(n.client, n.toClient.read, s.toClient.frames)
  {
    var c, r, n := s.client, ClientStep(cfg, s.client, a), ClientEvent(cfg, s, a);
    ClientFollowsEdge(cfg, c, a);
    ReadSoFar(cfg, s);
    EventReads(cfg, s, a);
    RollbackHasRead(c, s.toClient.read, s.toClient.frames);
    hide Inv, ClientStep, ClientReady, ClientEvent, ClientEdge, Reply, Verdict, ReadTrail, ServerSent;
    if a.ClientReceive? && a.frame.Some? {
      HeardFrame(cfg, s, a);
    }
    EndingReportsFrame(cfg, c, a, r, n.toClient.read, s.toClient.frames);
  }

  lemma EventReads(cfg: Config, s: State, a: ClientAction)
    requires ClientReady(s, a) && ClientStep(cfg, s.client, a).ClientMoved?
    ensures var n := ClientEvent(cfg, s, a);
            && n.client == ClientStep(cfg, s.client, a).next
            && n.toClient.read == s.toClient.read + (if a.ClientReceive? && a.frame.Some? then 1 else 0)
  {
    hide ClientStep, CanReceive;
  }

  lemma RollbackHasRead(c: Client, read: nat, down: seq<Frame>)
    requires ReadTrail(c, read, down)
    ensures c.pc.CRollback? ==> read >= 3 && Verdict(down).rollbackRequired
  {
  }

  lemma ReadSoFar(cfg: Config, s: State)
    requires Inv(cfg, s)
    ensures s.client.pc.CAwaitSignal? ==> s.toClient.read == 1
    ensures s.client.pc.CAwaitOutcome? ==> s.toClient.read == 2
    ensures s.toClient.read <= |s.toClient.frames| <= ServerSent(s.server.pc)
    ensures s.linkUp && !s.server.pc.SRollback? && !s.server.pc.SDone? ==> |s.toClient.frames| == ServerSent(s.server.pc)
  {
    hide UpFrames, DownFrames, ServerMessage, ClientMessage, ReplyMatches, SameIdentities;
  }

  lemma ClientActionKeepsTrail(cfg: Config, s: State, a: ClientAction)
    requires cfg.Valid() && Inv(cfg, s) && TrailInv(cfg, s)
    ensures TrailInv(cfg, ClientEvent(cfg, s, a))
  {
    var r := ClientStep(cfg, s.client, a);
    hide Inv, ClientStep, ClientTrail, ServerTrail, FrameTrail, ReadTrail, CanReceive;
    if ClientReady(s, a) && r.ClientMoved? {
      if s.client.pc.CSetPassive? || s.client.pc.CRollback? {
        ClientKnowsMode(cfg, s);
      }
      ClientStepKeepsTrail(cfg, s.client, a, s.faults);
      ClientFaultsSpareServer(cfg, s.server, s.faults, r.faults);
      ClientActionReports(cfg, s, a);
    }
  }

  // ----- The server keeps it

  const SERVER_FAULTS := {
    VersionSendFault, ReplySendFault, VerdictSendFault, GossipFault, DeclinedFault, SampleFault, PrepareFault, HookFault,
    TowerWriteFault, ServerCommandFault, ServerCommandLied, ToPassiveFault, EndSlotFault}

  lemma CheckingKeepsTrail(cfg: Config, v: Server, a: ServerAction, r: ServerResult, faults: set<Fault>)
    requires r.ServerMoved? && ServerCheckEdge(cfg, v, a, r) && Checking(v.pc)
    requires ServerTrail(cfg, v, faults)
    ensures ServerTrail(cfg, r.next, faults + r.faults)
  {
    hide HookRan, SameVersion, GossipShows, SameChecks;
  }

  lemma FinishingKeepsTrail(cfg: Config, v: Server, a: ServerAction, r: ServerResult, faults: set<Fault>)
    requires r.ServerMoved? && ServerFinishEdge(cfg, v, a, r) && !Checking(v.pc) && !v.pc.SDone?
    requires v.pc.SAwaitTower? || v.pc.SWriteTower? ==> !cfg.skipTowerSync
    requires ServerTrail(cfg, v, faults)
    ensures ServerTrail(cfg, r.next, faults + r.faults)
  {
    hide SameChecks;
  }

  lemma ServerFaultsAre(cfg: Config, v: Server, a: ServerAction, r: ServerResult)
    requires r.ServerMoved? && ServerEdge(cfg, v, a, r)
    ensures r.faults <= SERVER_FAULTS && !EndsAs(r.next.pc, ServerCrashed) && !v.pc.SDone?
  {
    hide HookRan, SameVersion, GossipShows, SameChecks, SameRoles;
  }

  lemma ServerFaultsSpareClient(cfg: Config, c: Client, faults: set<Fault>, more: set<Fault>)
    requires ClientTrail(cfg, c, faults) && more <= SERVER_FAULTS
    ensures ClientTrail(cfg, c, faults + more)
  {
  }

  lemma ServerStepKeepsTrail(cfg: Config, v: Server, a: ServerAction, faults: set<Fault>)
    requires ServerStep(cfg, v, a).ServerMoved?
    requires v.pc.SAwaitTower? || v.pc.SWriteTower? ==> !cfg.skipTowerSync
    requires ServerTrail(cfg, v, faults)
    ensures var r := ServerStep(cfg, v, a);
            ServerTrail(cfg, r.next, faults + r.faults) && r.faults <= SERVER_FAULTS && !EndsAs(r.next.pc, ServerCrashed) && !v.pc.SDone?
  {
    ServerFollowsEdge(cfg, v, a);
    hide ServerStep, ServerCheckEdge, ServerFinishEdge, ServerTrail;
    ServerFaultsAre(cfg, v, a, ServerStep(cfg, v, a));
    if Checking(v.pc) {
      CheckingKeepsTrail(cfg, v, a, ServerStep(cfg, v, a), faults);
    } else {
      FinishingKeepsTrail(cfg, v, a, ServerStep(cfg, v, a), faults);
    }
  }

  /** A frame fits the program point it leaves the server at. */
  predicate MessageFits(pc: ServerPc, m: Message) {
    && (pc.SReject? ==> !m.canProceed && m.errorMessage == RejectText(pc.why))
    && (pc.SSendProceed? ==> m.canProceed)
    && (pc.SSendDone? ==> m.isSuccessfullyCompleted)
    && (pc.SSendRollback? ==> !m.isSuccessfullyCompleted)
  }

  lemma ServerMessageFits(cfg: Config, pc: ServerPc, m: Message, tower: Message)
    requires ServerMessage(cfg, pc, m, tower)
    ensures MessageFits(pc, m) && (pc.SAwaitTower? || pc.SWriteTower? ==> !cfg.skipTowerSync)
  {
    hide FinishingMessage, FreshMessage, SentRequest, BaseMessage, RejectText;
  }

  lemma CheckingKeepsFrames(cfg: Config, v: Server, a: ServerAction, r: ServerResult, down: Channel, linkUp: bool)
    requires r.ServerMoved? && ServerCheckEdge(cfg, v, a, r) && Checking(v.pc)
    requires |down.frames| <= ServerSent(v.pc) && (linkUp && !v.pc.SRollback? ==> |down.frames| == ServerSent(v.pc))
    requires MessageFits(v.pc, v.msg) && FrameTrail(v.pc, down.frames)
    ensures FrameTrail(r.next.pc, down.Append(r.sent, linkUp).frames)
  {
    hide HookRan, SameVersion, GossipShows, SameChecks, SameRoles, Encode, RejectText;
    EncodeKeepsFlags(v.msg);
  }

  lemma FinishingKeepsFrames(cfg: Config, v: Server, a: ServerAction, r: ServerResult, down: Channel, linkUp: bool)
    requires r.ServerMoved? && ServerFinishEdge(cfg, v, a, r) && !Checking(v.pc) && !v.pc.SDone?
    requires |down.frames| <= ServerSent(v.pc) && (linkUp && !v.pc.SRollback? ==> |down.frames| == ServerSent(v.pc))
    requires MessageFits(v.pc, v.msg) && FrameTrail(v.pc, down.frames)
    ensures FrameTrail(r.next.pc, down.Append(r.sent, linkUp).frames)
  {
    hide SameChecks, SameRoles, Encode, RejectText;
    EncodeKeepsFlags(v.msg);
  }

  lemma EncodeKeepsFlags(m: Message)
    ensures Encode(m).canProceed == m.canProceed && Encode(m).isSuccessfullyCompleted == m.isSuccessfullyCompleted
    ensures Encode(m).errorMessage == m.errorMessage
  {
  }

  lemma ServerStepKeepsFrames(cfg: Config, v: Server, a: ServerAction, down: Channel, linkUp: bool)
    requires ServerStep(cfg, v, a).ServerMoved?
    requires |down.frames| <= ServerSent(v.pc) && (linkUp && !v.pc.SRollback? ==> |down.frames| == ServerSent(v.pc))
    requires MessageFits(v.pc, v.msg) && FrameTrail(v.pc, down.frames)
    ensures var r := ServerStep(cfg, v, a);
            FrameTrail(r.next.pc, down.Append(r.sent, linkUp).frames)
  {
    ServerFollowsEdge(cfg, v, a);
    hide ServerStep, ServerCheckEdge, ServerFinishEdge, FrameTrail;
    if Checking(v.pc) {
      CheckingKeepsFrames(cfg, v, a, ServerStep(cfg, v, a), down, linkUp);
    } else {
      FinishingKeepsFrames(cfg, v, a, ServerStep(cfg, v, a), down, linkUp);
    }
  }

  /** What was read stays readable. */
  lemma ReadTrailStays(c: Client, read: nat, down: seq<Frame>, down': seq<Frame>)
    requires ReadTrail(c, read, down) && read <= |down| && read <= |down'|
    requires forall i :: 0 <= i < read ==> down'[i] == down[i]
    ensures ReadTrail(c, read, down')
  {
  }

  lemma ServerResultKeepsTrail(cfg: Config, s: State, r: ServerResult, received: bool)
    requires TrailInv(cfg, s) && r.ServerMoved? && s.toClient.read <= |s.toClient.frames|
    requires ServerTrail(cfg, r.next, s.faults + r.faults) && r.faults <= SERVER_FAULTS
    requires !EndsAs(r.next.pc, ServerCrashed) && !s.server.pc.SDone?
    requires FrameTrail(r.next.pc, s.toClient.Append(r.sent, s.linkUp).frames)
    ensures TrailInv(cfg, ServerApply(s, r, received))
  {
    hide ClientTrail, ServerTrail, FrameTrail, ReadTrail;
    ServerFaultsSpareClient(cfg, s.client, s.faults, r.faults);
    ReadTrailStays(s.client, s.toClient.read, s.toClient.frames, s.toClient.Append(r.sent, s.linkUp).frames);
  }

  lemma ServerActionKeepsTrail(cfg: Config, s: State, a: ServerAction)
    requires cfg.Valid() && Inv(cfg, s) && TrailInv(cfg, s)
    ensures TrailInv(cfg, ServerEvent(cfg, s, a))
  {
    ReadSoFar(cfg, s);
    InvMessageFits(cfg, s);
    TrailParts(cfg, s);
    hide Inv, TrailInv, ServerStep, ClientTrail, ServerTrail, FrameTrail, ReadTrail, ServerApply, MessageFits, ServerReady,
      ServerSent;
    if ServerReady(s, a) && ServerStep(cfg, s.server, a).ServerMoved? {
      ServerStepKeepsTrail(cfg, s.server, a, s.faults);
      ServerStepKeepsFrames(cfg, s.server, a, s.toClient, s.linkUp);
      ServerResultKeepsTrail(cfg, s, ServerStep(cfg, s.server, a), a.ServerReceive? && a.frame.Some?);
    }
  }

  lemma InvMessageFits(cfg: Config, s: State)
    requires Inv(cfg, s)
    ensures MessageFits(s.server.pc, s.server.msg)
    ensures s.server.pc.SAwaitTower? || s.server.pc.SWriteTower? ==> !cfg.skipTowerSync
  {
    hide Counts, UpFrames, DownFrames, ClientMessage, ServerMessage, ReplyMatches, SameIdentities, MessageAt;
    ServerMessageFits(cfg, s.server.pc, s.server.msg, Tower(s.toServer.frames));
  }

  lemma TrailParts(cfg: Config, s: State)
    requires TrailInv(cfg, s)
    ensures ServerTrail(cfg, s.server, s.faults) && FrameTrail(s.server.pc, s.toClient.frames)
  {
    hide ClientTrail, ServerTrail, FrameTrail, ReadTrail, LinkTrail;
  }

  // ----- The environment keeps it

  lemma DeadClientTrail(cfg: Config, c: Client, faults: set<Fault>)
    requires ClientTrail(cfg, c, faults) && !c.pc.CDone?
    ensures ClientTrail(cfg, c.(pc := CDone(Crashed)), faults + {CrashFault})
  {
  }

  lemma DeadServerTrail(cfg: Config, v: Server, faults: set<Fault>)
    requires ServerTrail(cfg, v, faults) && !v.pc.SDone?
    ensures ServerTrail(cfg, v.(pc := SDone(ServerCrashed)), faults + {CrashFault})
  {
  }

  /** Neither a dropped link nor a death is a fault of either program. */
  lemma OutsideFaultsKeepTrails(cfg: Config, c: Client, v: Server, faults: set<Fault>, f: Fault)
    requires f.LinkFault? || f.CrashFault?
    ensures ClientTrail(cfg, c, faults + {f}) == ClientTrail(cfg, c, faults)
    ensures ServerTrail(cfg, v, faults + {f}) == ServerTrail(cfg, v, faults)
  {
    hide ClientRow, ServerRow;
  }

  lemma DeadServerFrames(vpc: ServerPc, down: seq<Frame>)
    requires FrameTrail(vpc, down) && !vpc.SDone? && |down| <= ServerSent(vpc)
    ensures FrameTrail(SDone(ServerCrashed), down)
  {
    hide MessageAt;
  }

  lemma ClientDeathKeepsTrail(cfg: Config, s: State)
    requires TrailInv(cfg, s)
    ensures TrailInv(cfg, KillClient(s))
  {
    hide ClientTrail, ServerTrail, FrameTrail, Verdict, Reply;
    if !s.client.pc.CDone? {
      DeadClientTrail(cfg, s.client, s.faults);
      OutsideFaultsKeepTrails(cfg, s.client, s.server, s.faults, CrashFault);
    }
  }

  lemma ServerDeathKeepsTrail(cfg: Config, s: State)
    requires TrailInv(cfg, s) && |s.toClient.frames| <= ServerSent(s.server.pc)
    ensures TrailInv(cfg, KillServer(s))
  {
    hide ClientTrail, ServerTrail, FrameTrail, ReadTrail;
    if !s.server.pc.SDone? {
      DeadServerTrail(cfg, s.server, s.faults);
      DeadServerFrames(s.server.pc, s.toClient.frames);
      OutsideFaultsKeepTrails(cfg, s.client, s.server, s.faults, CrashFault);
    }
  }

  lemma VotesKeepTrail(cfg: Config, s: State, tower: seq<byte>)
    requires TrailInv(cfg, s)
    ensures TrailInv(cfg, VoteOnClient(s, tower)) && TrailInv(cfg, VoteOnServer(s, tower))
  {
    hide MessageAt, FrameTrail;
  }

  lemma CutKeepsTrail(vpc: ServerPc, down: seq<Frame>, down': seq<Frame>)
    requires FrameTrail(vpc, down) && |down'| <= |down| && forall i :: 0 <= i < |down'| ==> down'[i] == down[i]
    ensures FrameTrail(vpc, down')
  {
  }

  lemma LinkDropKeepsTrail(cfg: Config, s: State, i: nat, j: nat)
    requires Inv(cfg, s) && TrailInv(cfg, s)
    ensures TrailInv(cfg, DropLink(s, i, j))
  {
    ReadSoFar(cfg, s);
    CutKeepsFrames(s.toClient, j);
    hide Inv, ReadTrail, FrameTrail, ClientTrail, ServerTrail, MessageAt;
    OutsideFaultsKeepTrails(cfg, s.client, s.server, s.faults, LinkFault);
    CutKeepsTrail(s.server.pc, s.toClient.frames, s.toClient.Cut(j).frames);
    ReadTrailStays(s.client, s.toClient.read, s.toClient.frames, s.toClient.Cut(j).frames);
  }

  lemma StepKeepsTrail(cfg: Config, s: State, e: Event)
    requires cfg.Valid() && Inv(cfg, s) && TrailInv(cfg, s)
    ensures TrailInv(cfg, Step(cfg, s, e))
  {
    hide Inv, TrailInv, ClientEvent, ServerEvent, DropLink, KillClient, KillServer, VoteOnClient, VoteOnServer;
    match e
    case ClientDoes(a) => ClientActionKeepsTrail(cfg, s, a);
    case ServerDoes(a) => ServerActionKeepsTrail(cfg, s, a);
    case LinkDrops(i, j) => LinkDropKeepsTrail(cfg, s, i, j);
    case ClientDies => ClientDeathKeepsTrail(cfg, s);
    case ServerDies => ReadSoFar(cfg, s); ServerDeathKeepsTrail(cfg, s);
    case ClientVotes(tower) => VotesKeepTrail(cfg, s, tower);
    case ServerVotes(tower) => VotesKeepTrail(cfg, s, tower);
  }

  lemma InitHasTrail(cfg: Config, clientTower: seq<byte>, serverTower: Option<seq<byte>>)
    ensures TrailInv(cfg, Init(cfg, clientTower, serverTower))
  {
  }

  lemma {:induction false} RunKeepsTrail(cfg: Config, s: State, events: seq<Event>)
    requires cfg.Valid() && Inv(cfg, s) && TrailInv(cfg, s)
    ensures TrailInv(cfg, Run(cfg, s, events))
    decreases |events|
  {
    hide Inv, TrailInv, Step;
    if events != [] {
      StepKeepsInv(cfg, s, events[0]);
      StepKeepsTrail(cfg, s, events[0]);
      RunKeepsTrail(cfg, Step(cfg, s, events[0]), events[1..]);
    }
  }

  lemma ReachableTrail(cfg: Config, s: State)
    requires cfg.Valid() && Reachable(cfg, s)
    ensures TrailInv(cfg, s)
  {
    hide Inv, TrailInv, Run, Init;
    var clientTower, serverTower, events :| s == Run(cfg, Init(cfg, clientTower, serverTower), events);
    InitKeepsInv(cfg, clientTower, serverTower);
    InitHasTrail(cfg, clientTower, serverTower);
    RunKeepsTrail(cfg, Init(cfg, clientTower, serverTower), events);
  }
}

/**
 Runs that leave both nodes passive: how they end, what must have gone wrong and when, and that a
 dropped link alone can do it.
 */
module Stranding {
  import opened Wrappers
  import opened Words
  import opened Messages
  import opened Protocol
  import opened ProtocolInvariant
  import opened Flow
  import opened Roles
  import opened Gates
  import opened Outcomes
  import opened ProtocolRuns
  import opened Progress
  import opened Trails
  import ServerInvariant
  import opened Exclusion
  import Endings

  // ----- The table of endings

  /** Every refusal has a text, and the texts tell the reasons apart. */
  lemma RefusalsTellApart(why: Reject, other: Reject)
    ensures RejectText(why) != "" && (RejectText(why) == RejectText(other) <==> why == other)
  {
  }

  /** How the two programs can have ended together. */
  predicate EndingsFit(cfg: Config, c: Client, v: Server)
    requires c.pc.CDone? && v.pc.SDone?
  {
    var mine, theirs := c.pc.outcome, v.pc.outcome;
    && (Attempted(c) ==> !EndsBeforeGoAhead(theirs))
    && (mine.Refused? ==> theirs.Rejected? && mine.reason == RejectText(theirs.why))
    && (mine.Completed? ==> theirs.Activated? || theirs.CompletionUnsent?)
    && (mine.RolledBack? ==> theirs.ActivationUndone? || theirs.ServerCrashed?)
    && (!cfg.skipTowerSync && Switched(theirs) ==> c.wentPassive)
  }

  /** The server got as far as running its command. */
  predicate Switched(o: ServerOutcome) {
    o.Activated? || o.CompletionUnsent? || o.ActivationFailed? || o.ActivationUndone?
  }

  /** A client that gave up its identity, or tried to, has the server's go-ahead. */
  lemma AttemptedHasGoAhead(cfg: Config, s: State)
    requires Good(cfg, s) && Attempted(s.client)
    ensures s.toClient.read >= 2 && |s.toClient.frames| >= 2 && Reply(s.toClient.frames).canProceed
  {
    hide UpFrames, DownFrames, ServerMessage, ClientMessage, ReplyMatches, SameIdentities, RoleInv, Towers.TowerInv, EndInv,
      ServerGates, AllGates, HooksDone, HooksHeld, MessageAt;
  }

  lemma SwitchNeedsTower(cfg: Config, s: State)
    requires Good(cfg, s) && !cfg.skipTowerSync
    ensures s.server.activated || ServerCommandFault in s.faults ==> s.client.wentPassive
  {
    hide UpFrames, DownFrames, ServerMessage, ClientMessage, ReplyMatches, SameIdentities, Towers.TowerInv, EndInv, GateInv,
      VerdictRoles, MessageAt;
  }

  /** In every finished run, whatever was lost or killed: each node's ending says whether it is active, and
      the two endings fit. */
  lemma EndingTable(cfg: Config, s: State)
    requires cfg.Valid() && Reachable(cfg, s) && Finished(s)
    ensures ClientRow(cfg, s.client, ToActiveFault in s.faults)
    ensures ServerRow(cfg, s.server, ServerCommandFault in s.faults, ServerCommandLied in s.faults, ToPassiveFault in s.faults)
    ensures EndingsFit(cfg, s.client, s.server)
  {
    ReachableGood(cfg, s);
    ReachableTrail(cfg, s);
    hide Reachable, Good, TrailInv, ClientRow, ServerRow, EndingsFit;
    RowsHold(cfg, s);
    EndingsMeet(cfg, s);
  }

  lemma RowsHold(cfg: Config, s: State)
    requires TrailInv(cfg, s)
    ensures ClientRow(cfg, s.client, ToActiveFault in s.faults)
    ensures ServerRow(cfg, s.server, ServerCommandFault in s.faults, ServerCommandLied in s.faults, ToPassiveFault in s.faults)
  {
    hide ClientRow, ServerRow, FrameTrail, ReadTrail, LinkTrail;
  }

  lemma EndingsMeet(cfg: Config, s: State)
    requires Good(cfg, s) && TrailInv(cfg, s) && Finished(s)
    ensures EndingsFit(cfg, s.client, s.server)
  {
    hide Good, TrailInv, FrameTrail, ReadTrail, EndingsFit, Attempted, MessageAt;
    if Attempted(s.client) {
      AttemptedHasGoAhead(cfg, s);
    }
    if !cfg.skipTowerSync {
      SwitchNeedsTower(cfg, s);
    }
    SwitchedServer(cfg, s);
    FramesAreRead(cfg, s);
    FramesFit(cfg, s.client, s.server, s.toClient.read, s.toClient.frames);
  }

  lemma FramesFit(cfg: Config, c: Client, v: Server, read: nat, down: seq<Frame>)
    requires c.pc.CDone? && v.pc.SDone?
    requires FrameTrail(v.pc, down) && ReadTrail(c, read, down) && read <= |down|
    requires |down| >= 3 ==> (Verdict(down).isSuccessfullyCompleted <==> !Verdict(down).rollbackRequired)
    requires Attempted(c) ==> |down| >= 2 && Reply(down).canProceed
    requires !cfg.skipTowerSync && Switched(v.pc.outcome) ==> c.wentPassive
    ensures EndingsFit(cfg, c, v)
  {
    hide MessageAt, Attempted, RejectText;
  }

  lemma SwitchedServer(cfg: Config, s: State)
    requires TrailInv(cfg, s) && s.server.pc.SDone?
    ensures FrameTrail(s.server.pc, s.toClient.frames) && ReadTrail(s.client, s.toClient.read, s.toClient.frames)
    ensures Switched(s.server.pc.outcome) ==> s.server.activated || ServerCommandFault in s.faults
  {
    hide ClientTrail, FrameTrail, ReadTrail, LinkTrail;
  }

  lemma FramesAreRead(cfg: Config, s: State)
    requires Good(cfg, s)
    ensures s.toClient.read <= |s.toClient.frames|
    ensures |s.toClient.frames| >= 3 ==>
              (Verdict(s.toClient.frames).isSuccessfullyCompleted <==> !Verdict(s.toClient.frames).rollbackRequired)
  {
    hide UpFrames, ServerMessage, ClientMessage, ReplyMatches, SameIdentities, RoleInv, GateInv, Towers.TowerInv, EndInv,
      ReplyFrame, BeforeServer, MessageAt;
  }

  // ----- Faults of a part of a run

  /** What goes wrong at one event. */
  function EventFaults(cfg: Config, s: State, e: Event): set<Fault> {
    match e
    case ClientDoes(a) =>
      var r := ClientStep(cfg, s.client, a);
      if ClientReady(s, a) && r.ClientMoved? then r.faults else {}
    case ServerDoes(a) =>
      var r := ServerStep(cfg, s.server, a);
      if ServerReady(s, a) && r.ServerMoved? then r.faults else {}
    case LinkDrops(_, _) => {LinkFault}
    case ClientDies => if s.client.pc.CDone? then {} else {CrashFault}
    case ServerDies => if s.server.pc.SDone? then {} else {CrashFault}
    case _ => {}
  }

  function RunFaults(cfg: Config, s: State, events: seq<Event>): set<Fault>
    decreases |events|
  {
    if events == [] then {}
    else EventFaults(cfg, s, events[0]) + RunFaults(cfg, Step(cfg, s, events[0]), events[1..])
  }

  lemma StepAddsFaults(cfg: Config, s: State, e: Event)
    ensures Step(cfg, s, e).faults == s.faults + EventFaults(cfg, s, e)
  {
    hide ClientStep, ServerStep, CanReceive;
  }

  lemma {:induction false} RunAddsFaults(cfg: Config, s: State, events: seq<Event>)
    ensures Run(cfg, s, events).faults == s.faults + RunFaults(cfg, s, events)
    decreases |events|
  {
    hide Step, EventFaults;
    if events != [] {
      StepAddsFaults(cfg, s, events[0]);
      RunAddsFaults(cfg, Step(cfg, s, events[0]), events[1..]);
    }
  }

  // ----- The event by which the go-ahead goes out

  predicate Allowed(down: seq<Frame>) {
    |down| >= 2 && Reply(down).canProceed
  }

  lemma OnlyGoAheadAllows(cfg: Config, s: State, e: Event)
    requires Inv(cfg, s) && !Allowed(s.toClient.frames) && Allowed(Step(cfg, s, e).toClient.frames)
    ensures s.server.pc.SSendProceed? && e.ServerDoes? && e.sa.ServerSend? && s.linkUp
  {
    ReadSoFar(cfg, s);
    InvMessageFits(cfg, s);
    hide Inv, ClientStep, ServerStep, CanReceive, Allowed, ServerEdge, MessageFits;
    FramesAddedByServer(cfg, s, e);
    ServerFollowsEdge(cfg, s.server, e.sa);
    ServerInvariant.ServerActionsFit(cfg, s.server, e.sa);
    ReplyComesFrom(cfg, s.server, e.sa, ServerStep(cfg, s.server, e.sa), s.toClient, s.linkUp);
  }

  lemma FramesAddedByServer(cfg: Config, s: State, e: Event)
    requires !Allowed(s.toClient.frames) && Allowed(Step(cfg, s, e).toClient.frames)
    ensures e.ServerDoes? && ServerStep(cfg, s.server, e.sa).ServerMoved?
    ensures Step(cfg, s, e).toClient.frames == s.toClient.Append(ServerStep(cfg, s.server, e.sa).sent, s.linkUp).frames
  {
    hide ClientStep, ServerStep, CanReceive;
  }

  lemma ReplyComesFrom(cfg: Config, v: Server, a: ServerAction, r: ServerResult, down: Channel, linkUp: bool)
    requires r.ServerMoved? && ServerEdge(cfg, v, a, r)
    requires |down.frames| <= ServerSent(v.pc) && (linkUp && !v.pc.SRollback? ==> |down.frames| == ServerSent(v.pc))
    requires MessageFits(v.pc, v.msg)
    ensures !Allowed(down.frames) && Allowed(down.Append(r.sent, linkUp).frames) ==> v.pc.SSendProceed? && linkUp
  {
    hide SameChecks, SameRoles, HookRan, SameVersion, GossipShows, Encode;
    EncodeKeepsFlags(v.msg);
  }

  lemma {:induction false} GoAheadEvent(cfg: Config, s: State, events: seq<Event>) returns (i: nat)
    requires cfg.Valid() && Inv(cfg, s)
    requires !Allowed(s.toClient.frames) && Allowed(Run(cfg, s, events).toClient.frames)
    ensures i < |events|
    ensures var before := Run(cfg, s, events[..i]);
            && !Allowed(before.toClient.frames) && before.linkUp && before.server.pc.SSendProceed?
            && events[i].ServerDoes? && events[i].sa.ServerSend?
    decreases |events|
  {
    hide Inv, Step, Allowed;
    if events == [] {
      assert false;
    } else {
      var n := Step(cfg, s, events[0]);
      if Allowed(n.toClient.frames) {
        OnlyGoAheadAllows(cfg, s, events[0]);
        i := 0;
      } else {
        StepKeepsInv(cfg, s, events[0]);
        var k := GoAheadEvent(cfg, n, events[1..]);
        i := k + 1;
        assert events[..i] == [events[0]] + events[1..][..k];
        RunConcat(cfg, s, [events[0]], events[1..][..k]);
        RunOne(cfg, s, events[0]);
      }
    }
  }

  lemma RunOne(cfg: Config, s: State, e: Event)
    ensures Run(cfg, s, [e]) == Step(cfg, s, e)
  {
    hide Step;
    assert [e][1..] == [];
  }

  // ----- What can strand the pair

  /** The faults that can leave both nodes passive. Without tower sync the server goes through its switch
      on its own, so that nothing but its own death, its own command, or its own reply can stop it. */
  predicate Strands(cfg: Config, f: Fault) {
    || f.ReplySendFault? || f.CrashFault? || f.ServerCommandFault?
    || (!cfg.skipTowerSync &&
        (f.LinkFault? || f.ClientCommandFault? || f.TowerReadFault? || f.TowerSendFault? || f.TowerWriteFault?))
  }

  predicate BothPassive(s: State) {
    !s.client.active && !s.server.active
  }

  /** A passive client gave up its identity, or tried to. */
  lemma PassiveHasAttempted(cfg: Config, s: State)
    requires TrailInv(cfg, s) && !cfg.dryRun && !s.client.active
    ensures Attempted(s.client)
  {
    hide ServerTrail, FrameTrail, ReadTrail, LinkTrail;
  }

  /** A client that ended without the go-ahead has kept its identity. */
  lemma EndedWithoutGoAhead(cfg: Config, s: State)
    requires Good(cfg, s) && TrailInv(cfg, s) && s.client.pc.CDone? && !Allowed(s.toClient.frames)
    ensures s.client.active
  {
    hide Good, TrailInv, Attempted, MessageAt;
    if Attempted(s.client) {
      AttemptedHasGoAhead(cfg, s);
      assert false;
    }
    NotAttemptedIsActive(cfg, s);
  }

  lemma NotAttemptedIsActive(cfg: Config, s: State)
    requires TrailInv(cfg, s) && s.client.pc.CDone? && !Attempted(s.client)
    ensures s.client.active
  {
    hide ServerTrail, FrameTrail, ReadTrail, LinkTrail;
  }

  /** Once ended, the client's role does not change. */
  lemma {:induction false} EndedClientKeepsRole(cfg: Config, s: State, events: seq<Event>)
    requires s.client.pc.CDone?
    ensures Run(cfg, s, events).client.active == s.client.active
    decreases |events|
  {
    hide Step;
    if events != [] {
      EndedClientStays(cfg, s, events[0]);
      EndedClientKeepsRole(cfg, Step(cfg, s, events[0]), events[1..]);
    }
  }

  lemma EndedClientStays(cfg: Config, s: State, e: Event)
    requires s.client.pc.CDone?
    ensures Step(cfg, s, e).client.pc.CDone? && Step(cfg, s, e).client.active == s.client.active
  {
    hide ClientStep, ServerStep, CanReceive;
    if e.ClientDoes? {
      ClientDoneEdge(cfg, s.client, e.ca);
    }
  }

  /** Every losing fault shows in the state: when both programs go on over a live link and the server is at
      its go-ahead, there has been none. */
  lemma NothingLostYet(cfg: Config, s: State)
    requires TrailInv(cfg, s) && s.linkUp && !s.client.pc.CDone? && s.server.pc.SSendProceed?
    ensures Lossless(s.faults) && ServerCommandFault !in s.faults
  {
    hide ClientRow, FrameTrail, ReadTrail;
  }

  /** The server's ending names the fault when it does not depend on the client. */
  lemma ServerNamesFault(cfg: Config, s: State)
    requires TrailInv(cfg, s) && Finished(s) && !cfg.dryRun && !s.server.active && Allowed(s.toClient.frames)
    ensures var o := s.server.pc.outcome;
            || (o.ProceedUnsent? && ReplySendFault in s.faults) || (o.ServerCrashed? && CrashFault in s.faults)
            || ((o.ActivationFailed? || o.ActivationUndone?) && ServerCommandFault in s.faults)
            || (EndsForTower(o) && !cfg.skipTowerSync)
  {
    hide ClientTrail, ReadTrail, Reply, Verdict;
  }

  /** With tower sync, the fault of a finished both-passive run. */
  lemma LossNamesFault(cfg: Config, s: State) returns (fault: Fault)
    requires TrailInv(cfg, s) && Finished(s) && !cfg.dryRun && !cfg.skipTowerSync && BothPassive(s) && Allowed(s.toClient.frames)
    requires !Lossless(s.faults)
    ensures fault in s.faults && Strands(cfg, fault)
  {
    hide FrameTrail, ReadTrail, Allowed;
    NoEarlyLoss(cfg, s);
    fault :=
      if ReplySendFault in s.faults then ReplySendFault
      else if CrashFault in s.faults then CrashFault
      else if LinkFault in s.faults then LinkFault
      else if ClientCommandFault in s.faults then ClientCommandFault
      else if TowerReadFault in s.faults then TowerReadFault
      else if TowerSendFault in s.faults then TowerSendFault
      else if TowerWriteFault in s.faults then TowerWriteFault
      else ServerCommandFault;
  }

  /** A failed opening leaves the client active, a failed version reply leaves no go-ahead, and a failed
      verdict an active server or a failed command. */
  lemma NoEarlyLoss(cfg: Config, s: State)
    requires TrailInv(cfg, s) && Finished(s) && !cfg.dryRun && BothPassive(s) && Allowed(s.toClient.frames)
    ensures OpeningSendFault !in s.faults && VersionSendFault !in s.faults
    ensures VerdictSendFault in s.faults ==> ServerCommandFault in s.faults
  {
    hide ReadTrail, Reply, Verdict;
  }

  lemma NameFault(cfg: Config, s: State) returns (fault: Fault)
    requires cfg.Valid() && Reachable(cfg, s) && TrailInv(cfg, s) && Finished(s)
    requires !cfg.dryRun && BothPassive(s) && Allowed(s.toClient.frames)
    ensures fault in s.faults && Strands(cfg, fault)
  {
    hide Reachable, TrailInv, Lossless, Stopped, Allowed;
    ServerNamesFault(cfg, s);
    var o := s.server.pc.outcome;
    if o.ProceedUnsent? {
      fault := ReplySendFault;
    } else if o.ServerCrashed? {
      fault := CrashFault;
    } else if o.ActivationFailed? || o.ActivationUndone? {
      fault := ServerCommandFault;
    } else if Lossless(s.faults) {
      Endings.Classification(cfg, s);
      fault := ServerCommandFault;
    } else {
      fault := LossNamesFault(cfg, s);
    }
  }

  /** Both nodes passive at the end of a run: the client has read the go-ahead, and one of the stranding
      faults happened at or after the event by which the server sent it. */
  lemma BothPassiveNeedsFault(cfg: Config, clientTower: seq<byte>, serverTower: Option<seq<byte>>, events: seq<Event>)
      returns (i: nat, fault: Fault)
    requires cfg.Valid() && !cfg.dryRun
    requires var end := Run(cfg, Init(cfg, clientTower, serverTower), events); Finished(end) && BothPassive(end)
    ensures var end := Run(cfg, Init(cfg, clientTower, serverTower), events);
            end.toClient.read >= 2 && Reply(end.toClient.frames).canProceed
    ensures i < |events|
    ensures var before := Run(cfg, Init(cfg, clientTower, serverTower), events[..i]);
            && before.server.pc.SSendProceed? && events[i].ServerDoes? && events[i].sa.ServerSend?
            && fault in RunFaults(cfg, before, events[i..]) && Strands(cfg, fault)
  {
    var start := Init(cfg, clientTower, serverTower);
    var end := Run(cfg, start, events);
    hide Run, Init, Good, TrailInv, Inv, Allowed, Attempted, Reachable, Lossless, RunFaults;
    StartIsGood(cfg, clientTower, serverTower);
    EndIsGood(cfg, start, events);
    PassiveHasAttempted(cfg, end);
    AttemptedHasGoAhead(cfg, end);
    AllowedIs(end.toClient.frames);
    i := GoAheadEvent(cfg, start, events);
    var before := Run(cfg, start, events[..i]);
    EndIsGood(cfg, start, events[..i]);
    assert events == events[..i] + events[i..];
    RunConcat(cfg, start, events[..i], events[i..]);
    RunAddsFaults(cfg, before, events[i..]);
    if before.client.pc.CDone? {
      EndedWithoutGoAhead(cfg, before);
      EndedClientKeepsRole(cfg, before, events[i..]);
      assert false;
    }
    NothingLostYet(cfg, before);
    RunIsReachable(cfg, clientTower, serverTower, events);
    fault := NameFault(cfg, end);
    StrandingIsLoss(cfg, fault, before.faults);
  }

  lemma StrandingIsLoss(cfg: Config, f: Fault, faults: set<Fault>)
    requires Lossless(faults) && ServerCommandFault !in faults && Strands(cfg, f)
    ensures f !in faults
  {
  }

  lemma AllowedIs(down: seq<Frame>)
    ensures Allowed(down) <==> |down| >= 2 && Reply(down).canProceed
  {
  }

  lemma StartIsGood(cfg: Config, clientTower: seq<byte>, serverTower: Option<seq<byte>>)
    requires cfg.Valid()
    ensures var s := Init(cfg, clientTower, serverTower);
            Good(cfg, s) && Inv(cfg, s) && TrailInv(cfg, s) && !Allowed(s.toClient.frames)
  {
    hide Good, Inv, TrailInv;
    InitIsGood(cfg, clientTower, serverTower);
    InitKeepsInv(cfg, clientTower, serverTower);
    InitHasTrail(cfg, clientTower, serverTower);
  }

  lemma EndIsGood(cfg: Config, s: State, events: seq<Event>)
    requires cfg.Valid() && Good(cfg, s) && Inv(cfg, s) && TrailInv(cfg, s)
    ensures Good(cfg, Run(cfg, s, events)) && TrailInv(cfg, Run(cfg, s, events))
  {
    hide Good, Inv, TrailInv, Run;
    RunKeepsGood(cfg, s, events);
    RunKeepsTrail(cfg, s, events);
  }

  // ----- A dropped link alone strands the pair

  /** The client has not come to its switch. */
  predicate OnItsWay(pc: ClientPc) {
    Preparing(pc) || pc.CNextSlot? || pc.CSetPassive?
  }

  lemma WayGoesOn(cfg: Config, c: Client, a: ClientAction)
    requires OnItsWay(c.pc) && !c.pc.CSetPassive? && ClientStep(cfg, c, a).ClientMoved?
    ensures var n := ClientStep(cfg, c, a).next; OnItsWay(n.pc) || (n.pc.CDone? && n.wentPassive == c.wentPassive)
  {
    ClientFollowsEdge(cfg, c, a);
    hide ClientStep, HookRan, SameVersion;
  }

  /** With nothing gone wrong, no check stops the client. */
  lemma SmoothClientGoesOn(cfg: Config, s: State)
    requires Good(cfg, s) && s.faults == {} && cfg.Compatible() && !s.client.wentPassive
    ensures !s.client.pc.CDone?
  {
    hide Inv, RoleInv, GateInv, Towers.TowerInv, ServerEnd, MessageAt;
  }

  lemma ServerWaitsForTower(cfg: Config, s: State)
    requires Smooth(cfg, s) && !cfg.skipTowerSync && OnItsWay(s.client.pc)
    ensures !s.server.pc.SSetActive? && !s.client.wentPassive
  {
    hide Inv, Good;
    if s.server.pc.SSetActive? {
      ClientAwaitsVerdict(cfg, s);
      assert false;
    }
    WayIsActive(cfg, s);
  }

  lemma WayIsActive(cfg: Config, s: State)
    requires Good(cfg, s) && OnItsWay(s.client.pc)
    ensures !s.client.wentPassive
  {
    hide Inv, RoleInv, Towers.TowerInv, EndInv, ServerGates, AllGates, HooksHeld, MessageAt;
  }

  lemma EventOnTheWay(cfg: Config, s: State, e: Event)
    requires OnItsWay(s.client.pc) && !s.client.pc.CSetPassive? && !e.ClientDies?
    ensures var c := Step(cfg, s, e).client; OnItsWay(c.pc) || (c.pc.CDone? && c.wentPassive == s.client.wentPassive)
  {
    hide ClientStep, ServerStep, CanReceive;
    if e.ClientDoes? && ClientStep(cfg, s.client, e.ca).ClientMoved? {
      WayGoesOn(cfg, s.client, e.ca);
    }
  }

  lemma WayStep(cfg: Config, s: State)
    requires cfg.Valid() && cfg.Compatible() && !cfg.skipTowerSync
    requires Smooth(cfg, s) && OnItsWay(s.client.pc) && !s.client.pc.CSetPassive?
    ensures var n := Step(cfg, s, Next(cfg, s));
            Smooth(cfg, n) && Rank(cfg, n) < Rank(cfg, s) && OnItsWay(n.client.pc)
  {
    var n := Step(cfg, s, Next(cfg, s));
    ServerWaitsForTower(cfg, s);
    SmoothStep(cfg, s);
    NextSpares(cfg, s);
    EventOnTheWay(cfg, s, Next(cfg, s));
    hide Good, Rank, Next, Step, OnItsWay;
    if n.client.pc.CDone? {
      SmoothClientGoesOn(cfg, n);
    }
  }

  lemma NextSpares(cfg: Config, s: State)
    ensures !Next(cfg, s).ClientDies?
  {
    hide ServerWaiting, ClientNext, ServerNext;
  }

  lemma {:induction false} ReachClientSwitch(cfg: Config, s: State) returns (events: seq<Event>)
    requires cfg.Valid() && cfg.Compatible() && !cfg.skipTowerSync
    requires Smooth(cfg, s) && OnItsWay(s.client.pc)
    ensures var n := Run(cfg, s, events); Smooth(cfg, n) && n.client.pc.CSetPassive?
    decreases Rank(cfg, s)
  {
    hide Smooth, Next, Step, Rank;
    if s.client.pc.CSetPassive? {
      events := [];
    } else {
      WayStep(cfg, s);
      var rest := ReachClientSwitch(cfg, Step(cfg, s, Next(cfg, s)));
      events := [Next(cfg, s)] + rest;
      assert events[1..] == rest;
    }
  }

  /** What a dead link leaves of the client's frames, and a switch that stays made. */
  predicate CutOff(s: State) {
    !s.linkUp && |s.toServer.frames| <= 2 && s.client.wentPassive
  }

  lemma StepKeepsCutOff(cfg: Config, s: State, e: Event)
    requires CutOff(s)
    ensures CutOff(Step(cfg, s, e))
  {
    hide ClientStep, ServerStep, CanReceive;
    if e.ClientDoes? && ClientStep(cfg, s.client, e.ca).ClientMoved? {
      ClientFollowsEdge(cfg, s.client, e.ca);
      PassiveStaysSo(cfg, s.client, e.ca, ClientStep(cfg, s.client, e.ca));
    }
  }

  lemma PassiveStaysSo(cfg: Config, c: Client, a: ClientAction, r: ClientResult)
    requires r.ClientMoved? && ClientEdge(cfg, c, a, r) && c.wentPassive
    ensures r.next.wentPassive
  {
    hide HookRan, SameVersion;
  }

  lemma {:induction false} RunKeepsCutOff(cfg: Config, s: State, events: seq<Event>)
    requires CutOff(s)
    ensures CutOff(Run(cfg, s, events))
    decreases |events|
  {
    hide CutOff, Step;
    if events != [] {
      StepKeepsCutOff(cfg, s, events[0]);
      RunKeepsCutOff(cfg, Step(cfg, s, events[0]), events[1..]);
    }
  }

  lemma LinkThenSwitch(cfg: Config, s: State)
    requires s.client.pc.CSetPassive? && |s.toServer.frames| <= 2
    ensures var n := Step(cfg, Step(cfg, s, LinkDrops(0, 0)), ClientDoes(ClientCommand(Succeeded, 1, 1)));
            CutOff(n) && n.faults == s.faults + {LinkFault}
  {
    hide WithActiveSwitchStart, WithActiveSwitchEnd;
  }

  lemma SwitchSentTwo(cfg: Config, s: State)
    requires Good(cfg, s) && s.client.pc.CSetPassive?
    ensures |s.toServer.frames| <= 2
  {
    hide UpFrames, DownFrames, ServerMessage, ClientMessage, ReplyMatches, SameIdentities, RoleInv, GateInv, Towers.TowerInv,
      EndInv;
  }

  /** Cut off from the server's tower read, neither node is active in the end. */
  lemma CutOffIsPassive(cfg: Config, s: State)
    requires cfg.Valid() && Reachable(cfg, s) && Finished(s) && !cfg.skipTowerSync && !cfg.dryRun
    requires CutOff(s)
    ensures BothPassive(s)
  {
    ReachableGood(cfg, s);
    CutOffServer(cfg, s);
    CutOffClient(cfg, s);
  }

  lemma CutOffServer(cfg: Config, s: State)
    requires Good(cfg, s) && CutOff(s) && !cfg.skipTowerSync
    ensures !s.server.active && ServerCommandFault !in s.faults
  {
    hide UpFrames, DownFrames, ServerMessage, ClientMessage, ReplyMatches, SameIdentities, GateInv, Towers.TowerInv, EndInv,
      ClientRoles, VerdictRoles, MessageAt;
  }

  lemma CutOffClient(cfg: Config, s: State)
    requires Good(cfg, s) && CutOff(s) && !cfg.dryRun && ServerCommandFault !in s.faults
    ensures !s.client.active
  {
    hide UpFrames, DownFrames, ServerMessage, ClientMessage, ReplyMatches, SameIdentities, GateInv, Towers.TowerInv, EndInv,
      ServerRoles, MessageAt;
  }

  /** The link drops just before the client's command, which succeeds. */
  lemma ReachCutOff(cfg: Config, s: State) returns (events: seq<Event>)
    requires cfg.Valid() && cfg.Compatible() && !cfg.skipTowerSync
    requires Good(cfg, s) && Smooth(cfg, s) && OnItsWay(s.client.pc)
    ensures var n := Run(cfg, s, events); Good(cfg, n) && CutOff(n) && n.faults == {LinkFault}
  {
    hide Good, Smooth, OnItsWay, Run, Step, CutOff;
    var es := ReachClientSwitch(cfg, s);
    var n := Run(cfg, s, es);
    SmoothIsGood(cfg, n);
    SwitchSentTwo(cfg, n);
    LinkThenSwitch(cfg, n);
    events := es + [LinkDrops(0, 0), ClientDoes(ClientCommand(Succeeded, 1, 1))];
    RunThenTwo(cfg, s, es, LinkDrops(0, 0), ClientDoes(ClientCommand(Succeeded, 1, 1)));
    RunKeepsGood(cfg, s, events);
  }

  /** With tower sync, for every matching pair: a link that drops just before the client's command leaves
      both nodes passive with nothing else gone wrong. */
  lemma LinkDropStrands(cfg: Config, clientTower: seq<byte>, serverTower: Option<seq<byte>>) returns (events: seq<Event>)
    requires cfg.Valid() && cfg.Compatible() && !cfg.skipTowerSync && !cfg.dryRun
    ensures var end := Run(cfg, Init(cfg, clientTower, serverTower), events);
            Finished(end) && BothPassive(end) && end.faults == {LinkFault}
  {
    var s0 := Init(cfg, clientTower, serverTower);
    SmoothStart(cfg, clientTower, serverTower);
    StartsOnItsWay(cfg, clientTower, serverTower);
    hide Init, Good, Smooth, OnItsWay, Run, Step, CutOff, Reachable, BothPassive, Finished;
    var es := ReachCutOff(cfg, s0);
    var rest := CanFinish(cfg, Run(cfg, s0, es));
    events := es + rest;
    RunConcat(cfg, s0, es, rest);
    RunKeepsCutOff(cfg, Run(cfg, s0, es), rest);
    RunIsReachable(cfg, clientTower, serverTower, events);
    CutOffIsPassive(cfg, Run(cfg, s0, events));
  }

  lemma StartsOnItsWay(cfg: Config, clientTower: seq<byte>, serverTower: Option<seq<byte>>)
    ensures OnItsWay(Init(cfg, clientTower, serverTower).client.pc)
  {
  }
}

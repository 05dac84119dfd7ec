/**
 Exactly which configurations keep the active identity exclusive. The other ones get a run that
 ends with both nodes active.
 */
module Exclusion {
  import opened Wrappers
  import opened Words
  import opened Messages
  import opened Protocol
  import opened ProtocolInvariant
  import opened Flow
  import opened Roles
  import opened Gates
  import opened Towers
  import opened Outcomes
  import opened ProtocolRuns
  import opened Progress
  import opened Safety

  // ----- The schedule gets the server to its switch

  /** The server is on its way to the switch. */
  predicate Approaching(pc: ServerPc) {
    (Checking(pc) && !pc.SReject?) || pc.SSendProceed? || pc.SAwaitTower? || pc.SWriteTower? || pc.SSetActive?
  }

  /** A run in which nothing has gone wrong. */
  ghost predicate Smooth(cfg: Config, s: State) {
    Good(cfg, s) && s.faults == {} && s.linkUp && Approaching(s.server.pc)
  }

  lemma SmoothStart(cfg: Config, clientTower: seq<byte>, serverTower: Option<seq<byte>>)
    requires cfg.Valid()
    ensures var s := Init(cfg, clientTower, serverTower); Good(cfg, s) && Smooth(cfg, s)
  {
    InitIsGood(cfg, clientTower, serverTower);
    hide Good;
  }

  lemma SmoothIsGood(cfg: Config, s: State)
    requires Smooth(cfg, s)
    ensures Good(cfg, s) && s.faults == {} && s.linkUp
  {
    hide Good;
  }

  lemma SmoothStaysOnCourse(cfg: Config, s: State)
    requires Good(cfg, s) && s.faults == {} && cfg.Compatible()
    ensures !s.server.pc.SReject?
    ensures s.server.pc.SDone? ==> s.server.pc.outcome.Activated? && s.server.activated
  {
    hide Inv, GateInv, TowerInv, ClientEnd, ClientRoles, VerdictRoles, MessageAt;
  }

  lemma ApproachingGoesOn(cfg: Config, v: Server, a: ServerAction)
    requires Approaching(v.pc) && !v.pc.SSetActive? && ServerStep(cfg, v, a).ServerMoved?
    ensures var n := ServerStep(cfg, v, a).next;
            (Approaching(n.pc) || n.pc.SReject? || n.pc.SDone?) && n.activated == v.activated
  {
    ServerFollowsEdge(cfg, v, a);
    hide ServerStep, SameVersion, GossipShows, HookRan, SameChecks;
  }

  lemma NotActivatedYet(cfg: Config, s: State)
    requires Good(cfg, s) && Approaching(s.server.pc)
    ensures !s.server.activated
  {
    hide Inv, GateInv, TowerInv, EndInv, ClientRoles, VerdictRoles, MessageAt;
  }

  lemma SmoothStep(cfg: Config, s: State)
    requires cfg.Valid() && cfg.Compatible() && Smooth(cfg, s) && !s.server.pc.SSetActive?
    ensures var n := Step(cfg, s, Next(cfg, s)); Smooth(cfg, n) && Rank(cfg, n) < Rank(cfg, s)
    ensures ServerWaiting(s) || Step(cfg, s, Next(cfg, s)).client == s.client
  {
    hide Good, ClientNext, ServerNext, ServerWaiting, Rank, ClientStep, ServerStep, CanReceive;
    var n := Step(cfg, s, Next(cfg, s));
    NextProgresses(cfg, s);
    SmoothStaysOnCourse(cfg, n);
    NotActivatedYet(cfg, s);
    if !ServerWaiting(s) {
      var r := ServerStep(cfg, s.server, ServerNext(cfg, s));
      if r.ServerMoved? {
        ApproachingGoesOn(cfg, s.server, ServerNext(cfg, s));
      }
    }
  }

  /** Every compatible pair gets to the server's switch. */
  lemma {:induction false} ReachSwitch(cfg: Config, s: State) returns (events: seq<Event>)
    requires cfg.Valid() && cfg.Compatible() && Smooth(cfg, s)
    ensures Smooth(cfg, Run(cfg, s, events)) && Run(cfg, s, events).server.pc.SSetActive?
    decreases Rank(cfg, s)
  {
    hide Smooth, Next, Step, Rank, ServerWaiting;
    if s.server.pc.SSetActive? {
      events := [];
    } else {
      SmoothStep(cfg, s);
      var rest := ReachSwitch(cfg, Step(cfg, s, Next(cfg, s)));
      events := [Next(cfg, s)] + rest;
      assert events[1..] == rest;
    }
  }

  // ----- Without tower sync the server does not wait for the client

  /** The client has sent no more than its request. */
  predicate Fresh(c: Client) {
    (c.pc.CSendVersion? || c.pc.CSendRequest? || c.pc.CAwaitVersion?) && c.active
  }

  lemma WaitsForRequestOnly(cfg: Config, s: State)
    requires Good(cfg, s) && cfg.skipTowerSync && ServerWaiting(s) && Fresh(s.client)
    ensures s.client.pc.CSendVersion? || s.client.pc.CSendRequest?
  {
    hide UpFrames, DownFrames, ClientMessage, ReplyMatches, SameIdentities, RoleInv, GateInv, TowerInv, EndInv,
      FinishingMessage, BaseMessage, GoAheadMessage, RejectMessage, FreshMessage, SentRequest, MessageAt;
  }

  lemma FreshStep(cfg: Config, s: State)
    requires cfg.Valid() && cfg.Compatible() && cfg.skipTowerSync
    requires Smooth(cfg, s) && !s.server.pc.SSetActive? && Fresh(s.client)
    ensures var n := Step(cfg, s, Next(cfg, s));
            Smooth(cfg, n) && Rank(cfg, n) < Rank(cfg, s) && Fresh(n.client)
  {
    hide Good, Rank, ServerNext, ServerStep, Encode, RequestMessage, ServerWaiting;
    SmoothStep(cfg, s);
    if ServerWaiting(s) {
      WaitsForRequestOnly(cfg, s);
    }
  }

  lemma {:induction false} ReachSwitchAlone(cfg: Config, s: State) returns (events: seq<Event>)
    requires cfg.Valid() && cfg.Compatible() && cfg.skipTowerSync && Smooth(cfg, s) && Fresh(s.client)
    ensures var n := Run(cfg, s, events); Smooth(cfg, n) && n.server.pc.SSetActive? && Fresh(n.client)
    decreases Rank(cfg, s)
  {
    hide Smooth, Next, Step, Rank, Fresh;
    if s.server.pc.SSetActive? {
      events := [];
    } else {
      FreshStep(cfg, s);
      var rest := ReachSwitchAlone(cfg, Step(cfg, s, Next(cfg, s)));
      events := [Next(cfg, s)] + rest;
      assert events[1..] == rest;
    }
  }

  lemma SwitchSucceeds(cfg: Config, s: State)
    requires s.server.pc.SSetActive? && !cfg.dryRun
    ensures var n := Step(cfg, s, ServerDoes(ServerCommand(Succeeded, 1, 1)));
            n.server.active && n.client == s.client && n.faults == s.faults
  {
    hide WithPassiveSwitchStart, WithPassiveSwitchEnd;
  }

  /** Without tower sync the server switches while the client is still waiting for its reply. */
  lemma SkippingBreaksExclusion(cfg: Config, clientTower: seq<byte>, serverTower: Option<seq<byte>>) returns (events: seq<Event>)
    requires cfg.Valid() && cfg.Compatible() && cfg.skipTowerSync && !cfg.dryRun
    ensures var n := Run(cfg, Init(cfg, clientTower, serverTower), events); BothActive(n) && n.faults == {}
  {
    var s0 := Init(cfg, clientTower, serverTower);
    SmoothStart(cfg, clientTower, serverTower);
    hide Good, Smooth, Run, Step;
    var upToSwitch := ReachSwitchAlone(cfg, s0);
    var s, e := Run(cfg, s0, upToSwitch), ServerDoes(ServerCommand(Succeeded, 1, 1));
    events := upToSwitch + [e];
    RunThen(cfg, s0, upToSwitch, e);
    SmoothIsGood(cfg, s);
    SwitchSucceeds(cfg, s);
  }

  // ----- With tower sync, a command that fails but takes effect

  /** At the switch the client waits for the verdict. */
  lemma ClientAwaitsVerdict(cfg: Config, s: State)
    requires Smooth(cfg, s) && s.server.pc.SSetActive? && !cfg.skipTowerSync
    ensures s.client.pc.CAwaitOutcome? && s.client.wentPassive && |s.toClient.frames| == 2 && s.toClient.read == 2
  {
    hide UpFrames, DownFrames, ServerMessage, ClientMessage, ReplyMatches, SameIdentities, GateInv, TowerInv, MessageAt;
  }

  lemma SwitchLies(cfg: Config, s: State)
    requires s.server.pc.SSetActive? && !cfg.dryRun && cfg.serverRollback
    ensures var n := Step(cfg, s, ServerDoes(ServerCommand(Failed(true), 1, 1)));
            && n.server.active && n.server.pc.SSendRollback? && n.server.msg.rollbackRequired
            && n.client == s.client && n.linkUp == s.linkUp && n.toClient == s.toClient
  {
    hide WithPassiveSwitchStart;
  }

  lemma SignalGoesOut(cfg: Config, s: State)
    requires s.server.pc.SSendRollback? && s.linkUp
    ensures var n := Step(cfg, s, ServerDoes(ServerSend(Sent)));
            && n.server.active == s.server.active && n.client == s.client && n.linkUp
            && n.toClient.frames == s.toClient.frames + [Gob(Encode(s.server.msg))] && n.toClient.read == s.toClient.read
  {
    hide Encode;
  }

  lemma SignalArrives(cfg: Config, s: State, m: Message)
    requires s.client.pc.CAwaitOutcome? && s.client.wentPassive && cfg.clientRollback
    requires s.toClient.read < |s.toClient.frames| && s.toClient.frames[s.toClient.read] == Gob(m) && m.rollbackRequired
    ensures var n := Step(cfg, s, ClientDoes(ClientReceive(Some(Gob(m)))));
            n.client.pc.CRollback? && n.server == s.server
  {
    hide Decode;
    DecodeKeepsRollback(s.client.msg, m);
  }

  lemma DecodeKeepsRollback(held: Message, m: Message)
    ensures m.rollbackRequired ==> Decode(held, m).rollbackRequired
  {
    hide DecodeNode;
  }

  lemma ClientTakesBack(cfg: Config, s: State)
    requires s.client.pc.CRollback? && !s.client.msg.isDryRunFailover && cfg.toActiveCmd != ""
    ensures var n := Step(cfg, s, ClientDoes(ClientCommand(Succeeded, 1, 1)));
            n.client.active && n.server == s.server
  {
  }

  /** The failed command takes effect, and its signal goes out. */
  lemma LieIsSignalled(cfg: Config, s: State) returns (m: Message)
    requires s.server.pc.SSetActive? && s.linkUp && !cfg.dryRun && cfg.serverRollback
    ensures var n := Step(cfg, Step(cfg, s, ServerDoes(ServerCommand(Failed(true), 1, 1))), ServerDoes(ServerSend(Sent)));
            && n.server.active && n.client == s.client && m.rollbackRequired
            && n.toClient.frames == s.toClient.frames + [Gob(m)] && n.toClient.read == s.toClient.read
  {
    hide Step, Encode;
    var mid := Step(cfg, s, ServerDoes(ServerCommand(Failed(true), 1, 1)));
    SwitchLies(cfg, s);
    SignalGoesOut(cfg, mid);
    m := Encode(mid.server.msg);
    EncodeKeepsRollback(mid.server.msg);
  }

  lemma EncodeKeepsRollback(m: Message)
    ensures Encode(m).rollbackRequired == m.rollbackRequired
  {
  }

  /** The client obeys it. */
  lemma SignalIsObeyed(cfg: Config, s: State, m: Message)
    requires cfg.Valid() && Good(cfg, s) && !cfg.dryRun && cfg.clientRollback && cfg.toActiveCmd != ""
    requires s.client.pc.CAwaitOutcome? && s.client.wentPassive && s.server.active
    requires s.toClient.read < |s.toClient.frames| && s.toClient.frames[s.toClient.read] == Gob(m) && m.rollbackRequired
    ensures BothActive(Step(cfg, Step(cfg, s, ClientDoes(ClientReceive(Some(Gob(m))))), ClientDoes(ClientCommand(Succeeded, 1, 1))))
  {
    hide Good, Inv, Step;
    var e := ClientDoes(ClientReceive(Some(Gob(m))));
    SignalArrives(cfg, s, m);
    StepKeepsGood(cfg, s, e);
    GoodHasInv(cfg, Step(cfg, s, e));
    ClientKnowsMode(cfg, Step(cfg, s, e));
    ClientTakesBack(cfg, Step(cfg, s, e));
  }

  /** From the server's switch: the lie, its signal, and the client's obedience. */
  lemma LieFrom(cfg: Config, s: State) returns (events: seq<Event>)
    requires cfg.Valid() && Good(cfg, s) && !cfg.dryRun && cfg.serverRollback && cfg.clientRollback && cfg.toActiveCmd != ""
    requires s.server.pc.SSetActive? && s.linkUp && s.client.pc.CAwaitOutcome? && s.client.wentPassive
    requires s.toClient.read == |s.toClient.frames|
    ensures BothActive(Run(cfg, s, events))
  {
    hide Good, Run, Step, BothActive;
    var m := LieIsSignalled(cfg, s);
    var lie, signal := ServerDoes(ServerCommand(Failed(true), 1, 1)), ServerDoes(ServerSend(Sent));
    var take, revert := ClientDoes(ClientReceive(Some(Gob(m)))), ClientDoes(ClientCommand(Succeeded, 1, 1));
    var n := Step(cfg, Step(cfg, s, lie), signal);
    StepKeepsGood(cfg, s, lie);
    StepKeepsGood(cfg, Step(cfg, s, lie), signal);
    SignalIsObeyed(cfg, n, m);
    RunFour(cfg, s, lie, signal, take, revert);
    events := [lie, signal, take, revert];
  }

  lemma RunFour(cfg: Config, s: State, e: Event, f: Event, g: Event, h: Event)
    ensures Run(cfg, s, [e, f, g, h]) == Step(cfg, Step(cfg, Step(cfg, Step(cfg, s, e), f), g), h)
  {
    hide Step, Run;
    assert [e, f, g, h] == ([] + [e, f]) + [g, h];
    RunThenTwo(cfg, s, [], e, f);
    RunThenTwo(cfg, s, [] + [e, f], g, h);
    RunNothing(cfg, s);
  }

  lemma RunNothing(cfg: Config, s: State)
    ensures Run(cfg, s, []) == s
  {
  }

  /** With tower sync and rollback on, a server command that reports an error although it took
      effect leaves both nodes active until the server has re-asserted its passive identity. */
  lemma LyingBreaksExclusion(cfg: Config, clientTower: seq<byte>, serverTower: Option<seq<byte>>) returns (events: seq<Event>)
    requires cfg.Valid() && cfg.Compatible() && !cfg.skipTowerSync && !cfg.dryRun
    requires cfg.clientRollback && cfg.toActiveCmd != ""
    ensures BothActive(Run(cfg, Init(cfg, clientTower, serverTower), events))
  {
    var s0 := Init(cfg, clientTower, serverTower);
    SmoothStart(cfg, clientTower, serverTower);
    hide Init, Good, Smooth, Run, BothActive;
    var es := ReachSwitch(cfg, s0);
    var s := Run(cfg, s0, es);
    SmoothIsGood(cfg, s);
    ClientAwaitsVerdict(cfg, s);
    var rest := LieFrom(cfg, s);
    events := es + rest;
    RunConcat(cfg, s0, es, rest);
  }

  // ----- Exactly when

  /** The two nodes are never active together, as long as a failing command of the server leaves
      its identity alone. */
  ghost predicate Exclusive(cfg: Config) {
    forall s :: Reachable(cfg, s) && ServerCommandLied !in s.faults ==> !BothActive(s)
  }

  /** The same, whatever a failing command does. */
  ghost predicate AlwaysExclusive(cfg: Config) {
    forall s :: Reachable(cfg, s) ==> !BothActive(s)
  }

  lemma RunIsReachable(cfg: Config, clientTower: seq<byte>, serverTower: Option<seq<byte>>, events: seq<Event>)
    ensures Reachable(cfg, Run(cfg, Init(cfg, clientTower, serverTower), events))
  {
  }

  lemma ActiveServerMeansCompatible(cfg: Config, s: State)
    requires cfg.Valid() && Reachable(cfg, s) && s.server.active
    ensures cfg.Compatible() && !cfg.dryRun
  {
    hide Reachable, UpFrames, DownFrames, ServerMessage, ClientMessage, ReplyMatches, SameIdentities, TowerInv, EndInv,
      MessageAt, HooksDone, GossipShows, BaseMessage;
    ReachableGood(cfg, s);
  }

  lemma ExclusiveIff(cfg: Config)
    requires cfg.Valid()
    ensures Exclusive(cfg) <==> !cfg.skipTowerSync || cfg.dryRun || !cfg.Compatible()
  {
    hide Reachable, Run, Init;
    if cfg.skipTowerSync && !cfg.dryRun && cfg.Compatible() {
      var events := SkippingBreaksExclusion(cfg, [], None);
      RunIsReachable(cfg, [], None, events);
    } else {
      forall s | Reachable(cfg, s) && ServerCommandLied !in s.faults ensures !BothActive(s) {
        if BothActive(s) {
          ActiveServerMeansCompatible(cfg, s);
          MutualExclusion(cfg, s);
        }
      }
    }
  }

  lemma AlwaysExclusiveIff(cfg: Config)
    requires cfg.Valid()
    ensures AlwaysExclusive(cfg) <==>
              || cfg.dryRun || !cfg.Compatible()
              || (!cfg.skipTowerSync && !(cfg.clientRollback && cfg.toActiveCmd != ""))
  {
    hide Reachable, Run, Init;
    if cfg.dryRun || !cfg.Compatible() || (!cfg.skipTowerSync && !(cfg.clientRollback && cfg.toActiveCmd != "")) {
      forall s | Reachable(cfg, s) ensures !BothActive(s) {
        if BothActive(s) {
          ActiveServerMeansCompatible(cfg, s);
          MutualExclusion(cfg, s);
        }
      }
    } else if cfg.skipTowerSync {
      var events := SkippingBreaksExclusion(cfg, [], None);
      RunIsReachable(cfg, [], None, events);
    } else {
      var events := LyingBreaksExclusion(cfg, [], None);
      RunIsReachable(cfg, [], None, events);
    }
  }
}

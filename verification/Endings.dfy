/** How finished runs end, and that the good ending exists. */
module Endings {
  import opened Wrappers
  import opened Words
  import opened Protocol
  import opened ProtocolInvariant
  import opened Flow
  import opened Roles
  import opened Gates
  import opened Towers
  import opened Outcomes
  import opened ProtocolRuns
  import opened Progress
  import opened Exclusion

  predicate Swapped(s: State) {
    !s.client.active && s.server.active && Leaves(s.client.pc, Completed) && EndsAs(s.server.pc, Activated)
  }

  /** The client kept its identity. With tower sync so did the server; without it the server may
      have taken the active one meanwhile. */
  predicate NotHandedOver(cfg: Config, s: State) {
    s.client.active && !s.client.wentPassive && (s.server.active ==> cfg.skipTowerSync)
  }

  /** The server's failed switch was undone on both nodes. */
  predicate Undone(cfg: Config, s: State) {
    && Leaves(s.client.pc, RolledBack) && EndsAs(s.server.pc, ActivationUndone)
    && (ToActiveFault !in s.faults ==> s.client.active == (cfg.toActiveCmd != ""))
    && (s.server.active ==> ServerCommandLied in s.faults && (ToPassiveFault in s.faults || cfg.toPassiveCmd == ""))
  }

  /** The server's failed switch was not undone: rollback is off. */
  predicate Stranded(s: State) {
    && Leaves(s.client.pc, ConnectionLost) && EndsAs(s.server.pc, ActivationFailed)
    && !s.client.active && (s.server.active ==> ServerCommandLied in s.faults)
  }

  /** When nothing is lost, the configuration and the faults decide the ending. */
  lemma Classification(cfg: Config, s: State)
    requires cfg.Valid() && Reachable(cfg, s) && Finished(s) && Lossless(s.faults)
    requires !cfg.dryRun
    ensures if Stopped(cfg, s.faults) then NotHandedOver(cfg, s)
            else if ServerCommandFault !in s.faults then Swapped(s)
            else if cfg.serverRollback then Undone(cfg, s)
            else Stranded(s)
  {
    hide Reachable, Good, Lossless;
    ReachableGood(cfg, s);
    NothingLost(cfg, s);
    if !s.client.wentPassive {
      ServerWaitsForClient(cfg, s);
    } else {
      HandedOver(cfg, s);
      StoppedBeforeSwitch(cfg, s);
    }
  }

  lemma NothingLost(cfg: Config, s: State)
    requires Good(cfg, s) && Lossless(s.faults) && Finished(s)
    ensures !s.client.wentPassive ==> s.client.active && Stopped(cfg, s.faults)
  {
    hide Inv, RoleInv, GateInv, TowerInv, ServerEnd, Stopped, MessageAt, Lossless;
  }

  lemma ServerWaitsForClient(cfg: Config, s: State)
    requires Good(cfg, s) && !s.client.wentPassive
    ensures s.server.active ==> cfg.skipTowerSync
  {
    hide UpFrames, DownFrames, ServerMessage, ClientMessage, ReplyMatches, SameIdentities, GateInv, TowerInv, EndInv,
      MessageAt;
  }

  /** A failed check or a mismatch never lets the client switch. */
  lemma StoppedBeforeSwitch(cfg: Config, s: State)
    requires Good(cfg, s) && Lossless(s.faults) && Finished(s) && s.client.wentPassive
    ensures !Stopped(cfg, s.faults)
  {
    hide UpFrames, DownFrames, ServerMessage, ClientMessage, ReplyMatches, SameIdentities, RoleInv, TowerInv, HooksDone,
      BaseMessage, GossipShows, MessageAt, Lossless, StopsFailover;
  }

  lemma HandedOver(cfg: Config, s: State)
    requires Good(cfg, s) && Lossless(s.faults) && Finished(s) && s.client.wentPassive && !cfg.dryRun
    ensures if ServerCommandFault !in s.faults then Swapped(s)
            else if cfg.serverRollback then Undone(cfg, s)
            else Stranded(s)
  {
    hide UpFrames, ServerMessage, ClientMessage, ReplyMatches, SameIdentities, TowerInv, GatesUpTo, HooksDone,
      MessageAt, Lossless, StopsFailover, Stopped, Halted, ReplyFrame;
  }

  /** When only the server's command fails, and rollback can act, both roles are back as they were. */
  lemma RecoveryRestoresRoles(cfg: Config, s: State)
    requires cfg.Valid() && Reachable(cfg, s) && Finished(s)
    requires !cfg.dryRun
    requires s.faults == {ServerCommandFault} && cfg.serverRollback && cfg.toActiveCmd != ""
    ensures s.client.active && !s.server.active
  {
    hide Reachable;
    Classification(cfg, s);
    if s.server.active {
      ActiveServerMeansCompatible(cfg, s);
    }
  }

  /** In both tower modes, two nodes that agree and meet no fault swap their roles. */
  lemma FaultFreeSwaps(cfg: Config, s: State)
    requires cfg.Valid() && Good(cfg, s) && Finished(s)
    requires !cfg.dryRun && cfg.Compatible() && s.faults == {}
    ensures Swapped(s)
  {
    hide Good;
    NothingLost(cfg, s);
    HandedOver(cfg, s);
  }

  /** Such a run exists for every compatible pair of configurations. */
  lemma SwapIsReachable(cfg: Config, clientTower: seq<byte>, serverTower: Option<seq<byte>>) returns (events: seq<Event>)
    requires cfg.Valid() && cfg.Compatible() && !cfg.dryRun
    ensures var end := Run(cfg, Init(cfg, clientTower, serverTower), events); Swapped(end) && end.faults == {}
  {
    hide Good, Run;
    InitIsGood(cfg, clientTower, serverTower);
    events := CanFinish(cfg, Init(cfg, clientTower, serverTower));
    RunKeepsGood(cfg, Init(cfg, clientTower, serverTower), events);
    FaultFreeSwaps(cfg, Run(cfg, Init(cfg, clientTower, serverTower), events));
  }
}

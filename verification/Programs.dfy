/** What the theorems about runs say of the two programs themselves. */
module Programs {
  import opened Wrappers
  import opened Words
  import opened Protocol
  import opened ProtocolRuns
  import opened Safety
  import opened Exclusion
  import opened Progress
  import opened Endings
  import opened Flow
  import opened Readings
  import Samples
  import Summaries
  import ClientProgram
  import ServerProgram
  import ClientRuns
  import ServerRuns

  /** How the roles stand at the end of a run. */
  lemma RolesAtEnd(cfg: Config, clientTower: seq<byte>, serverTower: Option<seq<byte>>, events: seq<Event>)
    requires cfg.Valid() && Finished(Run(cfg, Init(cfg, clientTower, serverTower), events))
    ensures var end := Run(cfg, Init(cfg, clientTower, serverTower), events);
            && (!cfg.dryRun && cfg.Compatible() && end.faults == {} ==> !end.client.active && end.server.active)
            && (cfg.dryRun ==> end.client.active && !end.server.active)
            && (!cfg.skipTowerSync && BothActive(end) ==>
                  cfg.clientRollback && cfg.serverRollback && cfg.toActiveCmd != "" && !cfg.dryRun)
  {
    hide Run, Init, Good, Reachable;
    var end := Run(cfg, Init(cfg, clientTower, serverTower), events);
    RunIsReachable(cfg, clientTower, serverTower, events);
    ReachableGood(cfg, end);
    if cfg.dryRun {
      DryRunChangesNothing(cfg, end);
    } else if cfg.Compatible() && end.faults == {} {
      FaultFreeSwaps(cfg, end);
    }
    if !cfg.skipTowerSync && BothActive(end) {
      MutualExclusion(cfg, end);
    }
  }

  /** What a client that has completed, and a server that has, hold of the hand-over. */
  lemma TimesAtEnd(cfg: Config, clientTower: seq<byte>, serverTower: Option<seq<byte>>, events: seq<Event>)
    requires cfg.Valid()
    ensures var end, h := Run(cfg, Init(cfg, clientTower, serverTower), events), HistoryOf(cfg, clientTower, serverTower, events);
            && (Leaves(end.client.pc, Completed) ==>
                  HoldsClient(end.client.msg, h.client) && HoldsServer(end.client.msg, h.server))
            && (EndsAs(end.server.pc, Activated) ==>
                  HoldsServer(end.server.msg, h.server) && (!cfg.skipTowerSync ==> HoldsClient(end.server.msg, h.client)))
  {
    var end := Run(cfg, Init(cfg, clientTower, serverTower), events);
    hide Run, Init, HistoryOf;
    if Leaves(end.client.pc, Completed) {
      Summaries.ClientTimes(cfg, clientTower, serverTower, events);
    }
    if EndsAs(end.server.pc, Activated) {
      Summaries.ServerTimes(cfg, clientTower, serverTower, events);
    }
  }

  /** A completed server holds the sample from before the failover, and no other, for the client's key. */
  lemma SampleAtEnd(cfg: Config, clientTower: seq<byte>, serverTower: Option<seq<byte>>, events: seq<Event>)
    requires cfg.Valid()
    ensures var v := Run(cfg, Init(cfg, clientTower, serverTower), events).server;
            EndsAs(v.pc, Activated) ==>
              && v.checks.sampled.Some?
              && v.msg.creditSamples == map[v.msg.activeNodeInfo.ActivePubKey() := [v.checks.sampled.value]]
  {
    hide Run, Init;
    RunIsReachable(cfg, clientTower, serverTower, events);
    Samples.ReachableSamples(cfg, Run(cfg, Init(cfg, clientTower, serverTower), events));
  }

  /** Every run in which both programs end by themselves is a run of the two objects, and so they end as the
      run does: with tower sync both active only after a rollback on both nodes, in a dry run as they
      started, and with their roles swapped when they match and nothing went wrong. An object that has
      completed holds the instants and the start slot as they were read, and the server the one sample that
      its monitoring compares the later ones with. */
  method Both(cfg: Config, clientTower: seq<byte>, serverTower: Option<seq<byte>>, events: seq<Event>)
      returns (client: ClientProgram.ActiveNode, server: ServerProgram.PassiveNode)
    requires cfg.Valid()
    requires var end := Run(cfg, Init(cfg, clientTower, serverTower), events);
             Finished(end) && !ClientRuns.Killed(end.client) && !ServerRuns.Killed(end.server)
    ensures var end := Run(cfg, Init(cfg, clientTower, serverTower), events);
            && ClientRuns.EndsAsIn(end, client) && ServerRuns.EndsAsIn(end, server)
            && (!cfg.dryRun && cfg.Compatible() && end.faults == {} ==> !client.active && server.active)
    ensures !cfg.skipTowerSync && client.active && server.active ==>
              cfg.clientRollback && cfg.serverRollback && cfg.toActiveCmd != "" && !cfg.dryRun
    ensures cfg.dryRun ==> client.active && !server.active
    ensures var h := HistoryOf(cfg, clientTower, serverTower, events);
            && (client.at.pc == CDone(Completed) ==>
                  HoldsClient(client.stream.message, h.client) && HoldsServer(client.stream.message, h.server))
            && (server.at.pc == SDone(Activated) ==>
                  && HoldsServer(server.stream.message, h.server)
                  && Run(cfg, Init(cfg, clientTower, serverTower), events).server.checks.sampled.Some?
                  && server.stream.Samples() == [Run(cfg, Init(cfg, clientTower, serverTower), events).server.checks.sampled.value]
                  && (!cfg.skipTowerSync ==> HoldsClient(server.stream.message, h.client)))
  {
    hide Run, Init, HistoryOf, ClientRuns.Killed, ServerRuns.Killed, ClientProgram.ActiveNode.Tracks,
      ServerProgram.PassiveNode.Tracks, HoldsClient, HoldsServer;
    client := ClientRuns.StartInRun(cfg, clientTower, serverTower, events);
    server := ServerRuns.HandleInRun(cfg, clientTower, serverTower, events);
    RolesAtEnd(cfg, clientTower, serverTower, events);
    TimesAtEnd(cfg, clientTower, serverTower, events);
    SampleAtEnd(cfg, clientTower, serverTower, events);
  }
}

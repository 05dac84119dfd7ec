/** The slots a completed failover reports, in unsigned 64-bit arithmetic. */
module Slots {
  import opened Wrappers
  import opened Words
  import opened Messages
  import opened Protocol
  import opened ProtocolInvariant
  import opened Flow
  import opened ProtocolRuns
  import opened Progress
  import opened Exclusion
  import opened Endings
  import opened Readings
  import Trails

  /** GetFailoverSlotsDuration. */
  function SlotsDuration(m: Message): uint64 {
    WrapU64(m.failoverEndSlot - m.failoverStartSlot)
  }

  // ----- What is reported

  /** A verdict of success is behind a server that has completed. */
  lemma VerdictIsComplete(cfg: Config, s: State, h: History)
    requires ReadingInv(cfg, s, h) && |s.toClient.frames| >= 3 && Verdict(s.toClient.frames).isSuccessfullyCompleted
    ensures Complete(cfg, Verdict(s.toClient.frames), h)
    ensures EndSlotFault in s.faults <==> h.server.endSlot.None?
  {
    hide ClientKept, TowerKept, CompletedKept, Complete, HoldsClient, HoldsServer, MessageAt;
  }

  lemma StartIsRead(cfg: Config, s: State, h: History)
    requires Inv(cfg, s) && ReadingInv(cfg, s, h) && |s.toServer.frames| >= 3
    ensures h.client.startSlot > h.client.observed
  {
    hide DownFrames, ServerMessage, ClientMessage, ReplyMatches, SameIdentities, ServerKept, VerdictKept, CompletedKept, MessageAt,
      BeforeClient, SwitchTimed, TowerFilled;
  }

  /** What the verdict of a completed failover says of the slots, in both modes. */
  lemma VerdictReports(cfg: Config, clientTower: seq<byte>, serverTower: Option<seq<byte>>, events: seq<Event>)
    requires cfg.Valid()
    requires var down := Run(cfg, Init(cfg, clientTower, serverTower), events).toClient.frames;
             |down| >= 3 && Verdict(down).isSuccessfullyCompleted
    ensures var end, h := Run(cfg, Init(cfg, clientTower, serverTower), events), HistoryOf(cfg, clientTower, serverTower, events);
            var v, start := Verdict(end.toClient.frames), if cfg.skipTowerSync then 0 else h.client.startSlot;
            && v.failoverStartSlot == start && (!cfg.skipTowerSync ==> start > h.client.observed)
            && (EndSlotFault in end.faults <==> h.server.endSlot.None?)
            && v.failoverEndSlot == (if h.server.endSlot.None? then 0
                                     else if h.server.endSlot.value < start then start
                                     else h.server.endSlot.value)
  {
    var end, h := Run(cfg, Init(cfg, clientTower, serverTower), events), HistoryOf(cfg, clientTower, serverTower, events);
    RunIsReachable(cfg, clientTower, serverTower, events);
    ReachableGood(cfg, end);
    RunReadings(cfg, clientTower, serverTower, events);
    hide Run, Init, HistoryOf, Reachable, Good, Inv, ReadingInv, MessageAt;
    GoodHasInv(cfg, end);
    VerdictIsComplete(cfg, end, h);
    if !cfg.skipTowerSync {
      VerdictNeedsTower(cfg, end);
      ChannelsValid(cfg, end);
      StartIsRead(cfg, end, h);
    }
  }

  /** A client that has waited for its slot is told how long the failover took, from that slot to the end
      slot, exactly when the towers are synced and the server's slot query was answered. Otherwise the
      unsigned difference is taken from zero, or to zero. */
  lemma DurationIff(cfg: Config, clientTower: seq<byte>, serverTower: Option<seq<byte>>, events: seq<Event>)
    requires cfg.Valid()
    requires var down := Run(cfg, Init(cfg, clientTower, serverTower), events).toClient.frames;
             |down| >= 3 && Verdict(down).isSuccessfullyCompleted
    requires HistoryOf(cfg, clientTower, serverTower, events).client.startSlot > 0
    ensures var end, h := Run(cfg, Init(cfg, clientTower, serverTower), events), HistoryOf(cfg, clientTower, serverTower, events);
            var v := Verdict(end.toClient.frames);
            SlotsDuration(v) == v.failoverEndSlot - h.client.startSlot <==> !cfg.skipTowerSync && EndSlotFault !in end.faults
  {
    hide Run, Init, HistoryOf, Verdict;
    VerdictReports(cfg, clientTower, serverTower, events);
  }

  /** With tower sync the start slot lies after the slot the client was in, an answered query gives an end
      slot not before it, and a failed one makes the difference wrap. */
  lemma SlotAccounting(cfg: Config, clientTower: seq<byte>, serverTower: Option<seq<byte>>, events: seq<Event>)
    requires cfg.Valid() && !cfg.skipTowerSync
    requires var down := Run(cfg, Init(cfg, clientTower, serverTower), events).toClient.frames;
             |down| >= 3 && Verdict(down).isSuccessfullyCompleted
    ensures var end, h := Run(cfg, Init(cfg, clientTower, serverTower), events), HistoryOf(cfg, clientTower, serverTower, events);
            var v := Verdict(end.toClient.frames);
            && v.failoverStartSlot == h.client.startSlot > h.client.observed
            && (EndSlotFault !in end.faults ==>
                  && h.server.endSlot.Some?
                  && v.failoverEndSlot >= v.failoverStartSlot && v.failoverEndSlot >= h.server.endSlot.value
                  && v.failoverEndSlot in {v.failoverStartSlot, h.server.endSlot.value})
            && (EndSlotFault in end.faults ==> v.failoverEndSlot == 0 && SlotsDuration(v) == TWO_64 - v.failoverStartSlot)
  {
    hide Run, Init, HistoryOf, Verdict;
    VerdictReports(cfg, clientTower, serverTower, events);
  }

  // ----- The two ways to a wrong duration, each in a run that swaps the roles

  lemma SwappedWithVerdict(cfg: Config, s: State)
    requires cfg.Valid() && Reachable(cfg, s) && Swapped(s)
    ensures |s.toClient.frames| == 3 && Verdict(s.toClient.frames).isSuccessfullyCompleted && s.client.wentPassive
  {
    Trails.ReachableTrail(cfg, s);
    ReachableGood(cfg, s);
    hide Reachable, Good, Inv, Trails.TrailInv, Verdict;
    GoodHasInv(cfg, s);
    ServerWrote(cfg, s);
    CompletedHasRead(cfg, s);
  }

  lemma CompletedHasRead(cfg: Config, s: State)
    requires Trails.TrailInv(cfg, s) && Leaves(s.client.pc, Completed)
    ensures s.toClient.read >= 3 && Verdict(s.toClient.frames).isSuccessfullyCompleted && s.client.wentPassive
  {
    hide Trails.ServerTrail, Trails.FrameTrail, Trails.LinkTrail, MessageAt;
  }

  lemma QueryFails(cfg: Config, s: State)
    requires s.server.pc.SSetActive?
    ensures var n := Step(cfg, Step(cfg, s, ServerDoes(ServerCommand(Succeeded, 1, 1))), ServerDoes(ServerEndSlot(None)));
            n.faults == s.faults + {EndSlotFault}
  {
    hide WithPassiveSwitchStart, WithPassiveSwitchEnd, WithCompleted;
  }

  lemma ReachFailedQuery(cfg: Config, s: State) returns (events: seq<Event>)
    requires cfg.Valid() && cfg.Compatible() && Good(cfg, s) && Smooth(cfg, s)
    ensures var n := Run(cfg, s, events); Good(cfg, n) && n.faults == {EndSlotFault}
  {
    hide Good, Run, Step;
    var es := ReachSwitch(cfg, s);
    QueryFails(cfg, Run(cfg, s, es));
    events := es + [ServerDoes(ServerCommand(Succeeded, 1, 1)), ServerDoes(ServerEndSlot(None))];
    RunThenTwo(cfg, s, es, ServerDoes(ServerCommand(Succeeded, 1, 1)), ServerDoes(ServerEndSlot(None)));
    RunKeepsGood(cfg, s, events);
  }

  lemma EndSlotFaultSwaps(cfg: Config, s: State)
    requires cfg.Valid() && Reachable(cfg, s) && Finished(s) && cfg.Compatible() && !cfg.dryRun
    requires s.faults == {EndSlotFault}
    ensures Swapped(s)
  {
    hide Reachable;
    Classification(cfg, s);
  }

  /** With tower sync, for every matching pair: the roles are swapped, only the slot query failed, and the
      reported duration has wrapped. */
  lemma FailedQueryWraps(cfg: Config, clientTower: seq<byte>, serverTower: Option<seq<byte>>) returns (events: seq<Event>)
    requires cfg.Valid() && cfg.Compatible() && !cfg.skipTowerSync && !cfg.dryRun
    ensures var end := Run(cfg, Init(cfg, clientTower, serverTower), events);
            var v := Verdict(end.toClient.frames);
            && Swapped(end) && end.faults == {EndSlotFault} && v.isSuccessfullyCompleted
            && SlotsDuration(v) == TWO_64 - v.failoverStartSlot
  {
    var s0 := Init(cfg, clientTower, serverTower);
    SmoothStart(cfg, clientTower, serverTower);
    hide Init, Good, Smooth, Run, Reachable, Swapped, Finished, HistoryOf;
    var es := ReachFailedQuery(cfg, s0);
    var rest := CanFinish(cfg, Run(cfg, s0, es));
    events := es + rest;
    RunConcat(cfg, s0, es, rest);
    RunIsReachable(cfg, clientTower, serverTower, events);
    EndSlotFaultSwaps(cfg, Run(cfg, s0, events));
    SwappedWithVerdict(cfg, Run(cfg, s0, events));
    SlotAccounting(cfg, clientTower, serverTower, events);
  }

  lemma PassiveHasWaited(cfg: Config, s: State, h: History)
    requires ReadingInv(cfg, s, h) && s.client.wentPassive
    ensures h.client.startSlot > 0
  {
    hide ServerKept, TowerKept, VerdictKept, CompletedKept, HoldsClient;
  }

  /** Without tower sync, for every matching pair: a run without any fault swaps the roles and reports the
      end slot as the duration. */
  lemma SkippedSyncMisreports(cfg: Config, clientTower: seq<byte>, serverTower: Option<seq<byte>>) returns (events: seq<Event>)
    requires cfg.Valid() && cfg.Compatible() && cfg.skipTowerSync && !cfg.dryRun
    ensures var end, h := Run(cfg, Init(cfg, clientTower, serverTower), events), HistoryOf(cfg, clientTower, serverTower, events);
            var v := Verdict(end.toClient.frames);
            && Swapped(end) && end.faults == {} && v.isSuccessfullyCompleted
            && SlotsDuration(v) == v.failoverEndSlot && h.client.startSlot > 0
            && SlotsDuration(v) != v.failoverEndSlot - h.client.startSlot
  {
    hide Init, Good, Run, Reachable, Swapped, HistoryOf;
    events := SwapIsReachable(cfg, clientTower, serverTower);
    var end := Run(cfg, Init(cfg, clientTower, serverTower), events);
    RunIsReachable(cfg, clientTower, serverTower, events);
    SwappedWithVerdict(cfg, end);
    VerdictReports(cfg, clientTower, serverTower, events);
    RunReadings(cfg, clientTower, serverTower, events);
    PassiveHasWaited(cfg, end, HistoryOf(cfg, clientTower, serverTower, events));
  }
}

/** What the two nodes know of the times of a failover when it is over, and what the summary makes of it. */
module Summaries {
  import opened Wrappers
  import opened Words
  import opened Messages
  import opened Protocol
  import opened ProtocolInvariant
  import opened Flow
  import opened ProtocolRuns
  import opened Readings
  import Exclusion
  import Slots

  // ----- The messages at the end of a run

  /** Every verdict of success holds the instants of the server's own hand-over, and with tower sync those
      of the client's; without it the server never learns them. */
  lemma VerdictTimes(cfg: Config, clientTower: seq<byte>, serverTower: Option<seq<byte>>, events: seq<Event>)
    requires cfg.Valid()
    requires var down := Run(cfg, Init(cfg, clientTower, serverTower), events).toClient.frames;
             |down| >= 3 && Verdict(down).isSuccessfullyCompleted
    ensures var v := Verdict(Run(cfg, Init(cfg, clientTower, serverTower), events).toClient.frames);
            var h := HistoryOf(cfg, clientTower, serverTower, events);
            var client := if cfg.skipTowerSync then NO_CLIENT else h.client;
            && v.passiveNodeSetIdentityStartTime == h.server.commandStart
            && v.passiveNodeSetIdentityEndTime == h.server.commandEnd
            && v.passiveNodeSyncTowerFileEndTime == h.server.written
            && v.activeNodeSetIdentityStartTime == client.commandStart
            && v.activeNodeSetIdentityEndTime == client.commandEnd
            && v.activeNodeSyncTowerFileStartTime == client.towerStart
            && v.activeNodeSyncTowerFileEndTime == client.towerEnd
  {
    RunReadings(cfg, clientTower, serverTower, events);
    hide Run, Init, HistoryOf, ReadingInv, MessageAt;
    Slots.VerdictIsComplete(
      cfg, Run(cfg, Init(cfg, clientTower, serverTower), events), HistoryOf(cfg, clientTower, serverTower, events));
  }

  lemma ServerIsComplete(cfg: Config, s: State, h: History)
    requires ReadingInv(cfg, s, h) && EndsAs(s.server.pc, Activated)
    ensures Complete(cfg, s.server.msg, h)
  {
    hide ClientKept, TowerKept, VerdictKept, CompletedKept, Complete, HoldsClient, HoldsServer;
  }

  /** So does the message a server ends with that has completed. */
  lemma ServerTimes(cfg: Config, clientTower: seq<byte>, serverTower: Option<seq<byte>>, events: seq<Event>)
    requires cfg.Valid()
    requires EndsAs(Run(cfg, Init(cfg, clientTower, serverTower), events).server.pc, Activated)
    ensures var m := Run(cfg, Init(cfg, clientTower, serverTower), events).server.msg;
            var h := HistoryOf(cfg, clientTower, serverTower, events);
            var client := if cfg.skipTowerSync then NO_CLIENT else h.client;
            && m.passiveNodeSetIdentityStartTime == h.server.commandStart
            && m.passiveNodeSetIdentityEndTime == h.server.commandEnd
            && m.passiveNodeSyncTowerFileEndTime == h.server.written
            && m.activeNodeSetIdentityStartTime == client.commandStart
            && m.activeNodeSetIdentityEndTime == client.commandEnd
            && m.activeNodeSyncTowerFileStartTime == client.towerStart
            && m.activeNodeSyncTowerFileEndTime == client.towerEnd
            && m.failoverStartSlot == client.startSlot
            && m.failoverEndSlot == (if h.server.endSlot.None? then 0
                                     else if h.server.endSlot.value < client.startSlot then client.startSlot
                                     else h.server.endSlot.value)
  {
    RunReadings(cfg, clientTower, serverTower, events);
    hide Run, Init, HistoryOf, ReadingInv;
    ServerIsComplete(
      cfg, Run(cfg, Init(cfg, clientTower, serverTower), events), HistoryOf(cfg, clientTower, serverTower, events));
  }

  lemma ClientIsComplete(cfg: Config, s: State, h: History)
    requires ReadingInv(cfg, s, h) && Leaves(s.client.pc, Completed)
    ensures HoldsClient(s.client.msg, h.client) && HoldsServer(s.client.msg, h.server)
  {
    hide ServerKept, TowerKept, VerdictKept, HoldsClient, HoldsServer, MessageAt;
  }

  /** A client that has completed holds all of them, in both modes: merging the verdict in loses nothing of
      its own. */
  lemma ClientTimes(cfg: Config, clientTower: seq<byte>, serverTower: Option<seq<byte>>, events: seq<Event>)
    requires cfg.Valid()
    requires Leaves(Run(cfg, Init(cfg, clientTower, serverTower), events).client.pc, Completed)
    ensures var m := Run(cfg, Init(cfg, clientTower, serverTower), events).client.msg;
            var h := HistoryOf(cfg, clientTower, serverTower, events);
            && m.failoverStartSlot == h.client.startSlot
            && m.activeNodeSetIdentityStartTime == h.client.commandStart
            && m.activeNodeSetIdentityEndTime == h.client.commandEnd
            && m.activeNodeSyncTowerFileStartTime == h.client.towerStart
            && m.activeNodeSyncTowerFileEndTime == h.client.towerEnd
            && m.passiveNodeSetIdentityStartTime == h.server.commandStart
            && m.passiveNodeSetIdentityEndTime == h.server.commandEnd
            && m.passiveNodeSyncTowerFileEndTime == h.server.written
  {
    RunReadings(cfg, clientTower, serverTower, events);
    hide Run, Init, HistoryOf, ReadingInv;
    ClientIsComplete(
      cfg, Run(cfg, Init(cfg, clientTower, serverTower), events), HistoryOf(cfg, clientTower, serverTower, events));
  }

  // ----- What was read stays

  /** Whatever `h` has read, `h'` has read the same. */
  predicate Extends(h: History, h': History) {
    && (h.client.startSlot > 0 ==> h'.client.startSlot == h.client.startSlot && h'.client.observed == h.client.observed)
    && (h.client.commandStart > 0 ==>
          h'.client.commandStart == h.client.commandStart && h'.client.commandEnd == h.client.commandEnd)
    && (h.client.towerStart > 0 ==> h'.client.towerStart == h.client.towerStart && h'.client.towerEnd == h.client.towerEnd)
    && (h.server.written > 0 ==> h'.server.written == h.server.written)
    && (h.server.commandStart > 0 ==>
          h'.server.commandStart == h.server.commandStart && h'.server.commandEnd == h.server.commandEnd)
    && (h.server.endSlot.Some? ==> h'.server.endSlot == h.server.endSlot)
  }

  /** Each reading is taken at one program point, which its program passes once. */
  lemma ReadOnce(cfg: Config, s: State, e: Event, h: History)
    requires ReadingInv(cfg, s, h)
    ensures Extends(h, Noted(cfg, s, e, h))
  {
    hide ClientStep, ServerStep, ClientReady, ServerReady, TowerKept, VerdictKept, CompletedKept, HoldsClient, HoldsServer, Complete;
  }

  lemma {:induction false} HistoryGrows(cfg: Config, s: State, events: seq<Event>, h: History)
    requires cfg.Valid() && Inv(cfg, s) && ReadingInv(cfg, s, h)
    ensures Extends(h, HistoryFrom(cfg, s, events, h))
    decreases |events|
  {
    hide Inv, ReadingInv, Step, Noted, Run;
    if events != [] {
      var e := events[0];
      StepKeepsInv(cfg, s, e);
      RunKeepsReadings(cfg, s, [e], h);
      OneEvent(cfg, s, e, h);
      ReadOnce(cfg, s, e, h);
      HistoryGrows(cfg, Step(cfg, s, e), events[1..], Noted(cfg, s, e, h));
    }
  }

  lemma OneEvent(cfg: Config, s: State, e: Event, h: History)
    ensures Run(cfg, s, [e]) == Step(cfg, s, e) && HistoryFrom(cfg, s, [e], h) == Noted(cfg, s, e, h)
  {
    hide Step, Noted;
    assert [e][1..] == [];
  }

  lemma {:induction false} HistoryConcat(cfg: Config, s: State, es: seq<Event>, fs: seq<Event>, h: History)
    ensures HistoryFrom(cfg, s, es + fs, h) == HistoryFrom(cfg, Run(cfg, s, es), fs, HistoryFrom(cfg, s, es, h))
    decreases |es|
  {
    hide Step, Noted;
    if es == [] {
      assert es + fs == fs;
    } else {
      assert (es + fs)[0] == es[0] && (es + fs)[1..] == es[1..] + fs;
      HistoryConcat(cfg, Step(cfg, s, es[0]), es[1..], fs, Noted(cfg, s, es[0], h));
    }
  }

  /** Nothing that happens later changes what was read before. */
  lemma ReadingsStay(cfg: Config, clientTower: seq<byte>, serverTower: Option<seq<byte>>, es: seq<Event>, fs: seq<Event>)
    requires cfg.Valid()
    ensures Extends(HistoryOf(cfg, clientTower, serverTower, es), HistoryOf(cfg, clientTower, serverTower, es + fs))
  {
    hide Inv, Run, Init, ReadingInv, HistoryFrom, Extends;
    var start := Init(cfg, clientTower, serverTower);
    RunReadings(cfg, clientTower, serverTower, es);
    Exclusion.RunIsReachable(cfg, clientTower, serverTower, es);
    ReachableGood(cfg, Run(cfg, start, es));
    GoodHasInv(cfg, Run(cfg, start, es));
    HistoryConcat(cfg, start, es, fs, History(NO_CLIENT, NO_SERVER));
    HistoryGrows(cfg, Run(cfg, start, es), fs, HistoryOf(cfg, clientTower, serverTower, es));
  }

  // ----- The summary

  const LONGEST: int64 := TWO_63 - 1

  /** time.Time.Sub: a difference that does not fit a duration becomes the longest one. */
  function Sub(later: nat, earlier: nat): int64 {
    var d := later - earlier;
    if d > LONGEST then LONGEST else if d < -TWO_63 then -TWO_63 else d
  }

  datatype Summary = Summary(
    activeSwitch: int64, towerSync: int64, passiveSwitch: int64, total: int64, startSlot: uint64, endSlot: uint64, slots: uint64)

  /** GetFailoverDuration. */
  function FailoverDuration(m: Message): int64 {
    Sub(m.passiveNodeSetIdentityEndTime, m.activeNodeSetIdentityStartTime)
  }

  /** BuildSummaryData, as far as times and slots go. */
  function SummaryOf(m: Message): Summary {
    Summary(
      Sub(m.activeNodeSetIdentityEndTime, m.activeNodeSetIdentityStartTime),
      Sub(m.passiveNodeSyncTowerFileEndTime, m.activeNodeSyncTowerFileStartTime),
      Sub(m.passiveNodeSetIdentityEndTime, m.passiveNodeSetIdentityStartTime),
      FailoverDuration(m),
      m.failoverStartSlot, m.failoverEndSlot, Slots.SlotsDuration(m))
  }

  /** The summary of a server that has completed: how long its own command took, in both modes, and with
      tower sync how long the client's command and the hand-over of the tower took. Without tower sync it
      reports that those two took no time. */
  lemma SummaryTimes(cfg: Config, clientTower: seq<byte>, serverTower: Option<seq<byte>>, events: seq<Event>)
    requires cfg.Valid()
    requires EndsAs(Run(cfg, Init(cfg, clientTower, serverTower), events).server.pc, Activated)
    ensures var summary := SummaryOf(Run(cfg, Init(cfg, clientTower, serverTower), events).server.msg);
            var h := HistoryOf(cfg, clientTower, serverTower, events);
            && summary.passiveSwitch == Sub(h.server.commandEnd, h.server.commandStart)
            && summary.activeSwitch == (if cfg.skipTowerSync then 0 else Sub(h.client.commandEnd, h.client.commandStart))
            && summary.towerSync == (if cfg.skipTowerSync then 0 else Sub(h.server.written, h.client.towerStart))
  {
    RunReadings(cfg, clientTower, serverTower, events);
    hide Run, Init, HistoryOf, ReadingInv;
    ServerTimes(cfg, clientTower, serverTower, events);
    if cfg.skipTowerSync {
      NothingWritten(
        cfg, Run(cfg, Init(cfg, clientTower, serverTower), events), HistoryOf(cfg, clientTower, serverTower, events));
    }
  }

  lemma NothingWritten(cfg: Config, s: State, h: History)
    requires ReadingInv(cfg, s, h) && cfg.skipTowerSync
    ensures h.server.written == 0
  {
    hide ClientKept, TowerKept, VerdictKept, CompletedKept, Complete, HoldsClient, HoldsServer;
  }

  /** Once the client has run its command, the summary says how long the failover took, from the start of
      that command to the end of the server's, exactly when the towers are synced, or the failover took
      longer than the longest duration. Otherwise the server subtracts the zero time. */
  lemma TotalDurationIff(cfg: Config, clientTower: seq<byte>, serverTower: Option<seq<byte>>, events: seq<Event>)
    requires cfg.Valid()
    requires EndsAs(Run(cfg, Init(cfg, clientTower, serverTower), events).server.pc, Activated)
    requires HistoryOf(cfg, clientTower, serverTower, events).client.commandStart > 0
    ensures var summary := SummaryOf(Run(cfg, Init(cfg, clientTower, serverTower), events).server.msg);
            var h := HistoryOf(cfg, clientTower, serverTower, events);
            summary.total == Sub(h.server.commandEnd, h.client.commandStart) <==>
              !cfg.skipTowerSync || h.server.commandEnd - h.client.commandStart >= TWO_63 - 1
  {
    hide Run, Init, HistoryOf;
    ServerTimes(cfg, clientTower, serverTower, events);
  }
}

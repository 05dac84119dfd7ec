/**
 How long until a node leads next, from the epoch info and the leader schedule, and the wait that
 keeps a failover clear of a leader window.
 */
module LeaderSlots {
  import opened Wrappers
  import opened Words

  datatype EpochInfo = EpochInfo(absoluteSlot: uint64, slotIndex: uint64) {
    /** The first slot of the epoch, as the source computes it: unsigned, so it may wrap. */
    function FirstSlot(): uint64 {
      WrapU64(absoluteSlot - slotIndex)
    }

    /** What the source takes for granted. */
    predicate Sane(indexes: seq<uint64>) {
      && slotIndex <= absoluteSlot
      && (forall k :: 0 <= k < |indexes| ==> absoluteSlot - slotIndex + indexes[k] < TWO_64)
      && forall j, k :: 0 <= j < k < |indexes| ==> indexes[j] <= indexes[k]
    }
  }

  /** The k-th leader slot, wrapping. */
  function LeaderSlot(e: EpochInfo, indexes: seq<uint64>, k: nat): uint64
    requires k < |indexes|
  {
    WrapU64(e.FirstSlot() + indexes[k])
  }

  /** `k` is the first index the loop stops at. */
  predicate NextLeader(e: EpochInfo, indexes: seq<uint64>, k: nat) {
    && k < |indexes| && LeaderSlot(e, indexes, k) >= e.absoluteSlot
    && forall j :: 0 <= j < k ==> LeaderSlot(e, indexes, j) < e.absoluteSlot
  }

  predicate NoNextLeader(e: EpochInfo, indexes: seq<uint64>) {
    forall j :: 0 <= j < |indexes| ==> LeaderSlot(e, indexes, j) < e.absoluteSlot
  }

  /** time.Duration(slots) * average, in signed 64-bit arithmetic. */
  function SlotsToDuration(slots: uint64, average: int64): int64 {
    WrapI64(WrapI64(slots) * average)
  }

  datatype NextSlot = OffSchedule | OnSchedule(timeToNext: int64)

  /** GetTimeToNextLeaderSlotForPubkey; `None` for a failed query or a node not in the schedule. */
  method TimeToNextLeaderSlot(info: Option<EpochInfo>, schedule: Option<map<string, seq<uint64>>>, pubkey: string, average: int64)
    returns (r: Option<NextSlot>)
    ensures r.None? <==> info.None? || schedule.None?
    ensures info.Some? && schedule.Some? && pubkey !in schedule.value ==> r == Some(OffSchedule)
    ensures info.Some? && schedule.Some? && pubkey in schedule.value ==> IsNextSlot(info.value, schedule.value[pubkey], average, r.value)
  {
    hide WrapU64, SlotsToDuration, EpochInfo.FirstSlot;
    if info.None? || schedule.None? {
      return None;
    }
    if pubkey !in schedule.value {
      return Some(OffSchedule);
    }
    var e, indexes := info.value, schedule.value[pubkey];
    var nextLeaderSlot: uint64 := 0;
    ghost var found: nat := |indexes|;
    for i := 0 to |indexes|
      invariant nextLeaderSlot == 0 && found == |indexes|
      invariant forall j :: 0 <= j < i ==> LeaderSlot(e, indexes, j) < e.absoluteSlot
    {
      var leaderSlot := WrapU64(e.FirstSlot() + indexes[i]);
      if leaderSlot >= e.absoluteSlot {
        nextLeaderSlot := leaderSlot;
        found := i;
        break;
      }
    }
    if nextLeaderSlot == 0 {
      assert if found < |indexes| then NextLeader(e, indexes, found) && LeaderSlot(e, indexes, found) == 0
             else NoNextLeader(e, indexes);
      return Some(OffSchedule);
    }
    r := Some(OnSchedule(SlotsToDuration(WrapU64(nextLeaderSlot - e.absoluteSlot), average)));
    assert NextLeader(e, indexes, found);
  }

  /** What the answer is in terms of the schedule; slot 0 doubles as "none found". */
  ghost predicate IsNextSlot(e: EpochInfo, indexes: seq<uint64>, average: int64, r: NextSlot) {
    match r
    case OffSchedule =>
      NoNextLeader(e, indexes) || exists k: nat :: NextLeader(e, indexes, k) && LeaderSlot(e, indexes, k) == 0
    case OnSchedule(t) =>
      exists k: nat :: NextLeader(e, indexes, k) && LeaderSlot(e, indexes, k) != 0
        && t == SlotsToDuration(WrapU64(LeaderSlot(e, indexes, k) - e.absoluteSlot), average)
  }

  // ----- What it means when nothing wraps

  /** The slots the node still leads, the current one included. */
  ghost predicate StillLeads(e: EpochInfo, indexes: seq<uint64>, slot: int) {
    slot >= e.absoluteSlot && exists k :: 0 <= k < |indexes| && slot == e.absoluteSlot - e.slotIndex + indexes[k]
  }

  /** A product below 2^63. */
  ghost predicate Fits(e: EpochInfo, indexes: seq<uint64>, average: int64) {
    average >= 0
    && forall slot :: StillLeads(e, indexes, slot) ==>
                        (slot - e.absoluteSlot) * average < TWO_63 && slot - e.absoluteSlot < TWO_63
  }

  lemma WrapIsIdentity(x: int)
    ensures 0 <= x < TWO_64 ==> WrapU64(x) == x
    ensures -TWO_63 <= x < TWO_63 ==> WrapI64(x) == x
  {
  }

  lemma SaneSlots(e: EpochInfo, indexes: seq<uint64>, k: nat)
    requires e.Sane(indexes) && k < |indexes|
    ensures LeaderSlot(e, indexes, k) == e.absoluteSlot - e.slotIndex + indexes[k]
  {
    WrapIsIdentity(e.absoluteSlot - e.slotIndex);
    WrapIsIdentity(e.absoluteSlot - e.slotIndex + indexes[k]);
  }

  /** The loop stops at the nearest leader slot, and nothing wraps on the way to the answer. */
  lemma NextIsNearest(e: EpochInfo, indexes: seq<uint64>, average: int64, k: nat)
    requires e.Sane(indexes) && Fits(e, indexes, average) && NextLeader(e, indexes, k)
    ensures var next := LeaderSlot(e, indexes, k);
            && StillLeads(e, indexes, next)
            && SlotsToDuration(WrapU64(next - e.absoluteSlot), average) == (next - e.absoluteSlot) * average
            && forall slot :: StillLeads(e, indexes, slot) ==> next <= slot
  {
    SaneSlots(e, indexes, k);
    var next := LeaderSlot(e, indexes, k);
    forall slot | StillLeads(e, indexes, slot) ensures next <= slot {
      var m :| 0 <= m < |indexes| && slot == e.absoluteSlot - e.slotIndex + indexes[m];
      SaneSlots(e, indexes, m);
    }
    assert StillLeads(e, indexes, next);
    MultiplyKeepsOrder(0, next - e.absoluteSlot, average);
    WrapIsIdentity(next - e.absoluteSlot);
    WrapIsIdentity((next - e.absoluteSlot) * average);
  }

  /** The answer is the time to the nearest leader slot, and "off schedule" means none is left. */
  lemma TimeIsToNearest(e: EpochInfo, indexes: seq<uint64>, average: int64, r: NextSlot)
    requires e.Sane(indexes) && Fits(e, indexes, average) && e.absoluteSlot > 0
    requires IsNextSlot(e, indexes, average, r)
    ensures r.OffSchedule? ==> forall slot :: !StillLeads(e, indexes, slot)
    ensures r.OnSchedule? ==> exists slot :: StillLeads(e, indexes, slot) && r.timeToNext == (slot - e.absoluteSlot) * average
    ensures r.OnSchedule? ==> forall slot :: StillLeads(e, indexes, slot) ==> r.timeToNext <= (slot - e.absoluteSlot) * average
  {
    match r
    case OffSchedule =>
      forall k | 0 <= k < |indexes| ensures LeaderSlot(e, indexes, k) == e.absoluteSlot - e.slotIndex + indexes[k] {
        SaneSlots(e, indexes, k);
      }
    case OnSchedule(t) =>
      var k: nat :| NextLeader(e, indexes, k) && LeaderSlot(e, indexes, k) != 0
        && t == SlotsToDuration(WrapU64(LeaderSlot(e, indexes, k) - e.absoluteSlot), average);
      NextIsNearest(e, indexes, average, k);
      hide *;
      forall slot | StillLeads(e, indexes, slot) ensures t <= (slot - e.absoluteSlot) * average {
        MultiplyKeepsOrder(LeaderSlot(e, indexes, k) - e.absoluteSlot, slot - e.absoluteSlot, average);
      }
  }

  lemma MultiplyKeepsOrder(a: int, b: int, c: int)
    requires a <= b && c >= 0
    ensures a * c <= b * c
  {
  }

  /** At absolute slot 0 the "none found" value is ambiguous: the node leads now, yet the answer is
      "off schedule". Nowhere else: the answer is right exactly when the next leader slot is not 0. */
  lemma SentinelIffSlotZero(e: EpochInfo, indexes: seq<uint64>, average: int64, r: NextSlot)
    requires e.Sane(indexes) && IsNextSlot(e, indexes, average, r)
    ensures r.OffSchedule? && (exists slot :: StillLeads(e, indexes, slot)) <==>
              e.absoluteSlot == 0 && |indexes| > 0 && indexes[0] == 0
  {
    forall k | 0 <= k < |indexes| ensures LeaderSlot(e, indexes, k) == e.absoluteSlot - e.slotIndex + indexes[k] {
      SaneSlots(e, indexes, k);
    }
    if e.absoluteSlot == 0 && |indexes| > 0 && indexes[0] == 0 {
      assert StillLeads(e, indexes, 0);
      assert NextLeader(e, indexes, 0);
    }
    if r.OffSchedule? && exists slot :: StillLeads(e, indexes, slot) {
      var k: nat :| NextLeader(e, indexes, k) && LeaderSlot(e, indexes, k) == 0;
    }
  }

  // ----- The wait for a gap before the next leader slot

  /** One query of the loop: `None` for an error. */
  type Poll = Option<NextSlot>

  datatype WaitOutcome = Passed | Aborted | StillWaiting

  const MAX_RETRIES := 10

  /** The query finds the node off schedule, or its next leader slot far enough. */
  predicate Clears(p: Poll, minTime: int64) {
    p.Some? && (p.value.OnSchedule? ==> p.value.timeToNext >= minTime)
  }

  function Errors(polls: seq<Poll>, n: nat): nat
    requires n <= |polls|
  {
    if n == 0 then 0 else Errors(polls, n - 1) + if polls[n - 1].None? then 1 else 0
  }

  predicate NoneClears(polls: seq<Poll>, n: nat, minTime: int64)
    requires n <= |polls|
  {
    forall k :: 0 <= k < n ==> !Clears(polls[k], minTime)
  }

  /** waitMinTimeToLeaderSlot, on the answers the RPC node will give. The retries are not renewed by
      a successful query: the eleventh error ends the wait, consecutive or not. */
  method WaitMinTimeToLeaderSlot(enabled: bool, polls: seq<Poll>, minTime: int64) returns (outcome: WaitOutcome, used: nat)
    ensures used <= |polls|
    ensures !enabled ==> outcome == Passed
    ensures enabled && outcome.Passed? ==>
              used > 0 && Clears(polls[used - 1], minTime) && NoneClears(polls, used - 1, minTime) && Errors(polls, used) <= 10
    ensures outcome.Aborted? ==>
              used > 0 && polls[used - 1].None? && NoneClears(polls, used, minTime) && Errors(polls, used) == 11
    ensures outcome.StillWaiting? ==>
              used == |polls| && NoneClears(polls, used, minTime) && Errors(polls, used) <= 10
  {
    used := 0;
    if !enabled {
      return Passed, if |polls| > 0 then 1 else 0;
    }
    var remainingRetries := MAX_RETRIES;
    while used < |polls|
      invariant used <= |polls| && remainingRetries >= 0
      invariant Errors(polls, used) == MAX_RETRIES - remainingRetries
      invariant NoneClears(polls, used, minTime)
    {
      var p := polls[used];
      used := used + 1;
      if p.None? {
        if remainingRetries == 0 {
          return Aborted, used;
        }
        remainingRetries := remainingRetries - 1;
        continue;
      }
      if p.value.OffSchedule? {
        return Passed, used;
      }
      if p.value.timeToNext < minTime {
        continue;
      }
      return Passed, used;
    }
    outcome := StillWaiting;
  }

  // With a fixed schedule and an advancing slot, the wait ends.

  /** The slots the queries observed; `None` where a query failed. */
  ghost predicate Advancing(slots: seq<Option<uint64>>, first: int) {
    && (forall k :: 0 <= k < |slots| && slots[k].Some? ==> slots[k].value >= first)
    && forall j, k :: 0 <= j < k < |slots| && slots[j].Some? && slots[k].Some? ==> slots[j].value < slots[k].value
  }

  /** The answers come from one epoch's schedule. */
  ghost predicate FromSchedule(
      slots: seq<Option<uint64>>, epochStart: uint64, indexes: seq<uint64>, average: int64, polls: seq<Poll>) {
    && |polls| == |slots|
    && forall k :: 0 <= k < |slots| ==>
         && slots[k].Some? == polls[k].Some?
         && (slots[k].Some? ==>
               && slots[k].value >= epochStart && slots[k].value > 0
               && At(slots[k].value, epochStart).Sane(indexes) && Fits(At(slots[k].value, epochStart), indexes, average)
               && IsNextSlot(At(slots[k].value, epochStart), indexes, average, polls[k].value))
  }

  function At(slot: uint64, epochStart: uint64): EpochInfo
    requires epochStart <= slot
  {
    EpochInfo(slot, slot - epochStart)
  }

  lemma {:induction false} SlotsSpread(slots: seq<Option<uint64>>, polls: seq<Poll>, first: int, n: nat)
    requires Advancing(slots, first) && |polls| == |slots| && n <= |slots|
    requires forall k :: 0 <= k < |slots| ==> slots[k].Some? == polls[k].Some?
    ensures forall k :: n <= k < |slots| && slots[k].Some? ==> slots[k].value >= first + n - Errors(polls, n)
    decreases n
  {
    if n > 0 {
      SlotsSpread(slots, polls, first, n - 1);
    }
  }

  /** A query that does not clear the wait saw a slot up to the last leader slot. */
  lemma WaitingSeesLeaderSlot(e: EpochInfo, indexes: seq<uint64>, average: int64, r: NextSlot, minTime: int64)
    requires e.Sane(indexes) && Fits(e, indexes, average) && e.absoluteSlot > 0
    requires IsNextSlot(e, indexes, average, r) && !Clears(Some(r), minTime)
    ensures |indexes| > 0 && e.absoluteSlot <= e.absoluteSlot - e.slotIndex + indexes[|indexes| - 1]
  {
    TimeIsToNearest(e, indexes, average, r);
    var slot :| StillLeads(e, indexes, slot);
    var k :| 0 <= k < |indexes| && slot == e.absoluteSlot - e.slotIndex + indexes[k];
  }

  /** The slots from `first` to the epoch's last leader slot. */
  function SlotsUpToLast(epochStart: uint64, indexes: seq<uint64>, first: int): nat {
    if indexes == [] || epochStart + indexes[|indexes| - 1] < first then 0 else epochStart + indexes[|indexes| - 1] - first + 1
  }

  /** The slot behind an answer that does not clear lies before the last leader slot. */
  lemma AnswerBounds(
      slots: seq<Option<uint64>>, epochStart: uint64, indexes: seq<uint64>, average: int64, polls: seq<Poll>, minTime: int64, k: nat)
    requires FromSchedule(slots, epochStart, indexes, average, polls)
    requires k < |polls| && polls[k].Some? && !Clears(polls[k], minTime)
    ensures k < |slots| && slots[k].Some? && |indexes| > 0 && slots[k].value <= epochStart + indexes[|indexes| - 1]
  {
    hide IsNextSlot, Fits, Clears;
    WaitingSeesLeaderSlot(At(slots[k].value, epochStart), indexes, average, polls[k].value, minTime);
  }

  /** A wait that has not ended has seen at most one query per slot up to the last leader slot, and
      ten errors. */
  lemma LeaderWaitEnds(
      slots: seq<Option<uint64>>, epochStart: uint64, indexes: seq<uint64>, average: int64, polls: seq<Poll>, minTime: int64, first: int)
    requires Advancing(slots, first) && FromSchedule(slots, epochStart, indexes, average, polls)
    requires NoneClears(polls, |polls|, minTime) && Errors(polls, |polls|) <= 10
    ensures |polls| <= SlotsUpToLast(epochStart, indexes, first) + 10
  {
    AnswersMatch(slots, epochStart, indexes, average, polls);
    hide FromSchedule, Clears, Advancing, Errors, SlotsUpToLast;
    var n := LastAnswer(polls);
    if n > 0 {
      SlotsSpread(slots, polls, first, n - 1);
      AnswerBounds(slots, epochStart, indexes, average, polls, minTime, n - 1);
      ErrorsSkipAnswer(polls, n);
      SlotsCount(epochStart, indexes, first, slots[n - 1].value);
    }
  }

  lemma ErrorsSkipAnswer(polls: seq<Poll>, n: nat)
    requires 0 < n <= |polls| && polls[n - 1].Some?
    ensures Errors(polls, n) == Errors(polls, n - 1)
  {
  }

  lemma SlotsCount(epochStart: uint64, indexes: seq<uint64>, first: int, slot: uint64)
    requires |indexes| > 0 && slot <= epochStart + indexes[|indexes| - 1]
    ensures slot - first + 1 <= SlotsUpToLast(epochStart, indexes, first)
  {
  }

  lemma AnswersMatch(
      slots: seq<Option<uint64>>, epochStart: uint64, indexes: seq<uint64>, average: int64, polls: seq<Poll>)
    requires FromSchedule(slots, epochStart, indexes, average, polls)
    ensures |polls| == |slots| && forall k :: 0 <= k < |slots| ==> slots[k].Some? == polls[k].Some?
  {
    hide IsNextSlot, Fits, EpochInfo.Sane;
  }

  /** One past the last query that was answered; only errors follow. */
  lemma {:induction false} LastAnswer(polls: seq<Poll>) returns (n: nat)
    ensures n <= |polls| && (n > 0 ==> polls[n - 1].Some?)
    ensures Errors(polls, |polls|) == Errors(polls, n) + |polls| - n
  {
    n := |polls|;
    while n > 0 && polls[n - 1].None?
      invariant n <= |polls| && Errors(polls, |polls|) == Errors(polls, n) + |polls| - n
    {
      n := n - 1;
    }
    if n == 0 {
      assert Errors(polls, 0) == 0;
    }
  }

  /** What the enabled wait guarantees when it ends well: from the slot it last observed, every
      leader slot that is left is at least the minimum away. */
  lemma LeaderWindowKept(e: EpochInfo, indexes: seq<uint64>, average: int64, r: NextSlot, minTime: int64)
    requires e.Sane(indexes) && Fits(e, indexes, average) && e.absoluteSlot > 0
    requires IsNextSlot(e, indexes, average, r)
    ensures Clears(Some(r), minTime) <==>
              forall slot :: StillLeads(e, indexes, slot) ==> (slot - e.absoluteSlot) * average >= minTime
  {
    TimeIsToNearest(e, indexes, average, r);
  }

  /** What one query of the loop gets back: the epoch info and the leader schedule. */
  datatype Answer = Answer(info: Option<EpochInfo>, schedule: Option<map<string, seq<uint64>>>) {
    predicate Answered() {
      info.Some? && schedule.Some?
    }

    function Indexes(pubkey: string): seq<uint64>
      requires Answered()
    {
      if pubkey in schedule.value then schedule.value[pubkey] else []
    }
  }

  /** Slot 0 is past and nothing wraps. */
  ghost predicate Regular(a: Answer, pubkey: string, average: int64)
    requires a.Answered()
  {
    a.info.value.absoluteSlot > 0 && a.info.value.Sane(a.Indexes(pubkey)) && Fits(a.info.value, a.Indexes(pubkey), average)
  }

  /** Every slot the node still leads is at least the minimum away. */
  ghost predicate GapAhead(a: Answer, pubkey: string, average: int64, minTime: int64)
    requires a.Answered()
  {
    var e := a.info.value;
    forall slot :: StillLeads(e, a.Indexes(pubkey), slot) ==> (slot - e.absoluteSlot) * average >= minTime
  }

  /** One query and what it says about the gap. */
  method Query(a: Answer, pubkey: string, average: int64, ghost minTime: int64) returns (p: Poll)
    ensures p.Some? <==> a.Answered()
    ensures p.Some? && Regular(a, pubkey, average) ==> (Clears(p, minTime) <==> GapAhead(a, pubkey, average, minTime))
  {
    p := TimeToNextLeaderSlot(a.info, a.schedule, pubkey, average);
    hide Fits;
    if a.Answered() && a.info.value.absoluteSlot > 0 && a.info.value.Sane(a.Indexes(pubkey)) {
      if pubkey in a.schedule.value && Regular(a, pubkey, average) {
        LeaderWindowKept(a.info.value, a.Indexes(pubkey), average, p.value, minTime);
      }
    }
  }

  /** The wait over its own queries: when it is enabled and lets the failover go on, the last query was
      answered and every leader slot that was left is at least the minimum away; it lets it go on at the
      first such answer, and gives up at the eleventh failed query. */
  method WaitForGap(enabled: bool, answers: seq<Answer>, pubkey: string, average: int64, minTime: int64)
      returns (outcome: WaitOutcome, used: nat)
    ensures used <= |answers| && (!enabled ==> outcome.Passed?)
    ensures enabled && outcome.Passed? ==>
              && used > 0 && answers[used - 1].Answered()
              && (Regular(answers[used - 1], pubkey, average) ==> GapAhead(answers[used - 1], pubkey, average, minTime))
    ensures enabled ==>
              forall k :: 0 <= k < (if outcome.Passed? then used - 1 else used)
                          && answers[k].Answered() && Regular(answers[k], pubkey, average) ==>
                !GapAhead(answers[k], pubkey, average, minTime)
    ensures enabled && !outcome.Passed? ==> (outcome.Aborted? <==> used > 0 && Failed(answers, used) == 11)
  {
    hide Regular, GapAhead;
    var polls: seq<Poll> := [];
    for i := 0 to |answers|
      invariant |polls| == i
      invariant forall k :: 0 <= k < i ==> (polls[k].Some? <==> answers[k].Answered())
      invariant forall k :: 0 <= k < i && answers[k].Answered() && Regular(answers[k], pubkey, average) ==>
                  (Clears(polls[k], minTime) <==> GapAhead(answers[k], pubkey, average, minTime))
    {
      var p := Query(answers[i], pubkey, average, minTime);
      polls := polls + [p];
    }
    outcome, used := WaitMinTimeToLeaderSlot(enabled, polls, minTime);
    FailedAreErrors(answers, polls, used);
  }

  /** The queries among the first `n` that failed. */
  function Failed(answers: seq<Answer>, n: nat): nat
    requires n <= |answers|
  {
    if n == 0 then 0 else Failed(answers, n - 1) + if answers[n - 1].Answered() then 0 else 1
  }

  lemma {:induction false} FailedAreErrors(answers: seq<Answer>, polls: seq<Poll>, n: nat)
    requires |polls| == |answers| && n <= |polls|
    requires forall k :: 0 <= k < |polls| ==> (polls[k].Some? <==> answers[k].Answered())
    ensures Failed(answers, n) == Errors(polls, n)
  {
    if n > 0 {
      FailedAreErrors(answers, polls, n - 1);
    }
  }

  // ----- The wait for a slot to begin

  /** waitUntilStartOfNextSlot: `None` when the first query fails, or the slot has not changed yet. */
  method WaitUntilStartOfNextSlot(current: Option<uint64>, polls: seq<Option<uint64>>) returns (slot: Option<uint64>)
    ensures slot.Some? ==>
              && current.Some? && slot.value > current.value
              && exists k :: 0 <= k < |polls| && polls[k] == slot
                   && forall j :: 0 <= j < k && polls[j].Some? ==> polls[j].value <= current.value
    ensures slot.None? && current.Some? ==> forall k :: 0 <= k < |polls| && polls[k].Some? ==> polls[k].value <= current.value
  {
    if current.None? {
      return None;
    }
    for i := 0 to |polls|
      invariant forall j :: 0 <= j < i && polls[j].Some? ==> polls[j].value <= current.value
    {
      if polls[i].None? {
        continue;
      }
      if polls[i].value > current.value {
        return polls[i];
      }
    }
    slot := None;
  }
}

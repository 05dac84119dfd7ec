/** The stream object both programs hold: the message they update in place, encode and decode. */
module Streams {
  import opened Wrappers
  import opened Words
  import M = Messages
  import V = VoteRank
  import opened Protocol

  type Message = M.Message

  function Frames(f: Option<Frame>): seq<Frame> {
    if f.Some? then [f.value] else []
  }

  /** What became of `written` in one direction of a stream that held `before` when the link was as
      `upBefore` says and holds `after` now: all of it was added while the link is up, and once the link
      has dropped no more than a part of it is left. */
  predicate Carried(before: seq<Frame>, upBefore: bool, after: seq<Frame>, upAfter: bool, written: seq<Frame>) {
    if upAfter then upBefore && after == before + written
    else after <= before + (if upBefore then written else [])
  }

  lemma CarriedConcat(
      before: seq<Frame>, up: bool, mid: seq<Frame>, up': bool, after: seq<Frame>, up'': bool, w: seq<Frame>, w': seq<Frame>)
    requires Carried(before, up, mid, up', w) && Carried(mid, up', after, up'', w')
    ensures Carried(before, up, after, up'', w + w')
  {
  }

  lemma NothingCarried(before: seq<Frame>, up: bool)
    ensures Carried(before, up, before, up, [])
  {
  }

  class Stream {
    var message: Message
    /** What has been put on the wire in this direction. */
    var written: seq<Frame>

    constructor ()
      ensures message == M.NEW_MESSAGE && written == []
    {
      message := M.NEW_MESSAGE;
      written := [];
    }

    /** One write, as the transport reports it. */
    method Write(frame: Frame, o: SendOutcome) returns (ok: bool)
      modifies this`written
      ensures ok == o.Sent?
      ensures written == old(written) + Frames(if o.Sent? || o.delivered then Some(frame) else None)
    {
      if o.Sent? || o.delivered {
        written := written + [frame];
      }
      ok := o.Sent?;
    }

    method Encode(o: SendOutcome) returns (ok: bool)
      modifies this`written
      ensures ok == o.Sent?
      ensures written == old(written) + Frames(if o.Sent? || o.delivered then Some(Gob(M.Encode(message))) else None)
    {
      ok := Write(Gob(M.Encode(message)), o);
    }

    /** Decoding merges into the message the stream already holds. */
    method Decode(frame: Option<Frame>) returns (ok: bool)
      modifies this`message
      ensures ok <==> frame.Some? && frame.value.Gob?
      ensures message == if ok then M.Decode(old(message), frame.value.message) else old(message)
    {
      if frame.None? || !frame.value.Gob? {
        return false;
      }
      message := M.Decode(message, frame.value.message);
      ok := true;
    }

    // ----- Setters

    method SetActiveNodeInfo(info: M.NodeInfo)
      modifies this`message
      ensures message == old(message).(activeNodeInfo := info)
    {
      message := message.(activeNodeInfo := info);
    }

    method SetActiveRollbackEnabled(enabled: bool)
      modifies this`message
      ensures message == old(message).(activeRollbackEnabled := enabled)
    {
      message := message.(activeRollbackEnabled := enabled);
    }

    method SetIsDryRunFailover(dryRun: bool)
      modifies this`message
      ensures message == old(message).(isDryRunFailover := dryRun)
    {
      message := message.(isDryRunFailover := dryRun);
    }

    method SetSkipTowerSync(skip: bool)
      modifies this`message
      ensures message == old(message).(skipTowerSync := skip)
    {
      message := message.(skipTowerSync := skip);
    }

    method SetPassiveNodeInfo(info: M.NodeInfo)
      modifies this`message
      ensures message == old(message).(passiveNodeInfo := info)
    {
      message := message.(passiveNodeInfo := info);
    }

    method SetErrorMessage(text: string)
      modifies this`message
      ensures message == M.WithError(old(message), text)
    {
      message := message.(errorMessage := text);
    }

    method SetCanProceed()
      modifies this`message
      ensures message == M.WithGoAhead(old(message))
    {
      message := message.(canProceed := true);
    }

    method SetFailoverStartSlot(slot: uint64)
      modifies this`message
      ensures message == M.WithStartSlot(old(message), slot)
    {
      message := message.(failoverStartSlot := slot);
    }

    method SetFailoverEndSlot(slot: uint64)
      modifies this`message
      ensures message == M.WithEndSlot(old(message), slot)
    {
      message := message.(failoverEndSlot := slot);
    }

    method SetActiveNodeSetIdentityStartTime(now: Instant)
      modifies this`message
      ensures message == M.WithActiveSwitchStart(old(message), now)
    {
      message := message.(activeNodeSetIdentityStartTime := now);
    }

    method SetActiveNodeSetIdentityEndTime(now: Instant)
      modifies this`message
      ensures message == M.WithActiveSwitchEnd(old(message), now)
    {
      message := message.(activeNodeSetIdentityEndTime := now);
    }

    method SetActiveNodeSyncTowerFileStartTime(now: Instant)
      modifies this`message
      ensures message == M.WithTowerStart(old(message), now)
    {
      message := message.(activeNodeSyncTowerFileStartTime := now);
    }

    /** SetTowerFileBytes on the active node's info, and the end time. */
    method SetTower(tower: seq<byte>, hash: seq<byte> -> string, now: Instant)
      modifies this`message
      ensures message == M.WithTower(old(message), tower, hash(tower), now)
    {
      var info := message.activeNodeInfo.(towerFileBytes := tower);
      info := info.(towerFileHash := hash(info.towerFileBytes));
      message := message.(activeNodeInfo := info);
      message := message.(activeNodeSyncTowerFileEndTime := now);
    }

    method SetPassiveNodeSyncTowerFileEndTime(now: Instant)
      modifies this`message
      ensures message == M.WithTowerWritten(old(message), now)
    {
      message := message.(passiveNodeSyncTowerFileEndTime := now);
    }

    method SetPassiveNodeSetIdentityStartTime(now: Instant)
      modifies this`message
      ensures message == M.WithPassiveSwitchStart(old(message), now)
    {
      message := message.(passiveNodeSetIdentityStartTime := now);
    }

    method SetPassiveNodeSetIdentityEndTime(now: Instant)
      modifies this`message
      ensures message == M.WithPassiveSwitchEnd(old(message), now)
    {
      message := message.(passiveNodeSetIdentityEndTime := now);
    }

    method SetRollbackRequired()
      modifies this`message
      ensures message == M.WithRollbackRequired(old(message))
    {
      message := message.(rollbackRequired := true);
    }

    method SetIsSuccessfullyCompleted()
      modifies this`message
      ensures message == M.WithCompleted(old(message))
    {
      message := message.(isSuccessfullyCompleted := true);
    }

    // ----- Vote credits

    /** The samples held for the active identity. */
    function Samples(): seq<M.CreditsSample>
      reads this`message
    {
      var pubkey := message.activeNodeInfo.ActivePubKey();
      if pubkey in message.creditSamples then message.creditSamples[pubkey] else []
    }

    /** A sample goes to the end of the active identity's list; a failed one changes nothing. */
    method AddSample(sample: Option<M.CreditsSample>) returns (ok: bool)
      modifies this`message
      ensures ok == sample.Some?
      ensures message == if ok then M.WithSample(old(message), old(message).activeNodeInfo.ActivePubKey(), sample.value) else old(message)
      ensures Samples() == old(Samples()) + if ok then [sample.value] else []
    {
      if sample.None? {
        return false;
      }
      var pubkey := message.activeNodeInfo.ActivePubKey();
      if pubkey !in message.creditSamples {
        message := message.(creditSamples := message.creditSamples[pubkey := []]);
      }
      message := message.(creditSamples := message.creditSamples[pubkey := message.creditSamples[pubkey] + [sample.value]]);
      UpdatedTwice(old(message).creditSamples, pubkey, [], [sample.value]);
      ok := true;
    }

    /** PullActiveIdentityVoteCreditsSample: the rank as it was queried, and the credits earned since the
        epoch before. */
    method PullSample(answer: Option<CreditsAnswer>) returns (ok: bool)
      modifies this`message
      ensures ok == answer.Some?
      ensures var key := old(message).activeNodeInfo.ActivePubKey();
              message == if ok then M.WithSample(old(message), key, SampleOf(answer.value)) else old(message)
      ensures Samples() == old(Samples()) + if ok then [SampleOf(answer.value)] else []
      ensures ok ==>
                var sample, epochs := Samples()[|old(Samples())|], answer.value.account.epochCredits;
                var n := |epochs|;
                && sample.voteRank == answer.value.rank && sample.timestamp == answer.value.now
                && sample.credits ==
                     (if n == 0 then 0 else WrapI64(epochs[n - 1].credits - if n > 1 then epochs[n - 2].credits else 0))
    {
      if answer.None? {
        return false;
      }
      var account := answer.value.account;
      var credits: int64 := 0;
      if |account.epochCredits| > 0 {
        var lastIndex := |account.epochCredits| - 1;
        var previous: int64 := 0;
        if lastIndex > 0 {
          previous := account.epochCredits[lastIndex - 1].credits;
        }
        credits := WrapI64(account.epochCredits[lastIndex].credits - previous);
      }
      ok := AddSample(Some(M.CreditsSample(answer.value.rank, credits, answer.value.now)));
    }

    /** PullActiveIdentityVoteCreditsSamples: of several samples the failed ones are skipped, a single
        failed one is an error. */
    method PullSamples(answers: seq<Option<CreditsAnswer>>) returns (ok: bool)
      modifies this`message
      ensures Samples() == old(Samples()) + Answered(answers)
      ensures ok <==> |answers| == 1 ==> answers[0].Some?
    {
      hide M.WithSample, Samples, SampleOf;
      if |answers| == 0 {
        return true;
      }
      if |answers| == 1 {
        ok := PullSample(answers[0]);
        assert answers[..0] == [];
        return;
      }
      for i := 0 to |answers|
        invariant Samples() == old(Samples()) + Answered(answers[..i])
      {
        var pulled := PullSample(answers[i]);
        assert answers[..i + 1][..i] == answers[..i];
      }
      assert answers[..|answers|] == answers;
      ok := true;
    }

    /** GetVoteCreditRankDifference: how many ranks the identity has gained between its first and its
        last sample. */
    method RankGained() returns (r: Option<(int, int, int)>)
      ensures r.None? <==> |Samples()| < 2
      ensures r.Some? ==>
                && r.value.1 == Samples()[0].voteRank && r.value.2 == Samples()[|Samples()| - 1].voteRank
                && r.value.2 + r.value.0 == r.value.1
    {
      var samples := Samples();
      if |samples| < 2 {
        return None;
      }
      var first, last := samples[0].voteRank, samples[|samples| - 1].voteRank;
      var difference := last - first;
      return Some((-1 * difference, first, last));
    }

    /** The monitoring after the switch, and what it reports: when the message holds the sample from before
        the failover alone, the rank of that one against the rank of the last one answered, and nothing
        exactly when none was. */
    method MonitorCredits(answers: seq<Option<CreditsAnswer>>) returns (r: Option<(int, int, int)>)
      modifies this`message
      ensures Samples() == old(Samples()) + Answered(answers)
      ensures |old(Samples())| == 1 ==>
                var pulled := Answered(answers);
                && (r.None? <==> forall k :: 0 <= k < |answers| ==> answers[k].None?)
                && (r.Some? ==>
                      && |pulled| > 0 && r.value.1 == old(Samples()[0].voteRank) && r.value.2 == pulled[|pulled| - 1].voteRank
                      && r.value.2 + r.value.0 == r.value.1)
    {
      hide Samples;
      var ok := PullSamples(answers);
      NoneAnswered(answers);
      r := RankGained();
    }
  }

  /** The ranked vote account of the active identity, and when the answer came. */
  datatype CreditsAnswer = CreditsAnswer(account: V.VoteAccount, rank: int, now: Instant)

  function SampleOf(a: CreditsAnswer): M.CreditsSample {
    M.CreditsSample(a.rank, V.SampleCredits(a.account), a.now)
  }

  function Answered(answers: seq<Option<CreditsAnswer>>): seq<M.CreditsSample> {
    if answers == [] then []
    else
      var last := answers[|answers| - 1];
      Answered(answers[..|answers| - 1]) + if last.Some? then [SampleOf(last.value)] else []
  }

  lemma {:induction false} NoneAnswered(answers: seq<Option<CreditsAnswer>>)
    ensures Answered(answers) == [] <==> forall k :: 0 <= k < |answers| ==> answers[k].None?
  {
    if answers != [] {
      var rest := answers[..|answers| - 1];
      NoneAnswered(rest);
      if forall k :: 0 <= k < |rest| ==> rest[k].None? {
        assert forall k :: 0 <= k < |rest| ==> answers[k] == rest[k];
      }
      if forall k :: 0 <= k < |answers| ==> answers[k].None? {
        assert forall k :: 0 <= k < |rest| ==> rest[k] == answers[k];
      }
    }
  }

  lemma UpdatedTwice<K, V>(m: map<K, V>, k: K, v: V, w: V)
    ensures m[k := v][k := w] == m[k := w]
  {
  }
}

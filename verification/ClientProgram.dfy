/**
 The active node's program as the source writes it: one object whose fields are updated step by
 step, with an early return at every failure. Each method is proved to follow `ClientStep`; the other
 direction, that what the client does in a run of both nodes is this program, is in `ClientRuns`.
 */
module ClientProgram {
  import opened Wrappers
  import opened Words
  import M = Messages
  import opened Protocol
  import opened Streams
  import Flow

  /** Feeding actions to the transition function: the state reached and the frames sent. An action
      that is not enabled is passed over. */
  function Feed(cfg: Config, c: Client, actions: seq<ClientAction>): (Client, seq<Frame>) {
    if actions == [] then (c, [])
    else
      var before := Feed(cfg, c, actions[..|actions| - 1]);
      match ClientStep(cfg, before.0, actions[|actions| - 1])
      case ClientBlocked => before
      case ClientMoved(n, sent, _) => (n, before.1 + Frames(sent))
  }

  lemma FeedOne(cfg: Config, c: Client, actions: seq<ClientAction>, a: ClientAction)
    ensures var before := Feed(cfg, c, actions);
            Feed(cfg, c, actions + [a]) ==
              match ClientStep(cfg, before.0, a)
              case ClientBlocked => before
              case ClientMoved(n, sent, _) => (n, before.1 + Frames(sent))
  {
    hide ClientStep;
    assert (actions + [a])[..|actions|] == actions;
  }

  lemma {:induction false} EndedIgnores(cfg: Config, c: Client, actions: seq<ClientAction>, more: seq<ClientAction>)
    requires Feed(cfg, c, actions).0.pc.CDone?
    ensures Feed(cfg, c, actions + more) == Feed(cfg, c, actions)
    decreases |more|
  {
    hide Feed, ClientStep;
    if more == [] {
      assert actions + more == actions;
    } else {
      var most := more[..|more| - 1];
      EndedIgnores(cfg, c, actions, most);
      assert actions + more == (actions + most) + [more[|more| - 1]];
      FeedOne(cfg, c, actions + most, more[|more| - 1]);
      Flow.ClientDoneEdge(cfg, Feed(cfg, c, actions).0, more[|more| - 1]);
    }
  }

  lemma StartTimeKeepsMode(m: M.Message, from: Instant)
    ensures M.WithActiveSwitchStart(m, from).isDryRunFailover == m.isDryRunFailover
  {
  }

  /** The step behind `SwitchToPassive`, field by field. */
  lemma SwitchFields(cfg: Config, c: Client, o: CommandOutcome, from: Instant, to: Instant)
    requires c.pc.CSetPassive?
    ensures var r := ClientStep(cfg, c, ClientCommand(o, from, to));
            var began, ok := M.WithActiveSwitchStart(c.msg, from), c.msg.isDryRunFailover || o.Succeeded?;
            && r.ClientMoved? && r.sent.None?
            && Same(r.next.msg, if ok then M.WithActiveSwitchEnd(began, to) else began)
            && Same(r.next.identities, c.identities) && Same(r.next.tower, c.tower) && r.next.skip == c.skip
            && r.next.active == (c.active && (c.msg.isDryRunFailover || (o.Failed? && !o.tookEffect)))
            && r.next.wentPassive == (ok || c.wentPassive)
            && if ok then r.next.pc == (if c.skip then CAwaitOutcome else CReadTower) else r.next.pc.CDone?
  {
    hide M.WithActiveSwitchStart, M.WithActiveSwitchEnd;
  }

  /** The step behind `ReadSignal`. */
  lemma SignalFields(cfg: Config, c: Client, frame: Option<Frame>)
    requires c.pc.CAwaitSignal?
    ensures var r := ClientStep(cfg, c, ClientReceive(frame));
            var m := if frame.Some? && frame.value.Gob? then M.Decode(c.msg, frame.value.message) else c.msg;
            var ok := frame.Some? && frame.value.Gob? && m.passiveNodeInfo.failoverVersion == cfg.clientVersion && m.canProceed;
            && r.ClientMoved? && r.sent.None? && Same(r.next.msg, m)
            && Same(r.next.identities, if frame.Some? && frame.value.Gob? then m.activeNodeInfo.identities else c.identities)
            && r.next.active == c.active && Same(r.next.tower, c.tower) && r.next.wentPassive == c.wentPassive
            && r.next.notes.hooksRun == c.notes.hooksRun
            && r.next.skip == (if ok then m.skipTowerSync else c.skip)
            && if ok then r.next.pc.CLeaderWait? else r.next.pc.CDone?
  {
    hide M.Decode;
    if frame.Some? && frame.value.Gob? {
      DecodedSignalFields(cfg, c, frame.value.message);
    }
  }

  lemma DecodedSignalFields(cfg: Config, c: Client, m: M.Message)
    ensures var r, msg := ClientAfterSignal(cfg, ClientDecodes(c, m)), M.Decode(c.msg, m);
            var ok := msg.passiveNodeInfo.failoverVersion == cfg.clientVersion && msg.canProceed;
            && r.ClientMoved? && r.sent.None? && Same(r.next.msg, msg) && Same(r.next.identities, msg.activeNodeInfo.identities)
            && r.next.active == c.active && Same(r.next.tower, c.tower) && r.next.wentPassive == c.wentPassive
            && r.next.notes.hooksRun == c.notes.hooksRun
            && r.next.skip == (if ok then msg.skipTowerSync else c.skip)
            && if ok then r.next.pc.CLeaderWait? else r.next.pc.CDone?
  {
    hide M.Decode;
  }

  lemma AwaitingIgnores(cfg: Config, c: Client, a: ClientAction)
    requires c.pc.CAwaitOutcome? && !a.ClientReceive?
    ensures ClientStep(cfg, c, a).ClientBlocked?
  {
  }

  /** Everything the environment will answer in one run: up to the wait for a gap between leader
      slots, to the hooks, and from the next slot on. */
  datatype OpeningEnv = OpeningEnv(
    version: SendOutcome, request: SendOutcome, versionReply: Option<Frame>, signal: Option<Frame>, leaderWait: bool)

  datatype SwitchEnv = SwitchEnv(
    observed: uint64, nextSlot: Option<uint64>,
    command: CommandOutcome, commandStart: Instant, commandEnd: Instant,
    towerRead: bool, towerStart: Instant, towerEnd: Instant, towerSent: SendOutcome,
    verdict: Option<Frame>, rollback: CommandOutcome)

  datatype ClientEnv = ClientEnv(opening: OpeningEnv, hooks: seq<bool>, switch: SwitchEnv)

  class ActiveNode {
    const cfg: Config
    const stream: Stream
    var identities: Option<M.Identities>
    var active: bool
    var tower: seq<byte>
    var skipTowerSync: bool
    var wentPassive: bool

    ghost const start: Client
    ghost var at: Client
    ghost var trace: seq<ClientAction>
    ghost var sent: seq<Frame>

    /** The fields are those of the state reached by replaying what happened so far. */
    ghost predicate Tracks()
      reads this, stream
    {
      && Feed(cfg, start, trace) == (at, sent)
      && Same(at.msg, stream.message) && stream.written == sent
      && Same(at.identities, identities) && at.active == active && Same(at.tower, tower)
      && at.skip == skipTowerSync && at.wentPassive == wentPassive
    }

    constructor (cfg: Config, tower: seq<byte>)
      ensures Tracks() && fresh(stream) && at == start && this.cfg == cfg && trace == []
      ensures start == Client(CSendVersion, M.NEW_MESSAGE, cfg.clientInfo.identities, true, tower, false, false, NO_NOTES)
    {
      this.cfg := cfg;
      stream := new Stream();
      identities, active, this.tower := cfg.clientInfo.identities, true, tower;
      skipTowerSync, wentPassive := false, false;
      start := Client(CSendVersion, M.NEW_MESSAGE, cfg.clientInfo.identities, true, tower, false, false, NO_NOTES);
      at := Client(CSendVersion, M.NEW_MESSAGE, cfg.clientInfo.identities, true, tower, false, false, NO_NOTES);
      trace, sent := [], [];
    }

    /** Advances the ghost state along the transition function. */
    ghost method Take(a: ClientAction)
      requires Feed(cfg, start, trace) == (at, sent) && ClientStep(cfg, at, a).ClientMoved?
      modifies this`at, this`trace, this`sent
      ensures Feed(cfg, start, trace) == (at, sent) && trace == old(trace) + [a]
      ensures var r := ClientStep(cfg, old(at), a); Same(at, r.next) && sent == old(sent) + Frames(r.sent)
    {
      hide ClientStep;
      FeedOne(cfg, start, trace, a);
      at, trace, sent := ClientStep(cfg, at, a).next, trace + [a], sent + Frames(ClientStep(cfg, at, a).sent);
    }

    /** An action that this run has no use for. */
    ghost method PassOver(a: ClientAction)
      requires Tracks() && ClientStep(cfg, at, a).ClientBlocked?
      modifies this`trace
      ensures Tracks() && trace == old(trace) + [a]
    {
      hide ClientStep;
      FeedOne(cfg, start, trace, a);
      trace := trace + [a];
    }

    /** Whatever else the environment had to answer, the program has ended. */
    ghost method Finish(before: seq<ClientAction>, script: seq<ClientAction>)
      requires Tracks() && at.pc.CDone?
      requires |before| <= |trace| <= |before| + |script| && trace == before + script[..|trace| - |before|]
      modifies this`trace
      ensures Tracks() && trace == before + script
    {
      hide Feed;
      var done := |trace| - |before|;
      EndedIgnores(cfg, start, trace, script[done..]);
      assert script == script[..done] + script[done..];
      trace := trace + script[done..];
    }

    method SendVersion(o: SendOutcome) returns (ok: bool)
      requires Tracks() && at.pc.CSendVersion?
      modifies `at, `trace, `sent, stream
      ensures trace == old(trace) + [ClientSend(o)] && at.notes.hooksRun == old(at.notes.hooksRun)
      ensures Tracks() && at.pc == if ok then CSendRequest else CDone(NotStarted)
    {
      hide Feed, M.Encode, M.Decode;
      Take(ClientSend(o));
      ok := stream.Write(Version(cfg.clientWire), o);
    }

    method SendRequest(o: SendOutcome) returns (ok: bool)
      requires Tracks() && at.pc.CSendRequest?
      modifies `at, `trace, `sent, stream
      ensures trace == old(trace) + [ClientSend(o)] && at.notes.hooksRun == old(at.notes.hooksRun)
      ensures Tracks() && at.pc == if ok then CAwaitVersion else CDone(NotStarted)
    {
      hide Feed, M.Encode, M.Decode;
      Take(ClientSend(o));
      stream.SetActiveNodeInfo(cfg.clientInfo.(identities := identities));
      stream.SetActiveRollbackEnabled(cfg.clientRollback);
      ok := stream.Encode(o);
    }

    method ReadVersion(frame: Option<Frame>) returns (ok: bool)
      requires Tracks() && at.pc.CAwaitVersion?
      modifies `at, `trace, `sent, stream
      ensures trace == old(trace) + [ClientReceive(frame)] && at.notes.hooksRun == old(at.notes.hooksRun)
      ensures Tracks() && if ok then at.pc.CAwaitSignal? else at.pc.CDone?
    {
      hide Feed, M.Encode, M.Decode;
      Take(ClientReceive(frame));
      ok := frame.Some? && frame.value.Version? && frame.value.version == cfg.clientWire;
    }

    method ReadSignal(frame: Option<Frame>) returns (ok: bool)
      requires Tracks() && at.pc.CAwaitSignal?
      modifies `at, `trace, `sent, `identities, `skipTowerSync, stream
      ensures trace == old(trace) + [ClientReceive(frame)] && at.notes.hooksRun == old(at.notes.hooksRun)
      ensures Tracks() && if ok then at.pc.CLeaderWait? else at.pc.CDone?
    {
      hide Feed, ClientStep, M.Decode;
      SignalFields(cfg, at, frame);
      Take(ClientReceive(frame));
      ok := stream.Decode(frame);
      if !ok {
        return false;
      }
      identities := stream.message.activeNodeInfo.identities;
      if stream.message.passiveNodeInfo.failoverVersion != cfg.clientVersion {
        return false;
      }
      if !stream.message.canProceed {
        return false;
      }
      skipTowerSync := stream.message.skipTowerSync;
    }

    /** waitMinTimeToLeaderSlot. */
    method WaitForLeaderGap(passed: bool) returns (ok: bool)
      requires Tracks() && at.pc.CLeaderWait?
      modifies `at, `trace, `sent, stream
      ensures trace == old(trace) + [ClientLeaderWait(passed)] && at.notes.hooksRun == old(at.notes.hooksRun)
      ensures Tracks() && ok == passed && if ok then at.pc.CPreHooks? else at.pc.CDone?
    {
      hide Feed, M.Encode, M.Decode;
      Take(ClientLeaderWait(passed));
      ok := passed;
    }

    method RunHook(i: nat, result: bool) returns (goesOn: bool)
      requires Tracks() && at.pc.CPreHooks? && |at.notes.hooksRun| == i < |cfg.preWhenActive|
      modifies `at, `trace, `sent
      ensures trace == old(trace) + [ClientHook(result)] && |at.notes.hooksRun| == i + 1
      ensures Tracks() && if goesOn then at.pc.CPreHooks? else at.pc.CDone?
    {
      hide Feed, M.Encode, M.Decode;
      Take(ClientHook(result));
      goesOn := result || !cfg.preWhenActive[i].mustSucceed;
    }

    method EndHooks()
      requires Tracks() && at.pc.CPreHooks? && |at.notes.hooksRun| == |cfg.preWhenActive|
      modifies `at, `trace, `sent
      ensures trace == old(trace) + [ClientHooksOver] && Tracks() && at.pc.CNextSlot?
    {
      hide Feed, M.Encode, M.Decode;
      Take(ClientHooksOver);
    }

    /** RunPreWhenActive: the hooks in order, up to the first failure of one that must succeed. */
    method RunPreHooks(env: ClientEnv) returns (ok: bool)
      requires Tracks() && at.pc.CPreHooks? && at.notes.hooksRun == [] && |env.hooks| == |cfg.preWhenActive|
      modifies `at, `trace, `sent
      ensures trace == old(trace) + HookScript(env)
      ensures Tracks() && if ok then at.pc.CNextSlot? else at.pc.CDone?
    {
      hide Feed, Tracks, ClientStep;
      for i := 0 to |cfg.preWhenActive|
        invariant Tracks() && at.pc.CPreHooks? && |at.notes.hooksRun| == i
        invariant trace == old(trace) + HookScript(env)[..i]
      {
        ok := RunHook(i, env.hooks[i]);
        if !ok {
          Finish(old(trace), HookScript(env));
          return;
        }
      }
      EndHooks();
      ok := true;
    }

    /** waitUntilStartOfNextSlot, and recording the slot. */
    method AwaitNextSlot(observed: uint64, slot: Option<uint64>) returns (ok: bool)
      requires Tracks() && at.pc.CNextSlot? && (slot.Some? ==> slot.value > observed)
      modifies `at, `trace, `sent, stream
      ensures trace == old(trace) + [ClientNextSlot(observed, slot)]
      ensures Tracks() && if ok then at.pc.CSetPassive? else at.pc.CDone?
    {
      hide Feed, M.Encode, M.Decode;
      Take(ClientNextSlot(observed, slot));
      if slot.None? {
        return false;
      }
      stream.SetFailoverStartSlot(slot.value);
      ok := true;
    }

    /** RunCommand does nothing and reports success in a dry run. */
    method RunSetPassive(o: CommandOutcome) returns (ok: bool)
      modifies this`active
      ensures ok == (stream.message.isDryRunFailover || o.Succeeded?)
      ensures active == (old(active) && (stream.message.isDryRunFailover || (o.Failed? && !o.tookEffect)))
    {
      if stream.message.isDryRunFailover {
        return true;
      }
      if o.Succeeded? || o.tookEffect {
        active := false;
      }
      ok := o.Succeeded?;
    }

    method SwitchToPassive(o: CommandOutcome, from: Instant, to: Instant) returns (ok: bool)
      requires Tracks() && at.pc.CSetPassive?
      modifies `at, `trace, `sent, `active, `wentPassive, stream
      ensures trace == old(trace) + [ClientCommand(o, from, to)]
      ensures Tracks()
      ensures if ok then wentPassive && at.pc == (if skipTowerSync then CAwaitOutcome else CReadTower) else at.pc.CDone?
    {
      hide Feed, ClientStep, M.WithActiveSwitchStart, M.WithActiveSwitchEnd;
      StartTimeKeepsMode(at.msg, from);
      SwitchFields(cfg, at, o, from, to);
      Take(ClientCommand(o, from, to));
      stream.SetActiveNodeSetIdentityStartTime(from);
      ok := RunSetPassive(o);
      if !ok {
        return;
      }
      stream.SetActiveNodeSetIdentityEndTime(to);
      wentPassive := true;
    }

    /** SetTowerFileBytes: the file as it is now, and its hash. */
    method ReadTower(readable: bool, from: Instant, to: Instant) returns (ok: bool)
      requires Tracks() && at.pc.CReadTower?
      modifies `at, `trace, `sent, stream
      ensures trace == old(trace) + [ClientReadTower(readable, from, to)]
      ensures Tracks() && if ok then at.pc.CSendTower? else at.pc.CDone?
    {
      hide Feed, M.Encode, M.Decode;
      Take(ClientReadTower(readable, from, to));
      stream.SetActiveNodeSyncTowerFileStartTime(from);
      if !readable {
        return false;
      }
      stream.SetTower(tower, cfg.towerHash, to);
      ok := true;
    }

    method SendTower(o: SendOutcome) returns (ok: bool)
      requires Tracks() && at.pc.CSendTower?
      modifies `at, `trace, `sent, stream
      ensures trace == old(trace) + [ClientSend(o)]
      ensures Tracks() && if ok then at.pc.CAwaitOutcome? else at.pc.CDone?
    {
      hide Feed, M.Encode, M.Decode;
      Take(ClientSend(o));
      ok := stream.Encode(o);
    }

    /** The server's verdict: what to do with it is decided from the decoded message. */
    method ReadVerdict(frame: Option<Frame>) returns (rollback: bool)
      requires Tracks() && at.pc.CAwaitOutcome?
      modifies `at, `trace, `sent, `identities, stream
      ensures trace == old(trace) + [ClientReceive(frame)]
      ensures Tracks() && if rollback then at.pc.CRollback? else at.pc.CDone?
    {
      hide Feed, M.Encode, M.Decode;
      Take(ClientReceive(frame));
      var ok := stream.Decode(frame);
      if !ok {
        return false;
      }
      identities := stream.message.activeNodeInfo.identities;
      rollback := stream.message.rollbackRequired && cfg.clientRollback && wentPassive;
    }

    /** RunRollbackToActive. */
    method RollBack(o: CommandOutcome)
      requires Tracks() && at.pc.CRollback?
      modifies `at, `trace, `sent, `active
      ensures trace == old(trace) + [ClientCommand(o, 1, 1)]
      ensures Tracks() && at.pc.CDone?
    {
      hide Feed, M.Encode, M.Decode;
      Take(ClientCommand(o, 1, 1));
      if cfg.toActiveCmd == "" || stream.message.isDryRunFailover {
        return;
      }
      if o.Succeeded? || o.tookEffect {
        active := true;
      }
    }

    /** From opening the stream to the wait for a gap between leader slots. */
    method Prepare(env: ClientEnv) returns (ok: bool)
      requires Tracks() && at.pc.CSendVersion?
      modifies `at, `trace, `sent, `identities, `skipTowerSync, stream
      ensures trace == old(trace) + OpeningScript(env) && at.notes.hooksRun == old(at.notes.hooksRun)
      ensures Tracks() && if ok then at.pc.CPreHooks? else at.pc.CDone?
    {
      hide Feed, Tracks;
      ok := SendVersion(env.opening.version);
      if !ok { Finish(old(trace), OpeningScript(env)); return; }
      ok := SendRequest(env.opening.request);
      if !ok { Finish(old(trace), OpeningScript(env)); return; }
      ok := ReadVersion(env.opening.versionReply);
      if !ok { Finish(old(trace), OpeningScript(env)); return; }
      ok := ReadSignal(env.opening.signal);
      if !ok { Finish(old(trace), OpeningScript(env)); return; }
      ok := WaitForLeaderGap(env.opening.leaderWait);
    }

    /** The tower message; without tower sync nothing is sent. */
    method HandTowerOver(env: ClientEnv) returns (ok: bool)
      requires Tracks() && at.pc == if skipTowerSync then CAwaitOutcome else CReadTower
      modifies `at, `trace, `sent, stream
      ensures trace == old(trace) + SwitchScript(env)[2..4] || (!ok && trace == old(trace) + SwitchScript(env)[2..3])
      ensures Tracks() && if ok then at.pc.CAwaitOutcome? else at.pc.CDone?
    {
      hide Feed, Tracks, ClientStep;
      ok := true;
      if skipTowerSync {
        AwaitingIgnores(cfg, at, ClientReadTower(env.switch.towerRead, env.switch.towerStart, env.switch.towerEnd));
        PassOver(ClientReadTower(env.switch.towerRead, env.switch.towerStart, env.switch.towerEnd));
        AwaitingIgnores(cfg, at, ClientSend(env.switch.towerSent));
        PassOver(ClientSend(env.switch.towerSent));
      } else {
        ok := ReadTower(env.switch.towerRead, env.switch.towerStart, env.switch.towerEnd);
        if ok {
          ok := SendTower(env.switch.towerSent);
        }
      }
      ghost var script := SwitchScript(env);
      assert script[2..3] == [script[2]] && script[2..4] == [script[2]] + [script[3]];
    }

    /** From the next slot on. */
    method SwitchOver(env: ClientEnv)
      requires Tracks() && at.pc.CNextSlot? && (env.switch.nextSlot.Some? ==> env.switch.nextSlot.value > env.switch.observed)
      modifies this, stream
      ensures trace == old(trace) + SwitchScript(env)
      ensures Tracks() && at.pc.CDone?
    {
      hide Feed, Tracks, ClientStep;
      var ok := AwaitNextSlot(env.switch.observed, env.switch.nextSlot);
      if !ok { Finish(old(trace), SwitchScript(env)); return; }
      ok := SwitchToPassive(env.switch.command, env.switch.commandStart, env.switch.commandEnd);
      if !ok { Finish(old(trace), SwitchScript(env)); return; }
      ok := HandTowerOver(env);
      if !ok { Finish(old(trace), SwitchScript(env)); return; }
      var rollback := ReadVerdict(env.switch.verdict);
      if !rollback { Finish(old(trace), SwitchScript(env)); return; }
      RollBack(env.switch.rollback);
    }

    /** Client.Start. */
    method Start(env: ClientEnv)
      requires Tracks() && at.pc.CSendVersion? && at.notes.hooksRun == [] && trace == []
      requires |env.hooks| == |cfg.preWhenActive| && (env.switch.nextSlot.Some? ==> env.switch.nextSlot.value > env.switch.observed)
      modifies this, stream
      ensures trace == Script(env) && Tracks() && at.pc.CDone?
    {
      hide Feed, ClientStep, Tracks;
      var ok := Prepare(env);
      if !ok {
        Finish([], Script(env));
        return;
      }
      ok := RunPreHooks(env);
      if !ok {
        Finish([], Script(env));
        return;
      }
      SwitchOver(env);
    }
  }

  function OpeningScript(env: ClientEnv): seq<ClientAction> {
    [ClientSend(env.opening.version), ClientSend(env.opening.request), ClientReceive(env.opening.versionReply),
     ClientReceive(env.opening.signal), ClientLeaderWait(env.opening.leaderWait)]
  }

  function HookScript(env: ClientEnv): seq<ClientAction> {
    seq(|env.hooks|, i requires 0 <= i < |env.hooks| => ClientHook(env.hooks[i])) + [ClientHooksOver]
  }

  function SwitchScript(env: ClientEnv): seq<ClientAction> {
    [ClientNextSlot(env.switch.observed, env.switch.nextSlot),
     ClientCommand(env.switch.command, env.switch.commandStart, env.switch.commandEnd),
     ClientReadTower(env.switch.towerRead, env.switch.towerStart, env.switch.towerEnd),
     ClientSend(env.switch.towerSent), ClientReceive(env.switch.verdict), ClientCommand(env.switch.rollback, 1, 1)]
  }

  function Script(env: ClientEnv): seq<ClientAction> {
    OpeningScript(env) + HookScript(env) + SwitchScript(env)
  }
}

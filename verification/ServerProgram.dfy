/**
 The passive node's program as the source writes it, one object updated step by step. Each method is
 proved to follow `ServerStep`; the other direction is in `ServerRuns`.
 */
module ServerProgram {
  import opened Wrappers
  import opened Words
  import M = Messages
  import opened Protocol
  import opened Streams
  import G = Gossip

  /** Feeding actions to the transition function: the state reached and the frames sent. An action
      that is not enabled is passed over. */
  function Feed(cfg: Config, v: Server, actions: seq<ServerAction>): (Server, seq<Frame>) {
    if actions == [] then (v, [])
    else
      var before := Feed(cfg, v, actions[..|actions| - 1]);
      match ServerStep(cfg, before.0, actions[|actions| - 1])
      case ServerBlocked => before
      case ServerMoved(n, sent, _) => (n, before.1 + Frames(sent))
  }

  lemma FeedOne(cfg: Config, v: Server, actions: seq<ServerAction>, a: ServerAction)
    ensures var before := Feed(cfg, v, actions);
            Feed(cfg, v, actions + [a]) ==
              match ServerStep(cfg, before.0, a)
              case ServerBlocked => before
              case ServerMoved(n, sent, _) => (n, before.1 + Frames(sent))
  {
    hide ServerStep;
    assert (actions + [a])[..|actions|] == actions;
  }

  /** The step behind `SwitchToActive`, field by field. */
  lemma SwitchFields(cfg: Config, v: Server, o: CommandOutcome, from: Instant, to: Instant)
    requires v.pc.SSetActive?
    ensures var r := ServerStep(cfg, v, ServerCommand(o, from, to));
            var began, ok := M.WithPassiveSwitchStart(v.msg, from), cfg.dryRun || o.Succeeded?;
            && r.ServerMoved? && r.sent.None?
            && Same(r.next.msg, if ok then M.WithPassiveSwitchEnd(began, to)
                                else if cfg.serverRollback then M.WithRollbackRequired(began) else began)
            && Same(r.next.identities, v.identities) && Same(r.next.tower, v.tower)
            && r.next.active == (v.active || (!cfg.dryRun && (o.Succeeded? || o.tookEffect)))
            && if ok then r.next.pc.SEndSlot? else if cfg.serverRollback then r.next.pc.SSendRollback? else r.next.pc.SDone?
  {
    hide M.WithPassiveSwitchStart, M.WithPassiveSwitchEnd, M.WithRollbackRequired;
  }

  lemma PartByPart(m: M.Message, dryRun: bool, skip: bool, info: M.NodeInfo)
    ensures m.(isDryRunFailover := dryRun).(skipTowerSync := skip).(passiveNodeInfo := info) == M.WithServerPart(m, dryRun, skip, info)
  {
  }

  /** A program point that has no use for an action. */
  predicate Idle(pc: ServerPc, a: ServerAction) {
    pc.SDone? || (pc.SReject? && !a.ServerSend?)
  }

  lemma IdleIsBlocked(cfg: Config, v: Server, a: ServerAction)
    requires Idle(v.pc, a)
    ensures ServerStep(cfg, v, a).ServerBlocked?
  {
  }

  lemma {:induction false} IdleIgnores(cfg: Config, v: Server, actions: seq<ServerAction>, more: seq<ServerAction>)
    requires forall i :: 0 <= i < |more| ==> Idle(Feed(cfg, v, actions).0.pc, more[i])
    ensures Feed(cfg, v, actions + more) == Feed(cfg, v, actions)
    decreases |more|
  {
    hide Feed, ServerStep, Idle;
    if more == [] {
      assert actions + more == actions;
    } else {
      var most := more[..|more| - 1];
      IdleIgnores(cfg, v, actions, most);
      assert actions + more == (actions + most) + [more[|more| - 1]];
      FeedOne(cfg, v, actions + most, more[|more| - 1]);
      IdleIsBlocked(cfg, Feed(cfg, v, actions).0, more[|more| - 1]);
    }
  }

  lemma SwitchingIgnores(cfg: Config, v: Server, a: ServerAction)
    requires v.pc.SSetActive? && !a.ServerCommand?
    ensures ServerStep(cfg, v, a).ServerBlocked?
  {
  }

  /** Everything the environment will answer in one run: to the checks, to the hooks, and from the
      reply on. The reply is the go-ahead or the refusal, the verdict the completion or the call for a
      rollback. */
  datatype CheckEnv = CheckEnv(
    version: Option<Frame>, request: Option<Frame>, versionSent: SendOutcome, gossip: Option<(string, string)>,
    confirmed: bool, sample: Option<M.CreditsSample>, prepared: bool)

  datatype SwitchEnv = SwitchEnv(
    reply: SendOutcome, tower: Option<Frame>, write: WriteOutcome, writtenAt: Instant,
    command: CommandOutcome, commandStart: Instant, commandEnd: Instant, endSlot: Option<uint64>,
    verdict: SendOutcome, rollback: CommandOutcome)

  datatype ServerEnv = ServerEnv(checks: CheckEnv, hooks: seq<bool>, switch: SwitchEnv)

  function OpeningScript(env: ServerEnv): seq<ServerAction> {
    [ServerReceive(env.checks.version), ServerReceive(env.checks.request), ServerSend(env.checks.versionSent)]
  }

  function CheckScript(env: ServerEnv): seq<ServerAction> {
    [ServerGossip(env.checks.gossip), ServerConfirm(env.checks.confirmed), ServerSample(env.checks.sample),
     ServerPrepareTower(env.checks.prepared)]
  }

  function HookScript(env: ServerEnv): seq<ServerAction> {
    seq(|env.hooks|, i requires 0 <= i < |env.hooks| => ServerHook(env.hooks[i])) + [ServerHooksOver]
  }

  function SwitchScript(env: ServerEnv): seq<ServerAction> {
    [ServerSend(env.switch.reply), ServerReceive(env.switch.tower), ServerWriteTower(env.switch.write, env.switch.writtenAt),
     ServerCommand(env.switch.command, env.switch.commandStart, env.switch.commandEnd), ServerEndSlot(env.switch.endSlot),
     ServerSend(env.switch.verdict), ServerCommand(env.switch.rollback, 1, 1)]
  }

  class PassiveNode {
    const cfg: Config
    const stream: Stream
    var identities: Option<M.Identities>
    var active: bool
    var towerFile: Option<seq<byte>>

    ghost const start: Server
    ghost var at: Server
    ghost var trace: seq<ServerAction>
    ghost var sent: seq<Frame>

    /** The fields are those of the state reached by feeding what happened so far. */
    ghost predicate Tracks()
      reads this, stream
    {
      && Feed(cfg, start, trace) == (at, sent)
      && Same(at.msg, stream.message) && stream.written == sent
      && Same(at.identities, identities) && at.active == active && Same(at.tower, towerFile)
    }

    constructor (cfg: Config, towerFile: Option<seq<byte>>)
      ensures Tracks() && fresh(stream) && at == start && this.cfg == cfg && trace == []
      ensures start == Server(SAwaitVersion, M.NEW_MESSAGE, cfg.serverInfo.identities, false, towerFile, false, NO_CHECKS)
    {
      this.cfg := cfg;
      stream := new Stream();
      identities, active, this.towerFile := cfg.serverInfo.identities, false, towerFile;
      start := Server(SAwaitVersion, M.NEW_MESSAGE, cfg.serverInfo.identities, false, towerFile, false, NO_CHECKS);
      at := Server(SAwaitVersion, M.NEW_MESSAGE, cfg.serverInfo.identities, false, towerFile, false, NO_CHECKS);
      trace, sent := [], [];
    }

    /** Advances the ghost state along the transition function. */
    ghost method Take(a: ServerAction)
      requires Feed(cfg, start, trace) == (at, sent) && ServerStep(cfg, at, a).ServerMoved?
      modifies this`at, this`trace, this`sent
      ensures Feed(cfg, start, trace) == (at, sent) && trace == old(trace) + [a]
      ensures var r := ServerStep(cfg, old(at), a); Same(at, r.next) && sent == old(sent) + Frames(r.sent)
    {
      hide ServerStep;
      FeedOne(cfg, start, trace, a);
      at, trace, sent := ServerStep(cfg, at, a).next, trace + [a], sent + Frames(ServerStep(cfg, at, a).sent);
    }

    /** An action that this run has no use for. */
    ghost method PassOver(a: ServerAction)
      requires Tracks() && ServerStep(cfg, at, a).ServerBlocked?
      modifies this`trace
      ensures Tracks() && trace == old(trace) + [a]
    {
      hide ServerStep;
      FeedOne(cfg, start, trace, a);
      trace := trace + [a];
    }

    /** Actions that the program, having ended or about to refuse, has no use for. */
    ghost method PassOverTo(before: seq<ServerAction>, script: seq<ServerAction>)
      requires Tracks()
      requires |before| <= |trace| <= |before| + |script| && trace == before + script[..|trace| - |before|]
      requires forall i :: |trace| - |before| <= i < |script| ==> Idle(at.pc, script[i])
      modifies this`trace
      ensures Tracks() && trace == before + script
    {
      hide Feed, Idle;
      var done := |trace| - |before|;
      IdleIgnores(cfg, start, trace, script[done..]);
      assert script == script[..done] + script[done..];
      trace := trace + script[done..];
    }

    // ----- The checks

    method ReadVersion(frame: Option<Frame>) returns (ok: bool)
      requires Tracks() && at.pc.SAwaitVersion?
      modifies `at, `trace, `sent
      ensures trace == old(trace) + [ServerReceive(frame)] && at.checks.hooksRun == old(at.checks.hooksRun)
      ensures Tracks() && if ok then at.pc.SAwaitRequest? else at.pc.SDone?
    {
      hide Feed, RejectText, M.Encode, M.Decode;
      Take(ServerReceive(frame));
      ok := frame.Some? && frame.value.Version? && frame.value.version == cfg.serverWire;
    }

    method ReadRequest(frame: Option<Frame>) returns (ok: bool)
      requires Tracks() && at.pc.SAwaitRequest?
      modifies `at, `trace, `sent, stream
      ensures trace == old(trace) + [ServerReceive(frame)] && at.checks.hooksRun == old(at.checks.hooksRun)
      ensures Tracks() && if ok then at.pc.SSendVersion? else at.pc.SDone?
    {
      hide Feed, RejectText, M.Encode, M.Decode;
      Take(ServerReceive(frame));
      ok := stream.Decode(frame);
    }

    /** The server adds its own part to the message and compares versions. */
    method AddOwnPart() returns (ok: bool)
      modifies stream`message
      ensures var m := M.WithServerPart(old(stream.message), cfg.dryRun, cfg.skipTowerSync, cfg.serverInfo.(identities := identities));
              && ok == SameVersion(m.activeNodeInfo.failoverVersion, cfg.serverVersion)
              && Same(stream.message, if ok then m else M.WithError(m, RejectText(OtherVersion)))
    {
      hide RejectText, M.WithError, M.WithServerPart;
      PartByPart(stream.message, cfg.dryRun, cfg.skipTowerSync, cfg.serverInfo.(identities := identities));
      stream.SetIsDryRunFailover(cfg.dryRun);
      stream.SetSkipTowerSync(cfg.skipTowerSync);
      stream.SetPassiveNodeInfo(cfg.serverInfo.(identities := identities));
      ok := stream.message.activeNodeInfo.failoverVersion == cfg.serverVersion;
      if !ok {
        stream.SetErrorMessage(RejectText(OtherVersion));
      }
    }

    method SendVersion(o: SendOutcome) returns (ok: bool, refuse: bool)
      requires Tracks() && at.pc.SSendVersion?
      modifies `at, `trace, `sent, stream
      ensures trace == old(trace) + [ServerSend(o)] && at.checks.hooksRun == old(at.checks.hooksRun)
      ensures Tracks() && if ok then at.pc.SGossip? else if refuse then at.pc.SReject? else at.pc.SDone?
    {
      hide Feed, RejectText, M.Encode, M.Decode;
      Take(ServerSend(o));
      ok := stream.Write(Version(cfg.serverWire), o);
      refuse := false;
      if ok {
        ok := AddOwnPart();
        refuse := !ok;
      }
    }

    /** validateActiveGossipIdentity on the lookup's answer, and the comparison of the rollback flags. */
    method JudgeGossip(answer: Option<(string, string)>) returns (why: Option<Reject>)
      ensures why.None? <==>
                && answer.Some? && GossipShows(stream.message.activeNodeInfo, answer.value.0, answer.value.1)
                && cfg.serverRollback == stream.message.activeRollbackEnabled
      ensures why.Some? ==>
                && (why.value.GossipUnanswered? || why.value.GossipDisagrees? || why.value.RollbackDiffers?)
                && (why.value.GossipUnanswered? <==> answer.None?)
                && (why.value.RollbackDiffers? <==>
                      answer.Some? && GossipShows(stream.message.activeNodeInfo, answer.value.0, answer.value.1))
    {
      if answer.None? {
        return Some(GossipUnanswered);
      }
      if !GossipShows(stream.message.activeNodeInfo, answer.value.0, answer.value.1) {
        return Some(GossipDisagrees);
      }
      if cfg.serverRollback != stream.message.activeRollbackEnabled {
        return Some(RollbackDiffers);
      }
      why := None;
    }

    /** The lookup and the judgement of it together: the server goes on exactly when some view that
        answered shows the claimed address with the claimed active key and the rollback flags agree. It
        blames gossip whenever no view shows the claimed pair. */
    method ValidateActiveNode(local: G.View, cluster: G.View) returns (answer: Option<(string, string)>, why: Option<Reject>)
      ensures var claimed := stream.message.activeNodeInfo;
              var ip, key := claimed.publicIP, claimed.ActivePubKey();
              var shown := G.HasExact(local, ip, key) || G.HasExact(cluster, ip, key);
              && (why.None? <==> shown && cfg.serverRollback == stream.message.activeRollbackEnabled)
              && (why == Some(RollbackDiffers) <==> shown && cfg.serverRollback != stream.message.activeRollbackEnabled)
              && (why == Some(GossipUnanswered) <==> !G.HasIP(local, ip) && !G.HasIP(cluster, ip))
    {
      hide GossipShows, G.HasExact, G.HasIP;
      var passes;
      answer, passes := G.ActiveNodeGate(local, cluster, stream.message.activeNodeInfo);
      why := JudgeGossip(answer);
    }

    method CheckGossip(answer: Option<(string, string)>) returns (ok: bool)
      requires Tracks() && at.pc.SGossip?
      modifies `at, `trace, `sent, stream
      ensures trace == old(trace) + [ServerGossip(answer)] && at.checks.hooksRun == old(at.checks.hooksRun)
      ensures Tracks() && if ok then at.pc.SConfirm? else at.pc.SReject?
    {
      hide Feed, RejectText, M.Encode, M.Decode;
      var why := JudgeGossip(answer);
      Take(ServerGossip(answer));
      ok := why.None?;
      if !ok {
        stream.SetErrorMessage(RejectText(why.value));
      }
    }

    /** ConfirmFailover: the operator sees the message as it stands. */
    method Confirm(yes: bool) returns (ok: bool)
      requires Tracks() && at.pc.SConfirm?
      modifies `at, `trace, `sent, stream
      ensures trace == old(trace) + [ServerConfirm(yes)] && at.checks.hooksRun == old(at.checks.hooksRun)
      ensures Tracks() && if ok then at.pc.SSample? else at.pc.SReject?
    {
      hide Feed, RejectText, M.Encode, M.Decode;
      Take(ServerConfirm(yes));
      if !yes {
        stream.SetErrorMessage(RejectText(Declined));
      }
      ok := yes;
    }

    method TakeSample(sample: Option<M.CreditsSample>) returns (ok: bool)
      requires Tracks() && at.pc.SSample?
      modifies `at, `trace, `sent, stream
      ensures trace == old(trace) + [ServerSample(sample)] && at.checks.hooksRun == old(at.checks.hooksRun)
      ensures Tracks() && if ok then at.pc.SPrepareTower? else at.pc.SReject?
    {
      hide Feed, RejectText, M.Encode, M.Decode;
      Take(ServerSample(sample));
      ok := stream.AddSample(sample);
      if !ok {
        stream.SetErrorMessage(RejectText(SampleUnavailable));
      }
    }

    /** With tower sync the file is created or truncated; without it an existing one is removed. */
    method PrepareTower(works: bool) returns (ok: bool)
      requires Tracks() && at.pc.SPrepareTower?
      modifies `at, `trace, `sent, `towerFile, stream
      ensures trace == old(trace) + [ServerPrepareTower(works)] && at.checks.hooksRun == old(at.checks.hooksRun)
      ensures Tracks() && if ok then at.pc.SPreHooks? else at.pc.SReject?
    {
      hide Feed, RejectText, M.Encode, M.Decode;
      Take(ServerPrepareTower(works));
      if cfg.skipTowerSync && towerFile.None? {
        return true;
      }
      ok := works;
      if ok {
        towerFile := if cfg.skipTowerSync then None else Some([]);
      } else {
        stream.SetErrorMessage(RejectText(TowerNotPrepared));
      }
    }

    method RunHook(i: nat, result: bool) returns (goesOn: bool)
      requires Tracks() && at.pc.SPreHooks? && |at.checks.hooksRun| == i < |cfg.preWhenPassive|
      modifies `at, `trace, `sent, stream
      ensures trace == old(trace) + [ServerHook(result)] && |at.checks.hooksRun| == i + 1
      ensures Tracks() && if goesOn then at.pc.SPreHooks? else at.pc.SReject?
    {
      hide Feed, RejectText, M.WithError;
      Take(ServerHook(result));
      goesOn := result || !cfg.preWhenPassive[i].mustSucceed;
      if !goesOn {
        stream.SetErrorMessage(RejectText(ServerHookFailed));
      }
    }

    method AllowToProceed()
      requires Tracks() && at.pc.SPreHooks? && |at.checks.hooksRun| == |cfg.preWhenPassive|
      modifies `at, `trace, `sent, stream
      ensures trace == old(trace) + [ServerHooksOver] && Tracks() && at.pc.SSendProceed?
    {
      hide Feed, RejectText, M.Encode, M.Decode;
      Take(ServerHooksOver);
      stream.SetCanProceed();
    }

    /** A refusal is encoded and ends the program, whether or not it got through. */
    method Refuse(o: SendOutcome)
      requires Tracks() && at.pc.SReject?
      modifies `at, `trace, `sent, stream
      ensures trace == old(trace) + [ServerSend(o)] && Tracks() && at.pc.SDone?
    {
      hide Feed, RejectText, M.Encode, M.Decode;
      Take(ServerSend(o));
      var ok := stream.Encode(o);
    }

    // ----- The switch

    method SendGoAhead(o: SendOutcome) returns (ok: bool)
      requires Tracks() && at.pc.SSendProceed?
      modifies `at, `trace, `sent, stream
      ensures trace == old(trace) + [ServerSend(o)]
      ensures Tracks() && if !ok then at.pc.SDone? else if cfg.skipTowerSync then at.pc.SSetActive? else at.pc.SAwaitTower?
    {
      hide Feed, RejectText, M.Encode, M.Decode;
      Take(ServerSend(o));
      ok := stream.Encode(o);
    }

    method ReadTower(frame: Option<Frame>) returns (ok: bool)
      requires Tracks() && at.pc.SAwaitTower?
      modifies `at, `trace, `sent, `identities, stream
      ensures trace == old(trace) + [ServerReceive(frame)]
      ensures Tracks() && if ok then at.pc.SWriteTower? else at.pc.SDone?
    {
      hide Feed, RejectText, M.Encode, M.Decode;
      Take(ServerReceive(frame));
      ok := stream.Decode(frame);
      if !ok {
        return;
      }
      identities := stream.message.passiveNodeInfo.identities;
      ok := cfg.towerHash(stream.message.activeNodeInfo.towerFileBytes) == stream.message.activeNodeInfo.towerFileHash;
    }

    method WriteTower(w: WriteOutcome, when: Instant) returns (ok: bool)
      requires Tracks() && at.pc.SWriteTower?
      modifies `at, `trace, `sent, `towerFile, stream
      ensures trace == old(trace) + [ServerWriteTower(w, when)]
      ensures Tracks() && if ok then at.pc.SSetActive? else at.pc.SDone?
    {
      hide Feed, RejectText, M.Encode, M.Decode;
      Take(ServerWriteTower(w, when));
      ok := w.Written?;
      if !ok {
        towerFile := Some(w.content);
        return;
      }
      towerFile := Some(stream.message.activeNodeInfo.towerFileBytes);
      stream.SetPassiveNodeSyncTowerFileEndTime(when);
    }

    /** RunCommand does nothing and reports success in a dry run. */
    method RunSetActive(o: CommandOutcome) returns (ok: bool)
      modifies `active
      ensures ok == (cfg.dryRun || o.Succeeded?)
      ensures active == (old(active) || (!cfg.dryRun && (o.Succeeded? || o.tookEffect)))
    {
      if cfg.dryRun {
        return true;
      }
      if o.Succeeded? || o.tookEffect {
        active := true;
      }
      ok := o.Succeeded?;
    }

    method SwitchToActive(o: CommandOutcome, from: Instant, to: Instant) returns (ok: bool)
      requires Tracks() && at.pc.SSetActive?
      modifies `at, `trace, `sent, `active, stream
      ensures trace == old(trace) + [ServerCommand(o, from, to)]
      ensures Tracks() && if ok then at.pc.SEndSlot? else if cfg.serverRollback then at.pc.SSendRollback? else at.pc.SDone?
    {
      hide Feed, ServerStep, M.WithPassiveSwitchStart, M.WithPassiveSwitchEnd, M.WithRollbackRequired;
      SwitchFields(cfg, at, o, from, to);
      Take(ServerCommand(o, from, to));
      stream.SetPassiveNodeSetIdentityStartTime(from);
      ok := RunSetActive(o);
      if ok {
        stream.SetPassiveNodeSetIdentityEndTime(to);
      } else if cfg.serverRollback {
        stream.SetRollbackRequired();
      }
    }

    method RecordEndSlot(slot: Option<uint64>)
      requires Tracks() && at.pc.SEndSlot?
      modifies `at, `trace, `sent, stream
      ensures trace == old(trace) + [ServerEndSlot(slot)] && Tracks() && at.pc.SSendDone?
    {
      hide Feed, RejectText, M.Encode, M.Decode;
      Take(ServerEndSlot(slot));
      if slot.Some? {
        if slot.value < stream.message.failoverStartSlot {
          stream.SetFailoverEndSlot(stream.message.failoverStartSlot);
        } else {
          stream.SetFailoverEndSlot(slot.value);
        }
      }
      stream.SetIsSuccessfullyCompleted();
    }

    method SendVerdict(o: SendOutcome)
      requires Tracks() && (at.pc.SSendDone? || at.pc.SSendRollback?)
      modifies `at, `trace, `sent, stream
      ensures trace == old(trace) + [ServerSend(o)]
      ensures Tracks() && if old(at.pc.SSendDone?) then at.pc.SDone? else at.pc.SRollback?
    {
      hide Feed, RejectText, M.Encode, M.Decode;
      Take(ServerSend(o));
      var ok := stream.Encode(o);
    }

    /** RunRollbackToPassive. */
    method RollBack(o: CommandOutcome)
      requires Tracks() && at.pc.SRollback?
      modifies `at, `trace, `sent, `active
      ensures trace == old(trace) + [ServerCommand(o, 1, 1)] && Tracks() && at.pc.SDone?
    {
      hide Feed, RejectText, M.Encode, M.Decode;
      Take(ServerCommand(o, 1, 1));
      if cfg.toPassiveCmd != "" && !cfg.dryRun && (o.Succeeded? || o.tookEffect) {
        active := false;
      }
    }

    // ----- The run

    /** A refusal goes out in place of the go-ahead, whatever checks were left. */
    method SendRefusal(env: ServerEnv)
      requires Tracks() && at.pc.SReject? && trace == OpeningScript(env) + CheckScript(env) + HookScript(env)
      modifies `at, `trace, `sent, stream
      ensures trace == Script(env) && Tracks() && at.pc.SDone?
    {
      hide Feed, Tracks, ServerStep;
      Refuse(env.switch.reply);
      PassOverTo(OpeningScript(env) + CheckScript(env) + HookScript(env), SwitchScript(env));
    }

    /** From the client's version to the comparison of the two programs' versions. */
    method Open(env: ServerEnv) returns (ok: bool, refuse: bool)
      requires Tracks() && at.pc.SAwaitVersion? && trace == []
      modifies `at, `trace, `sent, stream
      ensures Tracks() && trace == OpeningScript(env) && at.checks.hooksRun == old(at.checks.hooksRun)
      ensures if ok then at.pc.SGossip? else if refuse then at.pc.SReject? else at.pc.SDone?
    {
      hide Feed, Tracks, ServerStep;
      refuse := false;
      ok := ReadVersion(env.checks.version);
      if !ok { PassOverTo([], OpeningScript(env)); return; }
      ok := ReadRequest(env.checks.request);
      if !ok { PassOverTo([], OpeningScript(env)); return; }
      ok, refuse := SendVersion(env.checks.versionSent);
    }

    /** From the gossip check to the tower file; the server refuses if one fails. */
    method Check(env: ServerEnv) returns (ok: bool)
      requires Tracks() && at.pc.SGossip?
      modifies `at, `trace, `sent, `towerFile, stream
      ensures Tracks() && trace == old(trace) + CheckScript(env) && at.checks.hooksRun == old(at.checks.hooksRun)
      ensures if ok then at.pc.SPreHooks? else at.pc.SReject?
    {
      hide Feed, Tracks, ServerStep;
      ok := CheckGossip(env.checks.gossip);
      if !ok { PassOverTo(old(trace), CheckScript(env)); return; }
      ok := Confirm(env.checks.confirmed);
      if !ok { PassOverTo(old(trace), CheckScript(env)); return; }
      ok := TakeSample(env.checks.sample);
      if !ok { PassOverTo(old(trace), CheckScript(env)); return; }
      ok := PrepareTower(env.checks.prepared);
    }

    /** RunPreWhenPassive, and the go-ahead once every hook that must succeed has. */
    method RunPreHooks(env: ServerEnv) returns (ok: bool)
      requires Tracks() && at.pc.SPreHooks? && at.checks.hooksRun == [] && |env.hooks| == |cfg.preWhenPassive|
      modifies `at, `trace, `sent, stream
      ensures trace == old(trace) + HookScript(env)
      ensures Tracks() && if ok then at.pc.SSendProceed? else at.pc.SReject?
    {
      hide Feed, Tracks, ServerStep;
      for i := 0 to |cfg.preWhenPassive|
        invariant Tracks() && at.pc.SPreHooks? && |at.checks.hooksRun| == i
        invariant trace == old(trace) + HookScript(env)[..i]
      {
        ok := RunHook(i, env.hooks[i]);
        if !ok {
          PassOverTo(old(trace), HookScript(env));
          return;
        }
      }
      AllowToProceed();
      ok := true;
    }

    /** The tower message is read and written; without tower sync the server does not wait for it. */
    method TakeTower(env: ServerEnv) returns (ok: bool)
      requires Tracks() && if cfg.skipTowerSync then at.pc.SSetActive? else at.pc.SAwaitTower?
      modifies `at, `trace, `sent, `identities, `towerFile, stream
      ensures trace == old(trace) + SwitchScript(env)[1..3] || (!ok && trace == old(trace) + SwitchScript(env)[1..2])
      ensures Tracks() && if ok then at.pc.SSetActive? else at.pc.SDone?
    {
      hide Feed, Tracks, ServerStep;
      ok := true;
      if cfg.skipTowerSync {
        SwitchingIgnores(cfg, at, ServerReceive(env.switch.tower));
        PassOver(ServerReceive(env.switch.tower));
        SwitchingIgnores(cfg, at, ServerWriteTower(env.switch.write, env.switch.writtenAt));
        PassOver(ServerWriteTower(env.switch.write, env.switch.writtenAt));
      } else {
        ok := ReadTower(env.switch.tower);
        if ok {
          ok := WriteTower(env.switch.write, env.switch.writtenAt);
        }
      }
      assert SwitchScript(env)[1..3] == [ServerReceive(env.switch.tower)] + [ServerWriteTower(env.switch.write, env.switch.writtenAt)];
    }

    /** From the go-ahead on: the switch, its completion, or its rollback. */
    method SwitchOver(env: ServerEnv)
      requires Tracks() && at.pc.SSendProceed?
      modifies `at, `trace, `sent, `identities, `towerFile, `active, stream
      ensures trace == old(trace) + SwitchScript(env) && Tracks() && at.pc.SDone?
    {
      hide Feed, Tracks, ServerStep;
      var ok := SendGoAhead(env.switch.reply);
      if !ok { PassOverTo(old(trace), SwitchScript(env)); return; }
      ok := TakeTower(env);
      if !ok { PassOverTo(old(trace), SwitchScript(env)); return; }
      ok := SwitchToActive(env.switch.command, env.switch.commandStart, env.switch.commandEnd);
      Conclude(env, ok);
      assert SwitchScript(env) == SwitchScript(env)[..1] + SwitchScript(env)[1..3] + SwitchScript(env)[3..4] + SwitchScript(env)[4..];
    }

    /** After the command: the end slot and the completion, or the rollback. */
    method Conclude(env: ServerEnv, switched: bool)
      requires Tracks()
      requires if switched then at.pc.SEndSlot? else if cfg.serverRollback then at.pc.SSendRollback? else at.pc.SDone?
      modifies `at, `trace, `sent, `active, stream
      ensures trace == old(trace) + SwitchScript(env)[4..] && Tracks() && at.pc.SDone?
    {
      hide Feed, Tracks, ServerStep;
      ghost var script := SwitchScript(env)[4..];
      if switched {
        RecordEndSlot(env.switch.endSlot);
        SendVerdict(env.switch.verdict);
      } else if cfg.serverRollback {
        PassOverEndSlot(env.switch.endSlot);
        SendVerdict(env.switch.verdict);
        RollBack(env.switch.rollback);
      }
      PassOverTo(old(trace), script);
    }

    ghost method PassOverEndSlot(slot: Option<uint64>)
      requires Tracks() && at.pc.SSendRollback?
      modifies `trace
      ensures trace == old(trace) + [ServerEndSlot(slot)] && Tracks()
    {
      hide Feed, Tracks;
      PassOver(ServerEndSlot(slot));
    }

    /** Server.handleFailoverStream, with the version check before it. */
    method HandleFailoverStream(env: ServerEnv)
      requires Tracks() && at.pc.SAwaitVersion? && at.checks.hooksRun == [] && trace == [] && |env.hooks| == |cfg.preWhenPassive|
      modifies `at, `trace, `sent, `identities, `towerFile, `active, stream
      ensures trace == Script(env) && Tracks() && at.pc.SDone?
    {
      hide Feed, Tracks, ServerStep;
      var ok, refuse := Open(env);
      if !ok {
        PassOverTo(OpeningScript(env), CheckScript(env));
      } else {
        ok := Check(env);
        refuse := !ok;
      }
      if !ok {
        PassOverTo(OpeningScript(env) + CheckScript(env), HookScript(env));
      } else {
        ok := RunPreHooks(env);
        refuse := !ok;
      }
      if ok {
        SwitchOver(env);
      } else if refuse {
        SendRefusal(env);
      } else {
        PassOverTo(OpeningScript(env) + CheckScript(env) + HookScript(env), SwitchScript(env));
      }
    }
  }

  function Script(env: ServerEnv): seq<ServerAction> {
    OpeningScript(env) + CheckScript(env) + HookScript(env) + SwitchScript(env)
  }
}

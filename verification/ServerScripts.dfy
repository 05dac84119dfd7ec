/**
 The answers a server got, whatever they were, as one environment of the passive node's program: the
 program run in that environment gets the same answers and so ends in the same state.
 */
module ServerScripts {
  import opened Wrappers
  import opened Protocol
  import opened Streams
  import opened ServerProgram
  import Flow

  // ----- The answers of a run as an environment of the program

  /** `env` with `a` as the answer at the server's program point. */
  function Fill(v: Server, a: ServerAction, env: ServerEnv): ServerEnv {
    match (v.pc, a)
    case (SAwaitVersion, ServerReceive(frame)) => env.(checks := env.checks.(version := frame))
    case (SAwaitRequest, ServerReceive(frame)) => env.(checks := env.checks.(request := frame))
    case (SSendVersion, ServerSend(o)) => env.(checks := env.checks.(versionSent := o))
    case (SGossip, ServerGossip(answer)) => env.(checks := env.checks.(gossip := answer))
    case (SConfirm, ServerConfirm(yes)) => env.(checks := env.checks.(confirmed := yes))
    case (SSample, ServerSample(sample)) => env.(checks := env.checks.(sample := sample))
    case (SPrepareTower, ServerPrepareTower(ok)) => env.(checks := env.checks.(prepared := ok))
    case (SPreHooks, ServerHook(ok)) =>
      var i := |v.checks.hooksRun|;
      if i < |env.hooks| then env.(hooks := env.hooks[i := ok]) else env
    case (SReject(_), ServerSend(o)) => env.(switch := env.switch.(reply := o))
    case (SSendProceed, ServerSend(o)) => env.(switch := env.switch.(reply := o))
    case (SAwaitTower, ServerReceive(frame)) => env.(switch := env.switch.(tower := frame))
    case (SWriteTower, ServerWriteTower(w, at)) => env.(switch := env.switch.(write := w, writtenAt := at))
    case (SSetActive, ServerCommand(o, start, end)) =>
      env.(switch := env.switch.(command := o, commandStart := start, commandEnd := end))
    case (SEndSlot, ServerEndSlot(slot)) => env.(switch := env.switch.(endSlot := slot))
    case (SSendDone, ServerSend(o)) => env.(switch := env.switch.(verdict := o))
    case (SSendRollback, ServerSend(o)) => env.(switch := env.switch.(verdict := o))
    case (SRollback, ServerCommand(o, _, _)) => env.(switch := env.switch.(rollback := o))
    case _ => env
  }

  /** What a program that has ended no longer asks for. */
  function AnyEnv(cfg: Config): ServerEnv {
    ServerEnv(
      CheckEnv(None, None, Sent, None, false, None, false), seq(|cfg.preWhenPassive|, i => true),
      SwitchEnv(Sent, None, Written, 1, Succeeded, 1, 1, None, Sent, Succeeded))
  }

  /** The environment a list of answers amounts to, leaving out those the server had no use for. */
  function EnvOf(cfg: Config, v: Server, answers: seq<ServerAction>): ServerEnv
    decreases |answers|
  {
    if answers == [] then AnyEnv(cfg)
    else
      match ServerStep(cfg, v, answers[0])
      case ServerBlocked => EnvOf(cfg, v, answers[1..])
      case ServerMoved(n, _, _) => Fill(v, answers[0], EnvOf(cfg, n, answers[1..]))
  }

  /** What `HandleFailoverStream` requires of an environment. */
  predicate EnvFits(cfg: Config, env: ServerEnv) {
    |env.hooks| == |cfg.preWhenPassive|
  }

  lemma FillFits(cfg: Config, v: Server, a: ServerAction, env: ServerEnv)
    requires EnvFits(cfg, env)
    ensures EnvFits(cfg, Fill(v, a, env))
  {
  }

  lemma {:induction false} EnvOfFits(cfg: Config, v: Server, answers: seq<ServerAction>)
    ensures EnvFits(cfg, EnvOf(cfg, v, answers))
    decreases |answers|
  {
    hide ServerStep, Fill, EnvFits;
    if answers == [] {
      AnyEnvFits(cfg);
    } else {
      match ServerStep(cfg, v, answers[0])
      case ServerBlocked => EnvOfFits(cfg, v, answers[1..]);
      case ServerMoved(n, _, _) =>
        EnvOfFits(cfg, n, answers[1..]);
        FillFits(cfg, v, answers[0], EnvOf(cfg, n, answers[1..]));
    }
  }

  lemma AnyEnvFits(cfg: Config)
    ensures EnvFits(cfg, AnyEnv(cfg))
  {
  }

  // ----- The rest of the script at each program point

  function FromRollback(env: SwitchEnv): seq<ServerAction> { [ServerCommand(env.rollback, 1, 1)] }
  function FromVerdict(env: SwitchEnv): seq<ServerAction> { [ServerSend(env.verdict)] + FromRollback(env) }
  function FromEndSlot(env: SwitchEnv): seq<ServerAction> { [ServerEndSlot(env.endSlot)] + FromVerdict(env) }
  function FromSwitch(env: SwitchEnv): seq<ServerAction> {
    [ServerCommand(env.command, env.commandStart, env.commandEnd)] + FromEndSlot(env)
  }
  function FromWrite(env: SwitchEnv): seq<ServerAction> {
    [ServerWriteTower(env.write, env.writtenAt)] + FromSwitch(env)
  }
  function FromTower(env: SwitchEnv): seq<ServerAction> { [ServerReceive(env.tower)] + FromWrite(env) }
  function FromReply(env: SwitchEnv): seq<ServerAction> { [ServerSend(env.reply)] + FromTower(env) }
  function FromHooks(env: ServerEnv, i: nat): seq<ServerAction>
    decreases |env.hooks| - i
  {
    if i < |env.hooks| then [ServerHook(env.hooks[i])] + FromHooks(env, i + 1)
    else [ServerHooksOver] + FromReply(env.switch)
  }
  function FromPrepare(env: ServerEnv): seq<ServerAction> {
    [ServerPrepareTower(env.checks.prepared)] + FromHooks(env, 0)
  }
  function FromSample(env: ServerEnv): seq<ServerAction> { [ServerSample(env.checks.sample)] + FromPrepare(env) }
  function FromConfirm(env: ServerEnv): seq<ServerAction> { [ServerConfirm(env.checks.confirmed)] + FromSample(env) }
  function FromGossip(env: ServerEnv): seq<ServerAction> { [ServerGossip(env.checks.gossip)] + FromConfirm(env) }
  function FromAnswer(env: ServerEnv): seq<ServerAction> { [ServerSend(env.checks.versionSent)] + FromGossip(env) }
  function FromRequest(env: ServerEnv): seq<ServerAction> { [ServerReceive(env.checks.request)] + FromAnswer(env) }
  function FromStart(env: ServerEnv): seq<ServerAction> { [ServerReceive(env.checks.version)] + FromRequest(env) }

  function Rest(v: Server, env: ServerEnv): seq<ServerAction> {
    match v.pc
    case SAwaitVersion => FromStart(env)
    case SAwaitRequest => FromRequest(env)
    case SSendVersion => FromAnswer(env)
    case SReject(_) => FromReply(env.switch)
    case SGossip => FromGossip(env)
    case SConfirm => FromConfirm(env)
    case SSample => FromSample(env)
    case SPrepareTower => FromPrepare(env)
    case SPreHooks => FromHooks(env, |v.checks.hooksRun|)
    case SSendProceed => FromReply(env.switch)
    case SAwaitTower => FromTower(env.switch)
    case SWriteTower => FromWrite(env.switch)
    case SSetActive => FromSwitch(env.switch)
    case SEndSlot => FromEndSlot(env.switch)
    case SSendDone => FromVerdict(env.switch)
    case SSendRollback => FromVerdict(env.switch)
    case SRollback => FromRollback(env.switch)
    case SDone(_) => []
  }

  lemma {:induction false} HooksAreScript(env: ServerEnv, i: nat)
    requires i <= |env.hooks|
    ensures FromHooks(env, i) == HookScript(env)[i..] + SwitchScript(env)
    decreases |env.hooks| - i
  {
    if i < |env.hooks| {
      HooksAreScript(env, i + 1);
      assert HookScript(env)[i..] == [ServerHook(env.hooks[i])] + HookScript(env)[i + 1..];
    } else {
      assert FromReply(env.switch) == SwitchScript(env);
      assert HookScript(env)[i..] == [ServerHooksOver];
    }
  }

  lemma StartIsScript(env: ServerEnv)
    ensures FromStart(env) == Script(env)
  {
    hide FromHooks, HookScript, SwitchScript;
    HooksAreScript(env, 0);
    assert HookScript(env)[0..] == HookScript(env);
  }

  /** The rest of the script depends on no answer given before. */
  lemma {:induction false} HooksLookAhead(env: ServerEnv, env': ServerEnv, i: nat)
    requires |env.hooks| == |env'.hooks| && forall j :: i <= j < |env.hooks| ==> env.hooks[j] == env'.hooks[j]
    requires env.switch == env'.switch
    ensures FromHooks(env, i) == FromHooks(env', i)
    decreases |env.hooks| - i
  {
    if i < |env.hooks| {
      HooksLookAhead(env, env', i + 1);
    }
  }

  // ----- Feeding the rest of the script is feeding the answers

  function Next(cfg: Config, v: Server, a: ServerAction): Server {
    var r := ServerStep(cfg, v, a);
    if r.ServerMoved? then r.next else v
  }

  function StepSends(cfg: Config, v: Server, a: ServerAction): seq<Frame> {
    var r := ServerStep(cfg, v, a);
    if r.ServerMoved? then Frames(r.sent) else []
  }

  lemma FeedNothing(cfg: Config, v: Server)
    ensures Feed(cfg, v, []) == (v, [])
  {
  }

  lemma {:induction false} FeedFront(cfg: Config, v: Server, a: ServerAction, rest: seq<ServerAction>)
    ensures Feed(cfg, v, [a] + rest).0 == Feed(cfg, Next(cfg, v, a), rest).0
    ensures Feed(cfg, v, [a] + rest).1 == StepSends(cfg, v, a) + Feed(cfg, Next(cfg, v, a), rest).1
    decreases |rest|
  {
    hide ServerStep, Feed;
    FeedNothing(cfg, v);
    FeedNothing(cfg, Next(cfg, v, a));
    if rest == [] {
      assert [a] + rest == [] + [a];
      FeedOne(cfg, v, [], a);
    } else {
      var most, last := rest[..|rest| - 1], rest[|rest| - 1];
      FeedFront(cfg, v, a, most);
      assert [a] + rest == ([a] + most) + [last] && rest == most + [last];
      FeedOne(cfg, v, [a] + most, last);
      FeedOne(cfg, Next(cfg, v, a), most, last);
    }
  }

  lemma FeedBlocked(cfg: Config, v: Server, a: ServerAction, rest: seq<ServerAction>)
    requires ServerStep(cfg, v, a).ServerBlocked?
    ensures Feed(cfg, v, [a] + rest) == Feed(cfg, v, rest)
  {
    hide ServerStep, Feed;
    FeedFront(cfg, v, a, rest);
    assert [] + Feed(cfg, v, rest).1 == Feed(cfg, v, rest).1;
  }

  lemma EndedFeed(cfg: Config, v: Server, actions: seq<ServerAction>)
    requires v.pc.SDone?
    ensures Feed(cfg, v, actions) == (v, [])
  {
    hide Feed, ServerStep;
    FeedNothing(cfg, v);
    assert [] + actions == actions;
    IdleIgnores(cfg, v, [], actions);
  }

  /** The kind of answer a program point waits for. */
  predicate Answers(cfg: Config, v: Server, a: ServerAction) {
    match v.pc
    case SAwaitVersion => a.ServerReceive?
    case SAwaitRequest => a.ServerReceive?
    case SSendVersion => a.ServerSend?
    case SReject(_) => a.ServerSend?
    case SGossip => a.ServerGossip?
    case SConfirm => a.ServerConfirm?
    case SSample => a.ServerSample?
    case SPrepareTower => a.ServerPrepareTower?
    case SPreHooks =>
      || (a.ServerHook? && |v.checks.hooksRun| < |cfg.preWhenPassive|)
      || (a.ServerHooksOver? && |v.checks.hooksRun| == |cfg.preWhenPassive|)
    case SSendProceed => a.ServerSend?
    case SAwaitTower => a.ServerReceive?
    case SWriteTower => a.ServerWriteTower?
    case SSetActive => a.ServerCommand?
    case SEndSlot => a.ServerEndSlot?
    case SSendDone => a.ServerSend?
    case SSendRollback => a.ServerSend?
    case SRollback => a.ServerCommand?
    case SDone(_) => false
  }

  lemma MovesOnAnswer(cfg: Config, v: Server, a: ServerAction)
    requires ServerStep(cfg, v, a).ServerMoved?
    ensures Answers(cfg, v, a)
  {
  }

  /** The filled script puts the same answer to the server first; a rollback's times are not looked at. */
  lemma FirstIsAnswer(cfg: Config, v: Server, a: ServerAction, env: ServerEnv)
    requires Answers(cfg, v, a) && EnvFits(cfg, env)
    ensures var rest := Rest(v, Fill(v, a, env));
            |rest| > 0 && (rest[0] == a || (v.pc.SRollback? && rest[0] == ServerCommand(a.outcome, 1, 1)))
  {
  }

  lemma RollbackIgnoresTimes(cfg: Config, v: Server, a: ServerAction)
    requires v.pc.SRollback? && a.ServerCommand?
    ensures Same(ServerStep(cfg, v, ServerCommand(a.outcome, 1, 1)), ServerStep(cfg, v, a))
  {
  }

  /** The server is at a check before the hooks. */
  predicate AtCheck(pc: ServerPc) {
    || pc.SAwaitVersion? || pc.SAwaitRequest? || pc.SSendVersion? || pc.SGossip? || pc.SConfirm? || pc.SSample?
    || pc.SPrepareTower?
  }

  /** The script left after a check that was passed, and after one that was not. */
  function AfterCheck(pc: ServerPc, env: ServerEnv): seq<ServerAction> {
    match pc
    case SAwaitVersion => FromRequest(env)
    case SAwaitRequest => FromAnswer(env)
    case SSendVersion => FromGossip(env)
    case SGossip => FromConfirm(env)
    case SConfirm => FromSample(env)
    case SSample => FromPrepare(env)
    case _ => FromHooks(env, 0)
  }

  lemma CheckLeaves(cfg: Config, v: Server, a: ServerAction, env: ServerEnv)
    requires AtCheck(v.pc) && Answers(cfg, v, a)
    ensures Rest(v, Fill(v, a, env))[1..] == AfterCheck(v.pc, env)
  {
    hide FromHooks;
    HooksLookAhead(env, Fill(v, a, env), 0);
  }

  lemma RefusingIgnores(cfg: Config, v: Server, a: ServerAction, rest: seq<ServerAction>)
    requires v.pc.SReject? && !a.ServerSend?
    ensures Feed(cfg, v, [a] + rest) == Feed(cfg, v, rest)
  {
    hide Feed, ServerStep;
    IdleIsBlocked(cfg, v, a);
    FeedBlocked(cfg, v, a, rest);
  }

  lemma {:induction false} RefusalSkipsHooks(cfg: Config, v: Server, env: ServerEnv, i: nat)
    requires v.pc.SReject?
    ensures Feed(cfg, v, FromHooks(env, i)) == Feed(cfg, v, FromReply(env.switch))
    decreases |env.hooks| - i
  {
    hide Feed, FromReply;
    if i < |env.hooks| {
      RefusalSkipsHooks(cfg, v, env, i + 1);
      RefusingIgnores(cfg, v, ServerHook(env.hooks[i]), FromHooks(env, i + 1));
    } else {
      RefusingIgnores(cfg, v, ServerHooksOver, FromReply(env.switch));
    }
  }

  /** A server that refuses has no use for the checks it did not get to. */
  lemma RefusalSkipsChecks(cfg: Config, v: Server, pc: ServerPc, env: ServerEnv)
    requires v.pc.SReject? && (pc.SSendVersion? || pc.SGossip? || pc.SConfirm? || pc.SSample? || pc.SPrepareTower?)
    ensures Feed(cfg, v, AfterCheck(pc, env)) == Feed(cfg, v, FromReply(env.switch))
  {
    hide Feed, FromReply, FromHooks;
    RefusalSkipsHooks(cfg, v, env, 0);
    RefusingIgnores(cfg, v, ServerPrepareTower(env.checks.prepared), FromHooks(env, 0));
    RefusingIgnores(cfg, v, ServerSample(env.checks.sample), FromPrepare(env));
    RefusingIgnores(cfg, v, ServerConfirm(env.checks.confirmed), FromSample(env));
    RefusingIgnores(cfg, v, ServerGossip(env.checks.gossip), FromConfirm(env));
  }

  lemma HookLeaves(cfg: Config, v: Server, a: ServerAction, env: ServerEnv)
    requires v.pc.SPreHooks? && Answers(cfg, v, a) && EnvFits(cfg, env)
    ensures Rest(v, Fill(v, a, env))[1..] ==
              if a.ServerHook? then FromHooks(env, |v.checks.hooksRun| + 1) else FromReply(env.switch)
  {
    hide FromReply;
    if a.ServerHook? {
      HooksLookAhead(env, Fill(v, a, env), |v.checks.hooksRun| + 1);
    }
  }

  /** The script left after a step past the hooks. */
  function AfterSwitch(pc: ServerPc, env: SwitchEnv): seq<ServerAction> {
    match pc
    case SSendProceed => FromTower(env)
    case SAwaitTower => FromWrite(env)
    case SWriteTower => FromSwitch(env)
    case SSetActive => FromEndSlot(env)
    case SEndSlot => FromVerdict(env)
    case SSendRollback => FromRollback(env)
    case _ => []
  }

  lemma SwitchLeaves(cfg: Config, v: Server, a: ServerAction, env: ServerEnv)
    requires !Flow.Checking(v.pc) && !v.pc.SSendDone? && Answers(cfg, v, a)
    ensures Rest(v, Fill(v, a, env))[1..] == AfterSwitch(v.pc, env.switch)
  {
  }

  lemma TowerPassedOver(cfg: Config, v: Server, env: SwitchEnv)
    requires v.pc.SSetActive?
    ensures Feed(cfg, v, FromTower(env)) == Feed(cfg, v, FromSwitch(env))
  {
    hide Feed, ServerStep, FromSwitch;
    SwitchingIgnores(cfg, v, ServerReceive(env.tower));
    SwitchingIgnores(cfg, v, ServerWriteTower(env.write, env.writtenAt));
    FeedBlocked(cfg, v, ServerReceive(env.tower), FromWrite(env));
    FeedBlocked(cfg, v, ServerWriteTower(env.write, env.writtenAt), FromSwitch(env));
  }

  lemma EndSlotPassedOver(cfg: Config, v: Server, env: SwitchEnv)
    requires v.pc.SSendRollback?
    ensures Feed(cfg, v, FromEndSlot(env)) == Feed(cfg, v, FromVerdict(env))
  {
    hide Feed, FromVerdict;
    FeedBlocked(cfg, v, ServerEndSlot(env.endSlot), FromVerdict(env));
  }

  lemma CheckGoesOn(cfg: Config, v: Server, a: ServerAction, n: Server, env: ServerEnv)
    requires AtCheck(v.pc) && Answers(cfg, v, a) && v.checks.hooksRun == []
    requires match v.pc
             case SAwaitVersion => n.pc.SAwaitRequest?
             case SAwaitRequest => n.pc.SSendVersion?
             case SSendVersion => n.pc.SGossip? || n.pc.SReject?
             case SGossip => n.pc.SConfirm? || n.pc.SReject?
             case SConfirm => n.pc.SSample? || n.pc.SReject?
             case SSample => n.pc.SPrepareTower? || n.pc.SReject?
             case SPrepareTower => (n.pc.SPreHooks? && n.checks.hooksRun == []) || n.pc.SReject?
    ensures Feed(cfg, n, Rest(v, Fill(v, a, env))[1..]) == Feed(cfg, n, Rest(n, env))
  {
    CheckLeaves(cfg, v, a, env);
    CheckRests(v, n, env);
    hide Feed, Fill, FromHooks, FromReply, AfterCheck, Rest, Answers;
    if n.pc.SReject? {
      RefusalSkipsChecks(cfg, n, v.pc, env);
    }
  }

  lemma CheckRests(v: Server, n: Server, env: ServerEnv)
    requires AtCheck(v.pc) && (n.pc.SPreHooks? ==> n.checks.hooksRun == [])
    ensures n.pc.SReject? ==> Rest(n, env) == FromReply(env.switch)
    ensures match v.pc
            case SAwaitVersion => n.pc.SAwaitRequest? ==> Same(AfterCheck(v.pc, env), Rest(n, env))
            case SAwaitRequest => n.pc.SSendVersion? ==> Same(AfterCheck(v.pc, env), Rest(n, env))
            case SSendVersion => n.pc.SGossip? ==> Same(AfterCheck(v.pc, env), Rest(n, env))
            case SGossip => n.pc.SConfirm? ==> Same(AfterCheck(v.pc, env), Rest(n, env))
            case SConfirm => n.pc.SSample? ==> Same(AfterCheck(v.pc, env), Rest(n, env))
            case SSample => n.pc.SPrepareTower? ==> Same(AfterCheck(v.pc, env), Rest(n, env))
            case SPrepareTower => n.pc.SPreHooks? ==> Same(AfterCheck(v.pc, env), Rest(n, env))
  {
    hide FromRequest, FromAnswer, FromGossip, FromConfirm, FromSample, FromPrepare, FromHooks, FromReply;
  }

  lemma HookGoesOn(cfg: Config, v: Server, a: ServerAction, n: Server, env: ServerEnv)
    requires v.pc.SPreHooks? && Answers(cfg, v, a) && EnvFits(cfg, env)
    requires if a.ServerHook? then (n.pc.SPreHooks? && |n.checks.hooksRun| == |v.checks.hooksRun| + 1) || n.pc.SReject?
             else n.pc.SSendProceed?
    ensures Feed(cfg, n, Rest(v, Fill(v, a, env))[1..]) == Feed(cfg, n, Rest(n, env))
  {
    HookLeaves(cfg, v, a, env);
    HookRests(n, env);
    hide Feed, Fill, FromHooks, FromReply, Rest;
    if n.pc.SReject? {
      RefusalSkipsHooks(cfg, n, env, |v.checks.hooksRun| + 1);
    }
  }

  lemma HookRests(n: Server, env: ServerEnv)
    ensures n.pc.SPreHooks? ==> Rest(n, env) == FromHooks(env, |n.checks.hooksRun|)
    ensures n.pc.SReject? || n.pc.SSendProceed? ==> Rest(n, env) == FromReply(env.switch)
  {
    hide FromHooks, FromReply;
  }

  /** Without tower sync the answers about the tower are passed over, and so is the end slot when the
      switch failed. */
  lemma SwitchGoesOn(cfg: Config, v: Server, a: ServerAction, n: Server, env: ServerEnv)
    requires !Flow.Checking(v.pc) && Answers(cfg, v, a)
    requires match v.pc
             case SSendProceed => n.pc.SSetActive? || n.pc.SAwaitTower?
             case SAwaitTower => n.pc.SWriteTower?
             case SWriteTower => n.pc.SSetActive?
             case SSetActive => n.pc.SEndSlot? || n.pc.SSendRollback?
             case SEndSlot => n.pc.SSendDone?
             case SSendRollback => n.pc.SRollback?
             case _ => false
    ensures Feed(cfg, n, Rest(v, Fill(v, a, env))[1..]) == Feed(cfg, n, Rest(n, env))
  {
    SwitchLeaves(cfg, v, a, env);
    assert Rest(v, Fill(v, a, env))[1..] == AfterSwitch(v.pc, env.switch);
    hide Feed, Fill, FromTower, FromWrite, FromSwitch, FromEndSlot, FromVerdict, FromRollback, FromReply, FromHooks, Rest,
      AfterSwitch, Answers;
    if v.pc.SSendProceed? && n.pc.SSetActive? {
      SkippingGoesOn(cfg, n, env);
    } else if n.pc.SSendRollback? {
      RollingBackGoesOn(cfg, n, env);
    } else {
      NextRests(v, n, env);
    }
  }

  lemma SkippingGoesOn(cfg: Config, n: Server, env: ServerEnv)
    requires n.pc.SSetActive?
    ensures Feed(cfg, n, AfterSwitch(SSendProceed, env.switch)) == Feed(cfg, n, Rest(n, env))
  {
    hide Feed, FromTower, FromSwitch;
    TowerPassedOver(cfg, n, env.switch);
  }

  lemma RollingBackGoesOn(cfg: Config, n: Server, env: ServerEnv)
    requires n.pc.SSendRollback?
    ensures Feed(cfg, n, AfterSwitch(SSetActive, env.switch)) == Feed(cfg, n, Rest(n, env))
  {
    hide Feed, FromEndSlot, FromVerdict;
    EndSlotPassedOver(cfg, n, env.switch);
  }

  lemma NextRests(v: Server, n: Server, env: ServerEnv)
    requires match v.pc
             case SSendProceed => n.pc.SAwaitTower?
             case SAwaitTower => n.pc.SWriteTower?
             case SWriteTower => n.pc.SSetActive?
             case SSetActive => n.pc.SEndSlot?
             case SEndSlot => n.pc.SSendDone?
             case SSendRollback => n.pc.SRollback?
             case _ => false
    ensures Same(AfterSwitch(v.pc, env.switch), Rest(n, env))
  {
    hide FromTower, FromWrite, FromSwitch, FromEndSlot, FromVerdict, FromRollback, FromReply, FromHooks;
  }

  lemma GoesOn(cfg: Config, v: Server, a: ServerAction, env: ServerEnv)
    requires EnvFits(cfg, env) && (AtCheck(v.pc) ==> v.checks.hooksRun == [])
    requires ServerStep(cfg, v, a).ServerMoved? && !Next(cfg, v, a).pc.SDone?
    ensures Feed(cfg, Next(cfg, v, a), Rest(v, Fill(v, a, env))[1..]) == Feed(cfg, Next(cfg, v, a), Rest(Next(cfg, v, a), env))
  {
    var n := Next(cfg, v, a);
    Flow.ServerFollowsEdge(cfg, v, a);
    MovesOnAnswer(cfg, v, a);
    hide ServerStep, EnvFits, Feed, Fill, Rest, Flow.SameRoles, SameVersion, GossipShows;
    if AtCheck(v.pc) {
      CheckGoesOn(cfg, v, a, n, env);
    } else if v.pc.SPreHooks? {
      HookGoesOn(cfg, v, a, n, env);
    } else {
      SwitchGoesOn(cfg, v, a, n, env);
    }
  }

  lemma StaysFresh(cfg: Config, v: Server, a: ServerAction)
    requires AtCheck(v.pc) ==> v.checks.hooksRun == []
    requires ServerStep(cfg, v, a).ServerMoved?
    ensures AtCheck(Next(cfg, v, a).pc) ==> Next(cfg, v, a).checks.hooksRun == []
  {
    Flow.ServerFollowsEdge(cfg, v, a);
    hide ServerStep, Flow.ServerCheckEdge, Flow.ServerFinishEdge;
    if Flow.Checking(v.pc) {
      CheckStaysFresh(cfg, v, a, ServerStep(cfg, v, a));
    } else {
      NoCheckAgain(cfg, v, a, ServerStep(cfg, v, a));
    }
  }

  lemma CheckStaysFresh(cfg: Config, v: Server, a: ServerAction, r: ServerResult)
    requires r.ServerMoved? && Flow.Checking(v.pc) && Flow.ServerCheckEdge(cfg, v, a, r)
    ensures AtCheck(r.next.pc) ==> AtCheck(v.pc) && r.next.checks.hooksRun == v.checks.hooksRun
  {
    hide Flow.SameRoles, Flow.HookRan, SameVersion, GossipShows;
  }

  lemma NoCheckAgain(cfg: Config, v: Server, a: ServerAction, r: ServerResult)
    requires r.ServerMoved? && !Flow.Checking(v.pc) && !v.pc.SDone? && Flow.ServerFinishEdge(cfg, v, a, r)
    ensures !AtCheck(r.next.pc)
  {
    hide Flow.SameRoles, Flow.SameChecks;
  }

  /** The script's first answer moves the server as the given one does. */
  lemma ScriptStarts(cfg: Config, v: Server, a: ServerAction, env: ServerEnv)
    requires EnvFits(cfg, env) && ServerStep(cfg, v, a).ServerMoved?
    ensures var script := Rest(v, Fill(v, a, env));
            && |script| > 0
            && Feed(cfg, v, script).0 == Feed(cfg, Next(cfg, v, a), script[1..]).0
            && Feed(cfg, v, script).1 == StepSends(cfg, v, a) + Feed(cfg, Next(cfg, v, a), script[1..]).1
  {
    hide ServerStep, Feed, Rest, Fill, EnvFits;
    MovesOnAnswer(cfg, v, a);
    FirstIsAnswer(cfg, v, a, env);
    var script := Rest(v, Fill(v, a, env));
    assert script == [script[0]] + script[1..];
    FeedFront(cfg, v, script[0], script[1..]);
    if v.pc.SRollback? {
      RollbackIgnoresTimes(cfg, v, a);
    }
  }

  /** A program that got to its end on some answers gets there, with the same state and the same
      frames, on the rest of the script of the environment those answers make up. */
  lemma {:induction false} AnswersAreTheRest(cfg: Config, v: Server, answers: seq<ServerAction>)
    requires AtCheck(v.pc) ==> v.checks.hooksRun == []
    requires Feed(cfg, v, answers).0.pc.SDone?
    ensures Feed(cfg, v, Rest(v, EnvOf(cfg, v, answers))) == Feed(cfg, v, answers)
    decreases |answers|
  {
    hide ServerStep, Feed, Rest, Fill, EnvFits;
    if answers == [] {
      FeedNothing(cfg, v);
      EndedFeed(cfg, v, Rest(v, EnvOf(cfg, v, answers)));
    } else {
      var a, rest := answers[0], answers[1..];
      var n, env := Next(cfg, v, a), EnvOf(cfg, Next(cfg, v, a), rest);
      assert answers == [a] + rest;
      if ServerStep(cfg, v, a).ServerBlocked? {
        FeedBlocked(cfg, v, a, rest);
        AnswersAreTheRest(cfg, v, rest);
      } else {
        EnvOfFits(cfg, n, rest);
        StaysFresh(cfg, v, a);
        FeedFront(cfg, v, a, rest);
        AnswersAreTheRest(cfg, n, rest);
        ScriptStarts(cfg, v, a, env);
        if n.pc.SDone? {
          EndedFeed(cfg, n, rest);
          EndedFeed(cfg, n, Rest(v, Fill(v, a, env))[1..]);
        } else {
          GoesOn(cfg, v, a, env);
        }
      }
    }
  }

  /** From the start, the whole script. */
  lemma AnswersAreAScript(cfg: Config, v: Server, answers: seq<ServerAction>)
    requires v.pc.SAwaitVersion? && v.checks.hooksRun == []
    requires Feed(cfg, v, answers).0.pc.SDone?
    ensures EnvFits(cfg, EnvOf(cfg, v, answers))
    ensures Feed(cfg, v, Script(EnvOf(cfg, v, answers))) == Feed(cfg, v, answers)
  {
    hide Feed, EnvFits, EnvOf, Script, FromStart;
    AnswersAreTheRest(cfg, v, answers);
    EnvOfFits(cfg, v, answers);
    StartIsScript(EnvOf(cfg, v, answers));
  }
}

/**
 The answers a client got, whatever they were, as one environment of the active node's program: the
 program run in that environment gets the same answers and so ends in the same state.
 */
module ClientScripts {
  import opened Wrappers
  import opened Protocol
  import opened Streams
  import opened ClientProgram
  import Flow

  // ----- The answers of a run as an environment of the program

  /** `env` with `a` as the answer at the client's program point. */
  function Fill(c: Client, a: ClientAction, env: ClientEnv): ClientEnv {
    match (c.pc, a)
    case (CSendVersion, ClientSend(o)) => env.(opening := env.opening.(version := o))
    case (CSendRequest, ClientSend(o)) => env.(opening := env.opening.(request := o))
    case (CAwaitVersion, ClientReceive(frame)) => env.(opening := env.opening.(versionReply := frame))
    case (CAwaitSignal, ClientReceive(frame)) => env.(opening := env.opening.(signal := frame))
    case (CLeaderWait, ClientLeaderWait(passed)) => env.(opening := env.opening.(leaderWait := passed))
    case (CPreHooks, ClientHook(ok)) =>
      var i := |c.notes.hooksRun|;
      if i < |env.hooks| then env.(hooks := env.hooks[i := ok]) else env
    case (CNextSlot, ClientNextSlot(observed, next)) => env.(switch := env.switch.(observed := observed, nextSlot := next))
    case (CSetPassive, ClientCommand(o, start, end)) => 
      env.(switch := env.switch.(command := o, commandStart := start, commandEnd := end))
    case (CReadTower, ClientReadTower(ok, start, end)) => 
      env.(switch := env.switch.(towerRead := ok, towerStart := start, towerEnd := end))
    case (CSendTower, ClientSend(o)) => env.(switch := env.switch.(towerSent := o))
    case (CAwaitOutcome, ClientReceive(frame)) => env.(switch := env.switch.(verdict := frame))
    case (CRollback, ClientCommand(o, _, _)) => env.(switch := env.switch.(rollback := o))
    case _ => env
  }

  /** What a program that has ended no longer asks for. */
  function AnyEnv(cfg: Config): ClientEnv {
    ClientEnv(
      OpeningEnv(Sent, Sent, None, None, true), seq(|cfg.preWhenActive|, i => true),
      SwitchEnv(0, None, Succeeded, 1, 1, true, 1, 1, Sent, None, Succeeded))
  }

  /** The environment a list of answers amounts to, leaving out those the client had no use for. */
  function EnvOf(cfg: Config, c: Client, answers: seq<ClientAction>): ClientEnv
    decreases |answers|
  {
    if answers == [] then AnyEnv(cfg)
    else
      match ClientStep(cfg, c, answers[0])
      case ClientBlocked => EnvOf(cfg, c, answers[1..])
      case ClientMoved(n, _, _) => Fill(c, answers[0], EnvOf(cfg, n, answers[1..]))
  }

  /** What `Start` requires of an environment. */
  predicate EnvFits(cfg: Config, env: ClientEnv) {
    |env.hooks| == |cfg.preWhenActive| && (env.switch.nextSlot.Some? ==> env.switch.nextSlot.value > env.switch.observed)
  }

  lemma FillFits(cfg: Config, c: Client, a: ClientAction, env: ClientEnv)
    requires EnvFits(cfg, env) && ClientStep(cfg, c, a).ClientMoved?
    ensures EnvFits(cfg, Fill(c, a, env))
  {
    if !c.pc.CNextSlot? {
      hide ClientStep;
    }
  }

  lemma {:induction false} EnvOfFits(cfg: Config, c: Client, answers: seq<ClientAction>)
    ensures EnvFits(cfg, EnvOf(cfg, c, answers))
    decreases |answers|
  {
    hide ClientStep, Fill, EnvFits;
    if answers == [] {
      AnyEnvFits(cfg);
    } else {
      match ClientStep(cfg, c, answers[0])
      case ClientBlocked => EnvOfFits(cfg, c, answers[1..]);
      case ClientMoved(n, _, _) =>
        EnvOfFits(cfg, n, answers[1..]);
        FillFits(cfg, c, answers[0], EnvOf(cfg, n, answers[1..]));
    }
  }

  lemma AnyEnvFits(cfg: Config)
    ensures EnvFits(cfg, AnyEnv(cfg))
  {
  }

  // ----- The rest of the script at each program point

  function FromRollback(env: SwitchEnv): seq<ClientAction> { [ClientCommand(env.rollback, 1, 1)] }
  function FromOutcome(env: SwitchEnv): seq<ClientAction> { [ClientReceive(env.verdict)] + FromRollback(env) }
  function FromSendTower(env: SwitchEnv): seq<ClientAction> { [ClientSend(env.towerSent)] + FromOutcome(env) }
  function FromReadTower(env: SwitchEnv): seq<ClientAction> {
    [ClientReadTower(env.towerRead, env.towerStart, env.towerEnd)] + FromSendTower(env)
  }
  function FromSwitch(env: SwitchEnv): seq<ClientAction> {
    [ClientCommand(env.command, env.commandStart, env.commandEnd)] + FromReadTower(env)
  }
  function FromSlot(env: SwitchEnv): seq<ClientAction> { [ClientNextSlot(env.observed, env.nextSlot)] + FromSwitch(env) }
  function FromHooks(env: ClientEnv, i: nat): seq<ClientAction>
    decreases |env.hooks| - i
  {
    if i < |env.hooks| then [ClientHook(env.hooks[i])] + FromHooks(env, i + 1) else [ClientHooksOver] + FromSlot(env.switch)
  }
  function FromWait(env: ClientEnv): seq<ClientAction> { [ClientLeaderWait(env.opening.leaderWait)] + FromHooks(env, 0) }
  function FromSignal(env: ClientEnv): seq<ClientAction> { [ClientReceive(env.opening.signal)] + FromWait(env) }
  function FromVersion(env: ClientEnv): seq<ClientAction> { [ClientReceive(env.opening.versionReply)] + FromSignal(env) }
  function FromRequest(env: ClientEnv): seq<ClientAction> { [ClientSend(env.opening.request)] + FromVersion(env) }
  function FromStart(env: ClientEnv): seq<ClientAction> { [ClientSend(env.opening.version)] + FromRequest(env) }

  function Rest(c: Client, env: ClientEnv): seq<ClientAction> {
    match c.pc
    case CSendVersion => FromStart(env)
    case CSendRequest => FromRequest(env)
    case CAwaitVersion => FromVersion(env)
    case CAwaitSignal => FromSignal(env)
    case CLeaderWait => FromWait(env)
    case CPreHooks => FromHooks(env, |c.notes.hooksRun|)
    case CNextSlot => FromSlot(env.switch)
    case CSetPassive => FromSwitch(env.switch)
    case CReadTower => FromReadTower(env.switch)
    case CSendTower => FromSendTower(env.switch)
    case CAwaitOutcome => FromOutcome(env.switch)
    case CRollback => FromRollback(env.switch)
    case CDone(_) => []
  }

  lemma {:induction false} HooksAreScript(env: ClientEnv, i: nat)
    requires i <= |env.hooks|
    ensures FromHooks(env, i) == HookScript(env)[i..] + SwitchScript(env)
    decreases |env.hooks| - i
  {
    if i < |env.hooks| {
      HooksAreScript(env, i + 1);
      assert HookScript(env)[i..] == [ClientHook(env.hooks[i])] + HookScript(env)[i + 1..];
    } else {
      assert FromSlot(env.switch) == SwitchScript(env);
      assert HookScript(env)[i..] == [ClientHooksOver];
    }
  }

  lemma StartIsScript(env: ClientEnv)
    ensures FromStart(env) == Script(env)
  {
    hide FromHooks, HookScript, SwitchScript;
    HooksAreScript(env, 0);
    assert HookScript(env)[0..] == HookScript(env);
  }

  /** The rest of the script depends on no answer given before. */
  lemma {:induction false} HooksLookAhead(env: ClientEnv, env': ClientEnv, i: nat)
    requires |env.hooks| == |env'.hooks| && forall j :: i <= j < |env.hooks| ==> env.hooks[j] == env'.hooks[j]
    requires env.switch == env'.switch
    ensures FromHooks(env, i) == FromHooks(env', i)
    decreases |env.hooks| - i
  {
    hide FromSlot;
    if i < |env.hooks| {
      HooksLookAhead(env, env', i + 1);
    }
  }

  // ----- Feeding the rest of the script is feeding the answers

  function Next(cfg: Config, c: Client, a: ClientAction): Client {
    var r := ClientStep(cfg, c, a);
    if r.ClientMoved? then r.next else c
  }

  lemma {:induction false} FeedFront(cfg: Config, c: Client, a: ClientAction, rest: seq<ClientAction>)
    ensures Feed(cfg, c, [a] + rest).0 == Feed(cfg, Next(cfg, c, a), rest).0
    ensures Feed(cfg, c, [a] + rest).1 == StepSends(cfg, c, a) + Feed(cfg, Next(cfg, c, a), rest).1
    decreases |rest|
  {
    hide ClientStep, Feed;
    FeedNothing(cfg, c);
    FeedNothing(cfg, Next(cfg, c, a));
    if rest == [] {
      assert [a] + rest == [] + [a];
      FeedOne(cfg, c, [], a);
    } else {
      var most, last := rest[..|rest| - 1], rest[|rest| - 1];
      FeedFront(cfg, c, a, most);
      assert [a] + rest == ([a] + most) + [last] && rest == most + [last];
      FeedOne(cfg, c, [a] + most, last);
      FeedOne(cfg, Next(cfg, c, a), most, last);
    }
  }

  lemma FeedBlocked(cfg: Config, c: Client, a: ClientAction, rest: seq<ClientAction>)
    requires ClientStep(cfg, c, a).ClientBlocked?
    ensures Feed(cfg, c, [a] + rest) == Feed(cfg, c, rest)
  {
    hide ClientStep, Feed;
    FeedFront(cfg, c, a, rest);
    assert [] + Feed(cfg, c, rest).1 == Feed(cfg, c, rest).1;
  }

  function StepSends(cfg: Config, c: Client, a: ClientAction): seq<Frame> {
    var r := ClientStep(cfg, c, a);
    if r.ClientMoved? then Frames(r.sent) else []
  }

  lemma FeedNothing(cfg: Config, c: Client)
    ensures Feed(cfg, c, []) == (c, [])
  {
  }

  /** The kind of answer a program point waits for. */
  predicate Answers(cfg: Config, c: Client, a: ClientAction) {
    match c.pc
    case CSendVersion => a.ClientSend?
    case CSendRequest => a.ClientSend?
    case CAwaitVersion => a.ClientReceive?
    case CAwaitSignal => a.ClientReceive?
    case CLeaderWait => a.ClientLeaderWait?
    case CPreHooks =>
      || (a.ClientHook? && |c.notes.hooksRun| < |cfg.preWhenActive|)
      || (a.ClientHooksOver? && |c.notes.hooksRun| == |cfg.preWhenActive|)
    case CNextSlot => a.ClientNextSlot?
    case CSetPassive => a.ClientCommand?
    case CReadTower => a.ClientReadTower?
    case CSendTower => a.ClientSend?
    case CAwaitOutcome => a.ClientReceive?
    case CRollback => a.ClientCommand?
    case CDone(_) => false
  }

  lemma MovesOnAnswer(cfg: Config, c: Client, a: ClientAction)
    requires ClientStep(cfg, c, a).ClientMoved?
    ensures Answers(cfg, c, a)
  {
  }

  /** The filled script puts the same answer to the client first; a rollback's times are not looked at. */
  lemma FirstIsAnswer(cfg: Config, c: Client, a: ClientAction, env: ClientEnv)
    requires Answers(cfg, c, a) && EnvFits(cfg, env)
    ensures var rest := Rest(c, Fill(c, a, env));
            |rest| > 0 && (rest[0] == a || (c.pc.CRollback? && rest[0] == ClientCommand(a.outcome, 1, 1)))
  {
  }

  lemma RollbackIgnoresTimes(cfg: Config, c: Client, a: ClientAction)
    requires c.pc.CRollback? && a.ClientCommand?
    ensures Same(ClientStep(cfg, c, ClientCommand(a.outcome, 1, 1)), ClientStep(cfg, c, a))
  {
  }

  /** The client waits for the hooks, or has not got there. */
  predicate Opening(pc: ClientPc) {
    pc.CSendVersion? || pc.CSendRequest? || pc.CAwaitVersion? || pc.CAwaitSignal? || pc.CLeaderWait?
  }

  lemma OpeningGoesOn(cfg: Config, c: Client, a: ClientAction, n: Client, env: ClientEnv)
    requires Opening(c.pc) && Answers(cfg, c, a) && EnvFits(cfg, env)
    requires match c.pc
             case CSendVersion => n.pc.CSendRequest?
             case CSendRequest => n.pc.CAwaitVersion?
             case CAwaitVersion => n.pc.CAwaitSignal?
             case CAwaitSignal => n.pc.CLeaderWait?
             case CLeaderWait => n.pc.CPreHooks? && n.notes.hooksRun == []
    ensures Rest(c, Fill(c, a, env))[1..] == Rest(n, env)
  {
    hide EnvFits, FromHooks;
    HooksLookAhead(env, Fill(c, a, env), 0);
  }

  lemma HookGoesOn(cfg: Config, c: Client, a: ClientAction, n: Client, env: ClientEnv)
    requires c.pc.CPreHooks? && Answers(cfg, c, a) && EnvFits(cfg, env)
    requires if a.ClientHook? then n.pc.CPreHooks? && |n.notes.hooksRun| == |c.notes.hooksRun| + 1 else n.pc.CNextSlot?
    ensures Rest(c, Fill(c, a, env))[1..] == Rest(n, env)
  {
    hide FromSlot;
    if a.ClientHook? {
      HookKeepsSlot(c, a, env);
      HooksLookAhead(env, Fill(c, a, env), |c.notes.hooksRun| + 1);
    }
  }

  lemma HookKeepsSlot(c: Client, a: ClientAction, env: ClientEnv)
    requires c.pc.CPreHooks? && a.ClientHook?
    ensures FromSlot(Fill(c, a, env).switch) == FromSlot(env.switch)
  {
  }

  /** The script left after a step past the hooks. */
  function AfterSwitch(pc: ClientPc, env: SwitchEnv): seq<ClientAction> {
    match pc
    case CNextSlot => FromSwitch(env)
    case CSetPassive => FromReadTower(env)
    case CReadTower => FromSendTower(env)
    case CSendTower => FromOutcome(env)
    case CAwaitOutcome => FromRollback(env)
    case _ => []
  }

  lemma SwitchLeaves(cfg: Config, c: Client, a: ClientAction, env: ClientEnv)
    requires !Opening(c.pc) && !c.pc.CPreHooks? && Answers(cfg, c, a)
    ensures Rest(c, Fill(c, a, env))[1..] == AfterSwitch(c.pc, env.switch)
  {
  }

  /** Past the hooks; without tower sync the two answers about the tower are passed over. */
  lemma SwitchGoesOn(cfg: Config, c: Client, a: ClientAction, n: Client, env: ClientEnv)
    requires !Opening(c.pc) && !c.pc.CPreHooks? && Answers(cfg, c, a)
    requires match c.pc
             case CNextSlot => n.pc.CSetPassive?
             case CSetPassive => n.pc.CReadTower? || n.pc.CAwaitOutcome?
             case CReadTower => n.pc.CSendTower?
             case CSendTower => n.pc.CAwaitOutcome?
             case CAwaitOutcome => n.pc.CRollback?
             case CRollback => false
    ensures Feed(cfg, n, Rest(c, Fill(c, a, env))[1..]) == Feed(cfg, n, Rest(n, env))
  {
    SwitchLeaves(cfg, c, a, env);
    assert Rest(c, Fill(c, a, env))[1..] == AfterSwitch(c.pc, env.switch);
    hide Feed, Fill, Answers, Rest, AfterSwitch;
    if c.pc.CSetPassive? && n.pc.CAwaitOutcome? {
      SkippingGoesOn(cfg, n, env);
    } else {
      NextRests(c, n, env);
    }
  }

  lemma SkippingGoesOn(cfg: Config, n: Client, env: ClientEnv)
    requires n.pc.CAwaitOutcome?
    ensures Feed(cfg, n, AfterSwitch(CSetPassive, env.switch)) == Feed(cfg, n, Rest(n, env))
  {
    hide Feed, FromReadTower, FromOutcome;
    TowerPassedOver(cfg, n, env.switch);
  }

  lemma NextRests(c: Client, n: Client, env: ClientEnv)
    requires match c.pc
             case CNextSlot => n.pc.CSetPassive?
             case CSetPassive => n.pc.CReadTower?
             case CReadTower => n.pc.CSendTower?
             case CSendTower => n.pc.CAwaitOutcome?
             case CAwaitOutcome => n.pc.CRollback?
             case _ => false
    ensures Same(AfterSwitch(c.pc, env.switch), Rest(n, env))
  {
    hide FromSwitch, FromReadTower, FromSendTower, FromOutcome, FromRollback, FromSlot, FromHooks, FromWait, FromSignal,
      FromVersion, FromRequest, FromStart;
  }

  lemma GoesOn(cfg: Config, c: Client, a: ClientAction, env: ClientEnv)
    requires EnvFits(cfg, env) && (Opening(c.pc) ==> c.notes.hooksRun == [])
    requires ClientStep(cfg, c, a).ClientMoved? && !Next(cfg, c, a).pc.CDone?
    ensures Feed(cfg, Next(cfg, c, a), Rest(c, Fill(c, a, env))[1..]) == Feed(cfg, Next(cfg, c, a), Rest(Next(cfg, c, a), env))
  {
    var n := Next(cfg, c, a);
    Flow.ClientFollowsEdge(cfg, c, a);
    MovesOnAnswer(cfg, c, a);
    EdgeFits(cfg, c, a, ClientStep(cfg, c, a));
    hide ClientStep, Flow.ClientEdge, EnvFits, Feed, Fill, Rest, Answers;
    if Opening(c.pc) {
      OpeningGoesOn(cfg, c, a, n, env);
    } else if c.pc.CPreHooks? {
      HookGoesOn(cfg, c, a, n, env);
    } else {
      SwitchGoesOn(cfg, c, a, n, env);
    }
  }

  /** Where an edge that does not end the program leads. */
  lemma EdgeFits(cfg: Config, c: Client, a: ClientAction, r: ClientResult)
    requires r.ClientMoved? && Flow.ClientEdge(cfg, c, a, r) && !r.next.pc.CDone? && Answers(cfg, c, a)
    ensures match c.pc
            case CSendVersion => r.next.pc.CSendRequest?
            case CSendRequest => r.next.pc.CAwaitVersion?
            case CAwaitVersion => r.next.pc.CAwaitSignal?
            case CAwaitSignal => r.next.pc.CLeaderWait?
            case CLeaderWait => r.next.pc.CPreHooks? && r.next.notes.hooksRun == c.notes.hooksRun
            case CPreHooks =>
              if a.ClientHook? then r.next.pc.CPreHooks? && |r.next.notes.hooksRun| == |c.notes.hooksRun| + 1
              else r.next.pc.CNextSlot?
            case CNextSlot => r.next.pc.CSetPassive?
            case CSetPassive => r.next.pc.CReadTower? || r.next.pc.CAwaitOutcome?
            case CReadTower => r.next.pc.CSendTower?
            case CSendTower => r.next.pc.CAwaitOutcome?
            case CAwaitOutcome => r.next.pc.CRollback?
            case _ => false
  {
    hide SameVersion;
  }

  lemma TowerPassedOver(cfg: Config, c: Client, env: SwitchEnv)
    requires c.pc.CAwaitOutcome?
    ensures Feed(cfg, c, FromReadTower(env)) == Feed(cfg, c, FromOutcome(env))
  {
    hide Feed, ClientStep, FromOutcome;
    var read, send := ClientReadTower(env.towerRead, env.towerStart, env.towerEnd), ClientSend(env.towerSent);
    AwaitingIgnores(cfg, c, read);
    AwaitingIgnores(cfg, c, send);
    FeedBlocked(cfg, c, read, FromSendTower(env));
    FeedBlocked(cfg, c, send, FromOutcome(env));
  }

  lemma EndedFeed(cfg: Config, c: Client, actions: seq<ClientAction>)
    requires c.pc.CDone?
    ensures Feed(cfg, c, actions) == (c, [])
  {
    hide Feed, ClientStep;
    FeedNothing(cfg, c);
    assert [] + actions == actions;
    EndedIgnores(cfg, c, [], actions);
  }

  lemma StaysFresh(cfg: Config, c: Client, a: ClientAction)
    requires Opening(c.pc) ==> c.notes.hooksRun == []
    requires ClientStep(cfg, c, a).ClientMoved?
    ensures Opening(Next(cfg, c, a).pc) ==> Next(cfg, c, a).notes.hooksRun == []
  {
    Flow.ClientFollowsEdge(cfg, c, a);
    hide ClientStep, Flow.HookRan, SameVersion;
  }

  /** The script's first answer moves the client as the given one does. */
  lemma ScriptStarts(cfg: Config, c: Client, a: ClientAction, env: ClientEnv)
    requires EnvFits(cfg, env) && ClientStep(cfg, c, a).ClientMoved?
    ensures var script := Rest(c, Fill(c, a, env));
            && |script| > 0
            && Feed(cfg, c, script).0 == Feed(cfg, Next(cfg, c, a), script[1..]).0
            && Feed(cfg, c, script).1 == StepSends(cfg, c, a) + Feed(cfg, Next(cfg, c, a), script[1..]).1
  {
    hide ClientStep, Feed, Rest, Fill, EnvFits;
    MovesOnAnswer(cfg, c, a);
    FirstIsAnswer(cfg, c, a, env);
    var script := Rest(c, Fill(c, a, env));
    assert script == [script[0]] + script[1..];
    FeedFront(cfg, c, script[0], script[1..]);
    if c.pc.CRollback? {
      RollbackIgnoresTimes(cfg, c, a);
    }
  }

  /** A program that got to its end on some answers gets there, with the same state and the same
      frames, on the rest of the script of the environment those answers make up. */
  lemma {:induction false} AnswersAreTheRest(cfg: Config, c: Client, answers: seq<ClientAction>)
    requires Opening(c.pc) ==> c.notes.hooksRun == []
    requires Feed(cfg, c, answers).0.pc.CDone?
    ensures Feed(cfg, c, Rest(c, EnvOf(cfg, c, answers))) == Feed(cfg, c, answers)
    decreases |answers|
  {
    hide ClientStep, Feed, Rest, Fill, EnvFits;
    if answers == [] {
      FeedNothing(cfg, c);
      EndedFeed(cfg, c, Rest(c, EnvOf(cfg, c, answers)));
    } else {
      var a, rest := answers[0], answers[1..];
      var n, env := Next(cfg, c, a), EnvOf(cfg, Next(cfg, c, a), rest);
      assert answers == [a] + rest;
      if ClientStep(cfg, c, a).ClientBlocked? {
        FeedBlocked(cfg, c, a, rest);
        AnswersAreTheRest(cfg, c, rest);
      } else {
        EnvOfFits(cfg, n, rest);
        StaysFresh(cfg, c, a);
        FeedFront(cfg, c, a, rest);
        AnswersAreTheRest(cfg, n, rest);
        ScriptStarts(cfg, c, a, env);
        if n.pc.CDone? {
          EndedFeed(cfg, n, rest);
          EndedFeed(cfg, n, Rest(c, Fill(c, a, env))[1..]);
        } else {
          GoesOn(cfg, c, a, env);
        }
      }
    }
  }

  /** From the start, the whole script. */
  lemma AnswersAreAScript(cfg: Config, c: Client, answers: seq<ClientAction>)
    requires c.pc.CSendVersion? && c.notes.hooksRun == []
    requires Feed(cfg, c, answers).0.pc.CDone?
    ensures EnvFits(cfg, EnvOf(cfg, c, answers))
    ensures Feed(cfg, c, Script(EnvOf(cfg, c, answers))) == Feed(cfg, c, answers)
  {
    hide Feed, EnvFits, EnvOf, Script, FromStart;
    AnswersAreTheRest(cfg, c, answers);
    EnvOfFits(cfg, c, answers);
    StartIsScript(EnvOf(cfg, c, answers));
  }
}

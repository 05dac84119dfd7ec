/**
 The control flow of the two programs: where one action can take each, and what it does to
 everything but the messages. Each program point is looked at once here; the theorems about
 roles, gates, towers, outcomes and progress follow the edges.
 */
module Flow {
  import opened Wrappers
  import opened Messages
  import opened Protocol

  /** The client has not finished its checks. */
  predicate Preparing(pc: ClientPc) {
    || pc.CSendVersion? || pc.CSendRequest? || pc.CAwaitVersion? || pc.CAwaitSignal? || pc.CLeaderWait? || pc.CPreHooks?
  }

  /** The client has run its set-identity command and not ended. */
  predicate AfterSwitch(pc: ClientPc) {
    pc.CReadTower? || pc.CSendTower? || pc.CAwaitOutcome? || pc.CRollback?
  }

  predicate SameClient(c: Client, n: Client) {
    && n.active == c.active && n.wentPassive == c.wentPassive && n.tower == c.tower && n.skip == c.skip
    && n.notes.hooksRun == c.notes.hooksRun
  }

  predicate Leaves(pc: ClientPc, outcome: ClientOutcome) {
    pc.CDone? && pc.outcome == outcome
  }

  predicate ClientEnds(n: Client, faults: set<Fault>, outcome: ClientOutcome, cause: Fault) {
    Leaves(n.pc, outcome) && faults == {cause}
  }

  /** One more hook has run, and the program goes on only past a failure it may ignore. */
  predicate HookRan(hooks: seq<Hook>, run: seq<bool>, run': seq<bool>, ok: bool, goesOn: bool) {
    && |run| < |hooks| && |run'| == |run| + 1 && run'[..|run|] == run && run'[|run|] == ok
    && (goesOn <==> run'[|run|] || !hooks[|run|].mustSucceed)
  }

  /** Where the client can go from `c`. */
  ghost predicate ClientEdge(cfg: Config, c: Client, a: ClientAction, r: ClientResult)
    requires r.ClientMoved?
  {
    var n, faults := r.next, r.faults;
    match c.pc
    case CSendVersion =>
      SameClient(c, n) && ((n.pc.CSendRequest? && r.sent.Some? && faults == {}) || ClientEnds(n, faults, NotStarted, OpeningSendFault))
    case CSendRequest =>
      SameClient(c, n) && ((n.pc.CAwaitVersion? && r.sent.Some? && faults == {}) || ClientEnds(n, faults, NotStarted, OpeningSendFault))
    case CAwaitVersion =>
      && SameClient(c, n) && faults == {} && r.sent.None? && a.ClientReceive?
      && if a.frame.Some? && a.frame.value.Version? then
           if a.frame.value.version == cfg.clientWire then n.pc.CAwaitSignal? else Leaves(n.pc, WireMismatch)
         else Leaves(n.pc, NoSignal)
    case CAwaitSignal =>
      && n.active == c.active && n.wentPassive == c.wentPassive && n.tower == c.tower && n.notes.hooksRun == c.notes.hooksRun
      && faults == {} && r.sent.None? && a.ClientReceive?
      && if a.frame.Some? && a.frame.value.Gob? then
           && (n.pc.CLeaderWait? || n.pc.CDone?)
           && (n.pc.CDone? ==> n.pc.outcome.VersionMismatch? || n.pc.outcome.Refused?)
           && (n.pc.CDone? && n.pc.outcome.VersionMismatch? <==>
                 !SameVersion(n.msg.passiveNodeInfo.failoverVersion, cfg.clientVersion))
           && (n.pc.CDone? && n.pc.outcome.Refused? ==> !n.msg.canProceed && n.pc.outcome.reason == n.msg.errorMessage)
           && (n.pc.CLeaderWait? ==> n.msg.canProceed)
         else Leaves(n.pc, NoSignal)
    case CLeaderWait =>
      SameClient(c, n) && r.sent.None? && ((n.pc.CPreHooks? && faults == {}) || ClientEnds(n, faults, WaitFailed, WaitFault))
    case CPreHooks =>
      && n.active == c.active && n.wentPassive == c.wentPassive && n.tower == c.tower && n.skip == c.skip && r.sent.None?
      && if a.ClientHook? then
           && HookRan(cfg.preWhenActive, c.notes.hooksRun, n.notes.hooksRun, a.ok, n.pc.CPreHooks?)
           && ((n.pc.CPreHooks? && faults == {}) || ClientEnds(n, faults, PreHookFailed, HookFault))
         else n.pc.CNextSlot? && n.notes.hooksRun == c.notes.hooksRun && |c.notes.hooksRun| == |cfg.preWhenActive| && faults == {}
    case CNextSlot =>
      SameClient(c, n) && r.sent.None? && ((n.pc.CSetPassive? && faults == {}) || ClientEnds(n, faults, SlotFailed, WaitFault))
    case CSetPassive =>
      && n.tower == c.tower && n.skip == c.skip && n.notes.hooksRun == c.notes.hooksRun && r.sent.None?
      && (c.msg.isDryRunFailover ==> n.active == c.active)
      && (n.active ==> c.active)
      && if n.pc.CDone? then n.wentPassive == c.wentPassive && ClientEnds(n, faults, SetPassiveFailed, ClientCommandFault)
         else
           && n.wentPassive && (n.active ==> c.msg.isDryRunFailover) && faults == {}
           && (if c.skip then n.pc.CAwaitOutcome? else n.pc.CReadTower?)
    case CReadTower =>
      && SameClient(c, n) && r.sent.None?
      && ((n.pc.CSendTower? && n.msg.activeNodeInfo.towerFileBytes == c.tower && faults == {})
          || ClientEnds(n, faults, TowerUnread, TowerReadFault))
    case CSendTower =>
      && SameClient(c, n)
      && ((n.pc.CAwaitOutcome? && r.sent.Some? && faults == {}) || ClientEnds(n, faults, TowerUnsent, TowerSendFault))
      && (r.sent.Some? ==> r.sent.value == Gob(Encode(c.msg)))
    case CAwaitOutcome =>
      && SameClient(c, n) && faults == {} && r.sent.None? && a.ClientReceive?
      && if a.frame.Some? && a.frame.value.Gob? then
           if n.msg.rollbackRequired then
             if cfg.clientRollback && c.wentPassive then n.pc.CRollback? else Leaves(n.pc, RollbackDisabled)
           else Leaves(n.pc, if n.msg.isSuccessfullyCompleted then Completed else ServerGaveUp)
         else Leaves(n.pc, ConnectionLost)
    case CRollback =>
      && n.wentPassive == c.wentPassive && n.tower == c.tower && n.skip == c.skip && n.notes.hooksRun == c.notes.hooksRun && r.sent.None?
      && Leaves(n.pc, RolledBack) && (c.active ==> n.active)
      && (n.active != c.active ==> cfg.toActiveCmd != "" && !c.msg.isDryRunFailover)
      && (faults == {ToActiveFault} || (faults == {} &&
           n.active == (c.active || (cfg.toActiveCmd != "" && !c.msg.isDryRunFailover))))
    case CDone(_) => false
  }

  predicate ClientWrites(pc: ClientPc) {
    pc.CSendVersion? || pc.CSendRequest? || pc.CSendTower?
  }

  predicate ClientReads(pc: ClientPc) {
    pc.CAwaitVersion? || pc.CAwaitSignal? || pc.CAwaitOutcome?
  }

  lemma ClientWriteEdge(cfg: Config, c: Client, a: ClientAction)
    requires ClientWrites(c.pc) && ClientStep(cfg, c, a).ClientMoved?
    ensures ClientEdge(cfg, c, a, ClientStep(cfg, c, a))
  {
    hide Encode, RequestMessage;
  }

  lemma ClientSignalEdge(cfg: Config, c: Client, m: Message)
    requires c.pc.CAwaitSignal?
    ensures var r := ClientAfterSignal(cfg, ClientDecodes(c, m));
            r.ClientMoved? && ClientEdge(cfg, c, ClientReceive(Some(Gob(m))), r)
  {
    hide Decode, SameVersion;
  }

  lemma ClientReplyEdge(cfg: Config, c: Client, a: ClientAction)
    requires c.pc.CAwaitSignal? && ClientStep(cfg, c, a).ClientMoved?
    ensures ClientEdge(cfg, c, a, ClientStep(cfg, c, a))
  {
    hide SameVersion, ClientAfterSignal, ClientDecodes;
    if a.ClientReceive? && a.frame.Some? && a.frame.value.Gob? {
      ClientSignalEdge(cfg, c, a.frame.value.message);
    }
  }

  lemma ClientVersionEdge(cfg: Config, c: Client, a: ClientAction)
    requires c.pc.CAwaitVersion? && ClientStep(cfg, c, a).ClientMoved?
    ensures ClientEdge(cfg, c, a, ClientStep(cfg, c, a))
  {
  }

  lemma ClientVerdictEdge(cfg: Config, c: Client, m: Message)
    requires c.pc.CAwaitOutcome?
    ensures var r := ClientAfterOutcome(cfg, ClientDecodes(c, m));
            r.ClientMoved? && ClientEdge(cfg, c, ClientReceive(Some(Gob(m))), r)
  {
    hide Decode;
  }

  lemma ClientOutcomeEdge(cfg: Config, c: Client, a: ClientAction)
    requires c.pc.CAwaitOutcome? && ClientStep(cfg, c, a).ClientMoved?
    ensures ClientEdge(cfg, c, a, ClientStep(cfg, c, a))
  {
    hide ClientAfterOutcome, ClientDecodes;
    if a.ClientReceive? && a.frame.Some? && a.frame.value.Gob? {
      ClientVerdictEdge(cfg, c, a.frame.value.message);
    }
  }

  lemma ClientWaitEdge(cfg: Config, c: Client, a: ClientAction)
    requires c.pc.CLeaderWait? || c.pc.CPreHooks? || c.pc.CNextSlot?
    requires ClientStep(cfg, c, a).ClientMoved?
    ensures ClientEdge(cfg, c, a, ClientStep(cfg, c, a))
  {
    hide WithStartSlot;
  }

  lemma ClientSwitchEdge(cfg: Config, c: Client, a: ClientAction)
    requires c.pc.CSetPassive? && ClientStep(cfg, c, a).ClientMoved?
    ensures ClientEdge(cfg, c, a, ClientStep(cfg, c, a))
  {
    hide WithActiveSwitchStart, WithActiveSwitchEnd;
  }

  lemma ClientTowerEdge(cfg: Config, c: Client, a: ClientAction)
    requires c.pc.CReadTower? && ClientStep(cfg, c, a).ClientMoved?
    ensures ClientEdge(cfg, c, a, ClientStep(cfg, c, a))
  {
    hide WithTowerStart;
  }

  lemma ClientRollbackEdge(cfg: Config, c: Client, a: ClientAction)
    requires c.pc.CRollback? && ClientStep(cfg, c, a).ClientMoved?
    ensures ClientEdge(cfg, c, a, ClientStep(cfg, c, a))
  {
  }

  lemma ClientDoneEdge(cfg: Config, c: Client, a: ClientAction)
    requires c.pc.CDone?
    ensures ClientStep(cfg, c, a).ClientBlocked?
  {
  }

  /** Every action of the client follows an edge. */
  lemma ClientFollowsEdge(cfg: Config, c: Client, a: ClientAction)
    requires ClientStep(cfg, c, a).ClientMoved?
    ensures ClientEdge(cfg, c, a, ClientStep(cfg, c, a))
  {
    hide ClientStep, ClientEdge;
    match c.pc
    case CAwaitVersion => ClientVersionEdge(cfg, c, a);
    case CAwaitSignal => ClientReplyEdge(cfg, c, a);
    case CLeaderWait => ClientWaitEdge(cfg, c, a);
    case CPreHooks => ClientWaitEdge(cfg, c, a);
    case CNextSlot => ClientWaitEdge(cfg, c, a);
    case CSetPassive => ClientSwitchEdge(cfg, c, a);
    case CReadTower => ClientTowerEdge(cfg, c, a);
    case CAwaitOutcome => ClientOutcomeEdge(cfg, c, a);
    case CRollback => ClientRollbackEdge(cfg, c, a);
    case CDone(_) => ClientDoneEdge(cfg, c, a);
    case _ => ClientWriteEdge(cfg, c, a);
  }

  predicate SameRoles(v: Server, n: Server) {
    n.active == v.active && n.activated == v.activated
  }

  predicate SameChecks(v: Server, n: Server) {
    n.checks == v.checks
  }

  predicate EndsAs(pc: ServerPc, outcome: ServerOutcome) {
    pc.SDone? && pc.outcome == outcome
  }

  predicate ServerEnds(n: Server, faults: set<Fault>, outcome: ServerOutcome, cause: Fault) {
    EndsAs(n.pc, outcome) && faults == {cause}
  }

  predicate Refuses(n: Server, why: Reject) {
    n.pc.SReject? && n.pc.why == why
  }

  /** Where the server can go from `v` before it has sent its go-ahead. */
  ghost predicate ServerCheckEdge(cfg: Config, v: Server, a: ServerAction, r: ServerResult)
    requires r.ServerMoved?
  {
    var n, faults := r.next, r.faults;
    && SameRoles(v, n) && n.identities == v.identities
    && match v.pc
       case SAwaitVersion =>
         && SameChecks(v, n) && n.tower == v.tower && faults == {} && r.sent.None? && a.ServerReceive?
         && if a.frame.Some? && a.frame.value.Version? then
              if a.frame.value.version == cfg.serverWire then n.pc.SAwaitRequest? else EndsAs(n.pc, OtherWire)
            else EndsAs(n.pc, NoRequest)
       case SAwaitRequest =>
         && SameChecks(v, n) && n.tower == v.tower && faults == {} && r.sent.None? && a.ServerReceive?
         && if a.frame.Some? && a.frame.value.Gob? then n.pc.SSendVersion? else EndsAs(n.pc, NoRequest)
       case SSendVersion =>
         && SameChecks(v, n) && n.tower == v.tower
         && if n.pc.SDone? then ServerEnds(n, faults, VersionUnsent, VersionSendFault)
            else
              && r.sent.Some? && faults == {}
              && if SameVersion(v.msg.activeNodeInfo.failoverVersion, cfg.serverVersion) then n.pc.SGossip?
                 else Refuses(n, OtherVersion)
       case SReject(why) =>
         && SameChecks(v, n) && n.tower == v.tower && EndsAs(n.pc, Rejected(why))
         && (faults == {ReplySendFault} || (faults == {} && r.sent.Some?))
         && (r.sent.Some? ==> r.sent.value == Gob(Encode(v.msg)))
       case SGossip =>
         && n.tower == v.tower && r.sent.None? && n.checks == v.checks.(gossip := n.checks.gossip)
         && if n.pc.SConfirm? then
              && faults == {} && a.ServerGossip? && n.checks.gossip == a.answer && n.checks.gossip.Some?
              && GossipShows(v.msg.activeNodeInfo, n.checks.gossip.value.0, n.checks.gossip.value.1)
              && cfg.serverRollback == v.msg.activeRollbackEnabled
            else
              || ((Refuses(n, GossipUnanswered) || Refuses(n, GossipDisagrees)) && faults == {GossipFault})
              || (Refuses(n, RollbackDiffers) && cfg.serverRollback != v.msg.activeRollbackEnabled && faults == {})
       case SConfirm =>
         && n.tower == v.tower && r.sent.None?
         && a.ServerConfirm? && n.pc.SSample? == a.confirmed
         && n.checks == v.checks.(plan := Some(v.msg), confirmed := a.confirmed)
         && ((n.pc.SSample? && faults == {}) || (Refuses(n, Declined) && faults == {DeclinedFault}))
       case SSample =>
         && n.tower == v.tower && r.sent.None? && n.checks == v.checks.(sampled := n.checks.sampled)
         && if n.pc.SPrepareTower? then a.ServerSample? && a.sample.Some? && n.checks.sampled == a.sample && faults == {}
            else Refuses(n, SampleUnavailable) && faults == {SampleFault}
       case SPrepareTower =>
         && r.sent.None? && n.checks == v.checks.(towerReady := n.checks.towerReady)
         && if n.pc.SPreHooks? then
              n.checks.towerReady && faults == {} && n.tower == if cfg.skipTowerSync then None else Some([])
            else Refuses(n, TowerNotPrepared) && faults == {PrepareFault} && n.tower == v.tower
       case SPreHooks =>
         && r.sent.None? && n.checks == v.checks.(hooksRun := n.checks.hooksRun) && n.tower == v.tower
         && if a.ServerHook? then
              && HookRan(cfg.preWhenPassive, v.checks.hooksRun, n.checks.hooksRun, a.ok, n.pc.SPreHooks?)
              && ((n.pc.SPreHooks? && faults == {}) || (Refuses(n, ServerHookFailed) && faults == {HookFault}))
            else n.pc.SSendProceed? && n.checks == v.checks && |v.checks.hooksRun| == |cfg.preWhenPassive| && faults == {}
       case _ => true
  }

  /** Where the server can go from `v` once its go-ahead is ready. */
  ghost predicate ServerFinishEdge(cfg: Config, v: Server, a: ServerAction, r: ServerResult)
    requires r.ServerMoved?
  {
    var n, faults := r.next, r.faults;
    && SameChecks(v, n) && (v.pc.SAwaitTower? || n.identities == v.identities)
    && match v.pc
       case SSendProceed =>
         && SameRoles(v, n) && n.tower == v.tower && (r.sent.Some? ==> r.sent.value == Gob(Encode(v.msg)))
         && if n.pc.SDone? then ServerEnds(n, faults, ProceedUnsent, ReplySendFault)
            else r.sent.Some? && faults == {} && if cfg.skipTowerSync then n.pc.SSetActive? else n.pc.SAwaitTower?
       case SAwaitTower =>
         && SameRoles(v, n) && n.tower == v.tower && faults == {} && r.sent.None? && a.ServerReceive?
         && if a.frame.Some? && a.frame.value.Gob? then n.pc.SWriteTower? || EndsAs(n.pc, HashMismatch)
            else EndsAs(n.pc, NoTower)
       case SWriteTower =>
         && SameRoles(v, n) && r.sent.None?
         && if n.pc.SDone? then ServerEnds(n, faults, TowerUnwritten, TowerWriteFault)
            else
              && n.pc.SSetActive? && faults == {} && n.tower == Some(v.msg.activeNodeInfo.towerFileBytes)
              && n.msg.activeNodeInfo == v.msg.activeNodeInfo
       case SSetActive =>
         && n.tower == v.tower && r.sent.None?
         && if n.pc.SEndSlot? then n.activated && n.active == (v.active || !cfg.dryRun) && faults == {}
            else
              && !cfg.dryRun && n.activated == v.activated && ServerCommandFault in faults
              && faults <= {ServerCommandFault, ServerCommandLied}
              && n.active == (v.active || ServerCommandLied in faults)
              && if cfg.serverRollback then n.pc.SSendRollback? else EndsAs(n.pc, ActivationFailed)
       case SEndSlot =>
         SameRoles(v, n) && n.tower == v.tower && r.sent.None? && n.pc.SSendDone? && faults <= {EndSlotFault}
       case SSendDone =>
         && SameRoles(v, n) && n.tower == v.tower && (r.sent.Some? ==> r.sent.value == Gob(Encode(v.msg)))
         && (ServerEnds(n, faults, CompletionUnsent, VerdictSendFault) || (EndsAs(n.pc, Activated) && r.sent.Some? && faults == {}))
       case SSendRollback =>
         && SameRoles(v, n) && n.tower == v.tower && n.pc.SRollback?
         && (r.sent.Some? ==> r.sent.value == Gob(Encode(v.msg)))
         && (faults == {VerdictSendFault} || (r.sent.Some? && faults == {}))
       case SRollback =>
         && n.activated == v.activated && n.tower == v.tower && r.sent.None? && EndsAs(n.pc, ActivationUndone)
         && (n.active ==> v.active)
         && (faults == {ToPassiveFault} || (faults == {} &&
              n.active == (v.active && (cfg.toPassiveCmd == "" || cfg.dryRun))))
       case _ => true
  }

  predicate Checking(pc: ServerPc) {
    || pc.SAwaitVersion? || pc.SAwaitRequest? || pc.SSendVersion? || pc.SReject? || pc.SGossip? || pc.SConfirm?
    || pc.SSample? || pc.SPrepareTower? || pc.SPreHooks?
  }

  ghost predicate ServerEdge(cfg: Config, v: Server, a: ServerAction, r: ServerResult)
    requires r.ServerMoved?
  {
    !v.pc.SDone? && if Checking(v.pc) then ServerCheckEdge(cfg, v, a, r) else ServerFinishEdge(cfg, v, a, r)
  }

  lemma ServerOpeningEdge(cfg: Config, v: Server, a: ServerAction)
    requires v.pc.SAwaitVersion?
    requires ServerStep(cfg, v, a).ServerMoved?
    ensures ServerCheckEdge(cfg, v, a, ServerStep(cfg, v, a))
  {
    hide Decode;
  }

  lemma ServerRequestEdge(cfg: Config, v: Server, a: ServerAction)
    requires v.pc.SAwaitRequest?
    requires ServerStep(cfg, v, a).ServerMoved?
    ensures ServerCheckEdge(cfg, v, a, ServerStep(cfg, v, a))
  {
    hide Decode;
  }

  lemma ServerPartKeepsRequest(m: Message, dryRun: bool, skip: bool, info: NodeInfo)
    ensures WithServerPart(m, dryRun, skip, info).activeNodeInfo == m.activeNodeInfo
  {
  }

  lemma ServerVersionSentEdge(cfg: Config, v: Server, a: ServerAction)
    requires v.pc.SSendVersion?
    ensures ServerAfterVersion(cfg, v).ServerMoved? && ServerCheckEdge(cfg, v, a, ServerAfterVersion(cfg, v))
  {
    var info := cfg.serverInfo.(identities := v.identities);
    ServerPartKeepsRequest(v.msg, cfg.dryRun, cfg.skipTowerSync, info);
    var m := WithServerPart(v.msg, cfg.dryRun, cfg.skipTowerSync, info);
    hide WithServerPart, WithError, RejectText, SameVersion;
    if !SameVersion(m.activeNodeInfo.failoverVersion, cfg.serverVersion) {
      assert Refuses(ServerAfterVersion(cfg, v).next, OtherVersion);
    }
  }

  lemma ServerVersionEdge(cfg: Config, v: Server, a: ServerAction)
    requires v.pc.SSendVersion?
    requires ServerStep(cfg, v, a).ServerMoved?
    ensures ServerCheckEdge(cfg, v, a, ServerStep(cfg, v, a))
  {
    ServerVersionSentEdge(cfg, v, a);
    hide SameVersion;
  }

  lemma ServerRejectEdge(cfg: Config, v: Server, a: ServerAction)
    requires v.pc.SReject?
    requires ServerStep(cfg, v, a).ServerMoved?
    ensures ServerCheckEdge(cfg, v, a, ServerStep(cfg, v, a))
  {
    hide Encode;
  }

  lemma ServerGossipEdge(cfg: Config, v: Server, a: ServerAction)
    requires v.pc.SGossip?
    requires ServerStep(cfg, v, a).ServerMoved?
    ensures ServerCheckEdge(cfg, v, a, ServerStep(cfg, v, a))
  {
    hide WithError, RejectText, GossipShows;
    if a.ServerGossip? && a.answer.Some? && GossipShows(v.msg.activeNodeInfo, a.answer.value.0, a.answer.value.1) {
      if cfg.serverRollback == v.msg.activeRollbackEnabled {
        assert ServerCheckEdge(cfg, v, a, ServerStep(cfg, v, a));
      }
    }
  }

  lemma ServerConfirmEdge(cfg: Config, v: Server, a: ServerAction)
    requires v.pc.SConfirm?
    requires ServerStep(cfg, v, a).ServerMoved?
    ensures ServerCheckEdge(cfg, v, a, ServerStep(cfg, v, a))
  {
    hide WithError, RejectText;
  }

  lemma ServerSampleEdge(cfg: Config, v: Server, a: ServerAction)
    requires v.pc.SSample?
    requires ServerStep(cfg, v, a).ServerMoved?
    ensures ServerCheckEdge(cfg, v, a, ServerStep(cfg, v, a))
  {
    hide WithError, RejectText, WithSample;
  }

  lemma ServerPrepareEdge(cfg: Config, v: Server, a: ServerAction)
    requires v.pc.SPrepareTower?
    requires ServerStep(cfg, v, a).ServerMoved?
    ensures ServerCheckEdge(cfg, v, a, ServerStep(cfg, v, a))
  {
    hide WithError, RejectText;
  }

  lemma ServerHookEdge(cfg: Config, v: Server, a: ServerAction)
    requires v.pc.SPreHooks?
    requires ServerStep(cfg, v, a).ServerMoved?
    ensures ServerCheckEdge(cfg, v, a, ServerStep(cfg, v, a))
  {
    hide WithError, RejectText, WithGoAhead;
  }

  lemma ServerProceedEdge(cfg: Config, v: Server, a: ServerAction)
    requires v.pc.SSendProceed?
    requires ServerStep(cfg, v, a).ServerMoved?
    ensures ServerFinishEdge(cfg, v, a, ServerStep(cfg, v, a))
  {
    hide Encode;
  }

  lemma ServerTowerReceivedEdge(cfg: Config, v: Server, a: ServerAction, m: Message)
    requires v.pc.SAwaitTower? && a.ServerReceive? && a.frame == Some(Gob(m))
    ensures ServerReceivesTower(cfg, v, m).ServerMoved? && ServerFinishEdge(cfg, v, a, ServerReceivesTower(cfg, v, m))
  {
    hide Decode;
  }

  lemma ServerTowerEdge(cfg: Config, v: Server, a: ServerAction)
    requires v.pc.SAwaitTower?
    requires ServerStep(cfg, v, a).ServerMoved?
    ensures ServerFinishEdge(cfg, v, a, ServerStep(cfg, v, a))
  {
    hide Decode;
    if a.ServerReceive? && a.frame.Some? && a.frame.value.Gob? {
      ServerTowerReceivedEdge(cfg, v, a, a.frame.value.message);
    }
  }

  lemma ServerWriteEdge(cfg: Config, v: Server, a: ServerAction)
    requires v.pc.SWriteTower?
    requires ServerStep(cfg, v, a).ServerMoved?
    ensures ServerFinishEdge(cfg, v, a, ServerStep(cfg, v, a))
  {
  }

  lemma ServerSwitchEdge(cfg: Config, v: Server, a: ServerAction)
    requires v.pc.SSetActive?
    requires ServerStep(cfg, v, a).ServerMoved?
    ensures ServerFinishEdge(cfg, v, a, ServerStep(cfg, v, a))
  {
    hide WithPassiveSwitchStart, WithPassiveSwitchEnd, WithRollbackRequired;
  }

  lemma ServerEndSlotEdge(cfg: Config, v: Server, a: ServerAction)
    requires v.pc.SEndSlot?
    requires ServerStep(cfg, v, a).ServerMoved?
    ensures ServerFinishEdge(cfg, v, a, ServerStep(cfg, v, a))
  {
    hide WithQueriedEndSlot, WithCompleted;
  }

  lemma ServerVerdictEdge(cfg: Config, v: Server, a: ServerAction)
    requires v.pc.SSendDone? || v.pc.SSendRollback?
    requires ServerStep(cfg, v, a).ServerMoved?
    ensures ServerFinishEdge(cfg, v, a, ServerStep(cfg, v, a))
  {
    hide Encode;
  }

  lemma ServerRollbackEdge(cfg: Config, v: Server, a: ServerAction)
    requires v.pc.SRollback?
    requires ServerStep(cfg, v, a).ServerMoved?
    ensures ServerFinishEdge(cfg, v, a, ServerStep(cfg, v, a))
  {
  }

  lemma ServerDoneEdge(cfg: Config, v: Server, a: ServerAction)
    requires v.pc.SDone?
    ensures ServerStep(cfg, v, a).ServerBlocked?
  {
  }

  /** Every action of the server follows an edge. */
  lemma ServerFollowsEdge(cfg: Config, v: Server, a: ServerAction)
    requires ServerStep(cfg, v, a).ServerMoved?
    ensures ServerEdge(cfg, v, a, ServerStep(cfg, v, a))
  {
    hide ServerStep, ServerCheckEdge, ServerFinishEdge;
    match v.pc
    case SAwaitVersion => ServerOpeningEdge(cfg, v, a);
    case SAwaitRequest => ServerRequestEdge(cfg, v, a);
    case SSendVersion => ServerVersionEdge(cfg, v, a);
    case SReject(_) => ServerRejectEdge(cfg, v, a);
    case SGossip => ServerGossipEdge(cfg, v, a);
    case SConfirm => ServerConfirmEdge(cfg, v, a);
    case SSample => ServerSampleEdge(cfg, v, a);
    case SPrepareTower => ServerPrepareEdge(cfg, v, a);
    case SPreHooks => ServerHookEdge(cfg, v, a);
    case SSendProceed => ServerProceedEdge(cfg, v, a);
    case SAwaitTower => ServerTowerEdge(cfg, v, a);
    case SWriteTower => ServerWriteEdge(cfg, v, a);
    case SSetActive => ServerSwitchEdge(cfg, v, a);
    case SEndSlot => ServerEndSlotEdge(cfg, v, a);
    case SSendDone => ServerVerdictEdge(cfg, v, a);
    case SSendRollback => ServerVerdictEdge(cfg, v, a);
    case SRollback => ServerRollbackEdge(cfg, v, a);
    case SDone(_) => ServerDoneEdge(cfg, v, a);
  }
}

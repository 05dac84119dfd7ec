/**
 What one answer of the environment does to a program: which answers count as failures, what a failure
 is recorded as and where it leads, and what the set-identity commands, the hash check and the writes do.
 */
module Answers {
  import opened Wrappers
  import opened Words
  import opened Messages
  import opened Protocol
  import opened Flow

  // ----- The client

  /** Answers that stop the client. In a dry run no command can fail, nor can one that is not there. */
  predicate ClientFailure(cfg: Config, c: Client, a: ClientAction) {
    match a
    case ClientSend(o) => o.SendFailed?
    case ClientReceive(_) => false
    case ClientLeaderWait(passed) => !passed
    case ClientHook(ok) =>
      !ok && |c.notes.hooksRun| < |cfg.preWhenActive| && cfg.preWhenActive[|c.notes.hooksRun|].mustSucceed
    case ClientHooksOver => false
    case ClientNextSlot(_, next) => next.None?
    case ClientCommand(o, _, _) => o.Failed? && !c.msg.isDryRunFailover && (c.pc.CRollback? ==> cfg.toActiveCmd != "")
    case ClientReadTower(ok, _, _) => !ok
  }

  predicate ClientAnswers(cfg: Config, c: Client, a: ClientAction, r: ClientResult) {
    r.ClientMoved? ==>
      && (r.faults != {} <==> ClientFailure(cfg, c, a))
      && (ClientFailure(cfg, c, a) ==> r.next.pc.CDone?)
      && (r.sent.Some? <==> a.ClientSend? && (a.sent.Sent? || a.sent.delivered))
  }

  lemma ClientWritesAnswer(cfg: Config, c: Client, a: ClientAction)
    requires ClientWrites(c.pc)
    ensures ClientAnswers(cfg, c, a, ClientStep(cfg, c, a))
  {
    hide Encode, RequestMessage;
  }

  lemma ClientReadsAnswer(cfg: Config, c: Client, a: ClientAction)
    requires ClientReads(c.pc) || c.pc.CDone?
    ensures ClientAnswers(cfg, c, a, ClientStep(cfg, c, a))
  {
    hide ClientDecodes, SameVersion;
  }

  lemma ClientWaitsAnswer(cfg: Config, c: Client, a: ClientAction)
    requires c.pc.CLeaderWait? || c.pc.CPreHooks? || c.pc.CNextSlot?
    ensures ClientAnswers(cfg, c, a, ClientStep(cfg, c, a))
  {
    hide WithStartSlot;
  }

  lemma ClientSwitchAnswer(cfg: Config, c: Client, a: ClientAction)
    requires c.pc.CSetPassive? || c.pc.CReadTower? || c.pc.CRollback?
    ensures ClientAnswers(cfg, c, a, ClientStep(cfg, c, a))
  {
    hide WithActiveSwitchStart, WithActiveSwitchEnd, WithTowerStart, WithTower;
  }

  /** A step of the client records a fault exactly when its answer is a failure, and a failure ends the
      program; a frame goes out exactly when a write says so, or fails and delivers. */
  lemma ClientFailsIff(cfg: Config, c: Client, a: ClientAction)
    requires ClientStep(cfg, c, a).ClientMoved?
    ensures var r := ClientStep(cfg, c, a);
            && (r.faults != {} <==> ClientFailure(cfg, c, a))
            && (ClientFailure(cfg, c, a) ==> r.next.pc.CDone?)
            && (r.sent.Some? <==> a.ClientSend? && (a.sent.Sent? || a.sent.delivered))
  {
    hide ClientStep, ClientFailure;
    if ClientWrites(c.pc) {
      ClientWritesAnswer(cfg, c, a);
    } else if ClientReads(c.pc) || c.pc.CDone? {
      ClientReadsAnswer(cfg, c, a);
    } else if c.pc.CLeaderWait? || c.pc.CPreHooks? || c.pc.CNextSlot? {
      ClientWaitsAnswer(cfg, c, a);
    } else {
      ClientSwitchAnswer(cfg, c, a);
    }
  }

  /** What the client's two commands do to its role: outside a dry run one that works gives the active
      identity up or takes it back, one that fails does so exactly when it took effect all the same. */
  lemma ClientCommandRoles(cfg: Config, c: Client, o: CommandOutcome, start: Instant, end: Instant)
    ensures var works, r := o.Succeeded? || o.tookEffect, ClientStep(cfg, c, ClientCommand(o, start, end));
            && (c.pc.CSetPassive? ==>
                  r.ClientMoved? && r.next.active == (c.active && (c.msg.isDryRunFailover || !works)))
            && (c.pc.CRollback? ==>
                  && r.ClientMoved?
                  && r.next.active == (c.active || (cfg.toActiveCmd != "" && !c.msg.isDryRunFailover && works)))
  {
    hide WithActiveSwitchStart, WithActiveSwitchEnd;
  }

  // ----- The server

  predicate ServerFailure(cfg: Config, v: Server, a: ServerAction) {
    match a
    case ServerSend(o) => o.SendFailed?
    case ServerReceive(_) => false
    case ServerGossip(answer) => answer != Some((v.msg.activeNodeInfo.publicIP, v.msg.activeNodeInfo.ActivePubKey()))
    case ServerConfirm(yes) => !yes
    case ServerSample(sample) => sample.None?
    case ServerPrepareTower(ok) => !ok && (cfg.skipTowerSync ==> v.tower.Some?)
    case ServerHook(ok) =>
      !ok && |v.checks.hooksRun| < |cfg.preWhenPassive| && cfg.preWhenPassive[|v.checks.hooksRun|].mustSucceed
    case ServerHooksOver => false
    case ServerWriteTower(w, _) => w.WriteFailed?
    case ServerCommand(o, _, _) => o.Failed? && !cfg.dryRun && (v.pc.SRollback? ==> cfg.toPassiveCmd != "")
    case ServerEndSlot(slot) => slot.None?
  }

  /** A failed slot query, a lost verdict and a failed switch do not end the server at once. */
  predicate Stops(pc: ServerPc) {
    pc.SDone? || pc.SReject? || pc.SSendRollback? || pc.SRollback? || pc.SSendDone?
  }

  predicate ServerAnswers(cfg: Config, v: Server, a: ServerAction, r: ServerResult) {
    r.ServerMoved? ==>
      && (r.faults != {} <==> ServerFailure(cfg, v, a))
      && (ServerFailure(cfg, v, a) ==> Stops(r.next.pc))
      && (r.sent.Some? <==> a.ServerSend? && (a.sent.Sent? || a.sent.delivered))
  }

  lemma ServerWritesAnswer(cfg: Config, v: Server, a: ServerAction)
    requires v.pc.SReject? || v.pc.SSendProceed? || v.pc.SSendDone? || v.pc.SSendRollback?
    ensures ServerAnswers(cfg, v, a, ServerStep(cfg, v, a))
  {
    hide Encode;
  }

  lemma ServerVersionAnswer(cfg: Config, v: Server, a: ServerAction)
    requires v.pc.SSendVersion?
    ensures ServerAnswers(cfg, v, a, ServerStep(cfg, v, a))
  {
    hide SameVersion, WithServerPart, WithError, RejectText;
  }

  lemma ServerReadsAnswer(cfg: Config, v: Server, a: ServerAction)
    requires v.pc.SAwaitVersion? || v.pc.SAwaitRequest? || v.pc.SAwaitTower? || v.pc.SDone?
    ensures ServerAnswers(cfg, v, a, ServerStep(cfg, v, a))
  {
    hide Decode;
  }

  lemma ServerChecksAnswer(cfg: Config, v: Server, a: ServerAction)
    requires v.pc.SGossip? || v.pc.SConfirm?
    ensures ServerAnswers(cfg, v, a, ServerStep(cfg, v, a))
  {
    hide WithError, RejectText, NodeInfo.ActivePubKey;
  }

  lemma ServerPreparesAnswer(cfg: Config, v: Server, a: ServerAction)
    requires v.pc.SSample? || v.pc.SPrepareTower? || v.pc.SPreHooks?
    ensures ServerAnswers(cfg, v, a, ServerStep(cfg, v, a))
  {
    hide WithError, RejectText, WithSample, WithGoAhead;
  }

  lemma ServerSwitchAnswer(cfg: Config, v: Server, a: ServerAction)
    requires v.pc.SWriteTower? || v.pc.SSetActive? || v.pc.SEndSlot? || v.pc.SRollback?
    ensures ServerAnswers(cfg, v, a, ServerStep(cfg, v, a))
  {
    hide WithTowerWritten, WithPassiveSwitchStart, WithPassiveSwitchEnd, WithRollbackRequired, WithQueriedEndSlot, WithCompleted;
  }

  /** The same for the server: a failure is refused, ends the program or starts the way to its end. */
  lemma ServerFailsIff(cfg: Config, v: Server, a: ServerAction)
    requires ServerStep(cfg, v, a).ServerMoved?
    ensures var r := ServerStep(cfg, v, a);
            && (r.faults != {} <==> ServerFailure(cfg, v, a))
            && (ServerFailure(cfg, v, a) ==> Stops(r.next.pc))
            && (r.sent.Some? <==> a.ServerSend? && (a.sent.Sent? || a.sent.delivered))
  {
    hide ServerStep, ServerFailure, Stops;
    match v.pc
    case SSendVersion => ServerVersionAnswer(cfg, v, a);
    case SReject(_) => ServerWritesAnswer(cfg, v, a);
    case SSendProceed => ServerWritesAnswer(cfg, v, a);
    case SSendDone => ServerWritesAnswer(cfg, v, a);
    case SSendRollback => ServerWritesAnswer(cfg, v, a);
    case SGossip => ServerChecksAnswer(cfg, v, a);
    case SConfirm => ServerChecksAnswer(cfg, v, a);
    case SSample => ServerPreparesAnswer(cfg, v, a);
    case SPrepareTower => ServerPreparesAnswer(cfg, v, a);
    case SPreHooks => ServerPreparesAnswer(cfg, v, a);
    case SAwaitVersion => ServerReadsAnswer(cfg, v, a);
    case SAwaitRequest => ServerReadsAnswer(cfg, v, a);
    case SAwaitTower => ServerReadsAnswer(cfg, v, a);
    case SDone(_) => ServerReadsAnswer(cfg, v, a);
    case _ => ServerSwitchAnswer(cfg, v, a);
  }

  /** What the server's two commands do to its role. */
  lemma ServerCommandRoles(cfg: Config, v: Server, o: CommandOutcome, start: Instant, end: Instant)
    ensures var works, r := o.Succeeded? || o.tookEffect, ServerStep(cfg, v, ServerCommand(o, start, end));
            && (v.pc.SSetActive? ==>
                  && r.ServerMoved? && r.next.active == (v.active || (!cfg.dryRun && works))
                  && r.next.activated == (v.activated || cfg.dryRun || o.Succeeded?)
                  && (ServerCommandLied in r.faults <==> !cfg.dryRun && o.Failed? && works))
            && (v.pc.SRollback? ==>
                  r.ServerMoved? && r.next.active == (v.active && (cfg.toPassiveCmd == "" || cfg.dryRun || !works)))
  {
    hide WithPassiveSwitchStart, WithPassiveSwitchEnd, WithRollbackRequired;
  }

  /** Whatever frame arrives for the tower message, its bytes are written only if they have the hash that
      came with them; what a failed write leaves in the file is anything. */
  lemma TowerIsChecked(cfg: Config, v: Server, m: Message)
    requires v.pc.SAwaitTower?
    ensures var r, info := ServerStep(cfg, v, ServerReceive(Some(Gob(m)))), Decode(v.msg, m).activeNodeInfo;
            && r.ServerMoved? && r.next.msg == Decode(v.msg, m)
            && r.next.pc == if cfg.towerHash(info.towerFileBytes) == info.towerFileHash then SWriteTower else SDone(HashMismatch)
  {
    hide Decode;
  }

  lemma TowerIsWritten(cfg: Config, v: Server, w: WriteOutcome, at: Instant)
    requires v.pc.SWriteTower?
    ensures var r := ServerStep(cfg, v, ServerWriteTower(w, at));
            r.ServerMoved? && r.next.tower == Some(if w.Written? then v.msg.activeNodeInfo.towerFileBytes else w.content)
  {
    hide WithTowerWritten;
  }
}

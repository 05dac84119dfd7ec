/**
 The failover protocol as a transition system: the active node runs the client, the passive node
 the server, and they talk over one stream.

 Each node's program is a function from its state and one action (what the environment answered:
 a write that went out or failed, a frame that arrived, a command that failed, ...) to its next
 state. `Step` puts the two together with the two directions of the stream. An event that is not
 enabled changes nothing, so every interleaving of the two programs and the environment is a
 sequence of events, and a property of all runs is a property of `Run` from `Init`.
 */
module Protocol {
  import opened Wrappers
  import opened Words
  import opened Messages

  /** One pre or post hook, as far as the protocol cares. */
  datatype Hook = Hook(name: string, mustSucceed: bool)

  /** What the two processes were started with. */
  datatype Config = Config(
    clientInfo: NodeInfo, serverInfo: NodeInfo,
    clientVersion: string, serverVersion: string,
    clientWire: byte, serverWire: byte,
    clientRollback: bool, serverRollback: bool,
    toActiveCmd: string, toPassiveCmd: string,
    dryRun: bool, skipTowerSync: bool,
    preWhenActive: seq<Hook>, preWhenPassive: seq<Hook>,
    towerHash: seq<byte> -> string
  ) {
    /** How two validators build it; `Validators.StartBoth` shows that they do. */
    ghost predicate Valid() {
      && clientInfo.failoverVersion == clientVersion
      && serverInfo.failoverVersion == serverVersion
      && clientInfo.identities.Some? && clientInfo.identities.value.Valid()
      && serverInfo.identities.Some? && serverInfo.identities.value.Valid()
      && clientInfo.towerFileBytes == [] && clientInfo.towerFileHash == ""
      && forall tower :: towerHash(tower) != ""
    }

    /** The two configurations pass every check the nodes make of each other. */
    predicate Compatible() {
      && clientWire == serverWire
      && clientVersion == serverVersion
      && clientRollback == serverRollback
    }
  }

  // ----- What the environment can answer

  /** A failed write may still have put its frame on the stream. */
  datatype SendOutcome = Sent | SendFailed(delivered: bool)

  /** A failing set-identity command may still have changed the identity. */
  datatype CommandOutcome = Succeeded | Failed(tookEffect: bool)

  datatype WriteOutcome = Written | WriteFailed(content: seq<byte>)

  datatype Frame = Version(version: byte) | Gob(message: Message)

  datatype ClientAction =
    | ClientSend(sent: SendOutcome)
    | ClientReceive(frame: Option<Frame>)
    | ClientLeaderWait(passed: bool)
    | ClientHook(ok: bool)
    | ClientHooksOver
    | ClientNextSlot(observed: uint64, next: Option<uint64>)
    | ClientCommand(outcome: CommandOutcome, start: Instant, end: Instant)
    | ClientReadTower(ok: bool, start: Instant, end: Instant)

  datatype ServerAction =
    | ServerSend(sent: SendOutcome)
    | ServerReceive(frame: Option<Frame>)
    | ServerGossip(answer: Option<(string, string)>)
    | ServerConfirm(confirmed: bool)
    | ServerSample(sample: Option<CreditsSample>)
    | ServerPrepareTower(ok: bool)
    | ServerHook(ok: bool)
    | ServerHooksOver
    | ServerWriteTower(written: WriteOutcome, at: Instant)
    | ServerCommand(outcome: CommandOutcome, start: Instant, end: Instant)
    | ServerEndSlot(slot: Option<uint64>)

  /** Everything that can go wrong in a run, kept as history. */
  datatype Fault =
    | OpeningSendFault | TowerSendFault | VersionSendFault | ReplySendFault | VerdictSendFault
    | LinkFault | CrashFault
    | WaitFault | HookFault | GossipFault | DeclinedFault | SampleFault | PrepareFault
    | ClientCommandFault | TowerReadFault | TowerWriteFault
    | ServerCommandFault | ServerCommandLied
    | ToActiveFault | ToPassiveFault | EndSlotFault

  // ----- The client (active node): Client.Start

  datatype ClientOutcome =
    | NotStarted | NoSignal | WireMismatch | VersionMismatch | Refused(reason: string)
    | WaitFailed | PreHookFailed | SlotFailed | SetPassiveFailed | TowerUnread | TowerUnsent
    | ConnectionLost | RolledBack | RollbackDisabled | ServerGaveUp | Completed | Crashed

  datatype ClientPc =
    | CSendVersion | CSendRequest | CAwaitVersion | CAwaitSignal | CLeaderWait | CPreHooks
    | CNextSlot | CSetPassive | CReadTower | CSendTower | CAwaitOutcome | CRollback
    | CDone(outcome: ClientOutcome)

  /** What the client saw on the way to its switch, kept as history. */
  datatype Notes = Notes(observedSlot: uint64, hooksRun: seq<bool>)

  const NO_NOTES := Notes(0, [])

  datatype Client = Client(
    pc: ClientPc,
    msg: Message,
    identities: Option<Identities>, // activeNodeInfo.Identities: the pointer the message shares
    active: bool,
    tower: seq<byte>,
    skip: bool,
    wentPassive: bool,
    notes: Notes
  )

  datatype ClientResult = ClientBlocked | ClientMoved(next: Client, sent: Option<Frame>, faults: set<Fault>)

  function ClientStays(c: Client, pc: ClientPc): ClientResult {
    ClientMoved(c.(pc := pc), None, {})
  }

  function ClientFails(c: Client, outcome: ClientOutcome, fault: Fault): ClientResult {
    ClientMoved(c.(pc := CDone(outcome)), None, {fault})
  }

  /** A write of `frame`: on to `next` when it succeeds, the end of the program otherwise. */
  function ClientSends(c: Client, frame: Frame, o: SendOutcome, next: ClientPc, failure: ClientOutcome, fault: Fault): ClientResult {
    match o
    case Sent => ClientMoved(c.(pc := next), Some(frame), {})
    case SendFailed(delivered) =>
      ClientMoved(c.(pc := CDone(failure)), if delivered then Some(frame) else None, {fault})
  }

  function RequestMessage(cfg: Config, c: Client): Message {
    WithRequest(c.msg, cfg.clientInfo.(identities := c.identities), cfg.clientRollback)
  }

  /** The identities decoded into the message are the ones the node itself holds. */
  function ClientDecodes(c: Client, m: Message): Client {
    var msg := Decode(c.msg, m);
    c.(msg := msg, identities := msg.activeNodeInfo.identities)
  }

  /** Both nodes must run the same version of the program. */
  predicate SameVersion(theirs: string, ours: string) {
    theirs == ours
  }

  function ClientAfterSignal(cfg: Config, c: Client): ClientResult {
    if !SameVersion(c.msg.passiveNodeInfo.failoverVersion, cfg.clientVersion) then ClientStays(c, CDone(VersionMismatch))
    else if !c.msg.canProceed then ClientStays(c, CDone(Refused(c.msg.errorMessage)))
    else ClientStays(c.(skip := c.msg.skipTowerSync), CLeaderWait)
  }

  function ClientRunsHook(cfg: Config, c: Client, ok: bool): ClientResult {
    var run := c.notes.hooksRun;
    if |run| >= |cfg.preWhenActive| then ClientBlocked
    else
      var ran := c.(notes := c.notes.(hooksRun := run + [ok]));
      if !ok && cfg.preWhenActive[|run|].mustSucceed then ClientFails(ran, PreHookFailed, HookFault)
      else ClientStays(ran, CPreHooks)
  }

  /** RunCommand does nothing and reports success in a dry run. */
  function ClientSetsPassive(c: Client, o: CommandOutcome, start: Instant, end: Instant): ClientResult {
    var began := WithActiveSwitchStart(c.msg, start);
    if c.msg.isDryRunFailover || o.Succeeded? then
      ClientStays(
        c.(msg := WithActiveSwitchEnd(began, end),
           active := c.active && c.msg.isDryRunFailover, wentPassive := true),
        if c.skip then CAwaitOutcome else CReadTower)
    else
      ClientFails(c.(msg := began, active := c.active && !o.tookEffect), SetPassiveFailed, ClientCommandFault)
  }

  function ClientReadsTower(cfg: Config, c: Client, ok: bool, start: Instant, end: Instant): ClientResult {
    var began := WithTowerStart(c.msg, start);
    if !ok then ClientFails(c.(msg := began), TowerUnread, TowerReadFault)
    else ClientStays(c.(msg := WithTower(began, c.tower, cfg.towerHash(c.tower), end)), CSendTower)
  }

  function ClientAfterOutcome(cfg: Config, c: Client): ClientResult {
    if c.msg.rollbackRequired then
      ClientStays(c, if cfg.clientRollback && c.wentPassive then CRollback else CDone(RollbackDisabled))
    else ClientStays(c, CDone(if c.msg.isSuccessfullyCompleted then Completed else ServerGaveUp))
  }

  /** runRollback with the to-active command; an empty one is logged and skipped. */
  function ClientRollsBack(cfg: Config, c: Client, o: CommandOutcome): ClientResult {
    if cfg.toActiveCmd == "" || c.msg.isDryRunFailover then ClientStays(c, CDone(RolledBack))
    else if o.Succeeded? then ClientStays(c.(active := true), CDone(RolledBack))
    else ClientFails(c.(active := c.active || o.tookEffect), RolledBack, ToActiveFault)
  }

  function ClientSendsRequest(cfg: Config, c: Client, o: SendOutcome): ClientResult {
    var m := RequestMessage(cfg, c);
    ClientSends(c.(msg := m), Gob(Encode(m)), o, CAwaitVersion, NotStarted, OpeningSendFault)
  }

  function ClientOnVersion(cfg: Config, c: Client, frame: Option<Frame>): ClientResult {
    match frame
    case Some(Version(v)) => ClientStays(c, if v == cfg.clientWire then CAwaitSignal else CDone(WireMismatch))
    case _ => ClientStays(c, CDone(NoSignal))
  }

  function ClientOnSignal(cfg: Config, c: Client, frame: Option<Frame>): ClientResult {
    match frame
    case Some(Gob(m)) => ClientAfterSignal(cfg, ClientDecodes(c, m))
    case _ => ClientStays(c, CDone(NoSignal))
  }

  function ClientOnHooksOver(cfg: Config, c: Client): ClientResult {
    if |c.notes.hooksRun| == |cfg.preWhenActive| then ClientStays(c, CNextSlot) else ClientBlocked
  }

  function ClientOnSlot(c: Client, observed: uint64, next: Option<uint64>): ClientResult {
    match next
    case None => ClientFails(c, SlotFailed, WaitFault)
    case Some(slot) =>
      if slot <= observed then ClientBlocked
      else ClientStays(c.(msg := WithStartSlot(c.msg, slot), notes := c.notes.(observedSlot := observed)), CSetPassive)
  }

  function ClientOnOutcome(cfg: Config, c: Client, frame: Option<Frame>): ClientResult {
    match frame
    case Some(Gob(m)) => ClientAfterOutcome(cfg, ClientDecodes(c, m))
    case _ => ClientStays(c, CDone(ConnectionLost))
  }

  function ClientStep(cfg: Config, c: Client, a: ClientAction): ClientResult {
    match c.pc
    case CSendVersion =>
      if a.ClientSend? then ClientSends(c, Version(cfg.clientWire), a.sent, CSendRequest, NotStarted, OpeningSendFault)
      else ClientBlocked
    case CSendRequest => if a.ClientSend? then ClientSendsRequest(cfg, c, a.sent) else ClientBlocked
    case CAwaitVersion => if a.ClientReceive? then ClientOnVersion(cfg, c, a.frame) else ClientBlocked
    case CAwaitSignal => if a.ClientReceive? then ClientOnSignal(cfg, c, a.frame) else ClientBlocked
    case CLeaderWait =>
      if !a.ClientLeaderWait? then ClientBlocked
      else if a.passed then ClientStays(c, CPreHooks)
      else ClientFails(c, WaitFailed, WaitFault)
    case CPreHooks =>
      if a.ClientHook? then ClientRunsHook(cfg, c, a.ok)
      else if a.ClientHooksOver? then ClientOnHooksOver(cfg, c)
      else ClientBlocked
    case CNextSlot => if a.ClientNextSlot? then ClientOnSlot(c, a.observed, a.next) else ClientBlocked
    case CSetPassive => if a.ClientCommand? then ClientSetsPassive(c, a.outcome, a.start, a.end) else ClientBlocked
    case CReadTower => if a.ClientReadTower? then ClientReadsTower(cfg, c, a.ok, a.start, a.end) else ClientBlocked
    case CSendTower =>
      if a.ClientSend? then ClientSends(c, Gob(Encode(c.msg)), a.sent, CAwaitOutcome, TowerUnsent, TowerSendFault)
      else ClientBlocked
    case CAwaitOutcome => if a.ClientReceive? then ClientOnOutcome(cfg, c, a.frame) else ClientBlocked
    case CRollback => if a.ClientCommand? then ClientRollsBack(cfg, c, a.outcome) else ClientBlocked
    case CDone(_) => ClientBlocked
  }

  // ----- The server (passive node): Server.handleFailoverStream

  datatype Reject =
    | OtherVersion | GossipUnanswered | GossipDisagrees | RollbackDiffers | Declined
    | SampleUnavailable | TowerNotPrepared | ServerHookFailed

  datatype ServerOutcome =
    | NoRequest | OtherWire | VersionUnsent | Rejected(why: Reject) | ProceedUnsent | NoTower
    | HashMismatch | TowerUnwritten | ActivationFailed | ActivationUndone | CompletionUnsent
    | Activated | ServerCrashed

  datatype ServerPc =
    | SAwaitVersion | SAwaitRequest | SSendVersion | SReject(why: Reject) | SGossip | SConfirm
    | SSample | SPrepareTower | SPreHooks | SSendProceed | SAwaitTower | SWriteTower | SSetActive
    | SEndSlot | SSendDone | SSendRollback | SRollback
    | SDone(outcome: ServerOutcome)

  /** What the checks before the go-ahead have found so far, kept as history. */
  datatype Checks = Checks(
    gossip: Option<(string, string)>,
    plan: Option<Message>,          // what the operator was shown when asked
    confirmed: bool,
    sampled: Option<CreditsSample>, // the answer to the query for the active identity's credits
    towerReady: bool,
    hooksRun: seq<bool>
  )

  const NO_CHECKS := Checks(None, None, false, None, false, [])

  datatype Server = Server(
    pc: ServerPc,
    msg: Message,
    identities: Option<Identities>, // passiveNodeInfo.Identities, shared with the message once set
    active: bool,
    tower: Option<seq<byte>>,
    activated: bool,                // the set-identity command reported success
    checks: Checks
  )

  datatype ServerResult = ServerBlocked | ServerMoved(next: Server, sent: Option<Frame>, faults: set<Fault>)

  function ServerStays(s: Server, pc: ServerPc): ServerResult {
    ServerMoved(s.(pc := pc), None, {})
  }

  function ServerFails(s: Server, outcome: ServerOutcome, fault: Fault): ServerResult {
    ServerMoved(s.(pc := SDone(outcome)), None, {fault})
  }

  function ServerSends(s: Server, o: SendOutcome, next: ServerPc, failure: ServerPc, fault: Fault): ServerResult {
    var frame := Gob(Encode(s.msg));
    match o
    case Sent => ServerMoved(s.(pc := next), Some(frame), {})
    case SendFailed(delivered) =>
      ServerMoved(s.(pc := failure), if delivered then Some(frame) else None, {fault})
  }

  /** The text the operator of the other node reads; the original adds detail to each. */
  function RejectText(why: Reject): string {
    match why
    case OtherVersion => "version mismatch"
    case GossipUnanswered => "failed to validate active node"
    case GossipDisagrees => "active node does not match gossip"
    case RollbackDiffers => "rollback mismatch"
    case Declined => "server cancelled failover"
    case SampleUnavailable => "failed to pull vote credits sample"
    case TowerNotPrepared => "failed to prepare tower file"
    case ServerHookFailed => "failed to run pre-failover hooks"
  }

  function ServerRejects(s: Server, why: Reject, faults: set<Fault>): ServerResult {
    ServerMoved(s.(pc := SReject(why), msg := WithError(s.msg, RejectText(why))), None, faults)
  }

  /** Once the wire version is out, the server adds its own part to the message and checks the
      client's version. */
  function ServerAfterVersion(cfg: Config, s: Server): ServerResult {
    var m := WithServerPart(s.msg, cfg.dryRun, cfg.skipTowerSync, cfg.serverInfo.(identities := s.identities));
    var sent := Some(Version(cfg.serverWire));
    if !SameVersion(m.activeNodeInfo.failoverVersion, cfg.serverVersion) then
      ServerRejects(s.(msg := m), OtherVersion, {}).(sent := sent)
    else ServerMoved(s.(pc := SGossip, msg := m), sent, {})
  }

  /** validateActiveGossipIdentity: both the IP and the public key must be the claimed ones. */
  predicate GossipShows(node: NodeInfo, ip: string, pubkey: string) {
    ip == node.publicIP && pubkey == node.ActivePubKey()
  }

  function ServerAfterGossip(cfg: Config, s: Server, answer: Option<(string, string)>): ServerResult {
    match answer
    case None => ServerRejects(s, GossipUnanswered, {GossipFault})
    case Some((ip, pubkey)) =>
      var seen := s.(checks := s.checks.(gossip := answer));
      if !GossipShows(s.msg.activeNodeInfo, ip, pubkey) then
        ServerRejects(seen, GossipDisagrees, {GossipFault})
      else if cfg.serverRollback != s.msg.activeRollbackEnabled then ServerRejects(seen, RollbackDiffers, {})
      else ServerStays(seen, SConfirm)
  }

  function ServerTakesSample(s: Server, x: CreditsSample): Server {
    s.(msg := WithSample(s.msg, s.msg.activeNodeInfo.ActivePubKey(), x), checks := s.checks.(sampled := Some(x)))
  }

  /** With tower sync the file is created or truncated; without it an existing file is removed. */
  function ServerPreparesTower(cfg: Config, s: Server, ok: bool): ServerResult {
    var ready := s.(checks := s.checks.(towerReady := true));
    if cfg.skipTowerSync && s.tower.None? then ServerStays(ready, SPreHooks)
    else if !ok then ServerRejects(s, TowerNotPrepared, {PrepareFault})
    else ServerStays(ready.(tower := if cfg.skipTowerSync then None else Some([])), SPreHooks)
  }

  function ServerRunsHook(cfg: Config, s: Server, ok: bool): ServerResult {
    var run := s.checks.hooksRun;
    if |run| >= |cfg.preWhenPassive| then ServerBlocked
    else
      var ran := s.(checks := s.checks.(hooksRun := run + [ok]));
      if !ok && cfg.preWhenPassive[|run|].mustSucceed then
        ServerRejects(ran, ServerHookFailed, {HookFault})
      else ServerStays(ran, SPreHooks)
  }

  function ServerReceivesTower(cfg: Config, s: Server, m: Message): ServerResult {
    var msg := Decode(s.msg, m);
    var got := s.(msg := msg, identities := msg.passiveNodeInfo.identities);
    if cfg.towerHash(msg.activeNodeInfo.towerFileBytes) != msg.activeNodeInfo.towerFileHash then
      ServerStays(got, SDone(HashMismatch))
    else ServerStays(got, SWriteTower)
  }

  function ServerWritesTower(s: Server, w: WriteOutcome, at: Instant): ServerResult {
    match w
    case Written =>
      ServerStays(
        s.(tower := Some(s.msg.activeNodeInfo.towerFileBytes),
           msg := WithTowerWritten(s.msg, at)), SSetActive)
    case WriteFailed(content) => ServerFails(s.(tower := Some(content)), TowerUnwritten, TowerWriteFault)
  }

  /** The failed switch: the rollback signal is prepared when rollback is on. */
  function ServerFailsToActivate(cfg: Config, s: Server, tookEffect: bool): ServerResult {
    var after := s.(active := s.active || tookEffect);
    var faults := if tookEffect then {ServerCommandFault, ServerCommandLied} else {ServerCommandFault};
    if cfg.serverRollback then
      ServerMoved(after.(pc := SSendRollback, msg := WithRollbackRequired(s.msg)), None, faults)
    else ServerMoved(after.(pc := SDone(ActivationFailed)), None, faults)
  }

  function ServerSetsActive(cfg: Config, s: Server, o: CommandOutcome, start: Instant, end: Instant): ServerResult {
    var began := WithPassiveSwitchStart(s.msg, start);
    if cfg.dryRun || o.Succeeded? then
      ServerStays(
        s.(msg := WithPassiveSwitchEnd(began, end), active := s.active || !cfg.dryRun, activated := true), SEndSlot)
    else ServerFailsToActivate(cfg, s.(msg := began), o.tookEffect)
  }

  /** An RPC that lags a slot behind is taken to be in the start slot. */
  function WithQueriedEndSlot(m: Message, q: Option<uint64>): Message {
    match q
    case None => m
    case Some(slot) => WithEndSlot(m, if slot < m.failoverStartSlot then m.failoverStartSlot else slot)
  }

  function ServerRecordsEndSlot(s: Server, q: Option<uint64>): ServerResult {
    ServerMoved(
      s.(pc := SSendDone, msg := WithCompleted(WithQueriedEndSlot(s.msg, q))),
      None, if q.None? then {EndSlotFault} else {})
  }

  /** runRollback with the to-passive command. */
  function ServerRollsBack(cfg: Config, s: Server, o: CommandOutcome): ServerResult {
    if cfg.toPassiveCmd == "" || cfg.dryRun then ServerStays(s, SDone(ActivationUndone))
    else if o.Succeeded? then ServerStays(s.(active := false), SDone(ActivationUndone))
    else ServerFails(s.(active := s.active && !o.tookEffect), ActivationUndone, ToPassiveFault)
  }

  function ServerOnVersion(cfg: Config, s: Server, frame: Option<Frame>): ServerResult {
    match frame
    case Some(Version(v)) => ServerStays(s, if v == cfg.serverWire then SAwaitRequest else SDone(OtherWire))
    case _ => ServerStays(s, SDone(NoRequest))
  }

  function ServerOnRequest(s: Server, frame: Option<Frame>): ServerResult {
    match frame
    case Some(Gob(m)) => ServerStays(s.(msg := Decode(s.msg, m)), SSendVersion)
    case _ => ServerStays(s, SDone(NoRequest))
  }

  function ServerOnVersionSent(cfg: Config, s: Server, o: SendOutcome): ServerResult {
    match o
    case Sent => ServerAfterVersion(cfg, s)
    case SendFailed(delivered) =>
      ServerFails(s, VersionUnsent, VersionSendFault).(sent := if delivered then Some(Version(cfg.serverWire)) else None)
  }

  /** The operator sees the message as it stands. */
  function ServerOnConsent(s: Server, yes: bool): ServerResult {
    var asked := s.(checks := s.checks.(plan := Some(s.msg), confirmed := yes));
    if yes then ServerStays(asked, SSample) else ServerRejects(asked, Declined, {DeclinedFault})
  }

  function ServerOnSample(s: Server, sample: Option<CreditsSample>): ServerResult {
    match sample
    case None => ServerRejects(s, SampleUnavailable, {SampleFault})
    case Some(x) => ServerStays(ServerTakesSample(s, x), SPrepareTower)
  }

  function ServerOnHooksOver(cfg: Config, s: Server): ServerResult {
    if |s.checks.hooksRun| == |cfg.preWhenPassive| then ServerStays(s.(msg := WithGoAhead(s.msg)), SSendProceed)
    else ServerBlocked
  }

  function ServerOnTower(cfg: Config, s: Server, frame: Option<Frame>): ServerResult {
    match frame
    case Some(Gob(m)) => ServerReceivesTower(cfg, s, m)
    case _ => ServerStays(s, SDone(NoTower))
  }

  function ServerStep(cfg: Config, s: Server, a: ServerAction): ServerResult {
    match s.pc
    case SAwaitVersion => if a.ServerReceive? then ServerOnVersion(cfg, s, a.frame) else ServerBlocked
    case SAwaitRequest => if a.ServerReceive? then ServerOnRequest(s, a.frame) else ServerBlocked
    case SSendVersion => if a.ServerSend? then ServerOnVersionSent(cfg, s, a.sent) else ServerBlocked
    case SReject(why) =>
      if a.ServerSend? then ServerSends(s, a.sent, SDone(Rejected(why)), SDone(Rejected(why)), ReplySendFault)
      else ServerBlocked
    case SGossip => if a.ServerGossip? then ServerAfterGossip(cfg, s, a.answer) else ServerBlocked
    case SConfirm => if a.ServerConfirm? then ServerOnConsent(s, a.confirmed) else ServerBlocked
    case SSample => if a.ServerSample? then ServerOnSample(s, a.sample) else ServerBlocked
    case SPrepareTower => if a.ServerPrepareTower? then ServerPreparesTower(cfg, s, a.ok) else ServerBlocked
    case SPreHooks =>
      if a.ServerHook? then ServerRunsHook(cfg, s, a.ok)
      else if a.ServerHooksOver? then ServerOnHooksOver(cfg, s)
      else ServerBlocked
    case SSendProceed =>
      var next := if cfg.skipTowerSync then SSetActive else SAwaitTower;
      if a.ServerSend? then ServerSends(s, a.sent, next, SDone(ProceedUnsent), ReplySendFault) else ServerBlocked
    case SAwaitTower => if a.ServerReceive? then ServerOnTower(cfg, s, a.frame) else ServerBlocked
    case SWriteTower => if a.ServerWriteTower? then ServerWritesTower(s, a.written, a.at) else ServerBlocked
    case SSetActive =>
      if a.ServerCommand? then ServerSetsActive(cfg, s, a.outcome, a.start, a.end) else ServerBlocked
    case SEndSlot => if a.ServerEndSlot? then ServerRecordsEndSlot(s, a.slot) else ServerBlocked
    case SSendDone =>
      if a.ServerSend? then ServerSends(s, a.sent, SDone(Activated), SDone(CompletionUnsent), VerdictSendFault)
      else ServerBlocked
    case SSendRollback =>
      if a.ServerSend? then ServerSends(s, a.sent, SRollback, SRollback, VerdictSendFault) else ServerBlocked
    case SRollback => if a.ServerCommand? then ServerRollsBack(cfg, s, a.outcome) else ServerBlocked
    case SDone(_) => ServerBlocked
  }

  // ----- The two nodes and the stream between them

  /** One direction of the stream: every frame written so far, and how many were read. */
  datatype Channel = Channel(frames: seq<Frame>, read: nat) {
    predicate Valid() {
      read <= |frames|
    }

    function Append(f: Option<Frame>, linkUp: bool): Channel {
      if f.Some? && linkUp then this.(frames := frames + [f.value]) else this
    }

    /** A dropped link loses any suffix of what was not read yet. */
    function Cut(keep: nat): Channel {
      if read <= keep <= |frames| then this.(frames := frames[..keep]) else this
    }
  }

  datatype State = State(
    client: Client, server: Server, toServer: Channel, toClient: Channel, linkUp: bool, faults: set<Fault>)

  datatype Event =
    | ClientDoes(ca: ClientAction)
    | ServerDoes(sa: ServerAction)
    | LinkDrops(keepToServer: nat, keepToClient: nat)
    | ClientDies
    | ServerDies
    | ClientVotes(clientTower: seq<byte>)
    | ServerVotes(serverTower: seq<byte>)

  /** What a read can return: the next frame, or a failure once the link is down or the peer has
      ended and everything it sent was read. */
  predicate CanReceive(ch: Channel, frame: Option<Frame>, linkUp: bool, peerEnded: bool) {
    match frame
    case Some(f) => ch.read < |ch.frames| && ch.frames[ch.read] == f
    case None => !linkUp || (peerEnded && ch.read >= |ch.frames|)
  }

  predicate ClientReady(s: State, a: ClientAction) {
    a.ClientReceive? ==> CanReceive(s.toClient, a.frame, s.linkUp, s.server.pc.SDone?)
  }

  predicate ServerReady(s: State, a: ServerAction) {
    a.ServerReceive? ==> CanReceive(s.toServer, a.frame, s.linkUp, s.client.pc.CDone?)
  }

  function Consume(ch: Channel, received: bool): Channel {
    if received then ch.(read := ch.read + 1) else ch
  }

  function ClientApply(s: State, r: ClientResult, received: bool): State {
    match r
    case ClientBlocked => s
    case ClientMoved(next, sent, faults) =>
      s.(client := next,
         toServer := s.toServer.Append(sent, s.linkUp),
         toClient := Consume(s.toClient, received),
         faults := s.faults + faults)
  }

  function ServerApply(s: State, r: ServerResult, received: bool): State {
    match r
    case ServerBlocked => s
    case ServerMoved(next, sent, faults) =>
      s.(server := next,
         toClient := s.toClient.Append(sent, s.linkUp),
         toServer := Consume(s.toServer, received),
         faults := s.faults + faults)
  }

  function ClientEvent(cfg: Config, s: State, a: ClientAction): State {
    if !ClientReady(s, a) then s
    else ClientApply(s, ClientStep(cfg, s.client, a), a.ClientReceive? && a.frame.Some?)
  }

  function ServerEvent(cfg: Config, s: State, a: ServerAction): State {
    if !ServerReady(s, a) then s
    else ServerApply(s, ServerStep(cfg, s.server, a), a.ServerReceive? && a.frame.Some?)
  }

  function DropLink(s: State, keepToServer: nat, keepToClient: nat): State {
    s.(linkUp := false,
       toServer := s.toServer.Cut(keepToServer), toClient := s.toClient.Cut(keepToClient),
       faults := s.faults + {LinkFault})
  }

  function KillClient(s: State): State {
    if s.client.pc.CDone? then s
    else s.(client := s.client.(pc := CDone(Crashed)), faults := s.faults + {CrashFault})
  }

  function KillServer(s: State): State {
    if s.server.pc.SDone? then s
    else s.(server := s.server.(pc := SDone(ServerCrashed)), faults := s.faults + {CrashFault})
  }

  /** A validator appends to its tower only while it holds the active identity. */
  function VoteOnClient(s: State, tower: seq<byte>): State {
    if s.client.active then s.(client := s.client.(tower := tower)) else s
  }

  function VoteOnServer(s: State, tower: seq<byte>): State {
    if s.server.active then s.(server := s.server.(tower := Some(tower))) else s
  }

  function Step(cfg: Config, s: State, e: Event): State {
    match e
    case ClientDoes(a) => ClientEvent(cfg, s, a)
    case ServerDoes(a) => ServerEvent(cfg, s, a)
    case LinkDrops(i, j) => DropLink(s, i, j)
    case ClientDies => KillClient(s)
    case ServerDies => KillServer(s)
    case ClientVotes(tower) => VoteOnClient(s, tower)
    case ServerVotes(tower) => VoteOnServer(s, tower)
  }

  function Init(cfg: Config, clientTower: seq<byte>, serverTower: Option<seq<byte>>): State {
    State(
      Client(CSendVersion, NEW_MESSAGE, cfg.clientInfo.identities, true, clientTower, false, false, NO_NOTES),
      Server(SAwaitVersion, NEW_MESSAGE, cfg.serverInfo.identities, false, serverTower, false, NO_CHECKS),
      Channel([], 0), Channel([], 0), true, {})
  }

  function Run(cfg: Config, s: State, events: seq<Event>): State
    decreases |events|
  {
    if events == [] then s else Run(cfg, Step(cfg, s, events[0]), events[1..])
  }

  /** A state some run of the two nodes gets to. */
  ghost predicate Reachable(cfg: Config, s: State) {
    exists clientTower: seq<byte>, serverTower: Option<seq<byte>>, events: seq<Event> ::
      s == Run(cfg, Init(cfg, clientTower, serverTower), events)
  }

  lemma {:induction false} RunConcat(cfg: Config, s: State, es: seq<Event>, fs: seq<Event>)
    ensures Run(cfg, s, es + fs) == Run(cfg, Run(cfg, s, es), fs)
    decreases |es|
  {
    if es == [] {
      assert es + fs == fs;
    } else {
      assert (es + fs)[0] == es[0] && (es + fs)[1..] == es[1..] + fs;
      RunConcat(cfg, Step(cfg, s, es[0]), es[1..], fs);
    }
  }

  lemma RunThen(cfg: Config, s: State, events: seq<Event>, e: Event)
    ensures Run(cfg, s, events + [e]) == Step(cfg, Run(cfg, s, events), e)
  {
    hide Step;
    RunConcat(cfg, s, events, [e]);
    assert [e][1..] == [];
  }

  lemma RunThenTwo(cfg: Config, s: State, events: seq<Event>, e: Event, f: Event)
    ensures Run(cfg, s, events + [e, f]) == Step(cfg, Step(cfg, Run(cfg, s, events), e), f)
  {
    hide Run, Step;
    assert events + [e, f] == (events + [e]) + [f];
    RunThen(cfg, s, events, e);
    RunThen(cfg, s, events + [e], f);
  }
}

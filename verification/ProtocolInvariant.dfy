/**
 The inductive invariant of the protocol: which frames were written and read at each program
 point, and what each message holds. It covers both tower modes and every fault.
 */
module ProtocolInvariant {
  import opened Wrappers
  import opened Words
  import opened Messages
  import opened Protocol

  // ----- Frame counts

  /** Frames the client has written when it is at a program point; a bound once it has ended. */
  function ClientSent(pc: ClientPc, skip: bool): nat {
    match pc
    case CSendVersion => 0
    case CSendRequest => 1
    case CAwaitOutcome => if skip then 2 else 3
    case CRollback => if skip then 2 else 3
    case CDone(_) => 3
    case _ => 2
  }

  function ClientRead(pc: ClientPc): nat {
    match pc
    case CSendVersion => 0
    case CSendRequest => 0
    case CAwaitVersion => 0
    case CAwaitSignal => 1
    case CRollback => 3
    case CDone(_) => 3
    case _ => 2
  }

  function ServerSent(pc: ServerPc): nat {
    match pc
    case SAwaitVersion => 0
    case SAwaitRequest => 0
    case SSendVersion => 0
    case SRollback => 3
    case SDone(_) => 3
    case _ => if Proceeding(pc) then 2 else 1
  }

  function ServerRead(pc: ServerPc, skip: bool): nat {
    match pc
    case SAwaitVersion => 0
    case SAwaitRequest => 1
    case SDone(_) => 3
    case _ => if Finishing(pc) && !skip then 3 else 2
  }

  /** Nothing is written that was not due; while the link is up, nothing that was due is missing. */
  predicate WrittenUpTo(ch: Channel, due: nat, ended: bool, linkUp: bool) {
    && ch.Valid()
    && |ch.frames| <= due
    && (linkUp && !ended ==> |ch.frames| == due)
  }

  predicate ReadUpTo(read: nat, due: nat, ended: bool) {
    read <= due && (!ended ==> read == due)
  }

  /** The frames on both directions are those the two program points call for. */
  predicate Counts(cfg: Config, c: ClientPc, skip: bool, s: ServerPc, up: Channel, down: Channel, linkUp: bool) {
    && WrittenUpTo(up, ClientSent(c, skip), c.CDone?, linkUp)
    && WrittenUpTo(down, ServerSent(s), s.SRollback? || s.SDone?, linkUp) // the rollback signal is best effort
    && ReadUpTo(down.read, ClientRead(c), c.CDone?)
    && ReadUpTo(up.read, ServerRead(s, cfg.skipTowerSync), s.SDone?)
  }

  // ----- Program points

  /** The client has decoded nothing yet. */
  predicate Early(pc: ClientPc) {
    pc.CSendVersion? || pc.CSendRequest? || pc.CAwaitVersion? || pc.CAwaitSignal?
  }

  /** The client has the server's go-ahead and has not ended. */
  predicate Told(pc: ClientPc) {
    pc.CLeaderWait? || pc.CPreHooks? || pc.CNextSlot? || pc.CSetPassive? || pc.CReadTower? || pc.CSendTower? || pc.CAwaitOutcome?
  }

  /** The server has sent its go-ahead and not ended. */
  predicate Proceeding(pc: ServerPc) {
    pc.SAwaitTower? || Finishing(pc)
  }

  predicate Finishing(pc: ServerPc) {
    pc.SWriteTower? || pc.SSetActive? || pc.SEndSlot? || pc.SSendDone? || pc.SSendRollback? || pc.SRollback?
  }

  // ----- Messages

  function RequestOf(cfg: Config): Message {
    NEW_MESSAGE.(activeNodeInfo := cfg.clientInfo, activeRollbackEnabled := cfg.clientRollback)
  }

  /** The server's message once it has added its own part to the request. */
  function BaseOf(cfg: Config): Message {
    Encode(RequestOf(cfg)).(
      isDryRunFailover := cfg.dryRun, skipTowerSync := cfg.skipTowerSync, passiveNodeInfo := cfg.serverInfo)
  }

  function GoAhead(cfg: Config, samples: map<string, seq<CreditsSample>>): Message {
    BaseOf(cfg).(creditSamples := samples, canProceed := true)
  }

  /** A message without what the server adds after the go-ahead. */
  function BeforeServer(m: Message): Message {
    m.(isSuccessfullyCompleted := false, rollbackRequired := false,
       passiveNodeSetIdentityStartTime := 0, passiveNodeSetIdentityEndTime := 0,
       passiveNodeSyncTowerFileEndTime := 0, failoverEndSlot := 0)
  }

  /** A message without what the client adds after the go-ahead. */
  function BeforeClient(m: Message): Message {
    m.(activeNodeInfo := m.activeNodeInfo.(towerFileBytes := [], towerFileHash := ""),
       activeNodeSetIdentityStartTime := 0, activeNodeSetIdentityEndTime := 0,
       activeNodeSyncTowerFileStartTime := 0, activeNodeSyncTowerFileEndTime := 0,
       failoverStartSlot := 0)
  }

  function MessageAt(frames: seq<Frame>, i: nat): Message {
    if i < |frames| && frames[i].Gob? then frames[i].message else NEW_MESSAGE
  }

  function Reply(down: seq<Frame>): Message { MessageAt(down, 1) }
  function Tower(up: seq<Frame>): Message { MessageAt(up, 2) }
  function Verdict(down: seq<Frame>): Message { MessageAt(down, 2) }

  // What each frame holds.

  ghost predicate ReplyFrame(cfg: Config, r: Message) {
    && r == Encode(BaseOf(cfg)).(
              creditSamples := r.creditSamples, canProceed := r.canProceed, errorMessage := r.errorMessage)
    && (r.canProceed <==> r.errorMessage == "")
  }

  ghost predicate TowerFilled(cfg: Config, m: Message) {
    && m.activeNodeInfo.towerFileHash == cfg.towerHash(m.activeNodeInfo.towerFileBytes)
    && m.activeNodeSyncTowerFileStartTime > 0 && m.activeNodeSyncTowerFileEndTime > 0
  }

  predicate SwitchTimed(m: Message) {
    m.activeNodeSetIdentityStartTime > 0 && m.activeNodeSetIdentityEndTime > 0
  }

  ghost predicate TowerFrame(cfg: Config, t: Message, r: Message) {
    && BeforeClient(t) == r
    && t.failoverStartSlot > 0
    && SwitchTimed(t)
    && TowerFilled(cfg, t)
  }

  ghost predicate VerdictFrame(v: Message, before: Message) {
    && BeforeServer(v) == before
    && (v.isSuccessfullyCompleted <==> !v.rollbackRequired)
  }

  /** What is on the stream from client to server. */
  ghost predicate UpFrames(cfg: Config, up: Channel, down: Channel) {
    && (|up.frames| >= 1 ==> up.frames[0] == Version(cfg.clientWire))
    && (|up.frames| >= 2 ==> up.frames[1] == Gob(Encode(RequestOf(cfg))))
    && (|up.frames| >= 3 ==>
          && !cfg.skipTowerSync && up.frames[2].Gob?
          && down.read >= 2 && Reply(down.frames).canProceed && TowerFrame(cfg, Tower(up.frames), Reply(down.frames)))
  }

  /** What is on the stream from server to client. */
  ghost predicate DownFrames(cfg: Config, up: Channel, down: Channel) {
    && (|down.frames| >= 1 ==> down.frames[0] == Version(cfg.serverWire))
    && (|down.frames| >= 2 ==> down.frames[1].Gob? && ReplyFrame(cfg, Reply(down.frames)))
    && (|down.frames| >= 3 ==>
          && down.frames[2].Gob? && Reply(down.frames).canProceed
          && (!cfg.skipTowerSync ==> up.read == 3)
          && VerdictFrame(Verdict(down.frames), if cfg.skipTowerSync then Reply(down.frames) else Tower(up.frames)))
  }

  // What each node's message holds.

  ghost predicate FreshMessage(m: Message) {
    m == NEW_MESSAGE
  }

  /** The request as the client holds it, keys included. */
  ghost predicate OwnRequest(cfg: Config, m: Message) {
    m == RequestOf(cfg)
  }

  /** The request as the server received it. */
  ghost predicate SentRequest(cfg: Config, m: Message) {
    m == Encode(RequestOf(cfg))
  }

  /** The client's message is `before` with only what the client adds after the go-ahead. */
  ghost predicate ClientAdds(m: Message, before: Message) {
    BeforeClient(m) == before
  }

  ghost predicate TowerSent(up: seq<Frame>, m: Message) {
    |up| == 3 ==> Tower(up) == m
  }

  ghost predicate BaseMessage(cfg: Config, m: Message) {
    m == BaseOf(cfg).(creditSamples := m.creditSamples)
  }

  ghost predicate RejectMessage(cfg: Config, m: Message, why: Reject) {
    m == BaseOf(cfg).(creditSamples := m.creditSamples, errorMessage := RejectText(why))
  }

  ghost predicate GoAheadMessage(cfg: Config, m: Message) {
    m == GoAhead(cfg, m.creditSamples)
  }

  /** The server only adds to the go-ahead, or to the client's tower message, until it ends. */
  ghost predicate FinishingMessage(cfg: Config, m: Message, tower: Message) {
    BeforeServer(m) == (if cfg.skipTowerSync then GoAhead(cfg, m.creditSamples) else tower)
  }

  ghost predicate ServerMessage(cfg: Config, pc: ServerPc, m: Message, tower: Message) {
    match pc
    case SAwaitVersion => FreshMessage(m)
    case SAwaitRequest => FreshMessage(m)
    case SSendVersion => SentRequest(cfg, m)
    case SReject(why) => RejectMessage(cfg, m, why)
    case SGossip => BaseMessage(cfg, m)
    case SConfirm => BaseMessage(cfg, m)
    case SSample => BaseMessage(cfg, m)
    case SPrepareTower => BaseMessage(cfg, m)
    case SPreHooks => BaseMessage(cfg, m)
    case SSendProceed => GoAheadMessage(cfg, m)
    case SAwaitTower => !cfg.skipTowerSync && GoAheadMessage(cfg, m)
    case SDone(_) => true
    case _ =>
      && FinishingMessage(cfg, m, tower)
      && (pc.SWriteTower? ==> !cfg.skipTowerSync)
      && m.isSuccessfullyCompleted == pc.SSendDone?
      && m.rollbackRequired == (pc.SSendRollback? || pc.SRollback?)
  }

  ghost predicate ClientMessage(cfg: Config, pc: ClientPc, c: Client, up: seq<Frame>, down: seq<Frame>) {
    match pc
    case CSendVersion => FreshMessage(c.msg)
    case CSendRequest => FreshMessage(c.msg)
    case CAwaitVersion => OwnRequest(cfg, c.msg)
    case CAwaitSignal => OwnRequest(cfg, c.msg)
    case CRollback => c.msg.isDryRunFailover == cfg.dryRun && c.skip == cfg.skipTowerSync && Verdict(down).rollbackRequired
    case CDone(_) => true
    case _ =>
      && Reply(down).canProceed
      && c.skip == cfg.skipTowerSync
      && ClientAdds(c.msg, Reply(down))
      && ClientProgress(cfg, pc, c)
      && (pc.CAwaitOutcome? ==> TowerSent(up, c.msg))
  }

  /** What the client has added to its message by each program point. */
  ghost predicate ClientProgress(cfg: Config, pc: ClientPc, c: Client) {
    var switched := pc.CReadTower? || pc.CSendTower? || pc.CAwaitOutcome?;
    && (pc.CSetPassive? || switched ==> c.msg.failoverStartSlot > c.notes.observedSlot)
    && (switched ==> SwitchTimed(c.msg))
    && (pc.CReadTower? || pc.CSendTower? ==> !c.skip)
    && (pc.CSendTower? || (pc.CAwaitOutcome? && !c.skip) ==> TowerFilled(cfg, c.msg))
  }

  /** The go-ahead on the stream is the one the server sent. */
  ghost predicate ReplyMatches(sent: bool, samples: map<string, seq<CreditsSample>>, down: seq<Frame>) {
    |down| >= 2 && sent ==> Reply(down).canProceed && Reply(down).creditSamples == samples
  }

  /** A node's identities are the configured ones, less the keys once a decode went through the
      pointer the node shares with its message. */
  ghost predicate SameIdentities(held: Option<Identities>, own: Option<Identities>, untouched: bool) {
    && held.Some? && own.Some? && (held == own || held.value == own.value.Stripped())
    && (untouched ==> held == own)
  }

  ghost predicate Inv(cfg: Config, s: State) {
    && Counts(cfg, s.client.pc, s.client.skip, s.server.pc, s.toServer, s.toClient, s.linkUp)
    && UpFrames(cfg, s.toServer, s.toClient)
    && DownFrames(cfg, s.toServer, s.toClient)
    && ServerMessage(cfg, s.server.pc, s.server.msg, Tower(s.toServer.frames))
    && ClientMessage(cfg, s.client.pc, s.client, s.toServer.frames, s.toClient.frames)
    && ReplyMatches(Proceeding(s.server.pc), s.server.msg.creditSamples, s.toClient.frames)
    && SameIdentities(s.server.identities, cfg.serverInfo.identities,
                      !s.server.pc.SDone? && (cfg.skipTowerSync || !Finishing(s.server.pc)))
    && SameIdentities(s.client.identities, cfg.clientInfo.identities,
                      Early(s.client.pc))
  }

  // ----- The environment keeps it

  lemma InitKeepsInv(cfg: Config, clientTower: seq<byte>, serverTower: Option<seq<byte>>)
    requires cfg.Valid()
    ensures Inv(cfg, Init(cfg, clientTower, serverTower))
  {
  }

  /** Cutting a channel keeps what was read. */
  lemma CutKeepsFrames(ch: Channel, keep: nat)
    requires ch.Valid()
    ensures ch.Cut(keep).Valid() && ch.Cut(keep).read == ch.read && |ch.Cut(keep).frames| <= |ch.frames|
    ensures forall i :: 0 <= i < |ch.Cut(keep).frames| ==> ch.Cut(keep).frames[i] == ch.frames[i]
    ensures forall i: nat :: i < |ch.Cut(keep).frames| ==> MessageAt(ch.Cut(keep).frames, i) == MessageAt(ch.frames, i)
    ensures forall i: nat :: i < ch.read ==> MessageAt(ch.Cut(keep).frames, i) == MessageAt(ch.frames, i)
  {
  }

  lemma LinkDropKeepsFrames(cfg: Config, up: Channel, down: Channel, i: nat, j: nat)
    requires up.Valid() && down.Valid() && UpFrames(cfg, up, down) && DownFrames(cfg, up, down)
    ensures UpFrames(cfg, up.Cut(i), down.Cut(j)) && DownFrames(cfg, up.Cut(i), down.Cut(j))
  {
    hide MessageAt, ReplyFrame, TowerFrame, VerdictFrame, Encode, RequestOf;
    CutKeepsFrames(up, i);
    CutKeepsFrames(down, j);
  }

  lemma LinkDropKeepsMessages(cfg: Config, s: State, i: nat, j: nat)
    requires Counts(cfg, s.client.pc, s.client.skip, s.server.pc, s.toServer, s.toClient, s.linkUp)
    requires ServerMessage(cfg, s.server.pc, s.server.msg, Tower(s.toServer.frames))
    requires ClientMessage(cfg, s.client.pc, s.client, s.toServer.frames, s.toClient.frames)
    ensures ServerMessage(cfg, s.server.pc, s.server.msg, Tower(s.toServer.Cut(i).frames))
    ensures ClientMessage(cfg, s.client.pc, s.client, s.toServer.Cut(i).frames, s.toClient.Cut(j).frames)
  {
    hide MessageAt, Encode, RequestOf, BaseOf, GoAhead, BeforeClient, BeforeServer, ClientProgress, RejectText;
    CutKeepsFrames(s.toServer, i);
    CutKeepsFrames(s.toClient, j);
  }

  lemma LinkDropKeepsCounts(
      cfg: Config, c: ClientPc, skip: bool, v: ServerPc, up: Channel, down: Channel, linkUp: bool, i: nat, j: nat)
    requires Counts(cfg, c, skip, v, up, down, linkUp)
    ensures Counts(cfg, c, skip, v, up.Cut(i), down.Cut(j), false)
  {
    hide ClientSent, ClientRead, ServerSent, ServerRead;
  }

  lemma LinkDropKeepsReply(sent: bool, samples: map<string, seq<CreditsSample>>, down: Channel, j: nat)
    requires down.Valid() && ReplyMatches(sent, samples, down.frames)
    ensures ReplyMatches(sent, samples, down.Cut(j).frames)
  {
    CutKeepsFrames(down, j);
    hide MessageAt;
  }

  lemma LinkDropKeepsInv(cfg: Config, s: State, i: nat, j: nat)
    requires cfg.Valid() && Inv(cfg, s)
    ensures Inv(cfg, DropLink(s, i, j))
  {
    ChannelsValid(cfg, s);
    LinkDropKeepsCounts(cfg, s.client.pc, s.client.skip, s.server.pc, s.toServer, s.toClient, s.linkUp, i, j);
    LinkDropKeepsReply(Proceeding(s.server.pc), s.server.msg.creditSamples, s.toClient, j);
    hide Counts, UpFrames, DownFrames, ServerMessage, ClientMessage, ReplyMatches, Tower, SameIdentities, Channel.Cut;
    LinkDropKeepsFrames(cfg, s.toServer, s.toClient, i, j);
    LinkDropKeepsMessages(cfg, s, i, j);
  }

  lemma ChannelsValid(cfg: Config, s: State)
    requires Inv(cfg, s)
    ensures s.toServer.Valid() && s.toClient.Valid()
  {
    hide UpFrames, DownFrames, ServerMessage, ClientMessage, ReplyMatches, SameIdentities;
  }

  lemma ClientCountsBounded(c: ClientPc, skip: bool, o: ClientOutcome)
    ensures ClientSent(c, skip) <= 3 == ClientSent(CDone(o), skip) && ClientRead(c) <= 3 == ClientRead(CDone(o))
  {
  }

  lemma ServerCountsBounded(v: ServerPc, skip: bool, o: ServerOutcome)
    ensures ServerSent(v) <= 3 == ServerSent(SDone(o)) && ServerRead(v, skip) <= 3 == ServerRead(SDone(o), skip)
  {
  }

  /** An ended program may have written and read anything it was due, and holds anything. */
  lemma EndingKeepsCounts(
      cfg: Config, c: ClientPc, skip: bool, v: ServerPc, up: Channel, down: Channel, linkUp: bool,
      o: ClientOutcome, o': ServerOutcome)
    requires Counts(cfg, c, skip, v, up, down, linkUp)
    ensures Counts(cfg, CDone(o), skip, v, up, down, linkUp) && Counts(cfg, c, skip, SDone(o'), up, down, linkUp)
  {
    hide ClientSent, ClientRead, ServerSent, ServerRead;
    ClientCountsBounded(c, skip, o);
    ServerCountsBounded(v, cfg.skipTowerSync, o');
  }

  lemma EndingFreesMessages(
      cfg: Config, c: Client, up: seq<Frame>, down: seq<Frame>, m: Message, tower: Message, o: ClientOutcome, o': ServerOutcome)
    ensures ClientMessage(cfg, CDone(o), c, up, down) && ServerMessage(cfg, SDone(o'), m, tower)
  {
  }

  lemma IdentitiesLoosen(held: Option<Identities>, own: Option<Identities>, untouched: bool)
    requires SameIdentities(held, own, untouched)
    ensures SameIdentities(held, own, false)
  {
  }

  lemma NothingSentMatches(samples: map<string, seq<CreditsSample>>, down: seq<Frame>)
    ensures ReplyMatches(false, samples, down)
  {
  }

  lemma ClientDeathKeepsInv(cfg: Config, s: State)
    requires cfg.Valid() && Inv(cfg, s)
    ensures Inv(cfg, KillClient(s))
  {
    hide Counts, UpFrames, DownFrames, ServerMessage, ClientMessage, ReplyMatches, SameIdentities, Reply, Tower;
    EndingKeepsCounts(
      cfg, s.client.pc, s.client.skip, s.server.pc, s.toServer, s.toClient, s.linkUp, Crashed, ServerCrashed);
    EndingFreesMessages(cfg, s.client.(pc := CDone(Crashed)), s.toServer.frames, s.toClient.frames, s.server.msg,
                        Tower(s.toServer.frames), Crashed, ServerCrashed);
    IdentitiesLoosen(s.client.identities, cfg.clientInfo.identities, Early(s.client.pc));
  }

  lemma ServerDeathKeepsInv(cfg: Config, s: State)
    requires cfg.Valid() && Inv(cfg, s)
    ensures Inv(cfg, KillServer(s))
  {
    hide Counts, UpFrames, DownFrames, ServerMessage, ClientMessage, ReplyMatches, SameIdentities, Reply, Tower;
    EndingKeepsCounts(
      cfg, s.client.pc, s.client.skip, s.server.pc, s.toServer, s.toClient, s.linkUp, Crashed, ServerCrashed);
    EndingFreesMessages(cfg, s.client, s.toServer.frames, s.toClient.frames, s.server.msg, Tower(s.toServer.frames),
                        Crashed, ServerCrashed);
    NothingSentMatches(s.server.msg.creditSamples, s.toClient.frames);
    IdentitiesLoosen(s.server.identities, cfg.serverInfo.identities,
                     !s.server.pc.SDone? && (cfg.skipTowerSync || !Finishing(s.server.pc)));
  }

  lemma VotesKeepInv(cfg: Config, s: State, tower: seq<byte>)
    requires cfg.Valid() && Inv(cfg, s)
    ensures Inv(cfg, VoteOnClient(s, tower)) && Inv(cfg, VoteOnServer(s, tower))
  {
    hide UpFrames, DownFrames, ServerMessage;
  }

  // ----- Frames appended

  lemma AppendKeepsFrames(ch: Channel, f: Option<Frame>, linkUp: bool)
    requires ch.Valid()
    ensures ch.Append(f, linkUp).Valid() && ch.Append(f, linkUp).read == ch.read
    ensures |ch.frames| <= |ch.Append(f, linkUp).frames| <= |ch.frames| + 1
    ensures forall i: nat :: i < |ch.frames| ==> ch.Append(f, linkUp).frames[i] == ch.frames[i]
    ensures forall i: nat :: i < |ch.frames| ==> MessageAt(ch.Append(f, linkUp).frames, i) == MessageAt(ch.frames, i)
  {
  }

  /** A reply carries no keys, and neither does a message that only adds to one. */
  lemma ReplyIsEncoded(cfg: Config, r: Message)
    requires ReplyFrame(cfg, r)
    ensures Encode(r) == r
  {
    hide RequestOf;
  }

  lemma AddingKeepsEncoded(m: Message, r: Message)
    requires BeforeClient(m) == r || BeforeServer(m) == r
    requires Encode(r) == r
    ensures Encode(m) == m
  {
  }
}

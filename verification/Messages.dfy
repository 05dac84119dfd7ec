/**
 The record both nodes exchange, and what encoding/gob does to it.

 Gob leaves zero-valued leaves out of a message and leaves a receiver's field alone when the
 message does not carry it. Decoding into a message that already holds data is therefore a
 leaf-wise merge, not an overwrite. A message on the wire is represented here by the message it
 was encoded from, without private keys; a zero leaf stands for an absent one.
 */
module Messages {
  import opened Wrappers
  import opened Words

  /** A key pair. Only the public half is ever looked at. */
  datatype PrivateKey = PrivateKey(publicKey: string)

  /** The value of an identity: what the fields of the Go struct hold at one moment. */
  datatype Identity = Identity(keyFile: string, pubKeyStr: string, key: Option<PrivateKey>) {
    function PubKey(): string {
      if key.Some? then key.value.publicKey else pubKeyStr
    }

    /** What both constructors of an identity establish. */
    predicate Valid() {
      && pubKeyStr != ""
      && (key.Some? ==> key.value.publicKey == pubKeyStr)
    }

    /** GobEncode sends the file name and the public key string, never the key. */
    function Stripped(): Identity {
      this.(key := None)
    }
  }

  const NO_IDENTITY := Identity("", "", None)

  datatype Identities = Identities(active: Identity, passive: Identity) {
    predicate Valid() {
      active.Valid() && passive.Valid()
    }

    function Stripped(): Identities {
      Identities(active.Stripped(), passive.Stripped())
    }
  }

  datatype NodeInfo = NodeInfo(
    publicIP: string,
    hostname: string,
    identities: Option<Identities>,
    towerFile: string,
    towerFileSizeBytes: nat,
    towerFileBytes: seq<byte>,
    towerFileHash: string,
    setIdentityCommand: string,
    clientVersion: string,
    clientVersionRPC: string,
    failoverVersion: string,
    rpcAddress: string
  ) {
    function Stripped(): NodeInfo {
      match identities
      case None => this
      case Some(ids) => this.(identities := Some(ids.Stripped()))
    }

    function ActivePubKey(): string {
      if identities.Some? then identities.value.active.PubKey() else ""
    }

    function PassivePubKey(): string {
      if identities.Some? then identities.value.passive.PubKey() else ""
    }
  }

  const NO_NODE := NodeInfo("", "", None, "", 0, [], "", "", "", "", "", "")

  datatype CreditsSample = CreditsSample(voteRank: int, credits: int, timestamp: Instant)

  datatype Message = Message(
    canProceed: bool,
    errorMessage: string,
    activeNodeInfo: NodeInfo,
    passiveNodeInfo: NodeInfo,
    isDryRunFailover: bool,
    isSuccessfullyCompleted: bool,
    skipTowerSync: bool,
    rollbackRequired: bool,
    activeRollbackEnabled: bool,
    activeNodeSetIdentityStartTime: nat,
    activeNodeSetIdentityEndTime: nat,
    activeNodeSyncTowerFileStartTime: nat,
    activeNodeSyncTowerFileEndTime: nat,
    passiveNodeSetIdentityStartTime: nat,
    passiveNodeSetIdentityEndTime: nat,
    passiveNodeSyncTowerFileEndTime: nat,
    failoverStartSlot: uint64,
    failoverEndSlot: uint64,
    creditSamples: map<string, seq<CreditsSample>>
  )

  /** NewFailoverStream's message: everything zero, the sample map allocated. */
  const NEW_MESSAGE := Message(
    false, "", NO_NODE, NO_NODE, false, false, false, false, false, 0, 0, 0, 0, 0, 0, 0, 0, 0, map[])

  // ----- What the two programs write into the message

  function WithRequest(m: Message, info: NodeInfo, rollback: bool): Message {
    m.(activeNodeInfo := info, activeRollbackEnabled := rollback)
  }

  function WithServerPart(m: Message, dryRun: bool, skip: bool, info: NodeInfo): Message {
    m.(isDryRunFailover := dryRun, skipTowerSync := skip, passiveNodeInfo := info)
  }

  function WithError(m: Message, text: string): Message {
    m.(errorMessage := text)
  }

  function WithSample(m: Message, pubkey: string, x: CreditsSample): Message {
    var before := if pubkey in m.creditSamples then m.creditSamples[pubkey] else [];
    m.(creditSamples := m.creditSamples[pubkey := before + [x]])
  }

  function WithGoAhead(m: Message): Message {
    m.(canProceed := true)
  }

  function WithStartSlot(m: Message, slot: uint64): Message {
    m.(failoverStartSlot := slot)
  }

  function WithActiveSwitchStart(m: Message, start: nat): Message {
    m.(activeNodeSetIdentityStartTime := start)
  }

  function WithActiveSwitchEnd(m: Message, end: nat): Message {
    m.(activeNodeSetIdentityEndTime := end)
  }

  function WithTowerStart(m: Message, start: nat): Message {
    m.(activeNodeSyncTowerFileStartTime := start)
  }

  function WithTower(m: Message, tower: seq<byte>, hash: string, end: nat): Message {
    m.(activeNodeInfo := m.activeNodeInfo.(towerFileBytes := tower, towerFileHash := hash),
       activeNodeSyncTowerFileEndTime := end)
  }

  function WithTowerWritten(m: Message, at: nat): Message {
    m.(passiveNodeSyncTowerFileEndTime := at)
  }

  function WithPassiveSwitchStart(m: Message, start: nat): Message {
    m.(passiveNodeSetIdentityStartTime := start)
  }

  function WithPassiveSwitchEnd(m: Message, end: nat): Message {
    m.(passiveNodeSetIdentityEndTime := end)
  }

  function WithRollbackRequired(m: Message): Message {
    m.(rollbackRequired := true)
  }

  function WithEndSlot(m: Message, slot: uint64): Message {
    m.(failoverEndSlot := slot)
  }

  function WithCompleted(m: Message): Message {
    m.(isSuccessfullyCompleted := true)
  }

  // ----- Encode and Decode

  function Encode(m: Message): Message {
    m.(activeNodeInfo := m.activeNodeInfo.Stripped(), passiveNodeInfo := m.passiveNodeInfo.Stripped())
  }

  /** One leaf of a decode: an absent (zero) leaf leaves the receiver's value alone. */
  function Leaf<T(==)>(held: T, sent: T, zero: T): T {
    if sent == zero then held else sent
  }

  /** GobDecode assigns all three fields of an identity at once and drops the key. */
  function DecodeIdentity(held: Identity, sent: Identity): Identity {
    Leaf(held, sent.Stripped(), NO_IDENTITY)
  }

  function DecodeIdentities(held: Option<Identities>, sent: Option<Identities>): Option<Identities> {
    match sent
    case None => held
    case Some(s) =>
      var h := if held.Some? then held.value else Identities(NO_IDENTITY, NO_IDENTITY);
      Some(Identities(DecodeIdentity(h.active, s.active), DecodeIdentity(h.passive, s.passive)))
  }

  function DecodeNode(held: NodeInfo, sent: NodeInfo): NodeInfo {
    NodeInfo(
      Leaf(held.publicIP, sent.publicIP, ""),
      Leaf(held.hostname, sent.hostname, ""),
      DecodeIdentities(held.identities, sent.identities),
      Leaf(held.towerFile, sent.towerFile, ""),
      Leaf(held.towerFileSizeBytes, sent.towerFileSizeBytes, 0),
      Leaf(held.towerFileBytes, sent.towerFileBytes, []),
      Leaf(held.towerFileHash, sent.towerFileHash, ""),
      Leaf(held.setIdentityCommand, sent.setIdentityCommand, ""),
      Leaf(held.clientVersion, sent.clientVersion, ""),
      Leaf(held.clientVersionRPC, sent.clientVersionRPC, ""),
      Leaf(held.failoverVersion, sent.failoverVersion, ""),
      Leaf(held.rpcAddress, sent.rpcAddress, ""))
  }

  /** Decoding into a non-nil map inserts the sent keys and keeps the others. */
  function Decode(held: Message, sent: Message): Message {
    Message(
      Leaf(held.canProceed, sent.canProceed, false),
      Leaf(held.errorMessage, sent.errorMessage, ""),
      DecodeNode(held.activeNodeInfo, sent.activeNodeInfo),
      DecodeNode(held.passiveNodeInfo, sent.passiveNodeInfo),
      Leaf(held.isDryRunFailover, sent.isDryRunFailover, false),
      Leaf(held.isSuccessfullyCompleted, sent.isSuccessfullyCompleted, false),
      Leaf(held.skipTowerSync, sent.skipTowerSync, false),
      Leaf(held.rollbackRequired, sent.rollbackRequired, false),
      Leaf(held.activeRollbackEnabled, sent.activeRollbackEnabled, false),
      Leaf(held.activeNodeSetIdentityStartTime, sent.activeNodeSetIdentityStartTime, 0),
      Leaf(held.activeNodeSetIdentityEndTime, sent.activeNodeSetIdentityEndTime, 0),
      Leaf(held.activeNodeSyncTowerFileStartTime, sent.activeNodeSyncTowerFileStartTime, 0),
      Leaf(held.activeNodeSyncTowerFileEndTime, sent.activeNodeSyncTowerFileEndTime, 0),
      Leaf(held.passiveNodeSetIdentityStartTime, sent.passiveNodeSetIdentityStartTime, 0),
      Leaf(held.passiveNodeSetIdentityEndTime, sent.passiveNodeSetIdentityEndTime, 0),
      Leaf(held.passiveNodeSyncTowerFileEndTime, sent.passiveNodeSyncTowerFileEndTime, 0),
      Leaf(held.failoverStartSlot, sent.failoverStartSlot, 0),
      Leaf(held.failoverEndSlot, sent.failoverEndSlot, 0),
      held.creditSamples + sent.creditSamples)
  }

  // ----- The knowledge order: which leaves of a message are non-zero

  predicate LeafCovered<T(==)>(held: T, sent: T, zero: T) {
    sent == zero ==> held == zero
  }

  predicate IdentitiesCovered(held: Option<Identities>, sent: Option<Identities>) {
    match (held, sent)
    case (None, _) => true
    case (Some(_), None) => false
    case (Some(h), Some(s)) =>
      && LeafCovered(h.active, s.active.Stripped(), NO_IDENTITY)
      && LeafCovered(h.passive, s.passive.Stripped(), NO_IDENTITY)
  }

  predicate NodeCovered(held: NodeInfo, sent: NodeInfo) {
    && LeafCovered(held.publicIP, sent.publicIP, "")
    && LeafCovered(held.hostname, sent.hostname, "")
    && IdentitiesCovered(held.identities, sent.identities)
    && LeafCovered(held.towerFile, sent.towerFile, "")
    && LeafCovered(held.towerFileSizeBytes, sent.towerFileSizeBytes, 0)
    && LeafCovered(held.towerFileBytes, sent.towerFileBytes, [])
    && LeafCovered(held.towerFileHash, sent.towerFileHash, "")
    && LeafCovered(held.setIdentityCommand, sent.setIdentityCommand, "")
    && LeafCovered(held.clientVersion, sent.clientVersion, "")
    && LeafCovered(held.clientVersionRPC, sent.clientVersionRPC, "")
    && LeafCovered(held.failoverVersion, sent.failoverVersion, "")
    && LeafCovered(held.rpcAddress, sent.rpcAddress, "")
  }

  /** The receiver knows nothing the sender does not: every leaf set in `held` is set in `sent`. */
  predicate Covered(held: Message, sent: Message) {
    && LeafCovered(held.canProceed, sent.canProceed, false)
    && LeafCovered(held.errorMessage, sent.errorMessage, "")
    && NodeCovered(held.activeNodeInfo, sent.activeNodeInfo)
    && NodeCovered(held.passiveNodeInfo, sent.passiveNodeInfo)
    && LeafCovered(held.isDryRunFailover, sent.isDryRunFailover, false)
    && LeafCovered(held.isSuccessfullyCompleted, sent.isSuccessfullyCompleted, false)
    && LeafCovered(held.skipTowerSync, sent.skipTowerSync, false)
    && LeafCovered(held.rollbackRequired, sent.rollbackRequired, false)
    && LeafCovered(held.activeRollbackEnabled, sent.activeRollbackEnabled, false)
    && LeafCovered(held.activeNodeSetIdentityStartTime, sent.activeNodeSetIdentityStartTime, 0)
    && LeafCovered(held.activeNodeSetIdentityEndTime, sent.activeNodeSetIdentityEndTime, 0)
    && LeafCovered(held.activeNodeSyncTowerFileStartTime, sent.activeNodeSyncTowerFileStartTime, 0)
    && LeafCovered(held.activeNodeSyncTowerFileEndTime, sent.activeNodeSyncTowerFileEndTime, 0)
    && LeafCovered(held.passiveNodeSetIdentityStartTime, sent.passiveNodeSetIdentityStartTime, 0)
    && LeafCovered(held.passiveNodeSetIdentityEndTime, sent.passiveNodeSetIdentityEndTime, 0)
    && LeafCovered(held.passiveNodeSyncTowerFileEndTime, sent.passiveNodeSyncTowerFileEndTime, 0)
    && LeafCovered(held.failoverStartSlot, sent.failoverStartSlot, 0)
    && LeafCovered(held.failoverEndSlot, sent.failoverEndSlot, 0)
    && held.creditSamples.Keys <= sent.creditSamples.Keys
  }

  // ----- Laws

  lemma IdentitiesOverwriteIffCovered(held: Option<Identities>, sent: Option<Identities>)
    requires sent.Some? ==> sent.value == sent.value.Stripped()
    ensures DecodeIdentities(held, sent) == sent <==> IdentitiesCovered(held, sent)
  {
  }

  lemma NodeOverwriteIffCovered(held: NodeInfo, sent: NodeInfo)
    requires sent == sent.Stripped()
    ensures DecodeNode(held, sent) == sent <==> NodeCovered(held, sent)
  {
    IdentitiesOverwriteIffCovered(held.identities, sent.identities);
  }

  lemma SamplesOverwriteIffCovered<K, V>(held: map<K, V>, sent: map<K, V>)
    ensures held + sent == sent <==> held.Keys <= sent.Keys
  {
    if held.Keys <= sent.Keys {
      assert (held + sent).Keys == sent.Keys;
    } else {
      var k :| k in held.Keys && k !in sent.Keys;
      assert k in (held + sent).Keys;
    }
  }

  /** The merge acts as an overwrite exactly when the receiver knows nothing the sender does not. */
  lemma OverwriteIffCovered(held: Message, sent: Message)
    requires sent == Encode(sent)
    ensures Decode(held, sent) == sent <==> Covered(held, sent)
  {
    EncodedNodes(sent);
    hide NodeCovered, DecodeNode, Encode;
    NodeOverwriteIffCovered(held.activeNodeInfo, sent.activeNodeInfo);
    NodeOverwriteIffCovered(held.passiveNodeInfo, sent.passiveNodeInfo);
    SamplesOverwriteIffCovered(held.creditSamples, sent.creditSamples);
  }

  /** The two nodes' identities as they travel: without keys, with key files and public keys. */
  predicate SentAs(own: Option<Identities>, sent: Option<Identities>) {
    match own
    case None => sent.None?
    case Some(ids) =>
      && sent.Some?
      && sent.value.active == Identity(ids.active.keyFile, ids.active.pubKeyStr, None)
      && sent.value.passive == Identity(ids.passive.keyFile, ids.passive.pubKeyStr, None)
  }

  /** Encoding drops the private keys and nothing else. */
  lemma EncodeDropsKeysOnly(m: Message)
    ensures var sent := Encode(m);
            && sent == m.(activeNodeInfo := sent.activeNodeInfo, passiveNodeInfo := sent.passiveNodeInfo)
            && sent.activeNodeInfo == m.activeNodeInfo.(identities := sent.activeNodeInfo.identities)
            && sent.passiveNodeInfo == m.passiveNodeInfo.(identities := sent.passiveNodeInfo.identities)
            && SentAs(m.activeNodeInfo.identities, sent.activeNodeInfo.identities)
            && SentAs(m.passiveNodeInfo.identities, sent.passiveNodeInfo.identities)
  {
    NodeDropsKeysOnly(m.activeNodeInfo);
    NodeDropsKeysOnly(m.passiveNodeInfo);
    hide NodeInfo.Stripped, SentAs;
  }

  lemma NodeDropsKeysOnly(n: NodeInfo)
    ensures n.Stripped() == n.(identities := n.Stripped().identities) && SentAs(n.identities, n.Stripped().identities)
  {
  }

  /** Round trip: a fresh stream decodes exactly what was encoded, up to private keys. */
  lemma FreshDecode(m: Message)
    ensures Decode(NEW_MESSAGE, Encode(m)) == Encode(m)
  {
    EncodesOnce(m);
    NewIsCovered(Encode(m));
    hide Covered, Decode, Encode;
    OverwriteIffCovered(NEW_MESSAGE, Encode(m));
  }

  lemma EncodesOnce(m: Message)
    ensures Encode(Encode(m)) == Encode(m)
  {
  }

  lemma NewIsCovered(m: Message)
    ensures Covered(NEW_MESSAGE, m)
  {
  }

  lemma NodeDecodeJoins(held: NodeInfo, sent: NodeInfo, m: NodeInfo)
    requires held == held.Stripped() && sent == sent.Stripped()
    ensures NodeCovered(held, DecodeNode(held, sent)) && NodeCovered(sent, DecodeNode(held, sent))
    ensures NodeCovered(held, m) && NodeCovered(sent, m) ==> NodeCovered(DecodeNode(held, sent), m)
  {
  }

  lemma EncodedNodes(m: Message)
    requires m == Encode(m)
    ensures m.activeNodeInfo == m.activeNodeInfo.Stripped() && m.passiveNodeInfo == m.passiveNodeInfo.Stripped()
  {
  }

  lemma NodesCover(held: Message, sent: Message)
    requires NodeCovered(held.activeNodeInfo, DecodeNode(held.activeNodeInfo, sent.activeNodeInfo))
    requires NodeCovered(held.passiveNodeInfo, DecodeNode(held.passiveNodeInfo, sent.passiveNodeInfo))
    requires NodeCovered(sent.activeNodeInfo, DecodeNode(held.activeNodeInfo, sent.activeNodeInfo))
    requires NodeCovered(sent.passiveNodeInfo, DecodeNode(held.passiveNodeInfo, sent.passiveNodeInfo))
    ensures Covered(held, Decode(held, sent)) && Covered(sent, Decode(held, sent))
  {
    hide NodeCovered, DecodeNode;
  }

  /** Decoding loses nothing either side knew. */
  lemma DecodeKeepsBoth(held: Message, sent: Message)
    requires held == Encode(held) && sent == Encode(sent)
    ensures Covered(held, Decode(held, sent)) && Covered(sent, Decode(held, sent))
  {
    EncodedNodes(held);
    EncodedNodes(sent);
    hide Covered, NodeCovered, Decode, DecodeNode, Encode;
    NodeDecodeJoins(held.activeNodeInfo, sent.activeNodeInfo, NO_NODE);
    NodeDecodeJoins(held.passiveNodeInfo, sent.passiveNodeInfo, NO_NODE);
    NodesCover(held, sent);
  }

  /** Decoding invents nothing: with DecodeKeepsBoth, it is the join of the knowledge order. */
  lemma DecodeInventsNothing(held: Message, sent: Message, m: Message)
    requires held == Encode(held) && sent == Encode(sent)
    requires Covered(held, m) && Covered(sent, m)
    ensures Covered(Decode(held, sent), m)
  {
    NodeDecodeJoins(held.activeNodeInfo, sent.activeNodeInfo, m.activeNodeInfo);
    NodeDecodeJoins(held.passiveNodeInfo, sent.passiveNodeInfo, m.passiveNodeInfo);
    assert (held.creditSamples + sent.creditSamples).Keys == held.creditSamples.Keys + sent.creditSamples.Keys;
  }
}

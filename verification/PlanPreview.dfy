/**
 The hook template data is built twice: from the message when the operator is shown the plan, and
 from a string map when a hook runs. The two agree.
 */
module PlanPreview {
  import opened Wrappers
  import opened Messages
  import opened Protocol
  import opened ProtocolInvariant
  import opened Gates
  import opened Agreement
  import opened ProtocolRuns
  import opened Roles
  import opened Towers
  import opened Outcomes
  import opened Flow
  import Trails
  import Endings
  import Readings

  datatype HookTemplateData = HookTemplateData(
    isDryRunFailover: bool, thisNodeRole: string, peerNodeRole: string,
    thisNodeName: string, thisNodePublicIP: string,
    thisNodeActiveIdentityPubkey: string, thisNodeActiveIdentityKeyFile: string,
    thisNodePassiveIdentityPubkey: string, thisNodePassiveIdentityKeyFile: string,
    thisNodeClientVersion: string, thisNodeClientVersionLocalRPC: string, thisNodeRPCAddress: string,
    peerNodeName: string, peerNodePublicIP: string,
    peerNodeActiveIdentityPubkey: string, peerNodePassiveIdentityPubkey: string,
    peerNodeClientVersion: string, peerNodeClientVersionLocalRPC: string)

  function ActiveKeyFile(n: NodeInfo): string {
    if n.identities.Some? then n.identities.value.active.keyFile else ""
  }

  function PassiveKeyFile(n: NodeInfo): string {
    if n.identities.Some? then n.identities.value.passive.keyFile else ""
  }

  // ----- From the message

  /** The data of a node that starts in one role, seen from its own side. */
  function DataOf(dryRun: bool, role: string, peerRole: string, own: NodeInfo, peer: NodeInfo, rpcURL: string): HookTemplateData {
    HookTemplateData(
      dryRun, role, peerRole,
      own.hostname, own.publicIP, own.ActivePubKey(), ActiveKeyFile(own), own.PassivePubKey(), PassiveKeyFile(own),
      own.clientVersion, own.clientVersionRPC, rpcURL,
      peer.hostname, peer.publicIP, peer.ActivePubKey(), peer.PassivePubKey(), peer.clientVersion, peer.clientVersionRPC)
  }

  /** buildHookTemplateDataForActiveNode. */
  function PlanForActiveNode(m: Message, isPre: bool, rpcURL: string): HookTemplateData {
    DataOf(m.isDryRunFailover, if isPre then "active" else "passive", if isPre then "passive" else "active",
           m.activeNodeInfo, m.passiveNodeInfo, rpcURL)
  }

  /** buildHookTemplateDataForPassiveNode. */
  function PlanForPassiveNode(m: Message, isPre: bool, rpcURL: string): HookTemplateData {
    DataOf(m.isDryRunFailover, if isPre then "passive" else "active", if isPre then "active" else "passive",
           m.passiveNodeInfo, m.activeNodeInfo, rpcURL)
  }

  /** What the data says: the mode and the two roles, the node itself, and its peer. */
  predicate Describes(
      d: HookTemplateData, dryRun: bool, role: string, peerRole: string, own: NodeInfo, peer: NodeInfo, rpcURL: string) {
    && d.isDryRunFailover == dryRun && d.thisNodeRole == role && d.peerNodeRole == peerRole
    && d.thisNodeName == own.hostname && d.thisNodePublicIP == own.publicIP
    && (own.identities.Some? ==>
          && d.thisNodeActiveIdentityPubkey == own.identities.value.active.PubKey()
          && d.thisNodeActiveIdentityKeyFile == own.identities.value.active.keyFile
          && d.thisNodePassiveIdentityPubkey == own.identities.value.passive.PubKey()
          && d.thisNodePassiveIdentityKeyFile == own.identities.value.passive.keyFile)
    && d.thisNodeClientVersion == own.clientVersion && d.thisNodeClientVersionLocalRPC == own.clientVersionRPC
    && d.thisNodeRPCAddress == rpcURL
    && d.peerNodeName == peer.hostname && d.peerNodePublicIP == peer.publicIP
    && (peer.identities.Some? ==>
          && d.peerNodeActiveIdentityPubkey == peer.identities.value.active.PubKey()
          && d.peerNodePassiveIdentityPubkey == peer.identities.value.passive.PubKey())
    && d.peerNodeClientVersion == peer.clientVersion && d.peerNodeClientVersionLocalRPC == peer.clientVersionRPC
  }

  lemma DataDescribes(dryRun: bool, role: string, peerRole: string, own: NodeInfo, peer: NodeInfo, rpcURL: string)
    ensures Describes(DataOf(dryRun, role, peerRole, own, peer, rpcURL), dryRun, role, peerRole, own, peer, rpcURL)
  {
  }

  // ----- Through the string map

  /** The names of the environment map; the original spells them as strings. */
  datatype EnvKey =
    | IS_DRY_RUN_FAILOVER | THIS_NODE_ROLE | PEER_NODE_ROLE
    | THIS_NODE_NAME | THIS_NODE_PUBLIC_IP
    | THIS_NODE_ACTIVE_IDENTITY_PUBKEY | THIS_NODE_ACTIVE_IDENTITY_KEYPAIR_FILE
    | THIS_NODE_PASSIVE_IDENTITY_PUBKEY | THIS_NODE_PASSIVE_IDENTITY_KEYPAIR_FILE
    | THIS_NODE_CLIENT_VERSION | THIS_NODE_CLIENT_VERSION_LOCAL_RPC | THIS_NODE_RPC_ADDRESS
    | PEER_NODE_NAME | PEER_NODE_PUBLIC_IP
    | PEER_NODE_ACTIVE_IDENTITY_PUBKEY | PEER_NODE_PASSIVE_IDENTITY_PUBKEY
    | PEER_NODE_CLIENT_VERSION | PEER_NODE_CLIENT_VERSION_LOCAL_RPC

  type EnvMap = map<EnvKey, string>

  /** Reading a missing key of a Go map gives the zero value. */
  function Get(env: EnvMap, key: EnvKey): string {
    if key in env then env[key] else ""
  }

  /** newHookTemplateData. */
  function TemplateDataFrom(env: EnvMap): HookTemplateData {
    HookTemplateData(
      Get(env, IS_DRY_RUN_FAILOVER) == "true", Get(env, THIS_NODE_ROLE), Get(env, PEER_NODE_ROLE),
      Get(env, THIS_NODE_NAME), Get(env, THIS_NODE_PUBLIC_IP),
      Get(env, THIS_NODE_ACTIVE_IDENTITY_PUBKEY), Get(env, THIS_NODE_ACTIVE_IDENTITY_KEYPAIR_FILE),
      Get(env, THIS_NODE_PASSIVE_IDENTITY_PUBKEY), Get(env, THIS_NODE_PASSIVE_IDENTITY_KEYPAIR_FILE),
      Get(env, THIS_NODE_CLIENT_VERSION), Get(env, THIS_NODE_CLIENT_VERSION_LOCAL_RPC), Get(env, THIS_NODE_RPC_ADDRESS),
      Get(env, PEER_NODE_NAME), Get(env, PEER_NODE_PUBLIC_IP),
      Get(env, PEER_NODE_ACTIVE_IDENTITY_PUBKEY), Get(env, PEER_NODE_PASSIVE_IDENTITY_PUBKEY),
      Get(env, PEER_NODE_CLIENT_VERSION), Get(env, PEER_NODE_CLIENT_VERSION_LOCAL_RPC))
  }

  /** What the map says of the mode, of the node itself and of its peer. */
  predicate HoldsOwn(env: EnvMap, own: NodeInfo, rpcURL: string) {
    && Get(env, THIS_NODE_NAME) == own.hostname && Get(env, THIS_NODE_PUBLIC_IP) == own.publicIP
    && Get(env, THIS_NODE_ACTIVE_IDENTITY_PUBKEY) == own.ActivePubKey()
    && Get(env, THIS_NODE_ACTIVE_IDENTITY_KEYPAIR_FILE) == ActiveKeyFile(own)
    && Get(env, THIS_NODE_PASSIVE_IDENTITY_PUBKEY) == own.PassivePubKey()
    && Get(env, THIS_NODE_PASSIVE_IDENTITY_KEYPAIR_FILE) == PassiveKeyFile(own)
    && Get(env, THIS_NODE_CLIENT_VERSION) == own.clientVersion
    && Get(env, THIS_NODE_CLIENT_VERSION_LOCAL_RPC) == own.clientVersionRPC && Get(env, THIS_NODE_RPC_ADDRESS) == rpcURL
  }

  predicate HoldsPeer(env: EnvMap, peer: NodeInfo) {
    && Get(env, PEER_NODE_NAME) == peer.hostname && Get(env, PEER_NODE_PUBLIC_IP) == peer.publicIP
    && Get(env, PEER_NODE_ACTIVE_IDENTITY_PUBKEY) == peer.ActivePubKey()
    && Get(env, PEER_NODE_PASSIVE_IDENTITY_PUBKEY) == peer.PassivePubKey()
    && Get(env, PEER_NODE_CLIENT_VERSION) == peer.clientVersion
    && Get(env, PEER_NODE_CLIENT_VERSION_LOCAL_RPC) == peer.clientVersionRPC
  }

  predicate SameMode(env: EnvMap, env': EnvMap) {
    && Get(env', IS_DRY_RUN_FAILOVER) == Get(env, IS_DRY_RUN_FAILOVER)
    && Get(env', THIS_NODE_ROLE) == Get(env, THIS_NODE_ROLE) && Get(env', PEER_NODE_ROLE) == Get(env, PEER_NODE_ROLE)
  }

  method AddOwn(env: EnvMap, own: NodeInfo, rpcURL: string) returns (envMap: EnvMap)
    ensures HoldsOwn(envMap, own, rpcURL) && SameMode(env, envMap)
  {
    envMap := env;
    envMap := envMap[THIS_NODE_NAME := own.hostname];
    envMap := envMap[THIS_NODE_PUBLIC_IP := own.publicIP];
    envMap := envMap[THIS_NODE_ACTIVE_IDENTITY_PUBKEY := own.ActivePubKey()];
    envMap := envMap[THIS_NODE_ACTIVE_IDENTITY_KEYPAIR_FILE := ActiveKeyFile(own)];
    envMap := envMap[THIS_NODE_PASSIVE_IDENTITY_PUBKEY := own.PassivePubKey()];
    envMap := envMap[THIS_NODE_PASSIVE_IDENTITY_KEYPAIR_FILE := PassiveKeyFile(own)];
    envMap := envMap[THIS_NODE_CLIENT_VERSION := own.clientVersion];
    envMap := envMap[THIS_NODE_CLIENT_VERSION_LOCAL_RPC := own.clientVersionRPC];
    envMap := envMap[THIS_NODE_RPC_ADDRESS := rpcURL];
  }

  predicate PeerKey(key: EnvKey) {
    || key.PEER_NODE_NAME? || key.PEER_NODE_PUBLIC_IP? || key.PEER_NODE_ACTIVE_IDENTITY_PUBKEY?
    || key.PEER_NODE_PASSIVE_IDENTITY_PUBKEY? || key.PEER_NODE_CLIENT_VERSION? || key.PEER_NODE_CLIENT_VERSION_LOCAL_RPC?
  }

  method AddPeer(env: EnvMap, peer: NodeInfo) returns (envMap: EnvMap)
    ensures HoldsPeer(envMap, peer) && forall key :: !PeerKey(key) ==> Get(envMap, key) == Get(env, key)
  {
    envMap := env;
    envMap := envMap[PEER_NODE_NAME := peer.hostname];
    envMap := envMap[PEER_NODE_PUBLIC_IP := peer.publicIP];
    envMap := envMap[PEER_NODE_ACTIVE_IDENTITY_PUBKEY := peer.ActivePubKey()];
    envMap := envMap[PEER_NODE_PASSIVE_IDENTITY_PUBKEY := peer.PassivePubKey()];
    envMap := envMap[PEER_NODE_CLIENT_VERSION := peer.clientVersion];
    envMap := envMap[PEER_NODE_CLIENT_VERSION_LOCAL_RPC := peer.clientVersionRPC];
  }

  lemma PeerKeysApart(env: EnvMap, env': EnvMap, own: NodeInfo, rpcURL: string)
    requires HoldsOwn(env, own, rpcURL) && forall key :: !PeerKey(key) ==> Get(env', key) == Get(env, key)
    ensures HoldsOwn(env', own, rpcURL) && SameMode(env, env')
  {
    hide Get, ActiveKeyFile, PassiveKeyFile;
  }

  lemma HeldIsRead(env: EnvMap, own: NodeInfo, peer: NodeInfo, rpcURL: string)
    requires HoldsOwn(env, own, rpcURL) && HoldsPeer(env, peer)
    ensures TemplateDataFrom(env) ==
              DataOf(Get(env, IS_DRY_RUN_FAILOVER) == "true", Get(env, THIS_NODE_ROLE), Get(env, PEER_NODE_ROLE), own, peer, rpcURL)
  {
    hide Get, ActiveKeyFile, PassiveKeyFile;
  }

  /** The part of getHookEnvMap both nodes share: their own info and the peer's, into the map. */
  method AddNodes(env: EnvMap, own: NodeInfo, peer: NodeInfo, rpcURL: string) returns (envMap: EnvMap)
    ensures TemplateDataFrom(envMap) ==
              DataOf(Get(env, IS_DRY_RUN_FAILOVER) == "true", Get(env, THIS_NODE_ROLE), Get(env, PEER_NODE_ROLE), own, peer, rpcURL)
  {
    hide Get, TemplateDataFrom, HoldsOwn, HoldsPeer, DataOf;
    var ownMap := AddOwn(env, own, rpcURL);
    envMap := AddPeer(ownMap, peer);
    PeerKeysApart(ownMap, envMap, own, rpcURL);
    HeldIsRead(envMap, own, peer, rpcURL);
  }

  /** The mode and the two roles, which come first. */
  method StartMap(dryRun: bool, role: string, peerRole: string) returns (envMap: EnvMap)
    ensures (Get(envMap, IS_DRY_RUN_FAILOVER) == "true") == dryRun
    ensures Get(envMap, THIS_NODE_ROLE) == role && Get(envMap, PEER_NODE_ROLE) == peerRole
  {
    envMap := map[];
    envMap := envMap[IS_DRY_RUN_FAILOVER := if dryRun then "true" else "false"];
    envMap := envMap[THIS_NODE_ROLE := role];
    envMap := envMap[PEER_NODE_ROLE := peerRole];
  }

  /** The client's getHookEnvMap: its own info with the identities it holds, the peer's from its message. */
  method ClientHookEnvMap(info: NodeInfo, m: Message, rpcURL: string, isPre: bool) returns (envMap: EnvMap)
    ensures TemplateDataFrom(envMap) == PlanForActiveNode(m.(activeNodeInfo := info), isPre, rpcURL)
    ensures Describes(
              TemplateDataFrom(envMap), m.isDryRunFailover, if isPre then "active" else "passive",
              if isPre then "passive" else "active", info, m.passiveNodeInfo, rpcURL)
  {
    hide Get, TemplateDataFrom, DataOf, Describes;
    if isPre {
      envMap := StartMap(m.isDryRunFailover, "active", "passive");
    } else {
      envMap := StartMap(m.isDryRunFailover, "passive", "active");
    }
    envMap := AddNodes(envMap, info, m.passiveNodeInfo, rpcURL);
    DataDescribes(
      m.isDryRunFailover, if isPre then "active" else "passive", if isPre then "passive" else "active", info, m.passiveNodeInfo,
      rpcURL);
  }

  /** The server's getHookEnvMap. */
  method ServerHookEnvMap(info: NodeInfo, dryRun: bool, m: Message, rpcURL: string, isPre: bool) returns (envMap: EnvMap)
    ensures TemplateDataFrom(envMap) == PlanForPassiveNode(m.(passiveNodeInfo := info, isDryRunFailover := dryRun), isPre, rpcURL)
    ensures Describes(
              TemplateDataFrom(envMap), dryRun, if isPre then "passive" else "active",
              if isPre then "active" else "passive", info, m.activeNodeInfo, rpcURL)
  {
    hide Get, TemplateDataFrom, DataOf, Describes;
    if isPre {
      envMap := StartMap(dryRun, "passive", "active");
    } else {
      envMap := StartMap(dryRun, "active", "passive");
    }
    envMap := AddNodes(envMap, info, m.activeNodeInfo, rpcURL);
    DataDescribes(
      dryRun, if isPre then "passive" else "active", if isPre then "active" else "passive", info, m.activeNodeInfo, rpcURL);
  }

  // ----- Preview and execution in a run

  /** The two infos a hook sees are the configured ones, less private keys and tower bytes. */
  ghost predicate SeesNode(seen: NodeInfo, own: NodeInfo) {
    && own.identities.Some? && seen.identities.Some?
    && seen.identities.value.Stripped() == own.identities.value.Stripped()
    && seen.ActivePubKey() == own.ActivePubKey() && seen.PassivePubKey() == own.PassivePubKey()
    && seen.hostname == own.hostname && seen.publicIP == own.publicIP
    && seen.clientVersion == own.clientVersion && seen.clientVersionRPC == own.clientVersionRPC
    && seen.rpcAddress == own.rpcAddress
  }

  lemma SameNodesSameData(dryRun: bool, role: string, peerRole: string, own: NodeInfo, peer: NodeInfo, own': NodeInfo, peer': NodeInfo,
                          c: NodeInfo, v: NodeInfo, rpcURL: string)
    requires SeesNode(own, c) && SeesNode(own', c) && SeesNode(peer, v) && SeesNode(peer', v)
    ensures DataOf(dryRun, role, peerRole, own, peer, own.rpcAddress) == DataOf(dryRun, role, peerRole, own', peer', rpcURL)
            <==> c.rpcAddress == rpcURL
  {
  }

  /** PubKey() survives the loss of the private key, because the public key string is always set. */
  lemma StrippedSees(own: NodeInfo, seen: NodeInfo)
    requires own.identities.Some? && own.identities.value.Valid()
    requires seen.identities.Some? && seen.identities.value.Stripped() == own.identities.value.Stripped()
    requires seen.identities.value == own.identities.value || seen.identities.value == seen.identities.value.Stripped()
    requires seen == own.(identities := seen.identities, towerFileBytes := seen.towerFileBytes, towerFileHash := seen.towerFileHash)
    ensures SeesNode(seen, own)
  {
  }

  lemma PlanSees(cfg: Config, plan: Message)
    requires cfg.Valid() && BaseMessage(cfg, plan)
    ensures SeesNode(plan.activeNodeInfo, cfg.clientInfo) && SeesNode(plan.passiveNodeInfo, cfg.serverInfo)
    ensures plan.isDryRunFailover == cfg.dryRun
  {
    StrippedSees(cfg.clientInfo, plan.activeNodeInfo);
    StrippedSees(cfg.serverInfo, plan.passiveNodeInfo);
  }

  /** The client's own info as its hooks see it: the configured one with the identities it holds. */
  function ClientOwnInfo(cfg: Config, c: Client): NodeInfo {
    cfg.clientInfo.(identities := c.identities)
  }

  function ServerOwnInfo(cfg: Config, v: Server): NodeInfo {
    cfg.serverInfo.(identities := v.identities)
  }

  lemma OwnInfoStays(cfg: Config, s: State)
    requires cfg.Valid() && Inv(cfg, s)
    ensures SeesNode(ClientOwnInfo(cfg, s.client), cfg.clientInfo)
  {
    hide Counts, UpFrames, DownFrames, ServerMessage, ClientMessage, ReplyMatches, MessageAt, SeesNode;
    StrippedSees(cfg.clientInfo, ClientOwnInfo(cfg, s.client));
  }

  /** A client that has the go-ahead holds the reply and what it added itself. */
  lemma ToldHoldsReply(cfg: Config, s: State)
    requires Inv(cfg, s) && Told(s.client.pc)
    ensures |s.toClient.frames| >= 2 && Reply(s.toClient.frames).canProceed
    ensures ReplyFrame(cfg, Reply(s.toClient.frames)) && ClientAdds(s.client.msg, Reply(s.toClient.frames))
  {
    hide UpFrames, ServerMessage, ReplyMatches, SameIdentities, MessageAt, ClientProgress, TowerSent, ReplyFrame, ClientAdds,
      VerdictFrame;
  }

  lemma AddingKeepsPeer(cfg: Config, m: Message, r: Message)
    requires ReplyFrame(cfg, r) && ClientAdds(m, r)
    ensures m.passiveNodeInfo == cfg.serverInfo.Stripped() && m.isDryRunFailover == cfg.dryRun
  {
  }

  lemma ClientSees(cfg: Config, s: State)
    requires cfg.Valid() && Inv(cfg, s) && Told(s.client.pc)
    ensures SeesNode(ClientOwnInfo(cfg, s.client), cfg.clientInfo) && SeesNode(s.client.msg.passiveNodeInfo, cfg.serverInfo)
    ensures s.client.msg.isDryRunFailover == cfg.dryRun
    ensures |s.toClient.frames| >= 2 && Reply(s.toClient.frames).canProceed
  {
    hide Inv, ReplyFrame, ClientAdds, MessageAt, SeesNode, ClientOwnInfo;
    OwnInfoStays(cfg, s);
    ToldHoldsReply(cfg, s);
    AddingKeepsPeer(cfg, s.client.msg, Reply(s.toClient.frames));
    StrippedSees(cfg.serverInfo, s.client.msg.passiveNodeInfo);
  }

  lemma PlanShown(cfg: Config, s: State)
    requires GateInv(cfg, s) && |s.toClient.frames| >= 2 && Reply(s.toClient.frames).canProceed
    ensures s.server.checks.plan.Some? && BaseMessage(cfg, s.server.checks.plan.value)
  {
    hide BaseMessage, GossipShows, SameVersion, HooksDone, MessageAt, ServerGates, ClientGates;
  }

  lemma ClientDataAsPlanned(cfg: Config, plan: Message, c: Client, isPre: bool, rpcURL: string)
    requires cfg.Valid() && BaseMessage(cfg, plan)
    requires SeesNode(ClientOwnInfo(cfg, c), cfg.clientInfo) && SeesNode(c.msg.passiveNodeInfo, cfg.serverInfo)
    requires c.msg.isDryRunFailover == cfg.dryRun
    ensures PlanForActiveNode(plan, isPre, plan.activeNodeInfo.rpcAddress)
              == PlanForActiveNode(c.msg.(activeNodeInfo := ClientOwnInfo(cfg, c)), isPre, rpcURL)
            <==> cfg.clientInfo.rpcAddress == rpcURL
  {
    hide SeesNode, BaseMessage, DataOf, ClientOwnInfo;
    PlanSees(cfg, plan);
    var own := ClientOwnInfo(cfg, c);
    var role, peerRole := if isPre then "active" else "passive", if isPre then "passive" else "active";
    assert PlanForActiveNode(plan, isPre, plan.activeNodeInfo.rpcAddress)
        == DataOf(cfg.dryRun, role, peerRole, plan.activeNodeInfo, plan.passiveNodeInfo, plan.activeNodeInfo.rpcAddress);
    assert PlanForActiveNode(c.msg.(activeNodeInfo := own), isPre, rpcURL)
        == DataOf(cfg.dryRun, role, peerRole, own, c.msg.passiveNodeInfo, rpcURL);
    SameNodesSameData(
      cfg.dryRun, role, peerRole, plan.activeNodeInfo, plan.passiveNodeInfo, own, c.msg.passiveNodeInfo,
      cfg.clientInfo, cfg.serverInfo, rpcURL);
  }

  /** What the client's pre hooks get is what the operator was shown, exactly when the RPC address in
      the client's info is the one it runs with. */
  lemma ClientPreHooksAsPlanned(cfg: Config, s: State, rpcURL: string)
    requires cfg.Valid() && Reachable(cfg, s) && s.client.pc.CPreHooks?
    ensures s.server.checks.plan.Some?
    ensures var plan := s.server.checks.plan.value;
            PlanForActiveNode(plan, true, plan.activeNodeInfo.rpcAddress)
              == PlanForActiveNode(s.client.msg.(activeNodeInfo := ClientOwnInfo(cfg, s.client)), true, rpcURL)
            <==> cfg.clientInfo.rpcAddress == rpcURL
  {
    hide Reachable, Good, Inv, GateInv, SeesNode, BaseMessage, MessageAt;
    ReachableGood(cfg, s);
    GoodHasInv(cfg, s);
    ClientSees(cfg, s);
    PlanShown(cfg, s);
    ClientDataAsPlanned(cfg, s.server.checks.plan.value, s.client, true, rpcURL);
  }

  /** The verdict holds the same info of the peer as the client does, and no keys. */
  lemma VerdictHoldsPeer(cfg: Config, s: State)
    requires Inv(cfg, s) && s.client.pc.CAwaitOutcome? && |s.toClient.frames| >= 3
    ensures Verdict(s.toClient.frames).passiveNodeInfo == cfg.serverInfo.Stripped()
  {
    ToldHoldsReply(cfg, s);
    AddingKeepsPeer(cfg, Reply(s.toClient.frames), Reply(s.toClient.frames));
    hide Counts, ServerMessage, ClientMessage, ReplyMatches, SameIdentities, MessageAt, ReplyFrame;
  }

  lemma DecodingOneself(n: NodeInfo)
    ensures DecodeNode(n.Stripped(), n.Stripped()) == n.Stripped()
  {
  }

  /** The verdict leaves what the hooks see of the peer as it was, in both modes. */
  lemma VerdictKeepsPeer(cfg: Config, s: State, m: Message)
    requires cfg.Valid() && Inv(cfg, s)
    requires s.client.pc.CAwaitOutcome? && ClientReady(s, ClientReceive(Some(Gob(m))))
    ensures Decode(s.client.msg, m).passiveNodeInfo == s.client.msg.passiveNodeInfo
  {
    hide Inv, ClientReady, ReplyFrame, ClientAdds, MessageAt, DecodeNode;
    ClientHearsVerdict(cfg, s, ClientReceive(Some(Gob(m))));
    VerdictHoldsPeer(cfg, s);
    ToldHoldsReply(cfg, s);
    AddingKeepsPeer(cfg, s.client.msg, Reply(s.toClient.frames));
    DecodingOneself(cfg.serverInfo);
  }

  lemma DecodedMessage(c: Client, m: Message)
    ensures ClientDecodes(c, m).msg == Decode(c.msg, m)
  {
    hide Decode;
  }

  /** What its post hooks see, once it has read the verdict. */
  lemma ClientSeesAfterVerdict(cfg: Config, s: State, m: Message)
    requires cfg.Valid() && Inv(cfg, s)
    requires s.client.pc.CAwaitOutcome? && ClientReady(s, ClientReceive(Some(Gob(m))))
    ensures var c := ClientEvent(cfg, s, ClientReceive(Some(Gob(m)))).client;
            && SeesNode(ClientOwnInfo(cfg, c), cfg.clientInfo) && SeesNode(c.msg.passiveNodeInfo, cfg.serverInfo)
            && c.msg.isDryRunFailover == cfg.dryRun
    ensures |s.toClient.frames| >= 2 && Reply(s.toClient.frames).canProceed
  {
    hide Inv, SeesNode, MessageAt, Decode, ClientOwnInfo, ClientEvent, ClientReady, ClientDecodes;
    var a := ClientReceive(Some(Gob(m)));
    VerdictIsDecoded(cfg, s, m);
    DecodedMessage(s.client, m);
    StepKeepsInv(cfg, s, ClientDoes(a));
    OwnInfoStays(cfg, ClientEvent(cfg, s, a));
    ClientSees(cfg, s);
    VerdictKeepsPeer(cfg, s, m);
    ClientHearsVerdict(cfg, s, a);
  }

  /** The same for its post hooks, which run on the message the verdict left. */
  lemma ClientPostHooksAsPlanned(cfg: Config, s: State, m: Message, rpcURL: string)
    requires cfg.Valid() && Reachable(cfg, s)
    requires s.client.pc.CAwaitOutcome? && ClientReady(s, ClientReceive(Some(Gob(m))))
    ensures s.server.checks.plan.Some?
    ensures var plan, c := s.server.checks.plan.value, ClientEvent(cfg, s, ClientReceive(Some(Gob(m)))).client;
            PlanForActiveNode(plan, false, plan.activeNodeInfo.rpcAddress)
              == PlanForActiveNode(c.msg.(activeNodeInfo := ClientOwnInfo(cfg, c)), false, rpcURL)
            <==> cfg.clientInfo.rpcAddress == rpcURL
  {
    hide Reachable, Good, Inv, GateInv, SeesNode, BaseMessage, MessageAt, PlanForActiveNode, ClientOwnInfo, ClientEvent,
      ClientReady;
    ReachableGood(cfg, s);
    GoodHasInv(cfg, s);
    ClientSeesAfterVerdict(cfg, s, m);
    PlanShown(cfg, s);
    ClientDataAsPlanned(
      cfg, s.server.checks.plan.value, ClientEvent(cfg, s, ClientReceive(Some(Gob(m)))).client, false, rpcURL);
  }

  lemma FinishingSees(cfg: Config, m: Message, t: Message, r: Message)
    requires cfg.Valid() && FinishingMessage(cfg, m, t)
    requires !cfg.skipTowerSync ==> TowerFrame(cfg, t, r) && ReplyFrame(cfg, r)
    ensures SeesNode(m.activeNodeInfo, cfg.clientInfo)
  {
    hide SeesNode, SwitchTimed, TowerFilled;
    StrippedSees(cfg.clientInfo, m.activeNodeInfo);
  }

  /** The frames behind a message the server is finishing. */
  lemma FinishingFrames(cfg: Config, s: State)
    requires Inv(cfg, s) && Finishing(s.server.pc)
    ensures FinishingMessage(cfg, s.server.msg, Tower(s.toServer.frames))
    ensures !cfg.skipTowerSync ==>
              TowerFrame(cfg, Tower(s.toServer.frames), Reply(s.toClient.frames)) && ReplyFrame(cfg, Reply(s.toClient.frames))
  {
    hide ClientMessage, ReplyMatches, SameIdentities, MessageAt, FinishingMessage, TowerFrame, ReplyFrame, VerdictFrame,
      RequestOf, Encode;
  }

  lemma ServerSees(cfg: Config, s: State)
    requires cfg.Valid() && Inv(cfg, s)
    requires s.server.pc.SPreHooks? || Finishing(s.server.pc)
    ensures SeesNode(ServerOwnInfo(cfg, s.server), cfg.serverInfo) && SeesNode(s.server.msg.activeNodeInfo, cfg.clientInfo)
  {
    hide UpFrames, DownFrames, ClientMessage, ReplyMatches, MessageAt, SeesNode, TowerFrame, ReplyFrame, RequestOf,
      Encode, FinishingMessage, BaseMessage;
    StrippedSees(cfg.serverInfo, ServerOwnInfo(cfg, s.server));
    if s.server.pc.SPreHooks? {
      PlanSees(cfg, s.server.msg);
    } else {
      FinishingFrames(cfg, s);
      FinishingSees(cfg, s.server.msg, Tower(s.toServer.frames), Reply(s.toClient.frames));
    }
  }

  lemma ServerPlanShown(cfg: Config, s: State)
    requires GateInv(cfg, s) && (s.server.pc.SPreHooks? || Finishing(s.server.pc))
    ensures s.server.checks.plan.Some? && BaseMessage(cfg, s.server.checks.plan.value)
  {
    hide BaseMessage, GossipShows, SameVersion, HooksDone, HooksHeld, MessageAt, ClientGates;
  }

  /** The same for the server before and after the switch; its hooks run with its own dry-run flag. */
  lemma ServerRunsAsPlanned(cfg: Config, s: State, isPre: bool, rpcURL: string)
    requires cfg.Valid() && Reachable(cfg, s)
    requires s.server.pc.SPreHooks? || Finishing(s.server.pc)
    ensures s.server.checks.plan.Some?
    ensures var plan := s.server.checks.plan.value;
            PlanForPassiveNode(plan, isPre, plan.passiveNodeInfo.rpcAddress)
              == PlanForPassiveNode(
                   s.server.msg.(passiveNodeInfo := ServerOwnInfo(cfg, s.server), isDryRunFailover := cfg.dryRun), isPre, rpcURL)
            <==> cfg.serverInfo.rpcAddress == rpcURL
  {
    hide Reachable, Good, Inv, GateInv, SeesNode, BaseMessage, DataOf;
    ReachableGood(cfg, s);
    GoodHasInv(cfg, s);
    ServerSees(cfg, s);
    ServerPlanShown(cfg, s);
    var plan := s.server.checks.plan.value;
    PlanSees(cfg, plan);
    SameNodesSameData(
      cfg.dryRun, if isPre then "passive" else "active", if isPre then "active" else "passive",
      plan.passiveNodeInfo, plan.activeNodeInfo, ServerOwnInfo(cfg, s.server), s.server.msg.activeNodeInfo,
      cfg.serverInfo, cfg.clientInfo, rpcURL);
  }

  // ----- What the hooks are told, and what is so

  /** Seen through the messages, the nodes are described as they were configured. */
  lemma SeenDescribes(d: HookTemplateData, dryRun: bool, role: string, peerRole: string, own: NodeInfo, peer: NodeInfo,
                      c: NodeInfo, v: NodeInfo, rpcURL: string)
    requires Describes(d, dryRun, role, peerRole, own, peer, rpcURL) && SeesNode(own, c) && SeesNode(peer, v)
    ensures Describes(d, dryRun, role, peerRole, c, v, rpcURL)
  {
  }

  lemma ClientTold(cfg: Config, c: Client, isPre: bool, rpcURL: string)
    requires SeesNode(ClientOwnInfo(cfg, c), cfg.clientInfo) && SeesNode(c.msg.passiveNodeInfo, cfg.serverInfo)
    requires c.msg.isDryRunFailover == cfg.dryRun
    ensures Describes(
              PlanForActiveNode(c.msg.(activeNodeInfo := ClientOwnInfo(cfg, c)), isPre, rpcURL), cfg.dryRun,
              if isPre then "active" else "passive", if isPre then "passive" else "active", cfg.clientInfo, cfg.serverInfo, rpcURL)
  {
    hide SeesNode, DataOf, Describes, ClientOwnInfo;
    var role, peerRole := if isPre then "active" else "passive", if isPre then "passive" else "active";
    DataDescribes(cfg.dryRun, role, peerRole, ClientOwnInfo(cfg, c), c.msg.passiveNodeInfo, rpcURL);
    SeenDescribes(
      DataOf(cfg.dryRun, role, peerRole, ClientOwnInfo(cfg, c), c.msg.passiveNodeInfo, rpcURL), cfg.dryRun, role, peerRole,
      ClientOwnInfo(cfg, c), c.msg.passiveNodeInfo, cfg.clientInfo, cfg.serverInfo, rpcURL);
  }

  lemma ServerTold(cfg: Config, v: Server, isPre: bool, rpcURL: string)
    requires SeesNode(ServerOwnInfo(cfg, v), cfg.serverInfo) && SeesNode(v.msg.activeNodeInfo, cfg.clientInfo)
    ensures Describes(
              PlanForPassiveNode(v.msg.(passiveNodeInfo := ServerOwnInfo(cfg, v), isDryRunFailover := cfg.dryRun), isPre, rpcURL),
              cfg.dryRun, if isPre then "passive" else "active", if isPre then "active" else "passive",
              cfg.serverInfo, cfg.clientInfo, rpcURL)
  {
    hide SeesNode, DataOf, Describes, ServerOwnInfo;
    var role, peerRole := if isPre then "passive" else "active", if isPre then "active" else "passive";
    DataDescribes(cfg.dryRun, role, peerRole, ServerOwnInfo(cfg, v), v.msg.activeNodeInfo, rpcURL);
    SeenDescribes(
      DataOf(cfg.dryRun, role, peerRole, ServerOwnInfo(cfg, v), v.msg.activeNodeInfo, rpcURL), cfg.dryRun, role, peerRole,
      ServerOwnInfo(cfg, v), v.msg.activeNodeInfo, cfg.serverInfo, cfg.clientInfo, rpcURL);
  }

  /** The client's pre hooks are told of the two nodes as configured, that this node is active, as it is, and
      that its peer is passive, as it is with tower sync; without it the peer may have switched already. */
  lemma ClientPreHooksTold(cfg: Config, s: State, rpcURL: string)
    requires cfg.Valid() && Reachable(cfg, s) && s.client.pc.CPreHooks?
    ensures Describes(
              PlanForActiveNode(s.client.msg.(activeNodeInfo := ClientOwnInfo(cfg, s.client)), true, rpcURL), cfg.dryRun,
              "active", "passive", cfg.clientInfo, cfg.serverInfo, rpcURL)
    ensures s.client.active && (!cfg.skipTowerSync ==> !s.server.active)
  {
    hide Reachable, Good, Inv, SeesNode, Describes, MessageAt, Trails.TrailInv;
    ReachableGood(cfg, s);
    GoodHasInv(cfg, s);
    ClientSees(cfg, s);
    ClientTold(cfg, s.client, true, rpcURL);
    Trails.ReachableTrail(cfg, s);
    RolesBefore(cfg, s);
    Endings.ServerWaitsForClient(cfg, s);
  }

  /** No node has changed its role before its hooks have run. */
  lemma RolesBefore(cfg: Config, s: State)
    requires Trails.TrailInv(cfg, s)
    ensures s.client.pc.CPreHooks? ==> s.client.active && !s.client.wentPassive
    ensures s.server.pc.SPreHooks? ==> !s.server.active
    ensures s.server.pc.SSendDone? ==> s.server.active == !cfg.dryRun
  {
    hide Trails.LinkTrail, Trails.FrameTrail, Trails.ReadTrail;
  }

  /** Its post hooks, after a verdict of success, are told of the two roles as they are outside a dry run. */
  lemma ClientPostHooksTold(cfg: Config, s: State, m: Message, rpcURL: string)
    requires cfg.Valid() && Reachable(cfg, s) && m.isSuccessfullyCompleted
    requires s.client.pc.CAwaitOutcome? && ClientReady(s, ClientReceive(Some(Gob(m))))
    ensures var n := ClientEvent(cfg, s, ClientReceive(Some(Gob(m))));
            && Describes(
                 PlanForActiveNode(n.client.msg.(activeNodeInfo := ClientOwnInfo(cfg, n.client)), false, rpcURL), cfg.dryRun,
                 "passive", "active", cfg.clientInfo, cfg.serverInfo, rpcURL)
            && (!cfg.dryRun ==> !n.client.active && n.server.active)
  {
    var a := ClientReceive(Some(Gob(m)));
    var n := ClientEvent(cfg, s, a);
    ReachableGood(cfg, s);
    RolesAfter(cfg, s, m);
    hide Reachable, Good, Inv, SeesNode, Describes, MessageAt, ClientOwnInfo, ClientEvent, ClientReady, RoleInv;
    GoodHasInv(cfg, s);
    ClientSeesAfterVerdict(cfg, s, m);
    ClientTold(cfg, n.client, false, rpcURL);
  }

  lemma RolesAfter(cfg: Config, s: State, m: Message)
    requires cfg.Valid() && Good(cfg, s) && m.isSuccessfullyCompleted
    requires s.client.pc.CAwaitOutcome? && ClientReady(s, ClientReceive(Some(Gob(m))))
    ensures var n := ClientEvent(cfg, s, ClientReceive(Some(Gob(m))));
            !cfg.dryRun ==> !n.client.active && n.server.active
  {
    var a := ClientReceive(Some(Gob(m)));
    hide Inv, GateInv, TowerInv, EndInv, MessageAt, ClientStep, CanReceive;
    GoodHasInv(cfg, s);
    ClientHearsVerdict(cfg, s, a);
    if ClientStep(cfg, s.client, a).ClientMoved? {
      Flow.ClientFollowsEdge(cfg, s.client, a);
    }
  }

  /** The server's pre hooks are told that this node is passive and its peer active, as they are. */
  lemma ServerPreHooksTold(cfg: Config, s: State, rpcURL: string)
    requires cfg.Valid() && Reachable(cfg, s) && s.server.pc.SPreHooks?
    ensures Describes(
              PlanForPassiveNode(
                s.server.msg.(passiveNodeInfo := ServerOwnInfo(cfg, s.server), isDryRunFailover := cfg.dryRun), true, rpcURL),
              cfg.dryRun, "passive", "active", cfg.serverInfo, cfg.clientInfo, rpcURL)
    ensures !s.server.active && s.client.active
  {
    hide Reachable, Good, Inv, GateInv, SeesNode, Describes, MessageAt, Trails.TrailInv;
    ReachableGood(cfg, s);
    GoodHasInv(cfg, s);
    ServerSees(cfg, s);
    ServerTold(cfg, s.server, true, rpcURL);
    Trails.ReachableTrail(cfg, s);
    RolesBefore(cfg, s);
    NotAttempted(cfg, s);
  }

  /** The client keeps its identity until it has read the go-ahead. */
  lemma NotAttempted(cfg: Config, s: State)
    requires Good(cfg, s) && Trails.TrailInv(cfg, s) && s.server.pc.SPreHooks?
    ensures s.client.active
  {
    GoodHasInv(cfg, s);
    Readings.ServerWrote(cfg, s);
    hide Good, Inv, ServerGates, AllGates, HooksDone, HooksHeld, MessageAt, Trails.ServerTrail, Trails.FrameTrail, Trails.ReadTrail,
      Trails.LinkTrail;
  }

  /** Its post hooks, on the message of the verdict, are told that this node is active, as it is outside a
      dry run. */
  lemma ServerPostHooksTold(cfg: Config, s: State, rpcURL: string)
    requires cfg.Valid() && Reachable(cfg, s) && s.server.pc.SSendDone?
    ensures Describes(
              PlanForPassiveNode(
                s.server.msg.(passiveNodeInfo := ServerOwnInfo(cfg, s.server), isDryRunFailover := cfg.dryRun), false, rpcURL),
              cfg.dryRun, "active", "passive", cfg.serverInfo, cfg.clientInfo, rpcURL)
    ensures s.server.active == !cfg.dryRun
  {
    hide Reachable, Good, Inv, SeesNode, Describes, MessageAt, Trails.TrailInv;
    ReachableGood(cfg, s);
    GoodHasInv(cfg, s);
    ServerSees(cfg, s);
    ServerTold(cfg, s.server, false, rpcURL);
    Trails.ReachableTrail(cfg, s);
    RolesBefore(cfg, s);
  }

  /** The hooks of a rollback are told the roles of a failover that went through. Where the rollback command
      did not fail, that is right on the client exactly when there was none to run, and on the server exactly
      when there was none and the failed switch had taken effect. */
  lemma RollbackHooksToldIff(cfg: Config, s: State, rpcURL: string)
    requires cfg.Valid() && Reachable(cfg, s) && !cfg.dryRun
    ensures Leaves(s.client.pc, RolledBack) && ToActiveFault !in s.faults ==>
              var told := PlanForActiveNode(s.client.msg, false, rpcURL).thisNodeRole == "active";
              told == s.client.active <==> cfg.toActiveCmd == ""
    ensures EndsAs(s.server.pc, ActivationUndone) && ToPassiveFault !in s.faults ==>
              var told := PlanForPassiveNode(s.server.msg, false, rpcURL).thisNodeRole == "active";
              told == s.server.active <==> ServerCommandLied in s.faults && cfg.toPassiveCmd == ""
  {
    hide Reachable, Trails.LinkTrail, Trails.FrameTrail, Trails.ReadTrail;
    Trails.ReachableTrail(cfg, s);
  }
}

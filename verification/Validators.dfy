/**
 How a node picks its side of the failover and what it brings to it, and that two nodes that pick
 opposite sides start the protocol from one of its initial states.
 */
module Validators {
  import opened Wrappers
  import opened Words
  import opened Messages
  import opened Protocol
  import opened Safety
  import opened Exclusion
  import IdentityObjects

  datatype Params = Params(
    healthy: bool, rollbackEnabled: bool, skipTowerSync: bool, autoConfirm: bool, notADrill: bool)

  /** A rollback command template; `rendered` is what executing it gives, if it works. */
  datatype Template = Template(text: string, rendered: Option<string>) {
    predicate Works() {
      text == "" || rendered.Some?
    }

    function Or(command: string): string
      requires Works()
    {
      if text == "" then command else rendered.value
    }
  }

  /** What the program was built with, and its configuration; the two intervals are taken as they are. */
  datatype Settings = Settings(
    appVersion: string, wireVersion: byte,
    hostname: string, publicIP: string, rpcAddress: string, clientVersion: string,
    towerFile: string, autoDeleteTower: bool,
    setIdentityActive: string, setIdentityPassive: string,
    rollbackEnabled: bool, rollbackToActive: Template, rollbackToPassive: Template,
    preWhenActive: seq<Hook>, preWhenPassive: seq<Hook>,
    heartbeatInterval: string, streamTimeout: string)

  /** Answers of the environment on the way: the peer's active key in gossip, the operator's consent to
      delete a tower file, the deletion, the peer selected and connected to, the server's certificate,
      which strings parse as durations, its socket, and the local node's version. */
  datatype StartEnv = StartEnv(
    activeInGossip: bool, consent: bool, deletes: bool, peerSelected: bool, connects: bool,
    certificate: bool, isDuration: string -> bool, listens: bool, nodeVersion: string)

  datatype ClientSide = ClientSide(
    info: NodeInfo, appVersion: string, wireVersion: byte, rollback: bool, toActive: string, preHooks: seq<Hook>,
    tower: seq<byte>)

  datatype ServerSide = ServerSide(
    info: NodeInfo, appVersion: string, wireVersion: byte, rollback: bool, toPassive: string, preHooks: seq<Hook>,
    dryRun: bool, skipTowerSync: bool, tower: Option<seq<byte>>)

  datatype Side = Neither | AsClient(client: ClientSide) | AsServer(server: ServerSide)

  /** What the info a node sends says of it, one field at a time. */
  predicate Tells(
      info: NodeInfo, settings: Settings, identities: Identities, command: string, towerSize: nat, nodeVersion: string) {
    && info.publicIP == settings.publicIP && info.hostname == settings.hostname && info.rpcAddress == settings.rpcAddress
    && info.identities == Some(identities) && info.setIdentityCommand == command
    && info.towerFile == settings.towerFile && info.towerFileSizeBytes == towerSize
    && info.towerFileBytes == [] && info.towerFileHash == ""
    && info.clientVersion == settings.clientVersion && info.clientVersionRPC == nodeVersion
    && info.failoverVersion == settings.appVersion
  }

  class Validator {
    const settings: Settings
    const identities: IdentityObjects.SharedIdentities
    const gossipPubkey: string
    var tower: Option<seq<byte>>
    var rollbackEnabled: bool
    var toActive: string
    var toPassive: string

    constructor (settings: Settings, identities: IdentityObjects.SharedIdentities, gossipPubkey: string, tower: Option<seq<byte>>)
      ensures this.settings == settings && this.identities == identities && this.gossipPubkey == gossipPubkey
      ensures this.tower == tower
    {
      this.settings, this.identities, this.gossipPubkey, this.tower := settings, identities, gossipPubkey, tower;
      rollbackEnabled, toActive, toPassive := false, "", "";
    }

    ghost predicate Valid()
      reads this, identities.active, identities.passive
    {
      identities.Valid()
    }

    /** NewFromConfig, as far as identities and commands go. */
    static method NewFromConfig(settings: Settings, ids: IdentityObjects.Settings, store: IdentityObjects.KeyStore,
                                gossipPubkey: string, tower: Option<seq<byte>>) returns (v: Option<Validator>)
      requires store.Valid()
      ensures v.Some? ==> fresh(v.value) && v.value.Valid() && v.value.settings == settings && v.value.tower == tower
      ensures v.Some? ==> v.value.gossipPubkey == gossipPubkey && v.value.rollbackEnabled == settings.rollbackEnabled
      ensures v.Some? ==> settings.rollbackToActive.Works() && settings.rollbackToPassive.Works()
    {
      var pair := IdentityObjects.SharedIdentities.NewFromConfig(ids, store);
      if pair.None? {
        return None;
      }
      var built := new Validator(settings, pair.value, gossipPubkey, tower);
      var ok := built.ConfigureRollback();
      v := if ok then Some(built) else None;
    }

    predicate IsActive()
      reads this, identities.active
    {
      gossipPubkey == identities.active.PubKey()
    }

    predicate IsPassive()
      reads this, identities.passive
    {
      gossipPubkey == identities.passive.PubKey()
    }

    /** configureRollback: an empty template stands for the ordinary command of that direction. */
    method ConfigureRollback() returns (ok: bool)
      modifies `rollbackEnabled, `toActive, `toPassive
      ensures rollbackEnabled == settings.rollbackEnabled
      ensures ok <==> settings.rollbackToActive.Works() && settings.rollbackToPassive.Works()
      ensures ok ==> toActive == settings.rollbackToActive.Or(settings.setIdentityActive)
      ensures ok ==> toPassive == settings.rollbackToPassive.Or(settings.setIdentityPassive)
    {
      rollbackEnabled := settings.rollbackEnabled;
      var active, passive := settings.rollbackToActive, settings.rollbackToPassive;
      if active.text == "" {
        toActive := settings.setIdentityActive;
      } else if active.rendered.None? {
        return false;
      } else {
        toActive := active.rendered.value;
      }
      if passive.text == "" {
        toPassive := settings.setIdentityPassive;
      } else if passive.rendered.None? {
        return false;
      } else {
        toPassive := passive.rendered.value;
      }
      ok := true;
    }

    /** The node info both sides build. */
    function Info(command: string, towerSize: nat, nodeVersion: string): NodeInfo
      reads this, identities.active, identities.passive
    {
      NodeInfo(
        settings.publicIP, settings.hostname, Some(identities.Value()), settings.towerFile, towerSize, [], "", command,
        settings.clientVersion, nodeVersion, settings.appVersion, settings.rpcAddress)
    }

    /** What stands between an active node and its client. */
    predicate ClientStarts(env: StartEnv)
      reads this
    {
      tower.Some? && tower.value != [] && env.peerSelected && env.connects
    }

    /** makePassive: an active node starts the client. */
    method MakePassive(env: StartEnv) returns (side: Side)
      requires Valid() && IsActive()
      ensures !side.AsServer? && (side.AsClient? <==> ClientStarts(env))
      ensures side.AsClient? ==>
                && Tells(side.client.info, settings, identities.Value(), settings.setIdentityPassive, |tower.value|, env.nodeVersion)
                && side.client.appVersion == settings.appVersion && side.client.wireVersion == settings.wireVersion
                && side.client.rollback == rollbackEnabled && side.client.toActive == toActive
                && side.client.preHooks == settings.preWhenActive && side.client.tower == tower.value
    {
      if IsPassive() || tower.None? || |tower.value| == 0 {
        return Neither;
      }
      if !env.peerSelected || !env.connects {
        return Neither;
      }
      var info := Info(settings.setIdentityPassive, |tower.value|, env.nodeVersion);
      return AsClient(
          ClientSide(info, settings.appVersion, settings.wireVersion, rollbackEnabled, toActive, settings.preWhenActive, tower.value));
    }

    /** A duration left out of the configuration has a default. */
    predicate IntervalsParse(env: StartEnv) {
      && (settings.heartbeatInterval == "" || env.isDuration(settings.heartbeatInterval))
      && (settings.streamTimeout == "" || env.isDuration(settings.streamTimeout))
    }

    /** NewServerFromConfig and Start, up to the point where the server listens. */
    method OpenServer(env: StartEnv) returns (ok: bool)
      ensures ok <==> env.certificate && IntervalsParse(env) && env.listens
    {
      if !env.certificate {
        return false;
      }
      if settings.heartbeatInterval != "" && !env.isDuration(settings.heartbeatInterval) {
        return false;
      }
      if settings.streamTimeout != "" && !env.isDuration(settings.streamTimeout) {
        return false;
      }
      ok := env.listens;
    }

    /** makeActive: any other node clears its tower file and starts the server. The file is gone by the
        time the server's construction can fail. */
    method MakeActive(params: Params, env: StartEnv) returns (side: Side)
      requires Valid() && !IsActive()
      modifies `tower
      ensures tower ==
                if env.activeInGossip && (settings.autoDeleteTower || params.autoConfirm || env.consent) && env.deletes then None
                else old(tower)
      ensures !side.AsClient?
      ensures side.AsServer? <==>
                env.activeInGossip && tower.None? && env.certificate && IntervalsParse(env) && env.listens
      ensures side.AsServer? ==>
                && Tells(side.server.info, settings, identities.Value(), settings.setIdentityActive, 0, env.nodeVersion)
                && side.server.appVersion == settings.appVersion && side.server.wireVersion == settings.wireVersion
                && side.server.rollback == rollbackEnabled && side.server.toPassive == toPassive
                && side.server.preHooks == settings.preWhenPassive && side.server.tower == None
                && side.server.dryRun == !params.notADrill && side.server.skipTowerSync == params.skipTowerSync
    {
      if IsActive() || !env.activeInGossip {
        return Neither;
      }
      if tower.Some? {
        if !settings.autoDeleteTower && !params.autoConfirm && !env.consent {
          return Neither;
        }
        if !env.deletes {
          return Neither;
        }
        tower := None;
      }
      var ok := OpenServer(env);
      if !ok {
        return Neither;
      }
      var info := Info(settings.setIdentityActive, 0, env.nodeVersion);
      return AsServer(
          ServerSide(info, settings.appVersion, settings.wireVersion, rollbackEnabled, toPassive, settings.preWhenPassive,
                     !params.notADrill, params.skipTowerSync, None));
    }

    /** Failover: gossip decides the side, and the flag can turn rollback on but not off. A side that is
        picked may still come to nothing, and then the passive node's tower file may be gone. */
    method Failover(params: Params, env: StartEnv) returns (side: Side)
      requires Valid()
      modifies `rollbackEnabled, `tower
      ensures rollbackEnabled == (old(rollbackEnabled) || (params.healthy && params.rollbackEnabled))
      ensures tower ==
                if && params.healthy && gossipPubkey != identities.active.PubKey() && env.activeInGossip
                   && (settings.autoDeleteTower || params.autoConfirm || env.consent) && env.deletes
                then None else old(tower)
      ensures side.AsClient? <==> params.healthy && gossipPubkey == identities.active.PubKey() && ClientStarts(env)
      ensures side.AsServer? <==>
                && params.healthy && gossipPubkey != identities.active.PubKey() && env.activeInGossip && tower.None?
                && env.certificate && IntervalsParse(env) && env.listens
      ensures side.AsClient? ==>
                && Tells(side.client.info, settings, identities.Value(), settings.setIdentityPassive, |tower.value|, env.nodeVersion)
                && side.client.appVersion == settings.appVersion && side.client.wireVersion == settings.wireVersion
                && side.client.rollback == rollbackEnabled && side.client.toActive == toActive
                && side.client.preHooks == settings.preWhenActive && side.client.tower == tower.value
      ensures side.AsServer? ==>
                && Tells(side.server.info, settings, identities.Value(), settings.setIdentityActive, 0, env.nodeVersion)
                && side.server.appVersion == settings.appVersion && side.server.wireVersion == settings.wireVersion
                && side.server.rollback == rollbackEnabled && side.server.toPassive == toPassive
                && side.server.preHooks == settings.preWhenPassive && side.server.tower == None
                && side.server.dryRun == !params.notADrill && side.server.skipTowerSync == params.skipTowerSync
    {
      if !params.healthy {
        return Neither;
      }
      if params.rollbackEnabled && !rollbackEnabled {
        rollbackEnabled := true;
      }
      if IsActive() {
        side := MakePassive(env);
      } else {
        side := MakeActive(params, env);
      }
    }
  }

  /** ComputeTowerFileHashFromBytes: the digest in hexadecimal, with its name in front. */
  function TowerHash(digest: seq<byte> -> string): seq<byte> -> string {
    (tower: seq<byte>) => "xxh3:" + digest(tower)
  }

  /** The configuration two sides amount to, and the state their programs start from. */
  function Paired(c: ClientSide, v: ServerSide, digest: seq<byte> -> string): Config {
    Config(c.info, v.info, c.appVersion, v.appVersion, c.wireVersion, v.wireVersion, c.rollback, v.rollback,
           c.toActive, v.toPassive, v.dryRun, v.skipTowerSync, c.preHooks, v.preHooks, TowerHash(digest))
  }

  lemma BothBuilt(a: Validator, b: Validator)
    requires a.Valid() && b.Valid()
    ensures a.identities.Value().Valid() && b.identities.Value().Valid()
    ensures a.identities.Value().active.PubKey() == a.identities.active.PubKey()
  {
  }

  lemma PairIsValid(
      cfg: Config, a: Settings, b: Settings, mine: Identities, theirs: Identities, towerSize: nat, myVersion: string,
      theirVersion: string)
    requires Tells(cfg.clientInfo, a, mine, a.setIdentityPassive, towerSize, myVersion) && mine.Valid()
    requires Tells(cfg.serverInfo, b, theirs, b.setIdentityActive, 0, theirVersion) && theirs.Valid()
    requires cfg.clientVersion == a.appVersion && cfg.serverVersion == b.appVersion
    requires forall tower :: cfg.towerHash(tower) != ""
    ensures cfg.Valid()
    ensures cfg.clientInfo.publicIP == a.publicIP && cfg.clientInfo.ActivePubKey() == mine.active.PubKey()
  {
  }

  /** One Failover on each of two validators: they pick opposite sides and both get to start. */
  method PickSides(a: Validator, b: Validator, mine: Params, theirs: Params, myEnv: StartEnv, theirEnv: StartEnv)
      returns (sides: Option<(ClientSide, ServerSide)>)
    requires a != b && a.Valid() && b.Valid()
    modifies a`rollbackEnabled, a`tower, b`rollbackEnabled, b`tower
    ensures sides.Some? <==>
              && mine.healthy && a.gossipPubkey == a.identities.active.PubKey() && a.ClientStarts(myEnv)
              && theirs.healthy && b.gossipPubkey != b.identities.active.PubKey() && theirEnv.activeInGossip && b.tower.None?
              && theirEnv.certificate && b.IntervalsParse(theirEnv) && theirEnv.listens
    ensures a.Valid() && b.Valid()
    ensures sides.Some? ==>
              var c, v := sides.value.0, sides.value.1;
              && Tells(c.info, a.settings, a.identities.Value(), a.settings.setIdentityPassive, |a.tower.value|, myEnv.nodeVersion)
              && Tells(v.info, b.settings, b.identities.Value(), b.settings.setIdentityActive, 0, theirEnv.nodeVersion)
              && c.appVersion == a.settings.appVersion && c.wireVersion == a.settings.wireVersion
              && v.appVersion == b.settings.appVersion && v.wireVersion == b.settings.wireVersion
              && c.rollback == a.rollbackEnabled && v.rollback == b.rollbackEnabled
              && c.toActive == a.toActive && v.toPassive == b.toPassive
              && c.preHooks == a.settings.preWhenActive && v.preHooks == b.settings.preWhenPassive
              && c.tower == a.tower.value && v.tower == b.tower
              && v.dryRun == !theirs.notADrill && v.skipTowerSync == theirs.skipTowerSync
  {
    hide Tells;
    var client := a.Failover(mine, myEnv);
    var server := b.Failover(theirs, theirEnv);
    sides := if client.AsClient? && server.AsServer? then Some((client.client, server.server)) else None;
  }

  /** An active and a passive validator that both get to start their side make up a valid configuration
      and start in its initial state: gossip shows the client's node, and not the server's, with its
      active key, and the server's tower file is gone. The server's flags decide the mode, whatever the
      client's say; they also decide whether the two can ever be active together. */
  method StartBoth(a: Validator, b: Validator, mine: Params, theirs: Params, myEnv: StartEnv, theirEnv: StartEnv,
                   digest: seq<byte> -> string) returns (pair: Option<(Config, State)>)
    requires a != b && a.Valid() && b.Valid()
    modifies a`rollbackEnabled, a`tower, b`rollbackEnabled, b`tower
    ensures pair.Some? <==>
              && mine.healthy && a.gossipPubkey == a.identities.active.PubKey() && a.ClientStarts(myEnv)
              && theirs.healthy && b.gossipPubkey != b.identities.active.PubKey() && theirEnv.activeInGossip && b.tower.None?
              && theirEnv.certificate && b.IntervalsParse(theirEnv) && theirEnv.listens
    ensures pair.Some? ==>
              var cfg, s := pair.value.0, pair.value.1;
              && cfg.Valid() && s == Init(cfg, a.tower.value, b.tower)
              && Tells(cfg.clientInfo, a.settings, a.identities.Value(), a.settings.setIdentityPassive, |a.tower.value|, myEnv.nodeVersion)
              && Tells(cfg.serverInfo, b.settings, b.identities.Value(), b.settings.setIdentityActive, 0, theirEnv.nodeVersion)
              && cfg.clientVersion == a.settings.appVersion && cfg.serverVersion == b.settings.appVersion
              && cfg.clientWire == a.settings.wireVersion && cfg.serverWire == b.settings.wireVersion
              && cfg.toActiveCmd == a.toActive && cfg.toPassiveCmd == b.toPassive
              && (forall tower :: cfg.towerHash(tower) == "xxh3:" + digest(tower))
              && cfg.preWhenActive == a.settings.preWhenActive && cfg.preWhenPassive == b.settings.preWhenPassive
              && cfg.dryRun == !theirs.notADrill && cfg.skipTowerSync == theirs.skipTowerSync
              && cfg.clientRollback == a.rollbackEnabled && cfg.serverRollback == b.rollbackEnabled
              && (cfg.Compatible() <==>
                    && a.settings.wireVersion == b.settings.wireVersion && a.settings.appVersion == b.settings.appVersion
                    && a.rollbackEnabled == b.rollbackEnabled)
              && (Exclusive(cfg) <==> !theirs.skipTowerSync || !theirs.notADrill || !cfg.Compatible())
              && ChecksGossipFor(cfg, a.settings.publicIP, a.identities.active.PubKey())
  {
    hide Exclusive, Init, ChecksGossipFor, Tells, Config.Valid, Validator.Valid;
    var sides := PickSides(a, b, mine, theirs, myEnv, theirEnv);
    if sides.None? {
      return None;
    }
    var cfg := Paired(sides.value.0, sides.value.1, digest);
    assert forall tower :: cfg.towerHash(tower) == "xxh3:" + digest(tower);
    BothBuilt(a, b);
    PairIsValid(cfg, a.settings, b.settings, a.identities.Value(), b.identities.Value(), |a.tower.value|, myEnv.nodeVersion,
                theirEnv.nodeVersion);
    ExclusiveIff(cfg);
    GossipGate(cfg);
    return Some((cfg, Init(cfg, sides.value.0.tower, sides.value.1.tower)));
  }
}

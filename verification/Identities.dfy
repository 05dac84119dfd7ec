/**
 The identity objects that a node and its message share: decoding overwrites them in place, so both
 lose the private key, and neither loses the public key.
 */
module IdentityObjects {
  import opened Wrappers
  import M = Messages

  /** What travels: never the key. */
  datatype Wire = Wire(keyFile: string, pubKeyStr: string)

  class Identity {
    var keyFile: string
    var key: Option<M.PrivateKey>
    var pubKeyStr: string

    /** The value the rest of the model computes with. */
    function Value(): M.Identity
      reads this
    {
      M.Identity(keyFile, pubKeyStr, key)
    }

    ghost predicate Valid()
      reads this
    {
      Value().Valid()
    }

    /** NewIdentityFromFile: the public key string is the key's own. */
    constructor FromFile(keyFile: string, key: M.PrivateKey)
      requires key.publicKey != ""
      ensures Valid() && PubKey() == key.publicKey && this.keyFile == keyFile && this.key == Some(key)
    {
      this.keyFile, this.key, pubKeyStr := keyFile, Some(key), key.publicKey;
    }

    /** NewIdentityFromPubkey: no file, no key. */
    constructor FromPubkey(pubkey: string)
      requires pubkey != ""
      ensures Valid() && PubKey() == pubkey && keyFile == "" && key.None?
    {
      keyFile, key, pubKeyStr := "", None, pubkey;
    }

    function PubKey(): string
      reads this
    {
      if key.Some? then key.value.publicKey else pubKeyStr
    }

    method GobEncode() returns (w: Wire)
      ensures Valid() ==> w.pubKeyStr == PubKey()
      ensures w.keyFile == keyFile && M.Identity(w.keyFile, w.pubKeyStr, None) == Value().Stripped()
    {
      w := Wire(keyFile, pubKeyStr);
    }

    /** All three fields are assigned, whatever they held; the result is what DecodeIdentity gives. */
    method GobDecode(w: Wire)
      modifies this
      ensures key.None? && PubKey() == w.pubKeyStr && keyFile == w.keyFile
      ensures w != Wire("", "") ==> Value() == M.DecodeIdentity(old(Value()), M.Identity(w.keyFile, w.pubKeyStr, None))
    {
      keyFile := w.keyFile;
      pubKeyStr := w.pubKeyStr;
      key := None;
    }
  }

  /** What the configuration says of the two identities: a key file or a public key for each. */
  datatype Settings = Settings(active: string, activePubkey: string, passive: string, passivePubkey: string)

  /** The key files on the disk, and base58. */
  datatype KeyStore = KeyStore(load: string -> Option<M.PrivateKey>, isPublicKey: string -> bool) {
    /** A public key is never the empty string. */
    ghost predicate Valid() {
      && !isPublicKey("")
      && forall file :: load(file).Some? ==> load(file).value.publicKey != ""
    }

    /** The public key a file or a key string stands for; a file takes precedence. */
    function PubKey(file: string, pubkey: string): Option<string> {
      if file != "" then
        var key := load(file);
        if key.Some? then Some(key.value.publicKey) else None
      else if isPublicKey(pubkey) then Some(pubkey)
      else None
    }
  }

  /** The pair both the node's info and its message point to. */
  class SharedIdentities {
    const active: Identity
    const passive: Identity

    constructor (active: Identity, passive: Identity)
      ensures this.active == active && this.passive == passive
    {
      this.active, this.passive := active, passive;
    }

    /** Two objects that were built and agree with their keys, for two different keys. */
    ghost predicate Valid()
      reads active, passive
    {
      active != passive && active.Valid() && passive.Valid() && active.PubKey() != passive.PubKey()
    }

    function Value(): M.Identities
      reads active, passive
    {
      M.Identities(active.Value(), passive.Value())
    }

    static method Load(file: string, pubkey: string, store: KeyStore) returns (id: Option<Identity>)
      requires store.Valid()
      ensures id.Some? <==> store.PubKey(file, pubkey).Some?
      ensures id.Some? ==> fresh(id.value) && id.value.Valid() && id.value.PubKey() == store.PubKey(file, pubkey).value
      ensures id.Some? ==> id.value.keyFile == file && id.value.key == if file != "" then store.load(file) else None
    {
      if file != "" {
        var key := store.load(file);
        if key.None? {
          return None;
        }
        var fromFile := new Identity.FromFile(file, key.value);
        return Some(fromFile);
      }
      if pubkey == "" || !store.isPublicKey(pubkey) {
        return None;
      }
      var fromPubkey := new Identity.FromPubkey(pubkey);
      id := Some(fromPubkey);
    }

    /** NewFromConfig: both identities must load, and their public keys must differ. */
    static method NewFromConfig(settings: Settings, store: KeyStore) returns (ids: Option<SharedIdentities>)
      requires store.Valid()
      ensures var active := store.PubKey(settings.active, settings.activePubkey);
              var passive := store.PubKey(settings.passive, settings.passivePubkey);
              && (ids.Some? <==> active.Some? && passive.Some? && active != passive)
              && (ids.Some? ==>
                    && fresh(ids.value) && fresh(ids.value.active) && fresh(ids.value.passive) && ids.value.Valid()
                    && ids.value.active.PubKey() == active.value && ids.value.passive.PubKey() == passive.value
                    && ids.value.active.keyFile == settings.active && ids.value.passive.keyFile == settings.passive)
    {
      var active := Load(settings.active, settings.activePubkey, store);
      if active.None? {
        return None;
      }
      var passive := Load(settings.passive, settings.passivePubkey, store);
      if passive.None? || active.value.PubKey() == passive.value.PubKey() {
        return None;
      }
      var pair := new SharedIdentities(active.value, passive.value);
      ids := Some(pair);
    }

    /** A decode of what was encoded from the same identities, through the shared pointer: the keys
        are gone for every holder of the pair, the public keys and key files are what they were. */
    method DecodeOwn(activeWire: Wire, passiveWire: Wire)
      requires Valid()
      requires activeWire == Wire(active.keyFile, active.pubKeyStr) && passiveWire == Wire(passive.keyFile, passive.pubKeyStr)
      modifies active, passive
      ensures active.key.None? && passive.key.None? && Valid() && Value() == old(Value()).Stripped()
      ensures active.PubKey() == old(active.PubKey()) && passive.PubKey() == old(passive.PubKey())
      ensures active.keyFile == old(active.keyFile) && passive.keyFile == old(passive.keyFile)
    {
      active.GobDecode(activeWire);
      passive.GobDecode(passiveWire);
    }
  }

  /** What the public key is after a round trip: the same, exactly when the public key string is
      the key's own, which both constructors see to. */
  lemma RoundTripKeepsPubKeyIff(i: M.Identity)
    ensures i.Stripped().PubKey() == i.PubKey() <==> (i.key.Some? ==> i.key.value.publicKey == i.pubKeyStr)
  {
  }
}

/**
 Looking a node up in gossip by IP address, preferring the entry with the expected public key:
 first in the local validator's view, then in the cluster's, then falling back to stale entries.
 */
module Gossip {
  import opened Wrappers
  import opened Messages
  import opened Protocol

  /** An entry of getClusterNodes; the gossip address is "ip:port" or absent. */
  datatype GossipNode = GossipNode(pubkey: string, gossip: Option<string>) {
    /** The part of the gossip address before the first colon. */
    function IP(): string
      requires gossip.Some?
    {
      BeforeColon(gossip.value)
    }
  }

  /** An RPC node's answer: `None` when the query failed; a list may hold nil entries. */
  type View = Option<seq<Option<GossipNode>>>

  function BeforeColon(s: string): (r: string)
    ensures r <= s && ':' !in r && (r == s || s[|r|] == ':')
  {
    if s == "" || s[0] == ':' then "" else [s[0]] + BeforeColon(s[1..])
  }

  /** The entry's gossip address is the IP alone or the IP and a colon with anything after it. */
  predicate AtIP(entry: Option<GossipNode>, ip: string) {
    && entry.Some? && entry.value.gossip.Some? && ':' !in ip
    && (entry.value.gossip.value == ip || ip + ":" <= entry.value.gossip.value)
  }

  lemma TailAfterHead(address: string, ip: string)
    requires address != "" && ip != ""
    ensures address == ip <==> address[0] == ip[0] && address[1..] == ip[1..]
    ensures ip + ":" <= address <==> address[0] == ip[0] && ip[1..] + ":" <= address[1..]
  {
    if address[0] == ip[0] {
      assert address == [address[0]] + address[1..] && ip == [ip[0]] + ip[1..];
      if ip[1..] + ":" <= address[1..] {
        assert ip + ":" == [ip[0]] + (ip[1..] + ":");
      }
      if ip + ":" <= address {
        assert (ip + ":")[1..] == ip[1..] + ":";
      }
    }
  }

  lemma {:induction false} CutAtColon(address: string, ip: string)
    ensures BeforeColon(address) == ip <==> ':' !in ip && (address == ip || ip + ":" <= address)
  {
    if address != "" && address[0] != ':' {
      if ip != "" {
        CutAtColon(address[1..], ip[1..]);
        TailAfterHead(address, ip);
      }
    }
  }

  predicate Exact(entry: Option<GossipNode>, ip: string, pubkey: string) {
    AtIP(entry, ip) && entry.value.pubkey == pubkey
  }

  /** `found` is the first of the first `n` entries at the address, if any is. */
  predicate FirstAtIP(nodes: seq<Option<GossipNode>>, n: nat, ip: string, found: Option<GossipNode>)
    requires n <= |nodes|
  {
    match found
    case None => forall k :: 0 <= k < n ==> !AtIP(nodes[k], ip)
    case Some(_) =>
      exists k :: 0 <= k < n && nodes[k] == found && AtIP(nodes[k], ip) && forall j :: 0 <= j < k ==> !AtIP(nodes[j], ip)
  }

  predicate FirstExact(nodes: seq<Option<GossipNode>>, n: nat, ip: string, pubkey: string, found: Option<GossipNode>)
    requires n <= |nodes|
  {
    match found
    case None => forall k :: 0 <= k < n ==> !Exact(nodes[k], ip, pubkey)
    case Some(_) =>
      exists k :: 0 <= k < n && nodes[k] == found && Exact(nodes[k], ip, pubkey)
        && forall j :: 0 <= j < k ==> !Exact(nodes[j], ip, pubkey)
  }

  predicate HasExact(view: View, ip: string, pubkey: string) {
    view.Some? && exists k :: 0 <= k < |view.value| && Exact(view.value[k], ip, pubkey)
  }

  predicate HasIP(view: View, ip: string) {
    view.Some? && exists k :: 0 <= k < |view.value| && AtIP(view.value[k], ip)
  }

  /** findGossipNodeFromIPWithExpectedPubkey: one pass for both the exact and the first match. */
  method FindByIP(nodes: seq<Option<GossipNode>>, ip: string, expected: string)
    returns (exactMatch: Option<GossipNode>, firstMatch: Option<GossipNode>)
    ensures FirstExact(nodes, |nodes|, ip, expected, exactMatch)
    ensures exactMatch.None? ==> FirstAtIP(nodes, |nodes|, ip, firstMatch)
  {
    exactMatch, firstMatch := None, None;
    for i := 0 to |nodes|
      invariant exactMatch.None?
      invariant FirstExact(nodes, i, ip, expected, None) && FirstAtIP(nodes, i, ip, firstMatch)
    {
      var node := nodes[i];
      if node.None? || node.value.gossip.None? {
        continue;
      }
      CutAtColon(node.value.gossip.value, ip);
      if node.value.IP() != ip {
        continue;
      }
      if node.value.pubkey == expected {
        exactMatch := node;
        return;
      }
      if firstMatch.None? {
        firstMatch := node;
      }
    }
  }

  /** nodeFromIPWithExpectedPubkey. */
  method NodeFromIP(local: View, cluster: View, ip: string, expected: string) returns (found: Option<GossipNode>)
    ensures HasExact(local, ip, expected) ==> FirstExact(local.value, |local.value|, ip, expected, found)
    ensures !HasExact(local, ip, expected) && HasExact(cluster, ip, expected)
      ==> FirstExact(cluster.value, |cluster.value|, ip, expected, found)
    ensures !HasExact(local, ip, expected) && !HasExact(cluster, ip, expected) ==>
              if HasIP(local, ip) then FirstAtIP(local.value, |local.value|, ip, found)
              else if HasIP(cluster, ip) then FirstAtIP(cluster.value, |cluster.value|, ip, found)
              else found.None?
  {
    var localFirst, clusterFirst := None, None;
    if local.Some? {
      var exactMatch, firstMatch := FindByIP(local.value, ip, expected);
      if exactMatch.Some? {
        return exactMatch;
      }
      localFirst := firstMatch;
    }
    if cluster.Some? {
      var exactMatch, firstMatch := FindByIP(cluster.value, ip, expected);
      if exactMatch.Some? {
        return exactMatch;
      }
      clusterFirst := firstMatch;
    }
    if localFirst.Some? {
      return localFirst;
    }
    return clusterFirst;
  }

  /** The lookup composed with the server's validation of it: the gate passes exactly when some view
      that answered holds the claimed IP with the claimed active key, and it fails closed. */
  method ActiveNodeGate(local: View, cluster: View, claimed: NodeInfo) returns (answer: Option<(string, string)>, passes: bool)
    ensures passes == (answer.Some? && GossipShows(claimed, answer.value.0, answer.value.1))
    ensures var ip, key := claimed.publicIP, claimed.ActivePubKey();
            passes <==> HasExact(local, ip, key) || HasExact(cluster, ip, key)
    ensures answer.None? <==> !HasIP(local, claimed.publicIP) && !HasIP(cluster, claimed.publicIP)
  {
    var found := NodeFromIP(local, cluster, claimed.publicIP, claimed.ActivePubKey());
    if found.None? {
      return None, false;
    }
    CutAtColon(found.value.gossip.value, claimed.publicIP);
    answer := Some((found.value.IP(), found.value.pubkey));
    passes := GossipShows(claimed, answer.value.0, answer.value.1);
  }
}

/**
 * The network the client joins: six peer nodes and one orderer, each a value
 * descriptor (name, URL, transport properties), and the channel object they are
 * added to. The SDK's `newPeer`/`newOrderer` become the descriptor functions below;
 * the channel's `addPeer`, `addOrderer` and `initialize` become methods of `Channel`.
 */
module Topology {
  /** The time units of `java.util.concurrent.TimeUnit` used by the orderer's settings. */
  datatype TimeUnit = Seconds | Minutes

  /** A value stored in a node's `java.util.Properties`. */
  datatype PropValue =
    | Text(s: string)                            // setProperty(key, value)
    | Number(n: int)                             // put(key, Integer)
    | Duration(amount: int, unit: TimeUnit)      // put(key, new Object[] { amount, unit })

  datatype Node = Node(name: string, url: string, props: map<string, PropValue>)

  const ChannelName: string := "pharmachannel"

  const PemFile: string := "pemFile"
  const TrustServerCertificate: string := "trustServerCertificate"
  const HostnameOverride: string := "hostnameOverride"
  const SslProvider: string := "sslProvider"
  const NegotiationType: string := "negotiationType"
  const MaxInboundMessageSize: string := "grpc.NettyChannelBuilderOption.maxInboundMessageSize"
  const KeepAliveTime: string := "grpc.NettyChannelBuilderOption.keepAliveTime"
  const KeepAliveTimeout: string := "grpc.NettyChannelBuilderOption.keepAliveTimeout"

  const MaxInboundBytes: int := 9000000

  /** The TLS settings shared by every node, peer or orderer. */
  function TlsProps(pem: string, host: string): map<string, PropValue> {
    map[PemFile := Text(pem), TrustServerCertificate := Text("true"), HostnameOverride := Text(host),
        SslProvider := Text("openSSL"), NegotiationType := Text("TLS")]
  }

  function PeerName(org: string): string {
    "peer0." + org + ".state.com"
  }

  /** The transport settings every peer must carry. */
  predicate PeerTransport(n: Node) {
    && HostnameOverride in n.props && n.props[HostnameOverride] == Text(n.name)
    && TrustServerCertificate in n.props && n.props[TrustServerCertificate] == Text("true")
    && SslProvider in n.props && n.props[SslProvider] == Text("openSSL")
    && NegotiationType in n.props && n.props[NegotiationType] == Text("TLS")
    && MaxInboundMessageSize in n.props && n.props[MaxInboundMessageSize] == Number(MaxInboundBytes)
    && KeepAliveTime !in n.props && KeepAliveTimeout !in n.props
  }

  /** The transport settings the orderer must carry: keep-alive instead of a message-size ceiling. */
  predicate OrdererTransport(n: Node) {
    && HostnameOverride in n.props && n.props[HostnameOverride] == Text(n.name)
    && TrustServerCertificate in n.props && n.props[TrustServerCertificate] == Text("true")
    && SslProvider in n.props && n.props[SslProvider] == Text("openSSL")
    && NegotiationType in n.props && n.props[NegotiationType] == Text("TLS")
    && KeepAliveTime in n.props && n.props[KeepAliveTime] == Duration(5, Minutes)
    && KeepAliveTimeout in n.props && n.props[KeepAliveTimeout] == Duration(8, Seconds)
    && MaxInboundMessageSize !in n.props
  }

  /** The peer `peer0.<org>.state.com` at `grpcs://localhost:<port>`, with its TLS certificate under `home`. */
  function PeerNode(home: string, org: string, port: string): (n: Node)
    ensures n.name == PeerName(org) && n.url == "grpcs://localhost:" + port
    ensures PeerTransport(n)
  {
    var name := PeerName(org);
    var pem := home + "\\crypto-config\\peerOrganizations\\" + org + ".state.com\\peers\\" + name + "\\tls\\server.crt";
    Node(name, "grpcs://localhost:" + port, TlsProps(pem, name)[MaxInboundMessageSize := Number(MaxInboundBytes)])
  }

  /** The orderer `orderer.state.com` at `grpcs://localhost:7050`, with keep-alive settings. */
  function OrdererNode(home: string): (n: Node)
    ensures n.name == "orderer.state.com" && n.url == "grpcs://localhost:7050"
    ensures OrdererTransport(n)
  {
    var name := "orderer.state.com";
    var pem := home + "\\crypto-config\\ordererOrganizations\\state.com\\orderers\\orderer.state.com\\tls\\server.crt";
    Node(name, "grpcs://localhost:7050",
         TlsProps(pem, name)[KeepAliveTime := Duration(5, Minutes)][KeepAliveTimeout := Duration(8, Seconds)])
  }

  /** The organisations with a peer, with each peer's port, in the order they join the channel. */
  const PeerOrgs: seq<(string, string)> :=
    [("custPatient", "10051"), ("fda", "8051"), ("manufacturer", "9051"),
     ("hospitalPharma", "7051"), ("usgovt", "12051"), ("medic", "11051")]

  /** The six peer descriptors, in the order `getChannel` creates them. */
  function ChannelPeers(home: string): (r: seq<Node>)
    ensures |r| == |PeerOrgs| == 6
    ensures forall n :: n in r ==> PeerTransport(n)
    ensures forall i :: 0 <= i < |r| ==> r[i].name == PeerName(PeerOrgs[i].0)
  {
    seq(|PeerOrgs|, i requires 0 <= i < |PeerOrgs| => PeerNode(home, PeerOrgs[i].0, PeerOrgs[i].1))
  }

  /** The peer the client sends administrative requests to: the third to join. */
  function ManufacturerPeer(home: string): (p: Node)
    ensures p == ChannelPeers(home)[2]
    ensures p.name == PeerName("manufacturer")
  {
    PeerNode(home, "manufacturer", "9051")
  }

  /** A six-element sequence is the display of its elements. */
  lemma SixListed(ps: seq<Node>)
    requires |ps| == 6
    ensures ps == [ps[0], ps[1], ps[2], ps[3], ps[4], ps[5]]
  {
  }

  /** No two organisations share a name or a port. */
  lemma PeerOrgsDistinct()
    ensures forall i, j :: 0 <= i < j < |PeerOrgs| ==> PeerOrgs[i].0 != PeerOrgs[j].0 && PeerOrgs[i].1 != PeerOrgs[j].1
  {
  }

  /** The six peers are distinct endpoints with distinct names, and the manufacturer's is among them. */
  lemma ChannelPeersDistinct(home: string)
    ensures forall i, j :: 0 <= i < j < |ChannelPeers(home)| ==>
              ChannelPeers(home)[i].name != ChannelPeers(home)[j].name
              && ChannelPeers(home)[i].url != ChannelPeers(home)[j].url
    ensures ChannelPeers(home)[2] == ManufacturerPeer(home)
  {
    var ps := ChannelPeers(home);
    PeerOrgsDistinct();
    forall i, j | 0 <= i < j < |ps| ensures ps[i].name != ps[j].name && ps[i].url != ps[j].url {
      PeerNamesDiffer(PeerOrgs[i].0, PeerOrgs[j].0);
      PortsDiffer(PeerOrgs[i].1, PeerOrgs[j].1);
    }
  }

  lemma PeerNamesDiffer(a: string, b: string)
    requires a != b
    ensures PeerName(a) != PeerName(b)
  {
    var p, q := PeerName(a), PeerName(b);
    if p == q {
      assert |a| == |b|;
      forall k | 0 <= k < |a| ensures a[k] == b[k] {
        assert p[6 + k] == q[6 + k];
      }
    }
  }

  lemma PortsDiffer(a: string, b: string)
    requires a != b
    ensures "grpcs://localhost:" + a != "grpcs://localhost:" + b
  {
    var pre := "grpcs://localhost:";
    assert (pre + a)[|pre|..] == a;
    assert (pre + b)[|pre|..] == b;
  }

  /** One step applied to a channel, for the channel's history. */
  datatype ChannelOp = PeerAdded(peer: Node) | OrdererAdded(orderer: Node) | Initialized

  /**
   * The channel object: its name, its peers and orderers in the order they were added,
   * whether `initialize` succeeded, and (ghost) the history of the steps applied to it.
   */
  class Channel {
    const name: string
    var peers: seq<Node>
    var orderers: seq<Node>
    var initialized: bool
    ghost var history: seq<ChannelOp>

    /** `hfClient.newChannel(name)`. */
    constructor (name: string)
      ensures this.name == name && peers == [] && orderers == [] && !initialized && history == []
    {
      this.name := name;
      peers, orderers, initialized := [], [], false;
      history := [];
    }

    /** `channel.addPeer(p)`. */
    method AddPeer(p: Node)
      modifies this
      ensures peers == old(peers) + [p] && orderers == old(orderers) && initialized == old(initialized)
      ensures history == old(history) + [PeerAdded(p)]
    {
      peers := peers + [p];
      history := history + [PeerAdded(p)];
    }

    /** `channel.addOrderer(o)`. */
    method AddOrderer(o: Node)
      modifies this
      ensures orderers == old(orderers) + [o] && peers == old(peers) && initialized == old(initialized)
      ensures history == old(history) + [OrdererAdded(o)]
    {
      orderers := orderers + [o];
      history := history + [OrdererAdded(o)];
    }

    /** `channel.initialize()`: the handshake with the configured nodes, whose outcome is `handshakeOk`. */
    method Initialize(handshakeOk: bool) returns (ok: bool)
      modifies this
      ensures ok == handshakeOk
      ensures initialized == (old(initialized) || ok)
      ensures peers == old(peers) && orderers == old(orderers)
      ensures history == old(history) + [Initialized]
    {
      ok := handshakeOk;
      initialized := initialized || ok;
      history := history + [Initialized];
    }
  }

  /** The steps that add `peers` in order and then `orderer` to a channel. */
  function AssemblySteps(peers: seq<Node>, orderer: Node): seq<ChannelOp> {
    seq(|peers|, i requires 0 <= i < |peers| => PeerAdded(peers[i])) + [OrdererAdded(orderer)]
  }

  /** The steps `getChannel` applies to a new channel: the assembly, then `initialize`. */
  function BootstrapSteps(peers: seq<Node>, orderer: Node): seq<ChannelOp> {
    AssemblySteps(peers, orderer) + [Initialized]
  }

  /**
   * The part of `getChannel` that builds the channel: `newChannel("pharmachannel")`, the six
   * peers and the orderer created and added in that order; `initialize` is not yet called.
   */
  method AssembleChannel(home: string) returns (ch: Channel)
    ensures fresh(ch) && ch.name == ChannelName && !ch.initialized
    ensures ch.peers == ChannelPeers(home) && ch.orderers == [OrdererNode(home)]
    ensures ch.history == AssemblySteps(ChannelPeers(home), OrdererNode(home))
  {
    ch := new Channel(ChannelName);
    AddNodes(ch, ChannelPeers(home), OrdererNode(home));
  }

  /** The six `addPeer` calls of `getChannel`, in order, followed by its `addOrderer`. */
  method AddNodes(ch: Channel, ps: seq<Node>, orderer: Node)
    requires |ps| == 6
    modifies ch
    ensures ch.peers == old(ch.peers) + ps && ch.orderers == old(ch.orderers) + [orderer]
    ensures ch.initialized == old(ch.initialized)
    ensures ch.history == old(ch.history) + AssemblySteps(ps, orderer)
  {
    SixListed(ps);
    ch.AddPeer(ps[0]);
    ch.AddPeer(ps[1]);
    ch.AddPeer(ps[2]);
    ch.AddPeer(ps[3]);
    ch.AddPeer(ps[4]);
    ch.AddPeer(ps[5]);
    ch.AddOrderer(orderer);
    SixSteps(ps, orderer);
  }

  /** The assembly steps for six peers, written out. */
  lemma SixSteps(ps: seq<Node>, orderer: Node)
    requires |ps| == 6
    ensures AssemblySteps(ps, orderer) == [PeerAdded(ps[0]), PeerAdded(ps[1]), PeerAdded(ps[2]),
                                           PeerAdded(ps[3]), PeerAdded(ps[4]), PeerAdded(ps[5]),
                                           OrdererAdded(orderer)]
  {
  }

  /**
   * In the bootstrap steps every peer is added before the orderer, in the given order; the
   * orderer is added once, right after the peers; and `initialize` is the last step and
   * happens once.
   */
  lemma BootstrapOrder(peers: seq<Node>, orderer: Node)
    ensures |BootstrapSteps(peers, orderer)| == |peers| + 2
    ensures forall i :: 0 <= i < |peers| ==> BootstrapSteps(peers, orderer)[i] == PeerAdded(peers[i])
    ensures forall i :: 0 <= i < |peers| + 2 ==>
              (BootstrapSteps(peers, orderer)[i].OrdererAdded? <==> i == |peers|)
    ensures BootstrapSteps(peers, orderer)[|peers|] == OrdererAdded(orderer)
    ensures forall i :: 0 <= i < |peers| + 2 ==>
              (BootstrapSteps(peers, orderer)[i].Initialized? <==> i == |peers| + 1)
  {
  }
}

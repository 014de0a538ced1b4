/**
 * The client object and the static state of its class: the lazily created single
 * instance and the process-wide MSP id. The user's home directory, which the client
 * reads from the system properties, is a parameter of the class state.
 */
module ClientContext {
  import opened Wrappers
  import opened Identity
  import opened Topology

  /** `k` successive copies of `s`. */
  function Repeat(s: seq<Node>, k: nat): (r: seq<Node>)
    ensures |r| == k * |s|
  {
    if k == 0 then [] else Repeat(s, k - 1) + s
  }

  /** Every element of `s` occurs in any non-empty repetition of it. */
  lemma RepeatContains(s: seq<Node>, k: nat, x: Node)
    requires x in s && k > 0
    ensures x in Repeat(s, k)
  {
  }

  /** What `Client.Valid` asks of the two peer lists. */
  ghost predicate PeerListsValid(home: string, networkPeers: seq<Node>, adminPeer: seq<Node>) {
    && networkPeers == Repeat(ChannelPeers(home), |adminPeer|)
    && (forall p :: p in adminPeer ==> p == ManufacturerPeer(home))
  }

  /** One more completed channel bootstrap keeps the peer lists valid. */
  lemma PeerListsGrow(home: string, networkPeers: seq<Node>, adminPeer: seq<Node>)
    requires PeerListsValid(home, networkPeers, adminPeer)
    ensures PeerListsValid(home, networkPeers + ChannelPeers(home), adminPeer + [ManufacturerPeer(home)])
  {
  }

  class Client {
    /** The home directory all key, certificate and TLS paths are built under. */
    const home: string
    var channel: Channel?
    var networkPeers: seq<Node>
    var adminPeer: seq<Node>
    var userContext: Option<UserContext>
    var cryptoSuiteSet: bool

    /**
     * The peer lists hold one copy of the six peers, and one of the manufacturer peer, per
     * completed `getChannel`; every user context is named `PeerAdmin`.
     */
    ghost predicate Valid()
      reads this
    {
      && PeerListsValid(home, networkPeers, adminPeer)
      && (userContext.Some? ==> userContext.value.name == PeerAdmin)
    }

    /** The private constructor: no channel, empty peer lists, no user context yet. */
    constructor (home: string)
      ensures Valid()
      ensures this.home == home && channel == null && networkPeers == [] && adminPeer == []
      ensures userContext == None && !cryptoSuiteSet
    {
      this.home := home;
      channel := null;
      networkPeers, adminPeer := [], [];
      userContext := None;
      cryptoSuiteSet := false;
    }

    /**
     * `getChannel()`: a new channel named `pharmachannel` gets the six peers and then the
     * orderer, and is initialized; only then are the peer lists appended to. When the
     * handshake fails (`handshakeOk` false) the method stops there: the field keeps the
     * new, uninitialized channel and the lists are unchanged.
     */
    method GetChannel(handshakeOk: bool) returns (ok: bool)
      requires Valid()
      modifies this
      ensures Valid()
      ensures ok == handshakeOk
      ensures channel != null && fresh(channel)
      ensures channel.name == ChannelName && channel.initialized == ok
      ensures channel.peers == ChannelPeers(home) && channel.orderers == [OrdererNode(home)]
      ensures channel.history == BootstrapSteps(ChannelPeers(home), OrdererNode(home))
      ensures ok ==> networkPeers == old(networkPeers) + ChannelPeers(home)
                     && adminPeer == old(adminPeer) + [ManufacturerPeer(home)]
      ensures !ok ==> networkPeers == old(networkPeers) && adminPeer == old(adminPeer)
      ensures userContext == old(userContext) && cryptoSuiteSet == old(cryptoSuiteSet)
    {
      var ch := AssembleChannel(home);
      channel := ch;
      ok := ch.Initialize(handshakeOk);
      if !ok {
        return;
      }
      PeerListsGrow(home, networkPeers, adminPeer);
      adminPeer := adminPeer + [ManufacturerPeer(home)];
      networkPeers := networkPeers + ChannelPeers(home);
    }

    /**
     * `setupCrypto()`: installs the crypto suite and the manufacturer administrator as the
     * user context; the process-wide MSP id is left as it is.
     */
    method SetupCrypto()
      requires Valid()
      modifies this
      ensures Valid()
      ensures cryptoSuiteSet && userContext == Some(DefaultUser(home))
      ensures channel == old(channel) && networkPeers == old(networkPeers) && adminPeer == old(adminPeer)
    {
      cryptoSuiteSet := true;
      userContext := Some(DefaultUser(home));
    }

    /**
     * `setupCryptoForPeer(convFile, peer)`: sets the process-wide MSP id to `peer + "MSP"`
     * and installs the administrator of `peer`, whose certificate is read from `certFile`.
     */
    method SetupCryptoForPeer(statics: ClientStatics, certFile: string, peer: string)
      requires Valid() && statics.Valid()
      modifies this, statics
      ensures Valid() && statics.Valid()
      ensures statics.rootMspId == MspIdFor(peer) && statics.actingOrg == peer
      ensures statics.instance == old(statics.instance)
      ensures cryptoSuiteSet && userContext == Some(PeerUser(home, peer, certFile))
      ensures channel == old(channel) && networkPeers == old(networkPeers) && adminPeer == old(adminPeer)
    {
      cryptoSuiteSet := true;
      statics.rootMspId := MspIdFor(peer);
      statics.actingOrg := peer;
      userContext := Some(PeerUser(home, peer, certFile));
    }
  }

  /** Every administrator peer is one of the network peers. */
  lemma AdminPeersAreNetworkPeers(c: Client)
    requires c.Valid()
    ensures forall p :: p in c.adminPeer ==> p in c.networkPeers
  {
    AdminPeersInNetwork(c.home, c.networkPeers, c.adminPeer);
  }

  lemma AdminPeersInNetwork(home: string, networkPeers: seq<Node>, adminPeer: seq<Node>)
    requires PeerListsValid(home, networkPeers, adminPeer)
    ensures forall p :: p in adminPeer ==> p in networkPeers
  {
    forall p | p in adminPeer ensures p in networkPeers {
      RepeatContains(ChannelPeers(home), |adminPeer|, p);
    }
  }

  /**
   * The static fields of the client class: the single instance, created on first
   * request, and `ROOT_MSP_ID`, which every user context reports as its MSP id. The ghost
   * `actingOrg` is the organisation last passed to `setupCryptoForPeer` (`manufacturer`
   * before any call); `setupCrypto` does not change it.
   */
  class ClientStatics {
    const userHome: string
    var instance: Client?
    var rootMspId: string
    ghost var actingOrg: string

    /**
     * The MSP id is that of the organisation last passed to `setupCryptoForPeer`, and the
     * stored instance, once there is one, keeps the client's invariant.
     */
    ghost predicate Valid()
      reads this, instance
    {
      && rootMspId == MspIdFor(actingOrg)
      && (instance != null ==> instance.Valid())
    }

    /** Class initialisation: no instance yet, the MSP id is the manufacturer's. */
    constructor (userHome: string)
      ensures Valid() && actingOrg == DefaultOrg
      ensures this.userHome == userHome && instance == null && rootMspId == DefaultMspId
    {
      this.userHome := userHome;
      instance := null;
      rootMspId := DefaultMspId;
      actingOrg := DefaultOrg;
    }

    /**
     * `getMspId()` of the attached user context: whatever the MSP id is at the time of asking,
     * which names the organisation last passed to `setupCryptoForPeer`, whichever user
     * context is installed.
     */
    function UserMspId(): (id: string)
      reads this, instance
      requires Valid()
      ensures OrgOfMspId(id) == Some(actingOrg)
    {
      rootMspId
    }

    /**
     * `getInstance()`: the first call creates a fresh client and stores it; every later call
     * returns that same client, unchanged.
     */
    method GetInstance() returns (c: Client)
      requires Valid()
      modifies this
      ensures Valid() && c.Valid()
      ensures instance == c && rootMspId == old(rootMspId) && actingOrg == old(actingOrg)
      ensures old(instance) != null ==> c == old(instance)
      ensures old(instance) == null ==>
                fresh(c) && c.Valid() && c.home == userHome && c.channel == null
                && c.networkPeers == [] && c.adminPeer == [] && c.userContext == None
    {
      if instance == null {
        instance := new Client(userHome);
      }
      c := instance;
    }
  }

  /**
   * A sequential run of the class: two requests for the instance yield the same client, and
   * the MSP id is the manufacturer's until `setupCryptoForPeer` names another organisation.
   */
  method SingletonAndMspIdScenario(userHome: string, certFile: string, org: string)
  {
    var statics := new ClientStatics(userHome);
    var a := statics.GetInstance();
    assert statics.UserMspId() == DefaultMspId;
    a.SetupCrypto();
    assert statics.UserMspId() == DefaultMspId;
    var b := statics.GetInstance();
    assert a == b;
    b.SetupCryptoForPeer(statics, certFile, org);
    var c := statics.GetInstance();
    assert c == a && statics.UserMspId() == MspIdFor(org);
    MspIdRoundTrip(org, statics.UserMspId());
    assert OrgOfMspId(statics.UserMspId()) == Some(org);
  }

  /**
   * After `setupCryptoForPeer` for `org`, a later `setupCrypto()` installs the manufacturer
   * administrator's key and certificate, while `getMspId()` still reports `org + "MSP"`.
   */
  method SetupCryptoAfterPeerScenario(userHome: string, certFile: string, org: string)
  {
    var statics := new ClientStatics(userHome);
    var a := statics.GetInstance();
    a.SetupCryptoForPeer(statics, certFile, org);
    var b := statics.GetInstance();
    b.SetupCrypto();
    assert b == a && b.userContext == Some(DefaultUser(userHome));
    assert statics.actingOrg == org && statics.UserMspId() == MspIdFor(org);
  }

  /**
   * `getInstance().getChannel()` at any later point: the stored client keeps its invariant,
   * so it can be used again, and the singleton and the MSP id are left as they were.
   */
  method LaterGetChannel(statics: ClientStatics, handshakeOk: bool) returns (ok: bool)
    requires statics.Valid() && statics.instance != null
    modifies statics, statics.instance
    ensures statics.Valid() && statics.instance == old(statics.instance)
    ensures statics.rootMspId == old(statics.rootMspId)
    ensures ok ==> statics.instance.networkPeers
                     == old(statics.instance.networkPeers) + ChannelPeers(statics.instance.home)
  {
    var c := statics.GetInstance();
    ok := c.GetChannel(handshakeOk);
  }
}

# Bootstrap client of the pharmaceutical drug-tracking ledger network

This project models `BlockChainHFClient`, the class that sets up the web
application's connection to its Hyperledger Fabric network. It covers four
things:

- **Key-file selection** (`findFileSk`). An organisation's keystore directory
  must hold exactly one entry whose name ends in `_sk`. The lookup returns that
  entry. It fails when the directory cannot be listed, and when the count of
  such entries is not one; in that case the error reports the count.
- **Acting identity.** Every user context is named `PeerAdmin`. The
  process-wide MSP id starts as `manufacturerMSP`. `setupCryptoForPeer(file, p)`
  sets it to `p + "MSP"` and installs the administrator of `p`. That user's key
  comes from `...\peerOrganizations\<p>.state.com\users\Admin@<p>.state.com\msp\keystore`
  and its certificate from the supplied file. `setupCrypto()` installs the
  manufacturer administrator and leaves the MSP id alone.
- **Channel assembly** (`getChannel`). A new channel named `pharmachannel` gets
  six peers, in a fixed order, and then one orderer. Then it is initialized.
  Only after a successful initialization are the six peers appended to
  `networkPeers` and the manufacturer peer to `adminPeer`. Peers and the orderer
  are value descriptors: a name, a URL and the transport properties.
- **Lazy singleton** (`getInstance`). The first call creates the client. Every
  later call returns that same client.

Modules:

- `Wrappers`: `Option` and `Result`.
- `Strings`: `endsWith` and `startsWith`.
- `KeyStore`: `findFileSk`, written as pure functions over a directory listing.
- `Identity`: MSP ids, keystore and certificate paths, and user contexts, all
  as pure functions.
- `Topology`: node descriptors and the `Channel` class, whose methods are the
  SDK's `addPeer`, `addOrderer` and `initialize`.
- `ClientContext`: two classes.
  - `Client` models the client object and its fields.
  - `ClientStatics` models the class's static fields: `instance` and `ROOT_MSP_ID`.
  - `Client.Valid` is the client's invariant. It says `networkPeers` holds one
    copy of the six peers per completed `getChannel`, `adminPeer` holds one copy
    of the manufacturer peer per completed `getChannel`, and every user context
    is named `PeerAdmin`.

The following are parameters of the model:

- the user's home directory (`System.getProperty("user.home")`);
- the directory listing that `File.listFiles` would produce;
- the outcome of the channel's network handshake.

Behaviour of the code worth noting:

- If `initialize` fails, the `channel` field still holds the new,
  uninitialized channel. The field is assigned before the peers are added, so
  the channel is not discarded. The peer lists are left unchanged.
- The peer lists are plain lists, not ordered sets. Each successful
  `getChannel` appends the six peers and the manufacturer peer again.
- A user context has no MSP id of its own. `getMspId()` reads the static
  `ROOT_MSP_ID` each time it is called, so it reports whatever the current
  value is. `ClientStatics.UserMspId` models that read. The ghost field
  `ClientStatics.actingOrg` records the organisation last passed to
  `setupCryptoForPeer` (`manufacturer` before any call). The invariant
  `ClientStatics.Valid` says the MSP id is `actingOrg + "MSP"` and the stored
  instance, once created, keeps the client's invariant.
- `setupCrypto()` never writes `ROOT_MSP_ID`. So after `setupCryptoForPeer(p)`,
  a later `setupCrypto()` installs the manufacturer administrator's key and
  certificate while `getMspId()` still reports `p + "MSP"`.
  `ClientContext.SetupCryptoAfterPeerScenario` shows this sequence.
- The topology is fixed in the code. There is no empty-topology error, and
  `getCh()` returns an unset channel before `getChannel` runs, not an error.

`ClientContext.SingletonAndMspIdScenario` is a sequential client of the model.
It shows that two `getInstance` calls give the same client. It also shows that
the MSP id stays `manufacturerMSP` until `setupCryptoForPeer` names another
organisation. `ClientContext.LaterGetChannel` shows that a client obtained
from `getInstance` at any later point can still run `getChannel`.

## Model

| member | source | states |
|---|---|---|
| `KeyStore.IsKeyName` | Webapp/src/main/java/ufl/drugtracker/setup/BlockChainHFClient.java:370 | A name passes the key filter if and only if it is some stem followed by `_sk`. |
| `KeyStore.FindFileSk` | Webapp/src/main/java/ufl/drugtracker/setup/BlockChainHFClient.java:366-383 | An unreadable listing fails with `DirectoryUnreadable(dir)`. A returned file lies in `dir`, is an entry of the listing, and has a name ending in `_sk`. |
| `KeyStore.KeyMatches` | Webapp/src/main/java/ufl/drugtracker/setup/BlockChainHFClient.java:370 | The filter keeps exactly the entries whose names end in `_sk`. |
| `KeyStore.KeyMatchesCount` | Webapp/src/main/java/ufl/drugtracker/setup/BlockChainHFClient.java:370-380 | The number of kept entries equals the number of key-named positions in the listing. That number is what the failure reports. |
| `KeyStore.SingleKeyMatches` | Webapp/src/main/java/ufl/drugtracker/setup/BlockChainHFClient.java:370-382 | If position `i` is the only key-named one, the filter result is exactly `[names[i]]`. |
| `KeyStore.FindFileSkSingle` | Webapp/src/main/java/ufl/drugtracker/setup/BlockChainHFClient.java:377-382 | Success case: if exactly one position `i` is key-named, the lookup returns entry `names[i]` of `dir`. |
| `KeyStore.FindFileSkOkIff` | Webapp/src/main/java/ufl/drugtracker/setup/BlockChainHFClient.java:377-382 | For a readable listing, the lookup succeeds if and only if exactly one entry name ends in `_sk`. |
| `KeyStore.FindFileSkWrongCount` | Webapp/src/main/java/ufl/drugtracker/setup/BlockChainHFClient.java:377-380 | With 0 or at least 2 key-named entries, the lookup fails with `WrongKeyCount(dir, n)`, where `n` is that count. |
| `KeyStore.NonKeyEntryIrrelevant` | Webapp/src/main/java/ufl/drugtracker/setup/BlockChainHFClient.java:370 | Inserting an entry without the `_sk` suffix anywhere in the listing does not change the result. |
| `KeyStore.FindFileSkOnlySeesKeys` | Webapp/src/main/java/ufl/drugtracker/setup/BlockChainHFClient.java:370-382 | The lookup on the key-named entries alone gives the same result as the lookup on the full listing. |
| `KeyStore.KeyMatchesAppend` | Webapp/src/main/java/ufl/drugtracker/setup/BlockChainHFClient.java:370 | Filtering a concatenated listing gives the concatenation of the two filtered parts. |
| `KeyStore.KeyMatchesIdempotent` | Webapp/src/main/java/ufl/drugtracker/setup/BlockChainHFClient.java:370 | Filtering twice gives the same result as filtering once. |
| `Identity.MspIdFor` | Webapp/src/main/java/ufl/drugtracker/setup/BlockChainHFClient.java:281 | The MSP id `org + "MSP"` reads back as `org`. |
| `Identity.MspIdRoundTrip` | Webapp/src/main/java/ufl/drugtracker/setup/BlockChainHFClient.java:281 | `org + "MSP"` can be read back as `org`. An id reads back as `org` if and only if it equals `org + "MSP"`. |
| `Identity.MspIdInjective` | Webapp/src/main/java/ufl/drugtracker/setup/BlockChainHFClient.java:281 | Distinct organisations get distinct MSP ids. |
| `Identity.DefaultMspIdIsManufacturer` | Webapp/src/main/java/ufl/drugtracker/setup/BlockChainHFClient.java:70 | The default `manufacturerMSP` is the MSP id of the organisation `manufacturer`. |
| `Identity.KeystorePath` | Webapp/src/main/java/ufl/drugtracker/setup/BlockChainHFClient.java:303-304 | The keystore path lies under `<home>\crypto-config\peerOrganizations\` and ends with `<org>.state.com\users\Admin@<org>.state.com\msp\keystore`. |
| `Identity.DefaultCertPath` | Webapp/src/main/java/ufl/drugtracker/setup/BlockChainHFClient.java:252-253 | The default certificate lies in the manufacturer administrator's `...\manufacturer.state.com\users\Admin@manufacturer.state.com\msp\signcerts\` directory and its name ends in `-cert.pem`. |
| `Identity.KeystorePathRoundTrip` | Webapp/src/main/java/ufl/drugtracker/setup/BlockChainHFClient.java:303-304 | The keystore path built for `org` contains `org` in a form that can be read back: parsing the path gives `org`. |
| `Identity.KeystorePathParsed` | Webapp/src/main/java/ufl/drugtracker/setup/BlockChainHFClient.java:303-304 | A path that parses as belonging to `org` is exactly the keystore path of `org`. |
| `Identity.KeystorePathInjective` | Webapp/src/main/java/ufl/drugtracker/setup/BlockChainHFClient.java:303-304 | Distinct organisations read their keys from distinct keystore directories. |
| `Identity.DefaultUser` | Webapp/src/main/java/ufl/drugtracker/setup/BlockChainHFClient.java:206-271 | The user installed by `setupCrypto` is named `PeerAdmin`, its keystore is the manufacturer's, and its certificate lies in the manufacturer administrator's `msp\signcerts\` directory. |
| `Identity.PeerUser` | Webapp/src/main/java/ufl/drugtracker/setup/BlockChainHFClient.java:282-345 | The user installed by `setupCryptoForPeer` is named `PeerAdmin`, reads its certificate from the supplied file, and uses the keystore of the given organisation. |
| `Identity.EnrollmentKeyFile` | Webapp/src/main/java/ufl/drugtracker/setup/BlockChainHFClient.java:301-304 | When `getKey` is called, the key file it finds lies in the user's keystore directory and has a name ending in `_sk`. |
| `Identity.PeerUserKeyFromOwnKeystore` | Webapp/src/main/java/ufl/drugtracker/setup/BlockChainHFClient.java:299-322 | A key found for the administrator of `org` comes from `org`'s own keystore. |
| `Topology.PeerNode` | Webapp/src/main/java/ufl/drugtracker/setup/BlockChainHFClient.java:104-112 | A peer descriptor is named `peer0.<org>.state.com`, has the URL `grpcs://localhost:<port>`, and carries the peer transport settings: `hostnameOverride` equal to its name, `trustServerCertificate="true"`, `sslProvider="openSSL"`, `negotiationType="TLS"`, a max inbound message size of 9000000, and no keep-alive settings. |
| `Topology.OrdererNode` | Webapp/src/main/java/ufl/drugtracker/setup/BlockChainHFClient.java:169-179 | The orderer descriptor is named `orderer.state.com`, has the URL `grpcs://localhost:7050`, and carries the same TLS settings as a peer plus keep-alive 5 minutes and keep-alive timeout 8 seconds, with no max inbound message size. |
| `Topology.ChannelPeers` | Webapp/src/main/java/ufl/drugtracker/setup/BlockChainHFClient.java:104-167 | There are six peers, one per organisation of custPatient, fda, manufacturer, hospitalPharma, usgovt, medic, in that order; the `i`-th is named after the `i`-th organisation, and every one carries the peer transport settings. |
| `Topology.PeerOrgsDistinct` | Webapp/src/main/java/ufl/drugtracker/setup/BlockChainHFClient.java:104-167 | The six organisations are pairwise distinct, and so are their ports 10051, 8051, 9051, 7051, 12051, 11051. |
| `Topology.ManufacturerPeer` | Webapp/src/main/java/ufl/drugtracker/setup/BlockChainHFClient.java:125-134 | The manufacturer peer is the third peer to join, and is named `peer0.manufacturer.state.com`. |
| `Topology.ChannelPeersDistinct` | Webapp/src/main/java/ufl/drugtracker/setup/BlockChainHFClient.java:112-167 | The six peers have pairwise distinct names and pairwise distinct URLs. |
| `Topology.BootstrapOrder` | Webapp/src/main/java/ufl/drugtracker/setup/BlockChainHFClient.java:181-190 | In the steps applied to the channel, the peers come first and in order. The orderer is added exactly once, right after them. `initialize` happens exactly once, as the last step. |
| `Topology.Channel.constructor` | Webapp/src/main/java/ufl/drugtracker/setup/BlockChainHFClient.java:101 | `newChannel(name)` gives a named channel with no peers, no orderer and no steps, not yet initialized. |
| `Topology.Channel.AddPeer` | Webapp/src/main/java/ufl/drugtracker/setup/BlockChainHFClient.java:183-188 | Appends the peer. Orderers and the initialized flag are unchanged. The step is recorded. |
| `Topology.Channel.AddOrderer` | Webapp/src/main/java/ufl/drugtracker/setup/BlockChainHFClient.java:189 | Appends the orderer. Peers and the initialized flag are unchanged. The step is recorded. |
| `Topology.Channel.Initialize` | Webapp/src/main/java/ufl/drugtracker/setup/BlockChainHFClient.java:190 | The channel becomes initialized exactly when the handshake succeeds. Peers and orderers are unchanged. The step is recorded. |
| `Topology.AssembleChannel` | Webapp/src/main/java/ufl/drugtracker/setup/BlockChainHFClient.java:101-189 | Produces a fresh, uninitialized channel named `pharmachannel`. It holds the six peers in order and the single orderer, and its history is those additions in that order. |
| `Topology.AddNodes` | Webapp/src/main/java/ufl/drugtracker/setup/BlockChainHFClient.java:183-189 | The six `addPeer` calls and the `addOrderer` call: the channel's peers gain the given peers in order, its orderers gain the orderer, the initialized flag is unchanged, and the history gains exactly those additions. |
| `ClientContext.Client.GetChannel` | Webapp/src/main/java/ufl/drugtracker/setup/BlockChainHFClient.java:99-200 | The `channel` field holds the fresh `pharmachannel`, with the six peers and then the orderer, initialized exactly when the handshake succeeds, and with `initialize` as its last step. On success, `networkPeers` gains the six peers in channel order and `adminPeer` gains the manufacturer peer. On failure both lists are unchanged. The user context is unchanged. |
| `ClientContext.Client.SetupCrypto` | Webapp/src/main/java/ufl/drugtracker/setup/BlockChainHFClient.java:203-273 | Sets the crypto suite and installs the manufacturer administrator. The channel and the peer lists are unchanged. The MSP id is unchanged, because the method does not touch the static fields. |
| `ClientContext.Client.SetupCryptoForPeer` | Webapp/src/main/java/ufl/drugtracker/setup/BlockChainHFClient.java:277-347 | The MSP id becomes `peer + "MSP"` and `peer` becomes the acting organisation, so the MSP-id invariant is kept. The administrator of `peer`, with the supplied certificate file, becomes the user context. The channel, the peer lists and the singleton are unchanged. |
| `ClientContext.Client.constructor` | Webapp/src/main/java/ufl/drugtracker/setup/BlockChainHFClient.java:68-73 | A new client has no channel, empty peer lists and no user context. |
| `ClientContext.ClientStatics.constructor` | Webapp/src/main/java/ufl/drugtracker/setup/BlockChainHFClient.java:70 | At class initialisation there is no instance yet, the MSP id is `manufacturerMSP`, and the acting organisation is `manufacturer`. |
| `ClientContext.ClientStatics.GetInstance` | Webapp/src/main/java/ufl/drugtracker/setup/BlockChainHFClient.java:61-66 | The first call creates a fresh, valid client and stores it. Every later call returns the stored client. The returned client is valid on every call. The MSP id and the acting organisation are unchanged. |
| `ClientContext.ClientStatics.UserMspId` | Webapp/src/main/java/ufl/drugtracker/setup/BlockChainHFClient.java:342-344 | The MSP id a user context reports (here and at lines 268-270) reads back as the organisation last passed to `setupCryptoForPeer` (`manufacturer` before any call), whichever user context is installed. |
| `ClientContext.LaterGetChannel` | Webapp/src/main/java/ufl/drugtracker/setup/BlockChainHFClient.java:61-66 | `getInstance()` followed by `getChannel()`, with the singleton already created: the invariant is kept, the stored instance and the MSP id are unchanged, and on success the stored client's `networkPeers` gains the six peers. |
| `ClientContext.PeerListsGrow` | Webapp/src/main/java/ufl/drugtracker/setup/BlockChainHFClient.java:192-198 | Appending the six peers and the manufacturer peer keeps the peer-list invariant. |
| `ClientContext.AdminPeersInNetwork` | Webapp/src/main/java/ufl/drugtracker/setup/BlockChainHFClient.java:192-198 | Under the peer-list invariant, every admin peer is also a network peer. |
| `ClientContext.AdminPeersAreNetworkPeers` | Webapp/src/main/java/ufl/drugtracker/setup/BlockChainHFClient.java:192-198 | In a valid client, every peer in `adminPeer` is also in `networkPeers`. |

## Left out

- `getPrivateKeyFromBytes` is not modelled. It decodes PEM/PKCS#8 through BouncyCastle, a foreign library. The enrollment key is modelled only by the key file that would be decoded.
- Reading the key and certificate files is not modelled, because it is file I/O. This covers `FileInputStream`, `IOUtils.toByteArray` and the UTF-8 decoding. So are the deletion of the uploaded certificate when reading it fails with an I/O error other than a missing file or an unsupported encoding, and the `printStackTrace` handlers that then return a null key or certificate. A user context records its certificate file path.
- The Fabric SDK is modelled only as steps that always succeed. This covers `HFClient.createNewInstance`, `newChannel`, `newPeer`, `newOrderer`, `setCryptoSuite` and `setUserContext`. None of the SDK's own checks or failures are modelled, such as refusing a second channel with the same name. The only SDK failure modelled is the handshake in `initialize`, whose outcome is a parameter.
- Peers are values, not SDK objects. The model does not capture that each `getChannel` creates new `Peer` objects, so repeated calls append equal descriptors rather than distinct objects.
- KeyStore.FindFileSk: the errors carry the directory path as given. The Java message prints the last component of the absolute path instead, and resolving that is OS-specific. The exception message text is not modelled.
- KeyStore.FindFileSk: the listing is taken in the order the file system returns it. Java does not specify that order, but it affects nothing, because the function only returns a result when there is exactly one match.
- `getInstance` is modelled sequentially, without its `synchronized` keyword, because that only concerns concurrent access.
- The home directory is a parameter, not looked up from the OS.
- The accessors `getCh`, `getAdminPeer` and `getClient` are not separate members, because they only return a field. The model's fields are read directly. `getAdminPeer` hands out the live list, which callers could change. `Client.Valid` (append-only peer lists, with `adminPeer` inside `networkPeers`) holds only if callers do not change the list they are handed.

/**
 * The acting identity of the client: the fixed administrator name, the MSP id
 * derived from an organisation's short name, and the per-organisation paths of the
 * keystore and signing certificate from which the enrollment is read. Paths are
 * built by plain concatenation with Windows separators, as the client does.
 */
module Identity {
  import opened Wrappers
  import opened Strings
  import KeyStore

  /** The name every user context reports. */
  const PeerAdmin: string := "PeerAdmin"

  /** The initial value of the process-wide MSP id: the manufacturer organisation. */
  const DefaultMspId: string := "manufacturerMSP"

  const MspSuffix: string := "MSP"

  /** The organisation whose administrator the client acts as until told otherwise. */
  const DefaultOrg: string := "manufacturer"

  /** `peer + "MSP"`: the MSP id of organisation `org`. */
  function MspIdFor(org: string): (id: string)
    ensures OrgOfMspId(id) == Some(org)
  {
    org + MspSuffix
  }

  /** The organisation an MSP id belongs to, when it follows the `<org>MSP` convention. */
  function OrgOfMspId(id: string): (r: Option<string>)
    ensures r.Some? ==> |r.value| < |id|
  {
    if EndsWith(id, MspSuffix) then Some(id[..|id| - |MspSuffix|]) else None
  }

  /** Deriving an MSP id and reading the organisation back agree, in both directions. */
  lemma MspIdRoundTrip(org: string, id: string)
    ensures OrgOfMspId(MspIdFor(org)) == Some(org)
    ensures OrgOfMspId(id) == Some(org) <==> id == MspIdFor(org)
  {
  }

  /** Distinct organisations get distinct MSP ids. */
  lemma MspIdInjective(a: string, b: string)
    requires MspIdFor(a) == MspIdFor(b)
    ensures a == b
  {
    MspIdRoundTrip(a, MspIdFor(a));
    MspIdRoundTrip(b, MspIdFor(b));
  }

  /** The default MSP id is the one `setupCryptoForPeer("manufacturer")` would install. */
  lemma DefaultMspIdIsManufacturer()
    ensures DefaultMspId == MspIdFor(DefaultOrg)
    ensures OrgOfMspId(DefaultMspId) == Some(DefaultOrg)
  {
  }

  function PeerOrgsDir(home: string): string {
    home + "\\crypto-config\\peerOrganizations\\"
  }

  const KeystoreInfix: string := ".state.com\\users\\Admin@"
  const KeystoreSuffix: string := ".state.com\\msp\\keystore"

  /** `<home>\crypto-config\peerOrganizations\<org>.state.com\users\Admin@<org>.state.com\msp\keystore`. */
  function KeystorePath(home: string, org: string): (p: string)
    ensures StartsWith(p, PeerOrgsDir(home))
    ensures EndsWith(p, org + KeystoreInfix + org + KeystoreSuffix)
  {
    var tail := org + KeystoreInfix + org + KeystoreSuffix;
    assert PeerOrgsDir(home) + org + KeystoreInfix + org + KeystoreSuffix == PeerOrgsDir(home) + tail;
    PeerOrgsDir(home) + tail
  }

  /** `<home>\crypto-config\peerOrganizations\<org>.state.com\users\Admin@<org>.state.com\msp\signcerts\`. */
  function SigncertsDir(home: string, org: string): string {
    PeerOrgsDir(home) + org + KeystoreInfix + org + ".state.com\\msp\\signcerts\\"
  }

  /** The manufacturer administrator's signing certificate, used by the default identity. */
  function DefaultCertPath(home: string): (p: string)
    ensures StartsWith(p, SigncertsDir(home, DefaultOrg))
    ensures EndsWith(p, "-cert.pem")
  {
    var file := "Admin@" + DefaultOrg + ".state.com-cert.pem";
    assert file == "Admin@manufacturer.state.com" + "-cert.pem";
    SigncertsDir(home, DefaultOrg) + file
  }

  /** The organisation a keystore path was built for, if it has the keystore-path shape under `home`. */
  function OrgOfKeystorePath(home: string, path: string): Option<string> {
    var pre := PeerOrgsDir(home);
    if !(StartsWith(path, pre) && |pre| + |KeystoreSuffix| <= |path| && EndsWith(path, KeystoreSuffix)) then None
    else
      var mid := path[|pre|..|path| - |KeystoreSuffix|];
      if |mid| < |KeystoreInfix| || (|mid| - |KeystoreInfix|) % 2 != 0 then None
      else
        var org := mid[..(|mid| - |KeystoreInfix|) / 2];
        if mid == org + KeystoreInfix + org then Some(org) else None
  }

  /** The keystore path embeds the organisation recoverably: parsing it gives `org` back. */
  lemma KeystorePathRoundTrip(home: string, org: string)
    ensures OrgOfKeystorePath(home, KeystorePath(home, org)) == Some(org)
  {
    var pre := PeerOrgsDir(home);
    var path := KeystorePath(home, org);
    var mid := org + KeystoreInfix + org;
    assert path == pre + mid + KeystoreSuffix;
    assert path[..|pre|] == pre;
    assert path[|path| - |KeystoreSuffix|..] == KeystoreSuffix;
    assert path[|pre|..|path| - |KeystoreSuffix|] == mid;
    assert mid[..(|mid| - |KeystoreInfix|) / 2] == org;
  }

  /** Only a keystore path parses, so a parsed path is the keystore path of its organisation. */
  lemma KeystorePathParsed(home: string, path: string, org: string)
    requires OrgOfKeystorePath(home, path) == Some(org)
    ensures path == KeystorePath(home, org)
  {
    var pre := PeerOrgsDir(home);
    var mid := path[|pre|..|path| - |KeystoreSuffix|];
    SplitAround(path, pre, KeystoreSuffix);
    assert mid == org + KeystoreInfix + org;
  }

  /** Acting as distinct organisations reads keys from distinct keystores. */
  lemma KeystorePathInjective(home: string, a: string, b: string)
    requires KeystorePath(home, a) == KeystorePath(home, b)
    ensures a == b
  {
    KeystorePathRoundTrip(home, a);
    KeystorePathRoundTrip(home, b);
  }

  /**
   * The user context attached to the client: its name, the keystore its private key is
   * looked up in, and the file its certificate is read from. Its MSP id is not part of it:
   * `getMspId` reads the process-wide MSP id each time it is asked.
   */
  datatype UserContext = UserContext(name: string, keystoreDir: string, certFile: string)

  /** The identity of `setupCrypto`: the manufacturer administrator. */
  function DefaultUser(home: string): (u: UserContext)
    ensures u.name == PeerAdmin
    ensures OrgOfKeystorePath(home, u.keystoreDir) == Some(DefaultOrg)
    ensures StartsWith(u.certFile, SigncertsDir(home, DefaultOrg))
  {
    KeystorePathRoundTrip(home, DefaultOrg);
    UserContext(PeerAdmin, KeystorePath(home, DefaultOrg), DefaultCertPath(home))
  }

  /** The identity of `setupCryptoForPeer(certFile, org)`: the administrator of `org`. */
  function PeerUser(home: string, org: string, certFile: string): (u: UserContext)
    ensures u.name == PeerAdmin && u.certFile == certFile
    ensures OrgOfKeystorePath(home, u.keystoreDir) == Some(org)
  {
    KeystorePathRoundTrip(home, org);
    UserContext(PeerAdmin, KeystorePath(home, org), certFile)
  }

  /**
   * `getEnrollment().getKey()` locates its key file when it is called, in the keystore
   * the user context names; `listing` is that directory's listing at that moment.
   */
  function EnrollmentKeyFile(u: UserContext, listing: KeyStore.Listing): (r: Result<KeyStore.KeyFile, KeyStore.KeyError>)
    ensures r.Ok? ==> r.value.dir == u.keystoreDir && KeyStore.IsKeyName(r.value.name)
  {
    KeyStore.FindFileSk(u.keystoreDir, listing)
  }

  /** A key found for the administrator of `org` comes from `org`'s own keystore. */
  lemma PeerUserKeyFromOwnKeystore(home: string, org: string, certFile: string, listing: KeyStore.Listing)
    requires EnrollmentKeyFile(PeerUser(home, org, certFile), listing).Ok?
    ensures OrgOfKeystorePath(home, EnrollmentKeyFile(PeerUser(home, org, certFile), listing).value.dir) == Some(org)
  {
  }
}

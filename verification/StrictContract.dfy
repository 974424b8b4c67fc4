/** The wire contract shared by the Agent and the privileged Broker: policies,
    capabilities and Broker proofs. */
module StrictContract {
  import opened Bytes
  import opened Wrappers

  const MAX_STRICT_APPLICATIONS: nat := 128
  const STRICT_PROTOCOL_VERSION: nat := 2
  const U64_MAX: nat := 0xFFFF_FFFF_FFFF_FFFF

  /** Target group names are compared as byte strings by every component. */
  type Group = seq<Byte>

  // ----- Hexadecimal digests -------------------------------------------------

  function LowerChar(c: char): char {
    if 'A' <= c <= 'Z' then c - 'A' + 'a' else c
  }

  function LowerAscii(s: string): (r: string)
    ensures |r| == |s|
  {
    seq(|s|, i requires 0 <= i < |s| => LowerChar(s[i]))
  }

  /** Equality of two digests that ignores the case of ASCII letters. */
  predicate SameDigest(a: string, b: string) {
    LowerAscii(a) == LowerAscii(b)
  }

  lemma LowerTwice(d: string)
    ensures SameDigest(LowerAscii(d), d)
  {
    assert LowerAscii(LowerAscii(d)) == LowerAscii(d);
  }

  predicate IsHexDigit(c: char) {
    '0' <= c <= '9' || 'a' <= c <= 'f' || 'A' <= c <= 'F'
  }

  predicate IsSha256(s: string) {
    |s| == 64 && forall i :: 0 <= i < |s| ==> IsHexDigit(s[i])
  }

  function ZeroDigest(): (r: string)
    ensures |r| == 64
  {
    seq(64, i => '0')
  }

  predicate ValidCredential(s: string) {
    IsSha256(s) && s != ZeroDigest()
  }

  // ----- Capabilities --------------------------------------------------------

  datatype Capability =
    | DriverSigned | IdentityVerified
    | Tcp4Redirect | Tcp6Redirect | Udp4Redirect | Udp6Redirect
    | DnsCaptured | QuicCaptured | RedirectLoopProtected
    | PersistentFailClosed | RecoveryVerified

  function RequiredForBlockOnly(): set<Capability> {
    {DriverSigned, IdentityVerified, PersistentFailClosed, RecoveryVerified}
  }

  function RequiredForProxy(): set<Capability> {
    {DriverSigned, IdentityVerified, Tcp4Redirect, Tcp6Redirect, Udp4Redirect, Udp6Redirect,
     DnsCaptured, QuicCaptured, RedirectLoopProtected, PersistentFailClosed, RecoveryVerified}
  }

  // ----- Policies ------------------------------------------------------------

  datatype StrictAction = Proxy | Block

  /** One executable the guards protect. */
  datatype Executable = Executable(path: string, appId: string, publisher: string)

  datatype Identity = Identity(id: string, root: Executable, children: seq<Executable>)

  datatype Entry = Entry(identity: Identity, action: StrictAction, targetGroup: Option<Group>)

  datatype Policy = Policy(protocol: nat, revision: nat, entries: seq<Entry>)

  /** What stays abstract: the SHA-256 digest of the canonical JSON, the
      well-formedness of one identity together with the cross-entry uniqueness
      and size checks, and the spelling rules for a target group. */
  datatype Rules = Rules(
    digest: Policy -> string,
    identitiesOk: Policy -> bool,
    groupOk: Group -> bool)

  predicate EntryOk(rules: Rules, e: Entry) {
    match e.action
    case Proxy => e.targetGroup.Some? && rules.groupOk(e.targetGroup.value)
    case Block => e.targetGroup.None?
  }

  predicate ValidPolicy(rules: Rules, p: Policy) {
    && p.protocol == STRICT_PROTOCOL_VERSION
    && p.revision > 0
    && 1 <= |p.entries| <= MAX_STRICT_APPLICATIONS
    && (forall i :: 0 <= i < |p.entries| ==> EntryOk(rules, p.entries[i]))
    && rules.identitiesOk(p)
  }

  predicate HasProxyEntries(p: Policy) {
    exists i :: 0 <= i < |p.entries| && p.entries[i].action == Proxy
  }

  function RequiredCapabilities(p: Policy): set<Capability> {
    if HasProxyEntries(p) then RequiredForProxy() else RequiredForBlockOnly()
  }

  function Executables(identity: Identity): seq<Executable> {
    [identity.root] + identity.children
  }

  predicate SameExecutable(a: Executable, b: Executable) {
    && LowerAscii(a.path) == LowerAscii(b.path)
    && SameDigest(a.appId, b.appId)
    && SameDigest(a.publisher, b.publisher)
  }

  predicate Retains(identity: Identity, x: Executable) {
    exists k :: 0 <= k < |Executables(identity)| && SameExecutable(Executables(identity)[k], x)
  }

  /** The first entry carrying the given identity, as the source looks it up. */
  function FindEntry(entries: seq<Entry>, id: string): (r: Option<Entry>)
    ensures r.Some? ==> r.value in entries && r.value.identity.id == id
  {
    if entries == [] then None
    else if entries[0].identity.id == id then Some(entries[0])
    else FindEntry(entries[1..], id)
  }

  predicate KeepsApplication(entry: Entry, next: Option<Entry>) {
    && next.Some?
    && next.value.action == entry.action
    && next.value.targetGroup == entry.targetGroup
    && SameDigest(next.value.identity.root.publisher, entry.identity.root.publisher)
    && (forall k :: 0 <= k < |Executables(entry.identity)| ==>
          Retains(next.value.identity, Executables(entry.identity)[k]))
  }

  predicate ValidMigration(rules: Rules, previous: Policy, policy: Policy) {
    && ValidPolicy(rules, previous)
    && ValidPolicy(rules, policy)
    && policy.revision > previous.revision
    && |policy.entries| == |previous.entries|
    && (forall i :: 0 <= i < |previous.entries| ==>
          KeepsApplication(previous.entries[i], FindEntry(policy.entries, previous.entries[i].identity.id)))
  }

  /** Every executable guarded under `previous` is guarded under `policy` too. */
  predicate Covers(policy: Policy, previous: Policy) {
    forall i, k :: 0 <= i < |previous.entries| && 0 <= k < |Executables(previous.entries[i].identity)| ==>
      exists j :: 0 <= j < |policy.entries| && Retains(policy.entries[j].identity, Executables(previous.entries[i].identity)[k])
  }

  lemma MigrationCovers(rules: Rules, previous: Policy, policy: Policy)
    requires ValidMigration(rules, previous, policy)
    ensures Covers(policy, previous)
    ensures HasProxyEntries(policy) || !HasProxyEntries(previous)
  {
    forall i, k | 0 <= i < |previous.entries| && 0 <= k < |Executables(previous.entries[i].identity)|
      ensures exists j :: 0 <= j < |policy.entries| && Retains(policy.entries[j].identity, Executables(previous.entries[i].identity)[k])
    {
      var next := FindEntry(policy.entries, previous.entries[i].identity.id);
      assert KeepsApplication(previous.entries[i], next);
      var j :| 0 <= j < |policy.entries| && policy.entries[j] == next.value;
      assert Retains(policy.entries[j].identity, Executables(previous.entries[i].identity)[k]);
    }
    if HasProxyEntries(previous) {
      var i :| 0 <= i < |previous.entries| && previous.entries[i].action == Proxy;
      var next := FindEntry(policy.entries, previous.entries[i].identity.id);
      assert KeepsApplication(previous.entries[i], next);
    }
  }

  // ----- Broker proofs -------------------------------------------------------

  datatype BrokerProof = BrokerProof(
    revision: nat,
    policyDigest: string,
    filterGeneration: nat,
    capabilities: set<Capability>,
    guardsInstalled: bool,
    markerPresent: bool,
    coreHealthy: bool,
    relayHealthy: bool,
    dnsHealthy: bool)
}

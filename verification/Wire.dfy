/** The Nacos wire form of an instance: the cluster name it is filed under, the
    host a register writes, and the instance a reader rebuilds from a host
    (pkg/nacos/nacos.go, internal/domain/instance/{identity,metadata,rules}.go). */
module Wire {
  import opened Instances

  const DEFAULT_CLUSTER := "DEFAULT"

  // ---------------------------------------------------------------- wire scopes

  predicate Safe(c: char) {
    'a' <= c <= 'z' || 'A' <= c <= 'Z' || '0' <= c <= '9' || c == '-' || c == '_' || c == '.'
  }

  predicate IsSpace(c: char) {
    || '\U{0009}' <= c <= '\U{000D}' || c == ' ' || c == '\U{0085}' || c == '\U{00A0}' || c == '\U{1680}'
    || '\U{2000}' <= c <= '\U{200A}' || c == '\U{2028}' || c == '\U{2029}' || c == '\U{202F}' || c == '\U{205F}'
    || c == '\U{3000}'
  }

  predicate IsDash(c: char) { c == '-' }

  function TrimLeft(s: string, drop: char -> bool): string {
    if s != [] && drop(s[0]) then TrimLeft(s[1..], drop) else s
  }

  function TrimRight(s: string, drop: char -> bool): string {
    if s != [] && drop(s[|s| - 1]) then TrimRight(s[..|s| - 1], drop) else s
  }

  function Trim(s: string, drop: char -> bool): string {
    TrimRight(TrimLeft(s, drop), drop)
  }

  function Dashed(s: string): string {
    seq(|s|, i requires 0 <= i < |s| => if Safe(s[i]) then s[i] else '-')
  }

  function Sanitized(s: string): string {
    Trim(Dashed(Trim(s, IsSpace)), IsDash)
  }

  /** The normalisation of a wire scope, character by character. */
  method SanitizeWireScope(value: string) returns (scope: string)
    ensures scope == Sanitized(value)
  {
    var trimmed := Trim(value, IsSpace);
    var built := [];
    for i := 0 to |trimmed|
      invariant built == Dashed(trimmed[..i])
    {
      built := built + [if Safe(trimmed[i]) then trimmed[i] else '-'];
    }
    assert trimmed[..|trimmed|] == trimmed;
    scope := Trim(built, IsDash);
  }

  lemma {:induction false} TrimLeftKeeps(s: string, drop: char -> bool)
    ensures forall c :: c in TrimLeft(s, drop) ==> c in s
    ensures TrimLeft(s, drop) != [] ==> !drop(TrimLeft(s, drop)[0])
  {
    if s != [] && drop(s[0]) {
      TrimLeftKeeps(s[1..], drop);
    }
  }

  lemma {:induction false} TrimRightKeeps(s: string, drop: char -> bool)
    ensures TrimRight(s, drop) <= s
    ensures TrimRight(s, drop) != [] ==> !drop(TrimRight(s, drop)[|TrimRight(s, drop)| - 1])
  {
    if s != [] && drop(s[|s| - 1]) {
      TrimRightKeeps(s[..|s| - 1], drop);
    }
  }

  lemma TrimKeeps(s: string, drop: char -> bool)
    ensures forall c :: c in Trim(s, drop) ==> c in s
    ensures var t := Trim(s, drop); t != [] ==> !drop(t[0]) && !drop(t[|t| - 1])
  {
    TrimLeftKeeps(s, drop);
    TrimRightKeeps(TrimLeft(s, drop), drop);
  }

  /** A wire scope holds only safe characters and neither starts nor ends with a dash. */
  lemma SanitizedShape(s: string)
    ensures forall c :: c in Sanitized(s) ==> Safe(c)
    ensures var t := Sanitized(s); t != [] ==> t[0] != '-' && t[|t| - 1] != '-'
  {
    TrimKeeps(Dashed(Trim(s, IsSpace)), IsDash);
  }

  /** Normalising twice changes nothing: a scope that is already wire-safe is its own wire scope. */
  lemma SanitizedIdempotent(s: string)
    ensures Sanitized(Sanitized(s)) == Sanitized(s)
  {
    SanitizedShape(s);
    var t := Sanitized(s);
    assert t != [] ==> Safe(t[0]) && Safe(t[|t| - 1]);
    assert Trim(t, IsSpace) == t;
    assert Dashed(t) == t;
  }

  /** A letter, a digit, an underscore or a dot. */
  predicate Word(c: char) {
    ('a' <= c && c <= 'z') || ('A' <= c && c <= 'Z') || ('0' <= c && c <= '9') || c == '_' || c == '.'
  }

  lemma {:induction false} TrimLeftSlice(s: string, drop: char -> bool) returns (i: nat)
    ensures i <= |s| && TrimLeft(s, drop) == s[i..] && forall k :: 0 <= k < i ==> drop(s[k])
  {
    if s != [] && drop(s[0]) {
      i := TrimLeftSlice(s[1..], drop);
      i := i + 1;
      assert forall k :: 1 <= k < i ==> s[k] == s[1..][k - 1];
    } else {
      i := 0;
    }
  }

  lemma {:induction false} TrimRightSlice(s: string, drop: char -> bool) returns (j: nat)
    ensures j <= |s| && TrimRight(s, drop) == s[..j] && forall k :: j <= k < |s| ==> drop(s[k])
  {
    if s != [] && drop(s[|s| - 1]) {
      j := TrimRightSlice(s[..|s| - 1], drop);
      assert forall k :: j <= k < |s| - 1 ==> s[k] == s[..|s| - 1][k];
    } else {
      j := |s|;
    }
  }

  lemma TrimSlice(s: string, drop: char -> bool) returns (i: nat, j: nat)
    ensures i <= j <= |s| && Trim(s, drop) == s[i..j]
    ensures forall k :: 0 <= k < i || j <= k < |s| ==> drop(s[k])
  {
    i := TrimLeftSlice(s, drop);
    j := TrimRightSlice(s[i..], drop);
    assert s[i..][..j] == s[i..i + j];
    assert forall k :: i + j <= k < |s| ==> s[k] == s[i..][k - i];
    j := i + j;
  }

  lemma SliceOfSlice(s: string, a: nat, b: nat, c: nat, d: nat)
    requires a <= b <= |s| && c <= d <= b - a
    ensures s[a..b][c..d] == s[a + c..a + d]
  {
    forall k | 0 <= k < d - c
      ensures s[a..b][c..d][k] == s[a + c..a + d][k]
    {
      assert s[a..b][c + k] == s[a + c + k];
    }
  }

  lemma DashedSlice(s: string, c: nat, d: nat)
    requires c <= d <= |s|
    ensures Dashed(s)[c..d] == Dashed(s[c..d])
  {
  }

  lemma DashedCharacter(s: string, k: nat)
    requires k < |s|
    ensures Dashed(s)[k] == if Word(s[k]) then s[k] else '-'
  {
  }

  /** What the two trims drop are no word characters. */
  lemma DroppedIsNoWord(s: string, a: nat, b: nat, k: nat)
    requires a <= b <= |s| && k < |s|
    requires if a <= k < b then IsDash(Dashed(s[a..b])[k - a]) else IsSpace(s[k])
    ensures !Word(s[k])
  {
    if a <= k < b {
      DashedCharacter(s[a..b], k - a);
    }
  }

  lemma SanitizedSlice(s: string) returns (i: nat, j: nat)
    ensures i <= j <= |s| && Sanitized(s) == Dashed(s[i..j])
    ensures forall k :: 0 <= k < i || j <= k < |s| ==> !Word(s[k])
  {
    var a, b := TrimSlice(s, IsSpace);
    var c, d := TrimSlice(Dashed(s[a..b]), IsDash);
    i, j := a + c, a + d;
    DashedSlice(s[a..b], c, d);
    SliceOfSlice(s, a, b, c, d);
    forall k | 0 <= k < i || j <= k < |s|
      ensures !Word(s[k])
    {
      DroppedIsNoWord(s, a, b, k);
    }
  }

  /** A wire scope is the text from its first to its last word character, with a dash for every
      character in between that is not one. */
  lemma SanitizedIs(s: string) returns (i: nat, j: nat)
    ensures i <= j <= |s| && |Sanitized(s)| == j - i
    ensures forall k :: 0 <= k < j - i ==> Sanitized(s)[k] == if Word(s[i + k]) then s[i + k] else '-'
    ensures forall k :: 0 <= k < i || j <= k < |s| ==> !Word(s[k])
    ensures i < j ==> Word(s[i]) && Word(s[j - 1])
  {
    i, j := SanitizedSlice(s);
    forall k | 0 <= k < j - i
      ensures Sanitized(s)[k] == if Word(s[i + k]) then s[i + k] else '-'
    {
      DashedCharacter(s[i..j], k);
    }
    SanitizedShape(s);
    if i < j {
      DashedCharacter(s[i..j], 0);
      DashedCharacter(s[i..j], j - i - 1);
    }
  }

  /** The Nacos cluster an instance is filed under. */
  function ClusterOf(ins: Instance): string {
    if ins.cluster != "" && (ins.sourceCluster == "" || ins.cluster != ins.provider) then Sanitized(ins.cluster)
    else if ins.sourceCluster != "" then Sanitized(ins.sourceCluster)
    else if ins.provider != "" then ins.provider
    else DEFAULT_CLUSTER
  }

  /** A cluster of its own names it, unless that is only the provider's name and the source cluster is
      known; then the source cluster does. Without either it is the provider, and DEFAULT without one. */
  lemma FiledUnder(ins: Instance)
    ensures ins.cluster != "" && !(ins.sourceCluster != "" && ins.cluster == ins.provider) ==>
      ClusterOf(ins) == Sanitized(ins.cluster)
    ensures ins.sourceCluster != "" && (ins.cluster == "" || ins.cluster == ins.provider) ==>
      ClusterOf(ins) == Sanitized(ins.sourceCluster)
    ensures ins.cluster == "" && ins.sourceCluster == "" ==>
      ClusterOf(ins) == if ins.provider == "" then "DEFAULT" else ins.provider
  {
  }

  function FirstPort(ins: Instance): int {
    if ins.ports != [] && ins.ports[0].Some? then ins.ports[0].value.port else 0
  }

  /** Conversion to a 32-bit integer keeps the low 32 bits. */
  function ToInt32(n: int): int32 {
    (n + 0x8000_0000) % 0x1_0000_0000 - 0x8000_0000
  }

  /** Two ports look the same on the way back iff they agree modulo 2^32. */
  lemma PortsWrap(n: int, port: int32)
    ensures ToInt32(n) == port <==> (n - port) % 0x1_0000_0000 == 0
  {
    var m := n + 0x8000_0000;
    assert m == m / 0x1_0000_0000 * 0x1_0000_0000 + m % 0x1_0000_0000;
    if ToInt32(n) == port {
      assert n - port == m / 0x1_0000_0000 * 0x1_0000_0000;
    }
  }

  // ---------------------------------------------------------------- canonical payload

  const PAYLOAD_VERSION := 1

  /** The complete projection of an instance. Serialisation, compression and
      base64 are injective and are not spelled out: equal payloads are equal texts. */
  datatype Payload = Payload(
    schemaVersion: int,
    sourceKey: string, sourceCluster: string, instanceId: string, level: string,
    ports: seq<Option<PortInfo>>, ip: string, envCode: string, envType: string, envGroup: string,
    cluster: string, version: string, enabled: bool, state: string, healthState: string,
    appCode: string, provider: string, labels: map<string, string>, hostname: string, cpu: real,
    memory: int, disk: int, os: string, images: map<string, string>, idc: string,
    reversion: int, status: int)

  /** A copy of a possibly nil map is never nil. */
  function CopyMap(m: Option<map<string, string>>): map<string, string> {
    if m.Some? then m.value else map[]
  }

  function CanonicalPayload(ins: Instance): Payload {
    Payload(
      PAYLOAD_VERSION,
      ins.sourceKey, ins.sourceCluster, ins.instanceId, ins.level,
      ins.ports, ins.ip, ins.envCode, ins.envType, ins.envGroup,
      ins.cluster, ins.version, ins.enabled, ins.state, ins.healthState,
      ins.appCode, ins.provider, CopyMap(ins.labels), ins.hostname, ins.cpu,
      ins.memory, ins.disk, ins.os, CopyMap(ins.images), ins.idc,
      ins.reversion, ins.status)
  }

  function DecodeCanonicalPayload(p: Payload): Option<Instance> {
    if p.schemaVersion != PAYLOAD_VERSION then None
    else Some(Instance(
      p.sourceKey, p.sourceCluster, p.instanceId, p.level,
      p.ports, p.ip, p.envCode, p.envType, p.envGroup,
      p.cluster, p.version, p.enabled, p.state, p.healthState,
      p.appCode, p.provider, Some(p.labels), p.hostname, p.cpu,
      p.memory, p.disk, p.os, Some(p.images), p.idc,
      p.reversion, p.status))
  }

  predicate EqualNacosReconcile(provider: Instance, remote: Instance) {
    CanonicalPayload(provider) == CanonicalPayload(remote)
  }

  predicate DiffNacosReconcile(provider: Instance, remote: Instance) {
    !EqualNacosReconcile(provider, remote)
  }

  // ---------------------------------------------------------------- hosts

  /** A metadata value: a text, a number in decimal, a decimal fraction, or a packed payload. */
  datatype MetaValue = Text(text: string) | Num(n: int) | Frac(r: real) | Packed(payload: Payload)

  type Metadata = map<string, MetaValue>

  datatype Host = Host(ip: string, port: int, cluster: string, enabled: bool, metadata: Metadata)

  const OWNER := Text("spotter")
  const SCHEMA_VERSION := Text("1")

  function MetadataOf(ins: Instance): Metadata {
    map[
      "spotterOwner" := OWNER,
      "sourceKey" := Text(ins.sourceKey),
      "sourceCluster" := Text(ins.sourceCluster),
      "instanceId" := Text(ins.instanceId),
      "envType" := Text(ins.envType),
      "envGroup" := Text(ins.envGroup),
      "reversion" := Num(ins.reversion),
      "status" := Num(ins.status),
      "state" := Text(ins.state),
      "idc" := Text(ins.idc),
      "cpu" := Frac(ins.cpu),
      "version" := Text(ins.version),
      "schemaVersion" := SCHEMA_VERSION,
      "spotter.instance" := Packed(CanonicalPayload(ins))]
  }

  predicate Owned(host: Host) {
    "spotterOwner" in host.metadata && host.metadata["spotterOwner"] == OWNER
  }

  /** The enabled bit a registration carries. Over the SDK an unhealthy instance
      stays enabled so that readers keep seeing it. */
  function WireEnabled(ins: Instance, sdk: bool): bool {
    if ins.status == UNHEALTHY then sdk else ins.enabled
  }

  function RegisteredHost(ins: Instance, sdk: bool): Host {
    Host(ins.ip, FirstPort(ins), ClusterOf(ins), WireEnabled(ins, sdk), MetadataOf(ins))
  }

  function TextAt(m: Metadata, name: string): string {
    if name in m && m[name].Text? then m[name].text else ""
  }

  function NumberAt(m: Metadata, name: string): Option<int> {
    if name in m && m[name].Num? then Some(m[name].n) else None
  }

  function FractionAt(m: Metadata, name: string): Option<real> {
    if name in m && m[name].Frac? then Some(m[name].r) else None
  }

  function PayloadAt(m: Metadata): Option<Instance> {
    if "spotter.instance" in m && m["spotter.instance"].Packed?
    then DecodeCanonicalPayload(m["spotter.instance"].payload)
    else None
  }

  predicate CurrentSchema(m: Metadata) {
    "schemaVersion" in m && m["schemaVersion"] == SCHEMA_VERSION
  }

  /** The wire owns the location and, unless unhealthy, the enabled bit; the payload owns the rest. */
  function Overlay(service: string, host: Host, decoded: Instance): Instance {
    var first := if decoded.ports == [] || decoded.ports[0].None? then PortInfo("", "", ToInt32(host.port), 0)
                 else decoded.ports[0].value.(port := ToInt32(host.port));
    decoded.(
      appCode := service,
      ip := host.ip,
      ports := [Some(first)] + (if decoded.ports == [] then [] else decoded.ports[1..]),
      provider := if decoded.provider == "" then host.cluster else decoded.provider,
      enabled := if decoded.status != UNHEALTHY then host.enabled else decoded.enabled,
      instanceId := if decoded.instanceId == "" then TextAt(host.metadata, "instanceId") else decoded.instanceId)
  }

  /** Hosts without a readable payload are rebuilt from the scalar fields; without
      the current schema marker their revision does not count. */
  function Legacy(service: string, host: Host): Instance {
    var status := NumberAt(host.metadata, "status");
    var reversion := NumberAt(host.metadata, "reversion");
    var cpu := FractionAt(host.metadata, "cpu");
    Instance(
      TextAt(host.metadata, "sourceKey"), TextAt(host.metadata, "sourceCluster"),
      TextAt(host.metadata, "instanceId"), "",
      [Some(PortInfo("", "", ToInt32(host.port), 0))], host.ip, "", TextAt(host.metadata, "envType"),
      TextAt(host.metadata, "envGroup"), "", TextAt(host.metadata, "version"), host.enabled,
      TextAt(host.metadata, "state"), "", service, host.cluster, None, "",
      if cpu.Some? then cpu.value else 0.0, 0, 0, "", None,
      TextAt(host.metadata, "idc"),
      if CurrentSchema(host.metadata) && reversion.Some? then reversion.value else 0,
      if status.Some? then status.value else if host.enabled then ONLINE else UNHEALTHY)
  }

  function Reconstruct(service: string, host: Host): Instance {
    var decoded := PayloadAt(host.metadata);
    if CurrentSchema(host.metadata) && decoded.Some? then Overlay(service, host, decoded.value)
    else Legacy(service, host)
  }

  /** Over the SDK a disabled host of an unhealthy instance is drift; a zero revision marks it. */
  function ReconstructForTransport(service: string, host: Host, sdk: bool): Instance {
    var ins := Reconstruct(service, host);
    if sdk && ins.status == UNHEALTHY && !host.enabled then ins.(reversion := 0) else ins
  }

  // ---------------------------------------------------------------- round trip and drift

  predicate Registerable(ins: Instance) { ins.status == ONLINE || ins.status == UNHEALTHY }

  /** The instance has a first port for the wire to carry, and a provider the reader need not guess. */
  predicate WireComplete(ins: Instance) {
    ins.ports != [] && ins.ports[0].Some? && (ins.provider != "" || ClusterOf(ins) == "")
  }

  /** What a reader rebuilds from any host that carries the registered metadata. */
  lemma ReconstructRegistered(ins: Instance, host: Host, sdk: bool)
    requires host.metadata == MetadataOf(ins)
    ensures PayloadAt(host.metadata) ==
      Some(ins.(labels := Some(CopyMap(ins.labels)), images := Some(CopyMap(ins.images))))
    ensures ReconstructForTransport(ins.appCode, host, sdk).status == ins.status
    ensures var read := ReconstructForTransport(ins.appCode, host, sdk);
      CanonicalPayload(read) == CanonicalPayload(ins).(
        ip := host.ip,
        ports := read.ports,
        provider := if ins.provider == "" then host.cluster else ins.provider,
        enabled := if ins.status != UNHEALTHY then host.enabled else ins.enabled,
        reversion := if sdk && ins.status == UNHEALTHY && !host.enabled then 0 else ins.reversion)
    ensures var read := ReconstructForTransport(ins.appCode, host, sdk);
      && |read.ports| >= 1 && read.ports[0].Some? && read.ports[0].value.port == ToInt32(host.port)
      && (read.ports == ins.ports <==>
            ins.ports != [] && ins.ports[0].Some? && ins.ports[0].value.port == ToInt32(host.port))
  {
    assert host.metadata["schemaVersion"] == SCHEMA_VERSION;
    assert host.metadata["spotter.instance"] == Packed(CanonicalPayload(ins));
    assert host.metadata["instanceId"] == Text(ins.instanceId);
    var read := Reconstruct(ins.appCode, host);
    if ins.ports != [] && ins.ports[0].Some? {
      assert ins.ports == [ins.ports[0]] + ins.ports[1..];
    }
    assert read.ports[0].value.port == ToInt32(host.port);
  }

  /** Reading back what a registration wrote gives the instance back, canonically,
      exactly for the wire-complete instances: on those reconcile is at rest. */
  lemma RoundTrip(ins: Instance, sdk: bool)
    requires Registerable(ins)
    ensures EqualNacosReconcile(ins, ReconstructForTransport(ins.appCode, RegisteredHost(ins, sdk), sdk)) <==>
      WireComplete(ins)
  {
    ReconstructRegistered(ins, RegisteredHost(ins, sdk), sdk);
  }

  /** Over the SDK every change of a host's address, port or enabled bit is seen,
      and nothing else is reported: the comparison is exact. */
  lemma DriftIsSeen(ins: Instance, host: Host)
    requires Registerable(ins) && WireComplete(ins) && ins.reversion != 0
    requires host.metadata == MetadataOf(ins) && host.cluster == ClusterOf(ins)
    ensures DiffNacosReconcile(ins, ReconstructForTransport(ins.appCode, host, true)) <==>
      || host.ip != ins.ip
      || (host.port - ins.ports[0].value.port) % 0x1_0000_0000 != 0
      || host.enabled != (ins.status == UNHEALTHY || ins.enabled)
  {
    ReconstructRegistered(ins, host, true);
    PortsWrap(host.port, ins.ports[0].value.port);
  }

  /** Over HTTP the enabled bit of an unhealthy instance is not compared; that is the only blind spot. */
  lemma DriftSeenOverHttp(ins: Instance, host: Host)
    requires Registerable(ins) && WireComplete(ins)
    requires host.metadata == MetadataOf(ins) && host.cluster == ClusterOf(ins)
    ensures DiffNacosReconcile(ins, ReconstructForTransport(ins.appCode, host, false)) <==>
      || host.ip != ins.ip
      || (host.port - ins.ports[0].value.port) % 0x1_0000_0000 != 0
      || (ins.status != UNHEALTHY && host.enabled != ins.enabled)
  {
    ReconstructRegistered(ins, host, false);
    PortsWrap(host.port, ins.ports[0].value.port);
  }

  /** An instance without ports never comes to rest. */
  lemma PortlessIsNotAtRest(ins: Instance, sdk: bool)
    requires Registerable(ins) && ins.ports == []
    ensures DiffNacosReconcile(ins, ReconstructForTransport(ins.appCode, RegisteredHost(ins, sdk), sdk))
  {
    RoundTrip(ins, sdk);
  }

  /** A reader files what it rebuilt under the cluster it was read from. */
  lemma ReconstructedCluster(ins: Instance, sdk: bool)
    requires ins.provider != ""
    ensures ClusterOf(ReconstructForTransport(ins.appCode, RegisteredHost(ins, sdk), sdk)) == ClusterOf(ins)
  {
    ReconstructRegistered(ins, RegisteredHost(ins, sdk), sdk);
  }

  /** The payload of a host counts iff both schema markers are current. Then it decides every field but the
      location, the first port, and the enabled bit of an instance that is not unhealthy; a missing provider
      and a missing wire id come from the host. */
  lemma PayloadWins(service: string, host: Host, p: Payload)
    requires "spotter.instance" in host.metadata && host.metadata["spotter.instance"] == Packed(p)
    requires "schemaVersion" in host.metadata && host.metadata["schemaVersion"] == Text("1") && p.schemaVersion == 1
    ensures var read := Reconstruct(service, host);
      CanonicalPayload(read) == p.(
        appCode := service,
        ip := host.ip,
        ports := read.ports,
        provider := if p.provider == "" then host.cluster else p.provider,
        enabled := if p.status == UNHEALTHY then p.enabled else host.enabled,
        instanceId := if p.instanceId != "" then p.instanceId else TextAt(host.metadata, "instanceId"))
    ensures var read := Reconstruct(service, host);
      && |read.ports| == (if p.ports == [] then 1 else |p.ports|)
      && (forall i :: 1 <= i < |read.ports| ==> read.ports[i] == p.ports[i])
      && read.ports[0].Some? && (host.port - read.ports[0].value.port) % 0x1_0000_0000 == 0
      && read.ports[0].value.(port := 0) ==
           (if p.ports != [] && p.ports[0].Some? then p.ports[0].value.(port := 0) else PortInfo("", "", 0, 0))
  {
    PortsWrap(host.port, ToInt32(host.port));
  }

  /** A payload of another version is not read. */
  lemma OtherPayloadIsNotRead(service: string, host: Host, p: Payload)
    requires "spotter.instance" in host.metadata && host.metadata["spotter.instance"] == Packed(p)
    requires p.schemaVersion != 1
    ensures Reconstruct(service, host) ==
      Reconstruct(service, host.(metadata := host.metadata - {"spotter.instance"}))
  {
    var less := host.metadata - {"spotter.instance"};
    assert forall name :: name in host.metadata && name != "spotter.instance" ==>
      name in less && less[name] == host.metadata[name];
    assert PayloadAt(less).None? && PayloadAt(host.metadata).None?;
  }

  // ---------------------------------------------------------------- hosts without a readable payload

  /** Taking one entry out of a map leaves the others. */
  lemma EntryStays(m: Metadata, less: Metadata, name: string, gone: string)
    requires less == m - {gone} && name in m && name != gone
    ensures name in less && less[name] == m[name]
  {
  }

  lemma ScalarTexts(ins: Instance, m: Metadata)
    requires m == MetadataOf(ins) - {"spotter.instance"}
    ensures TextAt(m, "sourceKey") == ins.sourceKey && TextAt(m, "sourceCluster") == ins.sourceCluster
    ensures TextAt(m, "instanceId") == ins.instanceId && TextAt(m, "envType") == ins.envType
    ensures TextAt(m, "envGroup") == ins.envGroup && TextAt(m, "version") == ins.version
    ensures TextAt(m, "state") == ins.state && TextAt(m, "idc") == ins.idc
  {
    EntryStays(MetadataOf(ins), m, "sourceKey", "spotter.instance");
    EntryStays(MetadataOf(ins), m, "sourceCluster", "spotter.instance");
    EntryStays(MetadataOf(ins), m, "instanceId", "spotter.instance");
    EntryStays(MetadataOf(ins), m, "envType", "spotter.instance");
  }

  lemma ScalarNumbers(ins: Instance, m: Metadata)
    requires m == MetadataOf(ins) - {"spotter.instance"}
    ensures CurrentSchema(m) && PayloadAt(m).None?
    ensures NumberAt(m, "reversion") == Some(ins.reversion) && NumberAt(m, "status") == Some(ins.status)
    ensures FractionAt(m, "cpu") == Some(ins.cpu)
  {
    EntryStays(MetadataOf(ins), m, "schemaVersion", "spotter.instance");
  }

  /** The scalar entries of a registration give the compared fields back even when its payload cannot
      be read; location, port and enabled bit are the host's, and the cluster name stands in for the provider. */
  lemma ScalarsReadBack(ins: Instance, service: string, host: Host)
    requires host.metadata == MetadataOf(ins) - {"spotter.instance"}
    ensures var read := Reconstruct(service, host);
      && read.sourceKey == ins.sourceKey && read.sourceCluster == ins.sourceCluster
      && read.instanceId == ins.instanceId && read.envType == ins.envType && read.envGroup == ins.envGroup
      && read.version == ins.version && read.state == ins.state && read.idc == ins.idc && read.cpu == ins.cpu
      && read.reversion == ins.reversion && read.status == ins.status
    ensures var read := Reconstruct(service, host);
      && read.appCode == service && read.ip == host.ip && read.provider == host.cluster && read.enabled == host.enabled
      && |read.ports| == 1 && read.ports[0].Some? && (host.port - read.ports[0].value.port) % 0x1_0000_0000 == 0
      && read.cluster == "" && read.level == "" && read.envCode == "" && read.healthState == "" && read.hostname == ""
      && read.os == "" && read.memory == 0 && read.disk == 0 && read.labels.None? && read.images.None?
  {
    ScalarTexts(ins, host.metadata);
    ScalarNumbers(ins, host.metadata);
    PortsWrap(host.port, ToInt32(host.port));
  }

  /** The status entry decides, and without one the enabled bit: enabled hosts are online, others unhealthy. */
  lemma StatusOfUnreadable(service: string, host: Host)
    requires "spotter.instance" !in host.metadata
    ensures "status" in host.metadata && host.metadata["status"].Num? ==>
      Reconstruct(service, host).status == host.metadata["status"].n
    ensures "status" !in host.metadata ==>
      Reconstruct(service, host).status == if host.enabled then ONLINE else UNHEALTHY
  {
  }

  /** A host another writer left, without the current schema marker, is seen as drift by every instance
      that has a revision, and so is published again. */
  lemma OtherSchemaIsRepublished(ins: Instance, service: string, host: Host, sdk: bool)
    requires "schemaVersion" !in host.metadata || host.metadata["schemaVersion"] != Text("1")
    requires ins.reversion != 0
    ensures DiffNacosReconcile(ins, ReconstructForTransport(service, host, sdk))
  {
    assert CanonicalPayload(ReconstructForTransport(service, host, sdk)).reversion == 0;
  }

  // ---------------------------------------------------------------- composite ids

  /** Where a host lives: what the composite id is made of, within one group. */
  datatype Loc = Loc(service: string, cluster: string, ip: string, port: int)

  function LocOf(ins: Instance): Loc {
    Loc(ins.appCode, ClusterOf(ins), ins.ip, FirstPort(ins))
  }

  function Digits(n: nat): string {
    if n < 10 then [(n as char) + '0'] else Digits(n / 10) + [((n % 10) as char) + '0']
  }

  function Decimal(n: int): string {
    if n < 0 then "-" + Digits(-n) else Digits(n)
  }

  /** ip#port#cluster#group@@service */
  function CompositeId(loc: Loc, group: string): string {
    loc.ip + "#" + (Decimal(loc.port) + "#" + (loc.cluster + "#" + (group + "@@" + loc.service)))
  }

  lemma {:induction false} DigitsInjective(m: nat, n: nat)
    requires Digits(m) == Digits(n)
    ensures m == n
  {
    if m < 10 && n < 10 {
      assert Digits(m)[0] == Digits(n)[0];
    } else {
      DigitsShape(m / 10);
      DigitsShape(n / 10);
      if m >= 10 && n >= 10 {
        var last := |Digits(m)| - 1;
        assert Digits(m)[..last] == Digits(m / 10) && Digits(n)[..last] == Digits(n / 10);
        assert Digits(m)[last] == Digits(n)[last];
        DigitsInjective(m / 10, n / 10);
      }
    }
  }

  lemma {:induction false} DigitsShape(n: nat)
    ensures Digits(n) != []
    ensures forall c :: c in Digits(n) ==> '0' <= c <= '9'
  {
    if n >= 10 {
      DigitsShape(n / 10);
    }
  }

  lemma DecimalInjective(m: int, n: int)
    requires Decimal(m) == Decimal(n)
    ensures m == n
  {
    DigitsShape(if m < 0 then -m else m);
    DigitsShape(if n < 0 then -n else n);
    assert Decimal(m)[0] in Decimal(m) && Decimal(n)[0] in Decimal(n);
    assert (m < 0 <==> Decimal(m)[0] == '-') && (n < 0 <==> Decimal(n)[0] == '-');
    if m < 0 {
      assert Decimal(m)[1..] == Digits(-m) && Decimal(n)[1..] == Digits(-n);
      DigitsInjective(-m, -n);
    } else {
      DigitsInjective(m, n);
    }
  }

  /** Two texts cut at their first hash agree on both sides of it. */
  lemma {:induction false} HashSplits(a: string, x: string, b: string, y: string)
    requires '#' !in a && '#' !in b && a + ("#" + x) == b + ("#" + y)
    ensures a == b && x == y
  {
    assert (a + ("#" + x))[|a|] == '#' && (b + ("#" + y))[|b|] == '#';
    assert |a| == |b|;
    assert a == (a + ("#" + x))[..|a|] && b == (b + ("#" + y))[..|b|];
    assert x == (a + ("#" + x))[|a| + 1..] && y == (b + ("#" + y))[|b| + 1..];
  }

  /** Two texts that agree behind a '#'-free head agree in the head and behind the '#'. */
  lemma HeadsAgree(a: string, restA: string, b: string, restB: string)
    requires '#' !in a && '#' !in b && a + "#" + restA == b + "#" + restB
    ensures a == b && restA == restB
  {
    assert a + "#" + restA == a + ("#" + restA) && b + "#" + restB == b + ("#" + restB);
    HashSplits(a, restA, b, restB);
  }

  function PortPart(l: Loc, group: string): string { Decimal(l.port) + "#" + ClusterPart(l, group) }

  function ClusterPart(l: Loc, group: string): string { l.cluster + "#" + (group + "@@" + l.service) }

  lemma CompositeParts(l: Loc, group: string)
    ensures CompositeId(l, group) == l.ip + "#" + PortPart(l, group)
  {
  }

  /** Addresses and clusters free of '#' make the composite id an identity: every
      sanitised cluster is, so only a raw provider name or address could break it. */
  lemma CompositeIdInjective(a: Loc, b: Loc, group: string)
    requires '#' !in a.ip && '#' !in b.ip && '#' !in a.cluster && '#' !in b.cluster
    requires CompositeId(a, group) == CompositeId(b, group)
    ensures a == b
  {
    CompositeParts(a, group);
    CompositeParts(b, group);
    HeadsAgree(a.ip, PortPart(a, group), b.ip, PortPart(b, group));
    DecimalHasNoHash(a.port);
    DecimalHasNoHash(b.port);
    HeadsAgree(Decimal(a.port), ClusterPart(a, group), Decimal(b.port), ClusterPart(b, group));
    DecimalInjective(a.port, b.port);
    HeadsAgree(a.cluster, group + "@@" + a.service, b.cluster, group + "@@" + b.service);
    SameTail(group + "@@", a.service, b.service);
  }

  lemma SameTail(head: string, a: string, b: string)
    requires head + a == head + b
    ensures a == b
  {
    assert a == (head + a)[|head|..] && b == (head + b)[|head|..];
  }

  lemma DecimalHasNoHash(n: int)
    ensures '#' !in Decimal(n)
  {
    DigitsShape(if n < 0 then -n else n);
  }

  lemma SanitizedHasNoHash(s: string)
    ensures '#' !in Sanitized(s)
  {
    SanitizedShape(s);
  }
}

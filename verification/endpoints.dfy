/** The endpoint checks of the configuration (src/config.rs), proved against what listeners and targets mean as sets
    of addresses. The textual form of an IP address belongs to Rust's standard library and is the parameter `parse`. */
module Endpoints {
  import opened Wrappers

  const TWO_32: nat := 0x1_0000_0000
  const TWO_128: nat := 0x1_0000_0000_0000_0000_0000_0000_0000_0000

  type port = p: nat | p < 65536
  type word = w: nat | w < TWO_32
  type quad = q: nat | q < TWO_128

  // ---- Addresses

  datatype IpAddr = V4(bits4: word) | V6(bits6: quad) {
    predicate IsUnspecified() {
      this == V4(0) || this == V6(0)
    }

    predicate IsMulticast() {
      if V4? then 224 <= bits4 / 0x100_0000 < 240
      else bits6 / 0x100_0000_0000_0000_0000_0000_0000_0000 == 0xff
    }

    /** The address as a node of the IPv6 address space (section 2.5.5.2 of RFC 4291). */
    function Node(): nat {
      if V4? then 0xffff * TWO_32 + bits4 else bits6
    }

    /** `canonicalize_ip`. */
    function Canonical(): IpAddr {
      if V6? && bits6 / TWO_32 == 0xffff then V4(bits6 % TWO_32) else this
    }
  }

  predicate SameIpFamily(left: IpAddr, right: IpAddr) {
    left.V4? == right.V4?
  }

  /** Canonical addresses are equal exactly if the addresses name the same node. */
  lemma CanonicalMeansSameNode(left: IpAddr, right: IpAddr)
    ensures left.Canonical() == right.Canonical() <==> left.Node() == right.Node()
    ensures left.Canonical().Node() == left.Node()
    ensures left.Canonical().Canonical() == left.Canonical()
  {
  }

  // ---- The fields of the configuration

  datatype ListenerSchema = ListenerSchema(address: string, port: port)
  datatype TargetSchema = TargetSchema(host: string, port: port)
  datatype RconSchema = RconSchema(host: string, port: port, passwordEnv: string)
  datatype ServerSchema = ServerSchema(listener: ListenerSchema, backend: TargetSchema, rcon: Option<RconSchema>)

  type Parser = string -> Option<IpAddr>

  datatype CanonicalHost = Ip(address: IpAddr) | Dns(name: string)
  datatype ListenerRecord = ListenerRecord(address: IpAddr, port: port)
  datatype TargetRecord = TargetRecord(host: CanonicalHost, port: port)

  predicate StartsWith(s: string, c: char) {
    s != [] && s[0] == c
  }

  predicate EndsWith(s: string, c: char) {
    s != [] && s[|s| - 1] == c
  }

  predicate IsAsciiAlphabetic(c: char) {
    'a' <= c <= 'z' || 'A' <= c <= 'Z'
  }

  predicate IsAsciiAlphanumeric(c: char) {
    IsAsciiAlphabetic(c) || '0' <= c <= '9'
  }

  predicate IsAsciiWhitespace(c: char) {
    c == ' ' || c == '\t' || c == '\n' || c == '\r' || c as int == 12
  }

  function LowerChar(c: char): char {
    if 'A' <= c <= 'Z' then c + 32 as char else c
  }

  function Lower(s: string): (r: string)
    ensures |r| == |s| && forall i :: 0 <= i < |s| ==> r[i] == LowerChar(s[i])
  {
    seq(|s|, i requires 0 <= i < |s| => LowerChar(s[i]))
  }

  // ---- Hostnames

  /** 1 to 63 ASCII letters, digits and hyphens, without a hyphen at either end. */
  predicate IsLabel(part: string) {
    && 1 <= |part| <= 63
    && (forall i :: 0 <= i < |part| ==>
          'a' <= part[i] <= 'z' || 'A' <= part[i] <= 'Z' || '0' <= part[i] <= '9' || part[i] == '-')
    && part[0] != '-' && part[|part| - 1] != '-'
  }

  /** `split('.')`. */
  function Split(host: string): (labels: seq<string>)
    ensures labels != []
  {
    if host == [] then [[]]
    else
      var rest := Split(host[1..]);
      if host[0] == '.' then [[]] + rest else [[host[0]] + rest[0]] + rest[1..]
  }

  function Join(labels: seq<string>): string
    requires labels != []
  {
    if |labels| == 1 then labels[0] else labels[0] + ['.'] + Join(labels[1..])
  }

  lemma {:induction false} SplitJoins(host: string)
    ensures Join(Split(host)) == host
  {
    if host != [] {
      SplitJoins(host[1..]);
      var rest := Split(host[1..]);
      if host[0] == '.' {
        assert ([[]] + rest)[1..] == rest;
      } else {
        assert ([[host[0]] + rest[0]] + rest[1..])[1..] == rest[1..];
      }
    }
  }

  lemma {:induction false} SplitWord(word: string)
    requires '.' !in word
    ensures Split(word) == [word]
  {
    if word != [] {
      SplitWord(word[1..]);
      assert [word[0]] + word[1..] == word;
    }
  }

  lemma {:induction false} SplitFirst(word: string, rest: string)
    requires '.' !in word
    ensures Split(word + ['.'] + rest) == [word] + Split(rest)
    decreases |word|
  {
    var host := word + ['.'] + rest;
    if word == [] {
      assert host[1..] == rest;
    } else {
      SplitFirst(word[1..], rest);
      assert host[1..] == word[1..] + ['.'] + rest;
      assert [word[0]] + word[1..] == word;
    }
  }

  lemma {:induction false} JoinSplits(labels: seq<string>)
    requires labels != [] && forall part <- labels :: '.' !in part
    ensures Split(Join(labels)) == labels
  {
    if |labels| == 1 {
      SplitWord(labels[0]);
    } else {
      JoinSplits(labels[1..]);
      SplitFirst(labels[0], Join(labels[1..]));
      assert [labels[0]] + labels[1..] == labels;
    }
  }

  /** A portable hostname: labels joined by dots, without one at the end. */
  ghost predicate IsHostname(host: string) {
    && |host| <= 253
    && exists labels: seq<string> ::
         labels != [] && (forall part <- labels :: IsLabel(part)) && host == Join(labels)
  }

  predicate HostnameAccepted(host: string) {
    |host| <= 253 && !EndsWith(host, '.') && forall part <- Split(host) :: IsLabel(part)
  }

  lemma {:induction false} JoinEnds(labels: seq<string>)
    requires labels != [] && forall part <- labels :: IsLabel(part)
    ensures Join(labels) != [] && !EndsWith(Join(labels), '.')
  {
    assert IsLabel(labels[0]);
    if |labels| > 1 {
      JoinEnds(labels[1..]);
    }
  }

  /** The check of the labels accepts exactly the portable hostnames. */
  lemma HostnamesAreAccepted(host: string)
    ensures HostnameAccepted(host) <==> IsHostname(host)
  {
    SplitJoins(host);
    if IsHostname(host) {
      var labels :| labels != [] && (forall part <- labels :: IsLabel(part)) && host == Join(labels);
      JoinEnds(labels);
      JoinSplits(labels);
    }
  }

  method ValidateLabel(part: string) returns (ok: bool)
    ensures ok <==> IsLabel(part)
  {
    if !(1 <= |part| <= 63) {
      return false;
    }
    for i := 0 to |part|
      invariant forall k :: 0 <= k < i ==> IsAsciiAlphanumeric(part[k]) || part[k] == '-'
    {
      if !IsAsciiAlphanumeric(part[i]) && part[i] != '-' {
        return false;
      }
    }
    ok := IsAsciiAlphanumeric(part[0]) && IsAsciiAlphanumeric(part[|part| - 1]);
  }

  method ValidateHostname(host: string) returns (ok: bool)
    ensures ok <==> IsHostname(host)
  {
    HostnamesAreAccepted(host);
    if |host| > 253 || EndsWith(host, '.') {
      return false;
    }
    var labels := Split(host);
    for i := 0 to |labels|
      invariant forall k :: 0 <= k < i ==> IsLabel(labels[k])
    {
      var fine := ValidateLabel(labels[i]);
      if !fine {
        return false;
      }
    }
    ok := true;
  }

  // ---- One field

  const ANY_V4_NODE: nat := 0xffff * TWO_32

  /** The IPv6 multicast block, and the mapped IPv4 one. */
  predicate IsMulticastNode(node: nat) {
    || node >= 0xff * 0x100_0000_0000_0000_0000_0000_0000_0000
    || ANY_V4_NODE + 0xe000_0000 <= node < ANY_V4_NODE + 0xf000_0000
  }

  /** An unbracketed IP literal, and a port other than zero. */
  predicate ListenerIsValid(listener: ListenerSchema, parse: Parser) {
    && listener.port != 0
    && (listener.address != "" ==> listener.address[0] != '[' && listener.address[|listener.address| - 1] != ']')
    && parse(listener.address).Some?
  }

  method ValidateListener(listener: ListenerSchema, parse: Parser) returns (r: Option<IpAddr>)
    ensures r.Some? <==> ListenerIsValid(listener, parse)
    ensures r.Some? ==> r.value == parse(listener.address).value.Canonical()
  {
    if listener.port == 0 || StartsWith(listener.address, '[') || EndsWith(listener.address, ']') {
      return None;
    }
    var parsed := parse(listener.address);
    r := if parsed.Some? then Some(parsed.value.Canonical()) else None;
  }

  /** A port other than zero, and either the number of one node, in whatever form it is written, or a portable
      hostname; in ASCII without white space or brackets. */
  ghost predicate TargetIsValid(target: TargetSchema, parse: Parser) {
    && target.port != 0 && target.host != ""
    && (forall i :: 0 <= i < |target.host| ==>
          target.host[i] as int < 128 && target.host[i] !in {' ', '\t', '\n', '\r', 12 as char})
    && target.host[0] != '[' && target.host[|target.host| - 1] != ']'
    && match parse(target.host)
       case Some(address) => address.Node() !in {0, ANY_V4_NODE} && !IsMulticastNode(address.Node())
       case None => IsHostname(target.host)
  }

  /** The host as it is compared: the node's number in one form, or the name in lower case. */
  function HostOf(host: string, parse: Parser): CanonicalHost {
    match parse(host)
    case Some(address) => Ip(address.Canonical())
    case None => Dns(Lower(host))
  }

  method ValidateTarget(target: TargetSchema, parse: Parser) returns (r: Option<CanonicalHost>)
    ensures r.Some? <==> TargetIsValid(target, parse)
    ensures r.Some? ==> r.value == HostOf(target.host, parse)
  {
    var host := target.host;
    if target.port == 0 || host == "" {
      return None;
    }
    for i := 0 to |host|
      invariant forall k :: 0 <= k < i ==> host[k] as int < 128 && !IsAsciiWhitespace(host[k])
    {
      if host[i] as int >= 128 || IsAsciiWhitespace(host[i]) {
        return None;
      }
    }
    if StartsWith(host, '[') || EndsWith(host, ']') {
      return None;
    }
    match parse(host) {
      case Some(parsed) =>
        UsableMeansNode(parsed);
        var address := parsed.Canonical();
        r := if address.IsUnspecified() || address.IsMulticast() then None else Some(Ip(address));
      case None =>
        var portable := ValidateHostname(host);
        r := if portable then Some(Dns(Lower(host))) else None;
    }
  }

  lemma UsableMeansNode(address: IpAddr)
    ensures address.Canonical().IsUnspecified() <==> address.Node() in {0, ANY_V4_NODE}
    ensures address.Canonical().IsMulticast() <==> IsMulticastNode(address.Node())
  {
  }

  /** `[A-Za-z_][A-Za-z0-9_]*`. */
  predicate IsEnvironmentName(name: string) {
    && name != ""
    && (forall i :: 0 <= i < |name| ==>
          'a' <= name[i] <= 'z' || 'A' <= name[i] <= 'Z' || '0' <= name[i] <= '9' || name[i] == '_')
    && !('0' <= name[0] <= '9')
  }

  method ValidateEnvironmentName(name: string) returns (ok: bool)
    ensures ok <==> IsEnvironmentName(name)
  {
    if name == "" || !(IsAsciiAlphabetic(name[0]) || name[0] == '_') {
      return false;
    }
    for i := 1 to |name|
      invariant forall k :: 0 <= k < i ==> IsAsciiAlphanumeric(name[k]) || name[k] == '_'
    {
      if !(IsAsciiAlphanumeric(name[i]) || name[i] == '_') {
        return false;
      }
    }
    ok := true;
  }

  ghost predicate ServerValid(server: ServerSchema, parse: Parser) {
    && ListenerIsValid(server.listener, parse)
    && TargetIsValid(server.backend, parse)
    && (server.rcon.Some? ==>
          && TargetIsValid(TargetSchema(server.rcon.value.host, server.rcon.value.port), parse)
          && IsEnvironmentName(server.rcon.value.passwordEnv))
  }

  function ListenerOf(server: ServerSchema, parse: Parser): ListenerRecord
    requires ListenerIsValid(server.listener, parse)
  {
    ListenerRecord(parse(server.listener.address).value.Canonical(), server.listener.port)
  }

  function TargetOf(target: TargetSchema, parse: Parser): TargetRecord {
    TargetRecord(HostOf(target.host, parse), target.port)
  }

  function TargetsOf(server: ServerSchema, parse: Parser): seq<TargetRecord> {
    [TargetOf(server.backend, parse)]
    + match server.rcon
      case None => []
      case Some(rcon) => [TargetOf(TargetSchema(rcon.host, rcon.port), parse)]
  }

  ghost predicate FieldsValid(servers: seq<ServerSchema>, parse: Parser) {
    forall i :: 0 <= i < |servers| ==> ServerValid(servers[i], parse)
  }

  function Targets(servers: seq<ServerSchema>, parse: Parser): (r: seq<TargetRecord>) {
    if servers == [] then []
    else
      var n := |servers| - 1;
      Targets(servers[..n], parse) + TargetsOf(servers[n], parse)
  }

  // ---- The targets of a configuration, by their place in it

  datatype Place = Backend(server: nat) | Remote(server: nat)

  /** Every server has a backend, and one with RCON a second target. */
  predicate Configured(servers: seq<ServerSchema>, p: Place) {
    p.server < |servers| && (p.Remote? ==> servers[p.server].rcon.Some?)
  }

  function TargetAt(servers: seq<ServerSchema>, p: Place): TargetSchema
    requires Configured(servers, p)
  {
    match p
    case Backend(i) => servers[i].backend
    case Remote(i) => TargetSchema(servers[i].rcon.value.host, servers[i].rcon.value.port)
  }

  function PlaceOf(servers: seq<ServerSchema>, parse: Parser, k: nat): (p: Place)
    requires k < |Targets(servers, parse)|
    ensures Configured(servers, p)
  {
    var n := |servers| - 1;
    var before := |Targets(servers[..n], parse)|;
    if k < before then PlaceOf(servers[..n], parse, k) else if k == before then Backend(n) else Remote(n)
  }

  function IndexOf(servers: seq<ServerSchema>, parse: Parser, p: Place): nat
    requires Configured(servers, p)
  {
    var n := |servers| - 1;
    if p.server < n then IndexOf(servers[..n], parse, p)
    else |Targets(servers[..n], parse)| + (if p.Backend? then 0 else 1)
  }

  /** The list holds each configured target once. */
  lemma {:induction false} TargetsAreConfigured(servers: seq<ServerSchema>, parse: Parser, k: nat)
    requires k < |Targets(servers, parse)|
    ensures Targets(servers, parse)[k] == TargetOf(TargetAt(servers, PlaceOf(servers, parse, k)), parse)
    ensures IndexOf(servers, parse, PlaceOf(servers, parse, k)) == k
  {
    var n := |servers| - 1;
    if k < |Targets(servers[..n], parse)| {
      TargetsAreConfigured(servers[..n], parse, k);
    }
  }

  lemma {:induction false} ConfiguredAreTargets(servers: seq<ServerSchema>, parse: Parser, p: Place)
    requires Configured(servers, p)
    ensures IndexOf(servers, parse, p) < |Targets(servers, parse)|
    ensures PlaceOf(servers, parse, IndexOf(servers, parse, p)) == p
  {
    var n := |servers| - 1;
    if p.server < n {
      ConfiguredAreTargets(servers[..n], parse, p);
    }
  }

  // ---- What endpoints mean

  datatype Socket = Socket(address: IpAddr, port: port)

  /** One answer for each name that resolves. */
  type Resolution = map<string, IpAddr>

  /** A listener receives what is sent to its own address, and a wildcard what is sent to any of its family. */
  predicate Covers(listener: ListenerRecord, socket: Socket) {
    && socket.port == listener.port
    && (socket.address == listener.address
        || (listener.address.IsUnspecified() && SameIpFamily(listener.address, socket.address)))
  }

  /** Where a target leads. */
  function Reached(target: TargetRecord, dns: Resolution): Option<Socket> {
    match target.host
    case Ip(address) => Some(Socket(address, target.port))
    case Dns(name) => if name in dns then Some(Socket(dns[name].Canonical(), target.port)) else None
  }

  /** Some address and port belong to both listeners. */
  ghost predicate Overlap(left: ListenerRecord, right: ListenerRecord) {
    exists socket: Socket :: Covers(left, socket) && Covers(right, socket)
  }

  /** Whatever the names resolve to, both targets lead to the same place. */
  ghost predicate AlwaysSame(left: TargetRecord, right: TargetRecord) {
    forall dns: Resolution :: Reached(left, dns) == Reached(right, dns)
  }

  /** Under some resolution the target leads to the listener. */
  ghost predicate MayReach(target: TargetRecord, listener: ListenerRecord) {
    exists dns: Resolution :: Reached(target, dns).Some? && Covers(listener, Reached(target, dns).value)
  }

  /** The one case that is refused although, by `Covers`, the target does not lead to the listener: a numeric target of
      one family and a wildcard of the other. `Covers` takes a wildcard to stand for its own family only, as the
      comparison of two listeners does; a dual-stack socket on the IPv6 wildcard receives IPv4 as well, so that for it
      the refusal is not too strict. */
  predicate CrossFamilyWildcard(target: TargetRecord, listener: ListenerRecord) {
    && target.port == listener.port && target.host.Ip?
    && listener.address.IsUnspecified() && !SameIpFamily(listener.address, target.host.address)
  }

  /** Every field is valid; no two listeners overlap, no two targets are always the same, and no target may reach a
      listener. */
  ghost predicate Acceptable(servers: seq<ServerSchema>, parse: Parser) {
    && FieldsValid(servers, parse)
    && (forall i, j :: 0 <= i < j < |servers| ==>
          !Overlap(ListenerOf(servers[i], parse), ListenerOf(servers[j], parse)))
    && (forall p, q :: Configured(servers, p) && Configured(servers, q) && p != q ==>
          !AlwaysSame(TargetOf(TargetAt(servers, p), parse), TargetOf(TargetAt(servers, q), parse)))
    && (forall p, j :: Configured(servers, p) && 0 <= j < |servers| ==>
          && !MayReach(TargetOf(TargetAt(servers, p), parse), ListenerOf(servers[j], parse))
          && !CrossFamilyWildcard(TargetOf(TargetAt(servers, p), parse), ListenerOf(servers[j], parse)))
  }

  // ---- The comparisons the code makes

  predicate ListenersConflict(left: ListenerRecord, right: ListenerRecord) {
    && left.port == right.port
    && (left.address == right.address
        || (left.address.IsUnspecified() && SameIpFamily(left.address, right.address))
        || (right.address.IsUnspecified() && SameIpFamily(left.address, right.address)))
  }

  predicate TargetsConflict(left: TargetRecord, right: TargetRecord) {
    left.port == right.port && left.host == right.host
  }

  predicate TargetMeetsListener(target: TargetRecord, listener: ListenerRecord) {
    && target.port == listener.port
    && match target.host
       case Dns(_) => true
       case Ip(address) => address == listener.address || listener.address.IsUnspecified()
  }

  lemma ListenerConflictsOverlap(left: ListenerRecord, right: ListenerRecord)
    ensures ListenersConflict(left, right) <==> Overlap(left, right)
  {
    if ListenersConflict(left, right) {
      var address := if left.address.IsUnspecified() then right.address else left.address;
      assert Covers(left, Socket(address, left.port)) && Covers(right, Socket(address, left.port));
    }
  }

  lemma TargetConflictsAreAlwaysSame(left: TargetRecord, right: TargetRecord)
    ensures TargetsConflict(left, right) <==> AlwaysSame(left, right)
  {
    if AlwaysSame(left, right) {
      var nothing: Resolution := map[];
      assert Reached(left, nothing) == Reached(right, nothing);
      if left.host.Dns? && right.host.Dns? {
        var leftOnly: Resolution := map[left.host.name := V4(1)];
        assert Reached(left, leftOnly) == Reached(right, leftOnly);
      }
    }
  }

  /** The same character, or the same ASCII letter in both cases. */
  predicate SameLetter(a: char, b: char) {
    || a == b
    || ('A' <= a <= 'Z' && b as int == a as int + 32)
    || ('A' <= b <= 'Z' && a as int == b as int + 32)
  }

  predicate EqualIgnoringCase(left: string, right: string) {
    |left| == |right| && forall i :: 0 <= i < |left| ==> SameLetter(left[i], right[i])
  }

  /** As configured, two targets conflict exactly if they have the same port and either name the same node by
      number or are the same name up to case. */
  lemma ConfiguredTargetsConflict(left: TargetSchema, right: TargetSchema, parse: Parser)
    ensures TargetsConflict(TargetOf(left, parse), TargetOf(right, parse)) <==>
      && left.port == right.port
      && match (parse(left.host), parse(right.host))
         case (Some(a), Some(b)) => a.Node() == b.Node()
         case (None, None) => EqualIgnoringCase(left.host, right.host)
         case _ => false
  {
    match (parse(left.host), parse(right.host))
    case (Some(a), Some(b)) => CanonicalMeansSameNode(a, b);
    case (None, None) =>
      if EqualIgnoringCase(left.host, right.host) {
        assert Lower(left.host) == Lower(right.host);
      } else if |left.host| == |right.host| {
        var i :| 0 <= i < |left.host| && !SameLetter(left.host[i], right.host[i]);
        assert Lower(left.host)[i] != Lower(right.host)[i];
      }
    case _ =>
  }

  lemma TargetMeetingsReach(target: TargetRecord, listener: ListenerRecord)
    requires listener.address.Canonical() == listener.address
    ensures TargetMeetsListener(target, listener) <==> MayReach(target, listener) || CrossFamilyWildcard(target, listener)
  {
    if TargetMeetsListener(target, listener) && !CrossFamilyWildcard(target, listener) {
      var dns: Resolution := if target.host.Dns? then map[target.host.name := listener.address] else map[];
      assert Reached(target, dns).Some? && Covers(listener, Reached(target, dns).value);
    }
  }

  lemma ListenerIsCanonical(server: ServerSchema, parse: Parser)
    requires ListenerIsValid(server.listener, parse)
    ensures ListenerOf(server, parse).address.Canonical() == ListenerOf(server, parse).address
  {
  }

  /** The wildcard rules differ: two listeners conflict through a wildcard only within one family, a target and a
      listener across families too. */
  lemma WildcardRulesDiffer(port: port)
    ensures
      var anyV4 := ListenerRecord(V4(0), port);
      var v6 := V6(1);
      && !ListenersConflict(anyV4, ListenerRecord(v6, port))
      && TargetMeetsListener(TargetRecord(Ip(v6), port), anyV4)
      && !MayReach(TargetRecord(Ip(v6), port), anyV4)
  {
  }

  // ---- The check

  method CollectEndpoints(servers: seq<ServerSchema>, parse: Parser)
    returns (r: Result<(seq<ListenerRecord>, seq<TargetRecord>)>)
    ensures r.Ok? <==> FieldsValid(servers, parse)
    ensures r.Ok? ==>
      && |r.value.0| == |servers| && (forall i :: 0 <= i < |servers| ==> r.value.0[i] == ListenerOf(servers[i], parse))
      && r.value.1 == Targets(servers, parse)
  {
    hide ListenerIsValid, TargetIsValid, IsEnvironmentName;
    var listeners: seq<ListenerRecord> := [];
    var targets: seq<TargetRecord> := [];
    for i := 0 to |servers|
      invariant forall k :: 0 <= k < i ==> ServerValid(servers[k], parse)
      invariant |listeners| == i && forall k :: 0 <= k < i ==> listeners[k] == ListenerOf(servers[k], parse)
      invariant targets == Targets(servers[..i], parse)
    {
      var server := servers[i];
      assert servers[..i + 1][..i] == servers[..i] && servers[..i + 1][i] == server;
      var address := ValidateListener(server.listener, parse);
      if address.None? {
        return Err;
      }
      listeners := listeners + [ListenerRecord(address.value, server.listener.port)];
      var host := ValidateTarget(server.backend, parse);
      if host.None? {
        return Err;
      }
      targets := targets + [TargetRecord(host.value, server.backend.port)];
      if server.rcon.Some? {
        var rcon := server.rcon.value;
        var rconHost := ValidateTarget(TargetSchema(rcon.host, rcon.port), parse);
        if rconHost.None? {
          return Err;
        }
        targets := targets + [TargetRecord(rconHost.value, rcon.port)];
        var named := ValidateEnvironmentName(rcon.passwordEnv);
        if !named {
          return Err;
        }
      }
    }
    assert servers[..|servers|] == servers;
    r := Ok((listeners, targets));
  }

  method ListenersAreApart(listeners: seq<ListenerRecord>) returns (ok: bool)
    ensures ok <==> forall i, j :: 0 <= i < j < |listeners| ==> !Overlap(listeners[i], listeners[j])
  {
    hide Overlap;
    for i := 0 to |listeners|
      invariant forall k, j :: 0 <= k < i && k < j < |listeners| ==> !Overlap(listeners[k], listeners[j])
    {
      for j := i + 1 to |listeners|
        invariant forall k :: i < k < j ==> !Overlap(listeners[i], listeners[k])
      {
        ListenerConflictsOverlap(listeners[i], listeners[j]);
        if ListenersConflict(listeners[i], listeners[j]) {
          return false;
        }
      }
    }
    ok := true;
  }

  method TargetsDiffer(targets: seq<TargetRecord>) returns (ok: bool)
    ensures ok <==> forall i, j :: 0 <= i < j < |targets| ==> !AlwaysSame(targets[i], targets[j])
  {
    hide AlwaysSame;
    for i := 0 to |targets|
      invariant forall k, j :: 0 <= k < i && k < j < |targets| ==> !AlwaysSame(targets[k], targets[j])
    {
      for j := i + 1 to |targets|
        invariant forall k :: i < k < j ==> !AlwaysSame(targets[i], targets[k])
      {
        TargetConflictsAreAlwaysSame(targets[i], targets[j]);
        if TargetsConflict(targets[i], targets[j]) {
          return false;
        }
      }
    }
    ok := true;
  }

  method TargetsMissListeners(targets: seq<TargetRecord>, listeners: seq<ListenerRecord>) returns (ok: bool)
    requires forall listener <- listeners :: listener.address.Canonical() == listener.address
    ensures ok <==> forall i, j :: 0 <= i < |targets| && 0 <= j < |listeners| ==>
      !MayReach(targets[i], listeners[j]) && !CrossFamilyWildcard(targets[i], listeners[j])
  {
    hide MayReach, CrossFamilyWildcard;
    for i := 0 to |targets|
      invariant forall k, j :: 0 <= k < i && 0 <= j < |listeners| ==>
        !MayReach(targets[k], listeners[j]) && !CrossFamilyWildcard(targets[k], listeners[j])
    {
      var target := targets[i];
      for j := 0 to |listeners|
        invariant forall k :: 0 <= k < j ==>
          !MayReach(target, listeners[k]) && !CrossFamilyWildcard(target, listeners[k])
      {
        var listener := listeners[j];
        TargetMeetingsReach(target, listener);
        if target.port != listener.port {
          continue;
        }
        var conflicts := match target.host
          case Dns(_) => true
          case Ip(address) => address == listener.address || listener.address.IsUnspecified();
        if conflicts {
          return false;
        }
      }
    }
    ok := true;
  }

  /** What is said about the collected lists is said about the configuration. */
  lemma CollectedAreConfigured(servers: seq<ServerSchema>, parse: Parser, listeners: seq<ListenerRecord>)
    requires FieldsValid(servers, parse)
    requires |listeners| == |servers| && forall i :: 0 <= i < |servers| ==> listeners[i] == ListenerOf(servers[i], parse)
    ensures forall listener <- listeners :: listener.address.Canonical() == listener.address
    ensures
      var targets := Targets(servers, parse);
      Acceptable(servers, parse) <==>
        && (forall i, j :: 0 <= i < j < |listeners| ==> !Overlap(listeners[i], listeners[j]))
        && (forall i, j :: 0 <= i < j < |targets| ==> !AlwaysSame(targets[i], targets[j]))
        && (forall i, j :: 0 <= i < |targets| && 0 <= j < |listeners| ==>
              !MayReach(targets[i], listeners[j]) && !CrossFamilyWildcard(targets[i], listeners[j]))
  {
    hide MayReach, CrossFamilyWildcard, Overlap, Targets, TargetOf, TargetAt, PlaceOf, IndexOf, Configured, ListenerIsValid;
    var targets := Targets(servers, parse);
    forall i | 0 <= i < |listeners|
      ensures listeners[i].address.Canonical() == listeners[i].address
    {
      ListenerIsCanonical(servers[i], parse);
    }
    forall k: nat | k < |targets|
      ensures Configured(servers, PlaceOf(servers, parse, k))
      ensures targets[k] == TargetOf(TargetAt(servers, PlaceOf(servers, parse, k)), parse)
      ensures IndexOf(servers, parse, PlaceOf(servers, parse, k)) == k
    {
      TargetsAreConfigured(servers, parse, k);
    }
    forall p | Configured(servers, p)
      ensures IndexOf(servers, parse, p) < |targets| && PlaceOf(servers, parse, IndexOf(servers, parse, p)) == p
    {
      ConfiguredAreTargets(servers, parse, p);
    }
  }

  /** `validate_endpoints`, sound and complete for what the endpoints mean. */
  method ValidateEndpoints(servers: seq<ServerSchema>, parse: Parser) returns (ok: bool)
    ensures ok <==> Acceptable(servers, parse)
  {
    hide FieldsValid, MayReach, CrossFamilyWildcard, AlwaysSame, Overlap;
    var collected := CollectEndpoints(servers, parse);
    if collected.Err? {
      return false;
    }
    var (listeners, targets) := collected.value;
    CollectedAreConfigured(servers, parse, listeners);
    ok := ListenersAreApart(listeners);
    if !ok {
      return;
    }
    ok := TargetsDiffer(targets);
    if !ok {
      return;
    }
    ok := TargetsMissListeners(targets, listeners);
  }
}

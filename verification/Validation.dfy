/** The checks a binding passes before the operator acts on it, and how its ports resolve. */
module Validation {
  import opened Kube
  import opened Bindings

  // ----- DNS-1123 names -----

  predicate Alphanumeric(c: char) { 'a' <= c <= 'z' || '0' <= c <= '9' }

  predicate IsDnsLabel(s: string) {
    && 0 < |s| <= 63 && Alphanumeric(s[0]) && Alphanumeric(s[|s| - 1])
    && forall i :: 0 <= i < |s| ==> Alphanumeric(s[i]) || s[i] == '-'
  }

  predicate IsDnsSubdomain(s: string) {
    && 0 < |s| <= 253 && Alphanumeric(s[0]) && Alphanumeric(s[|s| - 1])
    && (forall i :: 0 <= i < |s| ==> Alphanumeric(s[i]) || s[i] == '-' || s[i] == '.')
    && forall i :: 0 < i < |s| - 1 && s[i] == '.' ==> Alphanumeric(s[i - 1]) && Alphanumeric(s[i + 1])
  }

  lemma LabelLetters(c: char)
    ensures Alphanumeric(c) <==> c in "abcdefghijklmnopqrstuvwxyz0123456789"
  {}

  /** Lower-case letters and digits, with hyphens inside; a label has at most 63 of them, and a subdomain 253 with the
      dots between its labels. */
  lemma DnsNames(s: string)
    ensures (forall i :: 0 <= i < |s| ==> s[i] == 'a') ==>
              (IsDnsLabel(s) <==> 1 <= |s| <= 63) && (IsDnsSubdomain(s) <==> 1 <= |s| <= 253)
    ensures IsDnsLabel("a-0") && !IsDnsLabel("-a") && !IsDnsLabel("a-") && !IsDnsLabel("a.b") && !IsDnsLabel("a_b")
  {
    assert "a.b"[1] == '.' && "a_b"[1] == '_';
  }

  /** And on both sides of a dot there is a subdomain. */
  lemma SubdomainSplits(s: string, i: nat)
    requires IsDnsSubdomain(s) && i < |s| && s[i] == '.'
    ensures IsDnsSubdomain(s[..i]) && IsDnsSubdomain(s[i + 1..])
  {
  }

  /** Labels joined by dots make a subdomain, and without a dot there is one label. */
  lemma SubdomainOfLabels(a: string, b: string)
    requires IsDnsLabel(a) && (IsDnsSubdomain(b) || IsDnsLabel(b)) && |a| + |b| <= 252
    ensures IsDnsSubdomain(a) && IsDnsSubdomain(a + "." + b)
  {
    var s := a + "." + b;
    forall i | 0 < i < |s| - 1 && s[i] == '.' ensures Alphanumeric(s[i - 1]) && Alphanumeric(s[i + 1]) {
      if i > |a| { assert s[i] == b[i - |a| - 1]; }
    }
  }

  lemma SubdomainWithoutDot(s: string)
    requires forall i :: 0 <= i < |s| ==> s[i] != '.'
    ensures IsDnsLabel(s) <==> IsDnsSubdomain(s) && |s| <= 63
  {}

  // ----- identity -----

  predicate HexDigit(c: char) { '0' <= c <= '9' || 'a' <= c <= 'f' || 'A' <= c <= 'F' }

  /** A UUID of versions 1 to 5 in its RFC 4122 variant, in either case. */
  predicate IsUuid(s: string) {
    && |s| == 36 && (forall i :: 0 <= i < |s| ==> if i in {8, 13, 18, 23} then s[i] == '-' else HexDigit(s[i]))
    && '1' <= s[14] <= '5' && s[19] in "89abAB"
  }

  /** The pattern `8-4-4-4-12` over the lower-case text, with the version and the variant as leading digits of the third
      and the fourth group. */
  method MatchUuid(s: string) returns (ok: bool)
    ensures ok <==> IsUuid(s)
  {
    var groups := [8, 4, 4, 4, 12];
    var at := 0;
    for g := 0 to 5
      invariant at == [0, 9, 14, 19, 24, 37][g] && at <= if g < 5 then |s| else |s| + 1
      invariant forall i :: 0 <= i < at && i < 36 ==> if i in {8, 13, 18, 23} then s[i] == '-' else HexDigit(s[i])
      invariant g > 2 ==> '1' <= s[14] <= '5'
      invariant g > 3 ==> s[19] in "89abAB"
    {
      var end := at + groups[g];
      assert end == [8, 13, 18, 23, 36][g];
      if |s| < end { return false; }
      for i := at to end
        invariant forall k :: 0 <= k < i ==> if k in {8, 13, 18, 23} then s[k] == '-' else HexDigit(s[k])
      {
        var digit := '0' <= s[i] <= '9';
        var letter := 'a' <= s[i] <= 'f' || 'A' <= s[i] <= 'F';
        if !digit && !letter { return false; }
        assert i !in {8, 13, 18, 23};
      }
      if g == 2 && !('1' <= s[at] <= '5') { return false; }
      if g == 3 && s[at] !in ['8', '9', 'a', 'b', 'A', 'B'] { return false; }
      if g < 4 && (|s| == end || s[end] != '-') { return false; }
      at := end + 1;
    }
    ok := at == |s| + 1;
  }

  /** White space as Unicode defines it. */
  predicate IsSpace(c: char) {
    var code := c as int;
    9 <= code <= 13 || code in {0x20, 0x85, 0xA0, 0x1680, 0x2028, 0x2029, 0x202F, 0x205F, 0x3000} ||
      0x2000 <= code <= 0x200A
  }

  lemma SpacesAre(c: char)
    ensures IsSpace(c) <==>
              c in "\t\n\U{B}\U{C}\r \U{85}\U{A0}\U{1680}\U{2000}\U{2001}\U{2002}\U{2003}\U{2004}\U{2005}" ||
              c in "\U{2006}\U{2007}\U{2008}\U{2009}\U{200A}\U{2028}\U{2029}\U{202F}\U{205F}\U{3000}"
  {}

  /** The length of a string in UTF-8. */
  function Utf8Length(s: string): nat {
    if s == "" then 0
    else
      var code := s[0] as int;
      (if code < 0x80 then 1 else if code < 0x800 then 2 else if code < 0x1_0000 then 3 else 4) + Utf8Length(s[1..])
  }

  /** One byte a character if all are ASCII, and up to four. */
  lemma {:induction false} Utf8Bounds(s: string)
    ensures |s| <= Utf8Length(s) <= 4 * |s|
    ensures Utf8Length(s) == |s| <==> forall i :: 0 <= i < |s| ==> s[i] as int <= 127
    ensures (forall i :: 0 <= i < |s| ==> s[i] as int <= 0x7FF) ==> Utf8Length(s) <= 2 * |s|
    ensures (forall i :: 0 <= i < |s| ==> s[i] as int >= 0x800) ==> Utf8Length(s) >= 3 * |s|
    ensures (forall i :: 0 <= i < |s| ==> s[i] as int <= 0xFFFF) ==> Utf8Length(s) <= 3 * |s|
    ensures (forall i :: 0 <= i < |s| ==> s[i] as int >= 0x1_0000) ==> Utf8Length(s) == 4 * |s|
  {
    if s != "" {
      Utf8Bounds(s[1..]);
      assert s == [s[0]] + s[1..];
    }
  }

  predicate IdentityValid(id: Identity) {
    && IsUuid(id.sessionId) && IsUuid(id.taskId)
    && (exists i :: 0 <= i < |id.identityId| && !IsSpace(id.identityId[i])) && Utf8Length(id.identityId) <= 256
    && id.sessionGeneration >= 1
  }

  method ValidateBindingIdentity(id: Identity, ports: nat) returns (ok: bool)
    ensures ok <==> IdentityValid(id) && 1 <= ports <= 64
  {
    var session := MatchUuid(id.sessionId);
    if !session { return false; }
    var task := MatchUuid(id.taskId);
    if !task { return false; }
    var trimmed := id.identityId;
    while |trimmed| > 0 && IsSpace(trimmed[0])
      invariant |trimmed| <= |id.identityId| && trimmed == id.identityId[|id.identityId| - |trimmed|..]
      invariant forall i :: 0 <= i < |id.identityId| - |trimmed| ==> IsSpace(id.identityId[i])
    {
      trimmed := trimmed[1..];
    }
    if trimmed == "" || Utf8Length(id.identityId) > 256 { return false; }
    assert id.identityId[|id.identityId| - |trimmed|] == trimmed[0];
    ok := id.sessionGeneration >= 1 && 1 <= ports <= 64;
  }

  // ----- ports -----

  predicate PortNumber(port: int) { 1 <= port <= 65535 }

  predicate PortValid(p: TrafficPort) {
    && PortNumber(p.targetPort) && (p.protocol.TcpProtocol? || p.protocol.UdpProtocol?)
    && (p.relayPort.Some? ==> PortNumber(p.relayPort.value))
    && (p.localPort.Some? ==> PortNumber(p.localPort.value))
    && (p.name != "" ==> IsDnsLabel(p.name))
  }

  predicate Clash(a: TrafficPort, b: TrafficPort) {
    (a.name != "" && a.name == b.name) || (a.protocol == b.protocol && a.targetPort == b.targetPort)
  }

  predicate PortsValid(ports: seq<TrafficPort>) {
    && (forall i :: 0 <= i < |ports| ==> PortValid(ports[i]))
    && (forall i, j :: 0 <= i < j < |ports| ==> !Clash(ports[i], ports[j]))
  }

  method ValidateBindingPorts(ports: seq<TrafficPort>) returns (ok: bool)
    ensures ok <==> PortsValid(ports)
  {
    var seenPorts: set<(Transport, int)>, seenNames: set<string> := {}, {};
    for i := 0 to |ports|
      invariant PortsValid(ports[..i])
      invariant forall k :: k in seenPorts <==> exists j :: 0 <= j < i && k == (ports[j].protocol, ports[j].targetPort)
      invariant forall n :: n in seenNames <==> exists j :: 0 <= j < i && n == ports[j].name && n != ""
    {
      var port := ports[i];
      if port.targetPort < 1 || port.targetPort > 65535 { return false; }
      if port.protocol.OtherProtocol? || port.protocol.NoProtocol? { return false; }
      if port.relayPort.Some? && (port.relayPort.value < 1 || port.relayPort.value > 65535) { return false; }
      if port.localPort.Some? && (port.localPort.value < 1 || port.localPort.value > 65535) { return false; }
      if port.name != "" && !IsDnsLabel(port.name) { return false; }
      if port.name != "" {
        if port.name in seenNames { return false; }
        seenNames := seenNames + {port.name};
      }
      var key := (port.protocol, port.targetPort);
      if key in seenPorts { return false; }
      seenPorts := seenPorts + {key};
      assert ports[..i + 1] == ports[..i] + [port];
    }
    assert ports[..|ports|] == ports;
    ok := true;
  }

  // ----- the whole spec -----

  predicate ModeValid(spec: Spec) {
    && (match spec.mode
        case PortForward =>
          spec.target.Some? && spec.relay.None? && spec.preview.None? && |spec.ports| == 1 &&
          spec.ports[0].relayPort.None?
        case Preview => spec.target.None? && spec.preview.Some? && IsDnsLabel(spec.preview.value)
        case _ => spec.target.Some? && spec.target.value.kind == ServiceTarget && spec.preview.None?)
    && (spec.mode != PortForward ==>
          forall i :: 0 <= i < |spec.ports| ==> spec.ports[i].relayPort.Some? == spec.relay.Some?)
  }

  predicate TargetValid(spec: Spec) {
    spec.target.Some? ==> !spec.target.value.kind.OtherTarget? && IsDnsSubdomain(spec.target.value.name)
  }

  predicate ValidSpec(spec: Spec) {
    && IdentityValid(spec.identity) && 1 <= |spec.ports| <= 64
    && !spec.desired.OtherState?
    && PortsValid(spec.ports) && ModeValid(spec) && TargetValid(spec)
    && (spec.relay.Some? ==> spec.relay.value.parses)
  }

  method ValidateBindingMode(spec: Spec) returns (ok: bool)
    ensures ok <==> ModeValid(spec)
  {
    match spec.mode {
      case PortForward =>
        if spec.target.None? || spec.relay.Some? || spec.preview.Some? || |spec.ports| != 1 { return false; }
        if spec.ports[0].relayPort.Some? { return false; }
      case Preview =>
        if spec.target.Some? || spec.preview.None? { return false; }
        if !IsDnsLabel(spec.preview.value) { return false; }
      case _ =>
        if spec.target.None? || spec.target.value.kind != ServiceTarget || spec.preview.Some? { return false; }
    }
    if spec.mode != PortForward && spec.relay.Some? {
      for i := 0 to |spec.ports|
        invariant forall k :: 0 <= k < i ==> spec.ports[k].relayPort.Some?
      {
        if spec.ports[i].relayPort.None? { return false; }
      }
    }
    if spec.mode != PortForward && spec.relay.None? {
      for i := 0 to |spec.ports|
        invariant forall k :: 0 <= k < i ==> spec.ports[k].relayPort.None?
      {
        if spec.ports[i].relayPort.Some? { return false; }
      }
    }
    ok := true;
  }

  method ValidateBinding(spec: Spec) returns (ok: bool)
    ensures ok <==> ValidSpec(spec)
  {
    var identityOk := ValidateBindingIdentity(spec.identity, |spec.ports|);
    if !identityOk { return false; }
    if spec.desired.OtherState? { return false; }
    var portsOk := ValidateBindingPorts(spec.ports);
    if !portsOk { return false; }
    var modeOk := ValidateBindingMode(spec);
    if !modeOk { return false; }
    if spec.target.Some? {
      if spec.target.value.kind != PodTarget && spec.target.value.kind != ServiceTarget { return false; }
      if !IsDnsSubdomain(spec.target.value.name) { return false; }
    }
    if spec.relay.Some? && !spec.relay.value.parses { return false; }
    ok := true;
  }

  /** Everything the relay code dereferences is there. */
  predicate RelayReady(spec: Spec) {
    spec.relay.Some? && forall i :: 0 <= i < |spec.ports| ==> spec.ports[i].relayPort.Some?
  }

  /** What validation and the wait for a relay buy: no missing relay or relay port later on. */
  lemma ValidatedIsRelayReady(spec: Spec)
    requires ValidSpec(spec) && !AwaitingRelay(spec) && spec.mode != PortForward
    ensures RelayReady(spec)
  {}

  // ----- Service ports -----

  function CoreProtocol(t: Transport): Protocol { if t.UdpProtocol? then UDP else TCP }

  predicate Matches(candidate: ServicePort, mapping: TrafficPort) {
    candidate.port == mapping.targetPort && candidate.protocol == CoreProtocol(mapping.protocol)
  }

  /** The first Service port that carries a mapping's target. */
  function FindPort(ports: seq<ServicePort>, mapping: TrafficPort): (r: Option<ServicePort>)
    ensures r.Some? <==>
              exists i :: 0 <= i < |ports| && ports[i].port == mapping.targetPort &&
                          (ports[i].protocol.UDP? <==> mapping.protocol.UdpProtocol?)
    ensures r.Some? ==>
              exists i :: 0 <= i < |ports| && ports[i] == r.value && Matches(r.value, mapping) &&
                          forall j :: 0 <= j < i ==> !Matches(ports[j], mapping)
  {
    if ports == [] then None
    else if Matches(ports[0], mapping) then Some(ports[0])
    else
      assert forall i :: 1 <= i < |ports| ==> ports[i] == ports[1..][i - 1];
      FindPort(ports[1..], mapping)
  }

  predicate Resolvable(ports: seq<ServicePort>, mappings: seq<TrafficPort>) {
    forall i :: 0 <= i < |mappings| ==> FindPort(ports, mappings[i]).Some?
  }

  /** The mappings in order, each named after the Service port it matched. */
  function Resolved(ports: seq<ServicePort>, mappings: seq<TrafficPort>): seq<TrafficPort>
    requires Resolvable(ports, mappings)
  {
    seq(|mappings|, i requires 0 <= i < |mappings| => mappings[i].(name := FindPort(ports, mappings[i]).value.name))
  }

  method FindServicePort(ports: seq<ServicePort>, mapping: TrafficPort) returns (r: Option<ServicePort>)
    ensures r == FindPort(ports, mapping)
  {
    for i := 0 to |ports|
      invariant FindPort(ports, mapping) == FindPort(ports[i..], mapping)
    {
      assert ports[i..][0] == ports[i] && ports[i..][1..] == ports[i + 1..];
      var protocol := if mapping.protocol.UdpProtocol? then UDP else TCP;
      if ports[i].port == mapping.targetPort && ports[i].protocol == protocol { return Some(ports[i]); }
    }
    r := None;
  }

  method ResolveServicePorts(ports: seq<ServicePort>, mappings: seq<TrafficPort>) returns (r: Option<seq<TrafficPort>>)
    ensures r.Some? <==> Resolvable(ports, mappings)
    ensures r.Some? ==> r.value == Resolved(ports, mappings)
  {
    var result: seq<TrafficPort> := [];
    for i := 0 to |mappings|
      invariant |result| == i && Resolvable(ports, mappings[..i]) && result == Resolved(ports, mappings[..i])
    {
      var matched := FindServicePort(ports, mappings[i]);
      if matched.None? { return None; }
      result := result + [mappings[i].(name := matched.value.name)];
      assert mappings[..i + 1] == mappings[..i] + [mappings[i]];
    }
    assert mappings[..|mappings|] == mappings;
    r := Some(result);
  }
}

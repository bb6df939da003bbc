/**
 * The WireGuard manager: the IPv4 address allocator, the parser of the
 * tab-separated `wg show <interface> dump` output and the client
 * configuration serialiser. Running `wg` itself is an input (`WgRun`).
 */
module WireGuard {
  import opened Wrappers
  import opened Text

  // ---------------------------------------------------------------- arithmetic

  function Pow2(n: nat): (r: nat)
    ensures r >= 1
  {
    if n == 0 then 1 else 2 * Pow2(n - 1)
  }

  /** Number of IPv4 addresses. */
  const AddressSpace: nat := 0x1_0000_0000

  lemma {:induction false} Pow2Add(a: nat, b: nat)
    ensures Pow2(a) * Pow2(b) == Pow2(a + b)
  {
    if a > 0 {
      Pow2Add(a - 1, b);
      assert Pow2(a) * Pow2(b) == 2 * (Pow2(a - 1) * Pow2(b));
    }
  }

  lemma {:induction false} Pow2Mono(a: nat, b: nat)
    requires a <= b
    ensures Pow2(a) <= Pow2(b)
  {
    if a < b {
      Pow2Mono(a, b - 1);
    }
  }

  lemma Pow2Of32()
    ensures Pow2(32) == AddressSpace
  {
    assert Pow2(8) == 256;
    Pow2Add(8, 8);
    Pow2Add(16, 16);
  }

  lemma {:induction false} MulLe(a: nat, b: nat, c: nat)
    requires a <= b
    ensures a * c <= b * c
  {
    if c > 0 {
      MulLe(a, b, c - 1);
      assert a * c == a * (c - 1) + a;
      assert b * c == b * (c - 1) + b;
    }
  }

  /** Euclidean quotient of naturals, with the bounds that characterise it. */
  function Quot(a: nat, m: nat): (q: nat)
    requires m > 0
    ensures q * m <= a < q * m + m
  {
    var q := a / m;
    assert a == q * m + a % m;
    q
  }

  /** `a < k * m` bounds the quotient by `k`. */
  lemma QuotBelow(a: nat, m: nat, k: nat)
    requires m > 0 && a < k * m
    ensures Quot(a, m) < k
  {
    var q := Quot(a, m);
    if q >= k {
      MulLe(k, q, m);
      assert false;
    }
  }

  // ---------------------------------------------------------------- networks

  /**
   * An IPv4 network as `ipaddress.ip_network(s, strict=False)` builds it: the
   * `index`-th aligned block of `2^(32 - prefixLen)` addresses, host bits cleared.
   */
  datatype Network = Network(index: nat, prefixLen: nat) {
    predicate Valid()
    {
      prefixLen <= 32 && index < Pow2(prefixLen)
    }

    function Size(): nat
      requires prefixLen <= 32
    {
      Pow2(32 - prefixLen)
    }

    function Base(): nat
      requires prefixLen <= 32
    {
      index * Size()
    }
  }

  lemma BlockInRange(n: Network)
    requires n.Valid()
    ensures n.Base() + n.Size() <= AddressSpace
  {
    var size := n.Size();
    var blocks := Pow2(n.prefixLen);
    MulLe(n.index + 1, blocks, size);
    MulSucc(n.index, size);
    Pow2Add(n.prefixLen, 32 - n.prefixLen);
    Pow2Of32();
    assert blocks * size == AddressSpace;
  }

  lemma MulSucc(a: nat, b: nat)
    ensures (a + 1) * b == a * b + b
  {
  }

  /** The network holding `address` with the given prefix length (strict=False). */
  function NetworkOf(address: nat, prefixLen: nat): (n: Network)
    requires address < AddressSpace && prefixLen <= 32
    ensures n.Valid() && n.prefixLen == prefixLen
    ensures n.Base() <= address < n.Base() + n.Size()
  {
    Pow2Add(prefixLen, 32 - prefixLen);
    Pow2Of32();
    QuotBelow(address, Pow2(32 - prefixLen), Pow2(prefixLen));
    Network(Quot(address, Pow2(32 - prefixLen)), prefixLen)
  }

  lemma Pow2AtLeast4(k: nat)
    requires k >= 2
    ensures Pow2(k) >= 4
  {
    Pow2Mono(2, k);
  }

  /**
   * `list(net.hosts())`: the usable hosts in ascending order. A /31 yields both
   * addresses, a /32 its single address, any larger network everything but the
   * network and broadcast addresses.
   */
  function Hosts(n: Network): (h: seq<nat>)
    requires n.Valid()
    ensures |h| >= 1
    ensures forall i :: 0 <= i < |h| ==> n.Base() <= h[i] < n.Base() + n.Size()
    ensures forall i :: 0 <= i < |h| ==> h[i] < AddressSpace
    ensures forall i, j :: 0 <= i < j < |h| ==> h[i] < h[j]
  {
    BlockInRange(n);
    var base := n.Base();
    if n.prefixLen == 32 then [base]
    else if n.prefixLen == 31 then [base, base + 1]
    else
      Pow2AtLeast4(32 - n.prefixLen);
      seq(n.Size() - 2, i requires 0 <= i < n.Size() - 2 => base + 1 + i)
  }

  // ---------------------------------------------------------------- dotted quads

  /** `str(IPv4Address(a))`: four decimal octets joined by dots. */
  function Quad(a: nat): string
    requires a < AddressSpace
  {
    var r1 := a / 256;
    var r2 := r1 / 256;
    Join([Digits(r2 / 256), Digits(r2 % 256), Digits(r1 % 256), Digits(a % 256)], '.')
  }

  /** One octet as `ipaddress` accepts it: 1-3 ASCII digits, no leading zero, at most 255. */
  function ParseOctet(s: string): (r: Option<nat>)
    ensures r.Some? ==> r.value <= 255
  {
    if 1 <= |s| <= 3 && AllDigits(s) && (|s| == 1 || s[0] != '0') && DecValue(s) <= 255
    then Some(DecValue(s))
    else None
  }

  /** `IPv4Address(s)`: exactly four valid octets. */
  function ParseAddress(s: string): (r: Option<nat>)
    ensures r.Some? ==> r.value < AddressSpace
  {
    var parts := Split(s, '.');
    if |parts| != 4 then None
    else
      match (ParseOctet(parts[0]), ParseOctet(parts[1]), ParseOctet(parts[2]), ParseOctet(parts[3]))
      case (Some(o0), Some(o1), Some(o2), Some(o3)) => Some(((o0 * 256 + o1) * 256 + o2) * 256 + o3)
      case _ => None
  }

  lemma DigitsOfOctet(n: nat)
    requires n <= 255
    ensures ParseOctet(Digits(n)) == Some(n)
  {
    DecValueOfDigits(n);
    if n >= 10 {
      assert Digits(n) == Digits(n / 10) + [DigitChar(n % 10)];
      if n >= 100 {
        assert Digits(n / 10) == Digits(n / 100) + [DigitChar(n / 10 % 10)];
      }
    }
  }

  lemma NoSepInDigits(n: nat, sep: char)
    requires !IsDigit(sep)
    ensures sep !in Digits(n)
  {
    var s := Digits(n);
    assert forall i :: 0 <= i < |s| ==> s[i] != sep;
  }

  /** Parsing a rendered address gives it back. */
  lemma ParseAddressOfQuad(a: nat)
    requires a < AddressSpace
    ensures ParseAddress(Quad(a)) == Some(a)
  {
    var r1 := a / 256;
    var r2 := r1 / 256;
    var parts := [Digits(r2 / 256), Digits(r2 % 256), Digits(r1 % 256), Digits(a % 256)];
    forall i | 0 <= i < 4
      ensures '.' !in parts[i]
    {
      NoSepInDigits([r2 / 256, r2 % 256, r1 % 256, a % 256][i], '.');
    }
    SplitOfJoin(parts, '.');
    DigitsOfOctet(r2 / 256);
    DigitsOfOctet(r2 % 256);
    DigitsOfOctet(r1 % 256);
    DigitsOfOctet(a % 256);
  }

  /** Distinct addresses render differently. */
  lemma QuadInjective(a: nat, b: nat)
    requires a < AddressSpace && b < AddressSpace
    requires Quad(a) == Quad(b)
    ensures a == b
  {
    ParseAddressOfQuad(a);
    ParseAddressOfQuad(b);
  }

  /** The prefix of `a.b.c.d/p`: decimal digits with a value of at most 32. */
  function ParsePrefix(s: string): (r: Option<nat>)
    ensures r.Some? ==> r.value <= 32
  {
    if |s| >= 1 && AllDigits(s) && DecValue(s) <= 32 then Some(DecValue(s)) else None
  }

  /**
   * `ip_network(s, strict=False)` for IPv4: an address with an optional
   * `/prefix` (32 when absent); the host bits are cleared.
   */
  function ParseCidr(s: string): (r: Option<Network>)
    ensures r.Some? ==> r.value.Valid()
  {
    var parts := Split(s, '/');
    if |parts| > 2 then None
    else
      var prefix := if |parts| == 2 then ParsePrefix(parts[1]) else Some(32);
      match (ParseAddress(parts[0]), prefix)
      case (Some(a), Some(p)) => Some(NetworkOf(a, p))
      case _ => None
  }

  // ---------------------------------------------------------------- get_next_ip

  const NoAddressError := "No available IP addresses in the network"

  function InvalidNetworkError(network: string): string
  {
    "'" + network + "' does not appear to be an IPv4 or IPv6 network"
  }

  /** The host strings `str(host)` of a network, in the order `hosts()` yields them. */
  function HostNames(n: Network): (names: seq<string>)
    requires n.Valid()
    ensures |names| == |Hosts(n)|
  {
    var h := Hosts(n);
    seq(|h|, i requires 0 <= i < |h| => Quad(h[i]))
  }

  /** `names[k]` is free and every candidate between the second host and it is used. */
  predicate LowestFree(names: seq<string>, used: set<string>, k: nat)
  {
    1 <= k < |names| && names[k] !in used &&
    forall j :: 1 <= j < k ==> names[j] in used
  }

  /** What `get_next_ip` promises about its answer, given the host strings of the network. */
  ghost predicate NextIpSpec(names: seq<string>, used: set<string>, r: Result<string, string>)
  {
    (r.Ok? <==> exists k :: 1 <= k < |names| && names[k] !in used) &&
    (r.Ok? ==> exists k: nat :: LowestFree(names, used, k) && r.value == names[k] + "/32") &&
    (r.Err? ==> r.error == NoAddressError)
  }

  /** The scan of `hosts[1:]` in ascending order, stopping at the first unused host. */
  method ScanHosts(names: seq<string>, used: set<string>) returns (r: Result<string, string>, ghost k: nat)
    ensures NextIpSpec(names, used, r)
    ensures r.Ok? ==> LowestFree(names, used, k) && r.value == names[k] + "/32"
  {
    var i := 1;
    while i < |names|
      invariant 1 <= i
      invariant forall j :: 1 <= j < i && j < |names| ==> names[j] in used
    {
      var ipStr := names[i];
      if ipStr !in used {
        assert LowestFree(names, used, i);
        return Ok(ipStr + "/32"), i;
      }
      i := i + 1;
    }
    return Err(NoAddressError), 0;
  }

  /**
   * `get_next_ip`: the lowest host after the first (reserved for the server)
   * whose string is not used, suffixed with `/32`; an error when every such host
   * is used or the network does not parse.
   */
  method GetNextIp(network: string, used: set<string>) returns (r: Result<string, string>)
    ensures ParseCidr(network).None? ==> r == Err(InvalidNetworkError(network))
    ensures ParseCidr(network).Some? ==> NextIpSpec(HostNames(ParseCidr(network).value), used, r)
    ensures ParseCidr(network).Some? && r.Ok? ==>
      Before(r.value, '/') != HostNames(ParseCidr(network).value)[0]
    ensures r.Ok? ==> Before(r.value, '/') !in used
  {
    var parsed := ParseCidr(network);
    if parsed.None? {
      return Err(InvalidNetworkError(network));
    }
    // `str(host)` for each host of the network, in ascending order.
    var names := HostNames(parsed.value);
    ghost var k;
    r, k := ScanHosts(names, used);
    if r.Ok? {
      NextIpNotFirst(parsed.value, k);
      HostNameAddressPart(parsed.value, k);
    }
  }

  lemma NoSlashInQuad(a: nat)
    requires a < AddressSpace
    ensures '/' !in Quad(a)
  {
    var r1 := a / 256;
    var r2 := r1 / 256;
    var parts := [Digits(r2 / 256), Digits(r2 % 256), Digits(r1 % 256), Digits(a % 256)];
    forall i | 0 <= i < 4
      ensures '/' !in parts[i]
    {
      NoSepInDigits([r2 / 256, r2 % 256, r1 % 256, a % 256][i], '/');
    }
    NotInJoin(parts, '.', '/');
  }

  /** The address part of `<host>/32` is the host string. */
  lemma HostNameAddressPart(n: Network, k: nat)
    requires n.Valid() && k < |Hosts(n)|
    ensures Before(HostNames(n)[k] + "/32", '/') == HostNames(n)[k]
  {
    var s := HostNames(n)[k];
    assert s == Quad(Hosts(n)[k]);
    NoSlashInQuad(Hosts(n)[k]);
    assert s + "/32" == s + ['/'] + "32";
    BeforeOfSuffixed(s, "32", '/');
  }

  /** Any host after the first yields an address part different from the first host. */
  lemma NextIpNotFirst(n: Network, k: nat)
    requires n.Valid() && 1 <= k < |Hosts(n)|
    ensures Before(HostNames(n)[k] + "/32", '/') != HostNames(n)[0]
  {
    var h := Hosts(n);
    var s := Quad(h[k]);
    assert HostNames(n)[k] == s && HostNames(n)[0] == Quad(h[0]);
    NoSlashInQuad(h[k]);
    assert s + "/32" == s + ['/'] + "32";
    BeforeOfSuffixed(s, "32", '/');
    if s == Quad(h[0]) {
      QuadInjective(h[k], h[0]);
    }
  }

  // ---------------------------------------------------------------- wg show <if> dump

  /** One peer of the dump; `None` stands for the sentinels `(none)`, `0` and `off`. */
  datatype PeerStats = PeerStats(
    presharedKey: Option<string>,
    endpoint: Option<string>,
    allowedIps: string,
    latestHandshake: Option<int>,
    transferRx: int,
    transferTx: int,
    persistentKeepalive: Option<string>)

  /** How `wg show <interface> dump` ended: not installed, or an exit code with its output. */
  datatype WgRun = NotInstalled | Exited(returnCode: int, stdout: string)

  /** The `ValueError` raised by `int()` on a field that is not an integer. */
  const IntValueError := "invalid literal for int() with base 10"

  function Fields(line: string): seq<string>
  {
    Split(line, '\t')
  }

  /** `None` when the field is the sentinel, the field itself otherwise. */
  function Unless(field: string, sentinel: string): (r: Option<string>)
    ensures r.None? <==> field == sentinel
    ensures r.Some? ==> r.value == field
  {
    if field != sentinel then Some(field) else None
  }

  /** The entry built from the fields of one peer line; `int()` may raise on the numeric fields. */
  function PeerOf(parts: seq<string>): Result<PeerStats, string>
    requires |parts| >= 8
  {
    var handshake := if parts[4] != "0" then ParseInt(parts[4]) else Some(0);
    var rx := ParseInt(parts[5]);
    var tx := ParseInt(parts[6]);
    if handshake.None? || rx.None? || tx.None? then Err(IntValueError)
    else
      Ok(PeerStats(
        Unless(parts[1], "(none)"),
        Unless(parts[2], "(none)"),
        parts[3],
        if parts[4] != "0" then handshake else None,
        rx.value,
        tx.value,
        Unless(parts[7], "off")))
  }

  /**
   * The sentinel mapping of a peer line: `(none)` key or endpoint, handshake `0`
   * and keepalive `off` become `None`; rx and tx are integers, or `int()` raises.
   */
  lemma PeerSentinels(parts: seq<string>)
    requires |parts| >= 8
    ensures PeerOf(parts).Ok? <==>
      (parts[4] == "0" || ParseInt(parts[4]).Some?) && ParseInt(parts[5]).Some? && ParseInt(parts[6]).Some?
    ensures PeerOf(parts).Err? ==> PeerOf(parts).error == IntValueError
    ensures PeerOf(parts).Ok? ==>
      var p := PeerOf(parts).value;
      (p.presharedKey.None? <==> parts[1] == "(none)") &&
      (p.endpoint.None? <==> parts[2] == "(none)") &&
      (p.latestHandshake.None? <==> parts[4] == "0") &&
      (p.persistentKeepalive.None? <==> parts[7] == "off") &&
      (p.latestHandshake.Some? ==> ParseInt(parts[4]) == p.latestHandshake) &&
      ParseInt(parts[5]) == Some(p.transferRx) && ParseInt(parts[6]) == Some(p.transferTx) &&
      p.allowedIps == parts[3]
  {
  }

  /** The effect of one line on the map: short lines are skipped, peer lines (over)write their key. */
  function StatsStep(stats: map<string, PeerStats>, line: string): Result<map<string, PeerStats>, string>
  {
    var parts := Fields(line);
    if |parts| < 8 then Ok(stats)
    else
      match PeerOf(parts)
      case Err(e) => Err(e)
      case Ok(peer) => Ok(stats[parts[0] := peer])
  }

  /** The map built from the peer lines, in order; the first `ValueError` aborts. */
  function StatsOfLines(lines: seq<string>): Result<map<string, PeerStats>, string>
  {
    if lines == [] then Ok(map[])
    else
      match StatsOfLines(lines[..|lines| - 1])
      case Err(e) => Err(e)
      case Ok(stats) => StatsStep(stats, lines[|lines| - 1])
  }

  function DumpLines(stdout: string): seq<string>
  {
    Split(Strip(stdout), '\n')
  }

  /** `get_interface_stats`: the empty map unless `wg` ran and exited with 0; the first line is the interface. */
  function InterfaceStats(run: WgRun): Result<map<string, PeerStats>, string>
  {
    match run
    case NotInstalled => Ok(map[])
    case Exited(code, out) => if code != 0 then Ok(map[]) else StatsOfLines(DumpLines(out)[1..])
  }

  /** Once a prefix of the lines raised, the whole parse raises the same error. */
  lemma {:induction false} ErrorSticks(lines: seq<string>, n: nat)
    requires n <= |lines| && StatsOfLines(lines[..n]).Err?
    ensures StatsOfLines(lines) == StatsOfLines(lines[..n])
    decreases |lines|
  {
    if n < |lines| {
      var init := lines[..|lines| - 1];
      assert init[..n] == lines[..n];
      ErrorSticks(init, n);
    } else {
      assert lines[..n] == lines;
    }
  }

  /** The loop of `get_interface_stats`, filling `stats` line by line. */
  method GetInterfaceStats(run: WgRun) returns (r: Result<map<string, PeerStats>, string>)
    ensures r == InterfaceStats(run)
    ensures run.NotInstalled? || run.returnCode != 0 ==> r == Ok(map[])
  {
    if run.NotInstalled? || run.returnCode != 0 {
      return Ok(map[]);
    }
    var lines := DumpLines(run.stdout);
    ghost var peerLines := lines[1..];
    var stats: map<string, PeerStats> := map[];
    var i := 1;
    while i < |lines|
      invariant 1 <= i <= |lines|
      invariant StatsOfLines(peerLines[..i - 1]) == Ok(stats)
    {
      assert peerLines[..i][..i - 1] == peerLines[..i - 1];
      var parts := Fields(lines[i]);
      if |parts| >= 8 {
        var peer := PeerOf(parts);
        if peer.Err? {
          ErrorSticks(peerLines, i);
          return Err(peer.error);
        }
        stats := stats[parts[0] := peer.value];
      }
      i := i + 1;
    }
    assert peerLines[..i - 1] == peerLines;
    return Ok(stats);
  }

  /** A dump holding only the interface line yields no peers, whatever that line says. */
  lemma InterfaceLineSkipped(out: string)
    requires '\n' !in Strip(out)
    ensures InterfaceStats(Exited(0, out)) == Ok(map[])
  {
    SplitWithoutSep(Strip(out), '\n');
  }

  /** A line with fewer than eight fields leaves the map as it was. */
  lemma ShortLineIgnored(lines: seq<string>, line: string)
    requires |Fields(line)| < 8
    ensures StatsOfLines(lines + [line]) == StatsOfLines(lines)
  {
    assert (lines + [line])[..|lines|] == lines;
  }

  /** A peer line (eight fields or more) with a field `int()` rejects. */
  predicate BadLine(line: string)
  {
    |Fields(line)| >= 8 && PeerOf(Fields(line)).Err?
  }

  lemma StepFailsOnBadLine(stats: map<string, PeerStats>, line: string)
    ensures StatsStep(stats, line).Err? <==> BadLine(line)
  {
  }

  /** The parse fails exactly when some peer line has a field `int()` rejects. */
  lemma {:induction false} StatsFailIff(lines: seq<string>)
    ensures StatsOfLines(lines).Err? <==> exists j :: 0 <= j < |lines| && BadLine(lines[j])
  {
    if lines != [] {
      var init := lines[..|lines| - 1];
      var last := lines[|lines| - 1];
      StatsFailIff(init);
      if StatsOfLines(init).Ok? {
        StepFailsOnBadLine(StatsOfLines(init).value, last);
      }
      if exists j :: 0 <= j < |init| && BadLine(init[j]) {
        var j :| 0 <= j < |init| && BadLine(init[j]);
        assert BadLine(lines[j]);
      }
      if exists j :: 0 <= j < |lines| && BadLine(lines[j]) {
        var j :| 0 <= j < |lines| && BadLine(lines[j]);
        if j < |init| {
          assert BadLine(init[j]);
        }
      }
    }
  }

  /** Every key of the map comes from a peer line naming it. */
  lemma {:induction false} KeysFromPeerLines(lines: seq<string>, key: string)
    requires StatsOfLines(lines).Ok? && key in StatsOfLines(lines).value
    ensures exists j :: 0 <= j < |lines| && |Fields(lines[j])| >= 8 && Fields(lines[j])[0] == key
  {
    var init := lines[..|lines| - 1];
    var last := lines[|lines| - 1];
    if |Fields(last)| >= 8 && Fields(last)[0] == key {
      assert Fields(lines[|lines| - 1])[0] == key;
    } else {
      KeysFromPeerLines(init, key);
      var j :| 0 <= j < |init| && |Fields(init[j])| >= 8 && Fields(init[j])[0] == key;
      assert lines[j] == init[j];
    }
  }

  /** The entry of a key is the one built from the last peer line naming it. */
  lemma {:induction false} LastLineWins(lines: seq<string>, j: nat)
    requires j < |lines| && StatsOfLines(lines).Ok?
    requires |Fields(lines[j])| >= 8
    requires forall k :: j < k < |lines| && |Fields(lines[k])| >= 8 ==> Fields(lines[k])[0] != Fields(lines[j])[0]
    ensures Fields(lines[j])[0] in StatsOfLines(lines).value
    ensures Ok(StatsOfLines(lines).value[Fields(lines[j])[0]]) == PeerOf(Fields(lines[j]))
  {
    var init := lines[..|lines| - 1];
    if j < |lines| - 1 {
      assert init[j] == lines[j];
      forall k | j < k < |init| && |Fields(init[k])| >= 8
        ensures Fields(init[k])[0] != Fields(init[j])[0]
      {
        assert init[k] == lines[k];
      }
      LastLineWins(init, j);
    }
  }

  // ---------------------------------------------------------------- get_client_data_usage

  /** `get_client_data_usage`: the peer's (rx, tx) byte counters, (0, 0) for an unknown key. */
  function ClientDataUsage(stats: map<string, PeerStats>, publicKey: string): (usage: (int, int))
  {
    if publicKey in stats then (stats[publicKey].transferRx, stats[publicKey].transferTx) else (0, 0)
  }

  /** The usage reported for a key is what the last dump line naming it says. */
  lemma UsageOfLastLine(lines: seq<string>, j: nat)
    requires j < |lines| && StatsOfLines(lines).Ok?
    requires |Fields(lines[j])| >= 8
    requires forall k :: j < k < |lines| && |Fields(lines[k])| >= 8 ==> Fields(lines[k])[0] != Fields(lines[j])[0]
    ensures var usage := ClientDataUsage(StatsOfLines(lines).value, Fields(lines[j])[0]);
      ParseInt(Fields(lines[j])[5]) == Some(usage.0) && ParseInt(Fields(lines[j])[6]) == Some(usage.1)
  {
    LastLineWins(lines, j);
  }

  /** A key that no peer line names reports no usage. */
  lemma UsageOfUnknownKey(lines: seq<string>, key: string)
    requires StatsOfLines(lines).Ok?
    requires forall j :: 0 <= j < |lines| && |Fields(lines[j])| >= 8 ==> Fields(lines[j])[0] != key
    ensures ClientDataUsage(StatsOfLines(lines).value, key) == (0, 0)
  {
    if key in StatsOfLines(lines).value {
      KeysFromPeerLines(lines, key);
    }
  }

  // ---------------------------------------------------------------- generate_client_config

  datatype ClientConfig = ClientConfig(
    privateKey: string,
    address: string,
    serverPublicKey: string,
    serverEndpoint: string,
    presharedKey: string,
    dns: string,
    mtu: int,
    persistentKeepalive: int)

  const DefaultDns := "1.1.1.1,8.8.8.8"
  const DefaultMtu := 1420
  const DefaultKeepalive := 25
  const AllowedIpsLine := "AllowedIPs = 0.0.0.0/0, ::/0"

  /** The lines of the configuration text, the last one empty (the text ends with a newline). */
  function ConfigLines(c: ClientConfig): seq<string>
  {
    ["[Interface]",
     "PrivateKey = " + c.privateKey,
     "Address = " + c.address,
     "DNS = " + c.dns,
     "MTU = " + IntToString(c.mtu),
     "",
     "[Peer]",
     "PublicKey = " + c.serverPublicKey,
     "PresharedKey = " + c.presharedKey,
     "Endpoint = " + c.serverEndpoint,
     AllowedIpsLine,
     "PersistentKeepalive = " + IntToString(c.persistentKeepalive),
     ""]
  }

  /** `generate_client_config`: the WireGuard client configuration file. */
  function GenerateClientConfig(c: ClientConfig): string
  {
    Join(ConfigLines(c), '\n')
  }

  /** The arguments of the call with their defaults for `dns`, `mtu` and `persistent_keepalive`. */
  function DefaultConfig(privateKey: string, address: string, serverPublicKey: string,
                         serverEndpoint: string, presharedKey: string): (c: ClientConfig)
    ensures c.dns == DefaultDns && c.mtu == DefaultMtu && c.persistentKeepalive == DefaultKeepalive
  {
    ClientConfig(privateKey, address, serverPublicKey, serverEndpoint, presharedKey,
                 DefaultDns, DefaultMtu, DefaultKeepalive)
  }

  /** The string arguments fit on one line each. */
  predicate SingleLine(c: ClientConfig)
  {
    '\n' !in c.privateKey && '\n' !in c.address && '\n' !in c.serverPublicKey &&
    '\n' !in c.serverEndpoint && '\n' !in c.presharedKey && '\n' !in c.dns
  }

  function After(prefix: string, line: string): Option<string>
  {
    if IsPrefix(prefix, line) then Some(line[|prefix|..]) else None
  }

  /** Reads a configuration back: the fixed lines must be as written, the rest give the fields. */
  function ParseClientConfig(text: string): Option<ClientConfig>
  {
    var lines := Split(text, '\n');
    if |lines| != 13 || lines[0] != "[Interface]" || lines[5] != "" || lines[6] != "[Peer]" ||
       lines[10] != AllowedIpsLine || lines[12] != ""
    then None
    else
      match (After("PrivateKey = ", lines[1]), After("Address = ", lines[2]), After("DNS = ", lines[3]),
             After("MTU = ", lines[4]), After("PublicKey = ", lines[7]), After("PresharedKey = ", lines[8]),
             After("Endpoint = ", lines[9]), After("PersistentKeepalive = ", lines[11]))
      case (Some(key), Some(address), Some(dns), Some(mtu), Some(serverKey), Some(psk), Some(endpoint), Some(keepalive)) =>
        (match (ParseInt(mtu), ParseInt(keepalive))
         case (Some(m), Some(k)) => Some(ClientConfig(key, address, serverKey, endpoint, psk, dns, m, k))
         case _ => None)
      case _ => None
  }

  lemma NoNewlineInInt(i: int)
    ensures '\n' !in IntToString(i)
  {
    NoSepInDigits(if i < 0 then -i else i, '\n');
    if i < 0 {
      assert IntToString(i) == "-" + Digits(-i);
    }
  }

  lemma ConfigLinesSingle(c: ClientConfig)
    requires SingleLine(c)
    ensures forall i :: 0 <= i < |ConfigLines(c)| ==> '\n' !in ConfigLines(c)[i]
  {
    NoNewlineInInt(c.mtu);
    NoNewlineInInt(c.persistentKeepalive);
    LineWithoutNewline("PrivateKey = ", c.privateKey);
    LineWithoutNewline("Address = ", c.address);
    LineWithoutNewline("DNS = ", c.dns);
    LineWithoutNewline("MTU = ", IntToString(c.mtu));
    LineWithoutNewline("PublicKey = ", c.serverPublicKey);
    LineWithoutNewline("PresharedKey = ", c.presharedKey);
    LineWithoutNewline("Endpoint = ", c.serverEndpoint);
    LineWithoutNewline("PersistentKeepalive = ", IntToString(c.persistentKeepalive));
  }

  /** The text splits into the thirteen lines: `[Interface]` first, `[Peer]` at line 7, arguments verbatim. */
  lemma ConfigLayout(c: ClientConfig)
    requires SingleLine(c)
    ensures Split(GenerateClientConfig(c), '\n') == ConfigLines(c)
  {
    ConfigLinesSingle(c);
    SplitOfJoin(ConfigLines(c), '\n');
  }

  lemma LineWithoutNewline(tag: string, value: string)
    requires forall i :: 0 <= i < |tag| ==> tag[i] != '\n'
    requires '\n' !in value
    ensures '\n' !in tag + value
  {
  }

  lemma AfterTag(tag: string, value: string)
    ensures After(tag, tag + value) == Some(value)
  {
    assert (tag + value)[..|tag|] == tag;
    assert (tag + value)[|tag|..] == value;
  }

  /** Reading the generated text back gives every argument back. */
  lemma ConfigRoundTrip(c: ClientConfig)
    requires SingleLine(c)
    ensures ParseClientConfig(GenerateClientConfig(c)) == Some(c)
  {
    ConfigLayout(c);
    AfterTag("PrivateKey = ", c.privateKey);
    AfterTag("Address = ", c.address);
    AfterTag("DNS = ", c.dns);
    AfterTag("MTU = ", IntToString(c.mtu));
    AfterTag("PublicKey = ", c.serverPublicKey);
    AfterTag("PresharedKey = ", c.presharedKey);
    AfterTag("Endpoint = ", c.serverEndpoint);
    AfterTag("PersistentKeepalive = ", IntToString(c.persistentKeepalive));
    ParseIntOfIntToString(c.mtu);
    ParseIntOfIntToString(c.persistentKeepalive);
  }
}

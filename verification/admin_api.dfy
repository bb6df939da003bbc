/**
 * The WireGuard admin API: panel users, WireGuard clients and the server
 * settings document, kept as in-memory collections keyed by id. The clock,
 * the generated keys and ids, password hashes and the peer statistics of
 * `wg show` are parameters; the peers configured on the interface are a
 * ghost map from public key to allowed address.
 */
module AdminApi {
  import opened Wrappers
  import opened Text
  import WireGuard
  import Auth
  import Models

  // ---------------------------------------------------------------- documents

  /** The status of a WireGuard client. */
  datatype ClientStatus = Active | Disabled | Expired | DataLimitReached {
    function Value(): string
    {
      match this
      case Active => "active"
      case Disabled => "disabled"
      case Expired => "expired"
      case DataLimitReached => "data_limit_reached"
    }
  }

  /**
   * A client document. `None` is a missing field: a missing `is_enabled`
   * counts as enabled, a missing `data_used` as 0. An explicit null, which
   * Python reads as disabled in `is_enabled` and on which the `data_used`
   * comparison raises a TypeError, is not modelled. Dates are timestamps in
   * seconds.
   */
  datatype ClientDoc = ClientDoc(
    name: string,
    email: Option<string>,
    privateKey: string,
    publicKey: string,
    presharedKey: string,
    address: string,
    dataLimit: Option<int>,
    expiryDate: Option<int>,
    note: Option<string>,
    isEnabled: Option<bool>,
    status: ClientStatus,
    dataUsed: Option<int>,
    createdAt: int,
    createdBy: string)

  /** A panel user document. */
  datatype AdminUser = AdminUser(username: string, hashedPassword: string, role: string, isActive: bool)

  /** A JSON value of the settings document. */
  datatype Json = JStr(s: string) | JInt(i: int) | JBool(b: bool) | JNull

  /** Python truthiness of a JSON value. */
  predicate Truthy(j: Json)
  {
    match j
    case JStr(s) => s != ""
    case JInt(i) => i != 0
    case JBool(b) => b
    case JNull => false
  }

  /** A client as `get_clients` returns it. */
  datatype ClientView = ClientView(doc: ClientDoc, isOnline: bool)

  /** The counters of `get_dashboard_stats`. */
  datatype DashboardStats = DashboardStats(
    totalClients: nat,
    activeClients: nat,
    disabledClients: nat,
    expiredClients: nat,
    totalDataUsed: int,
    onlineClients: nat)

  /** The body of `PUT /api/users/{id}`. */
  datatype UserUpdate = UserUpdate(
    username: Option<string>,
    password: Option<string>,
    role: Option<Models.UserRole>,
    isActive: Option<bool>)

  /** The body of `POST /api/clients`. */
  datatype ClientCreate = ClientCreate(
    name: string,
    email: Option<string>,
    dataLimit: Option<int>,
    expiryDate: Option<int>,
    note: Option<string>)

  /** The body of `PUT /api/clients/{id}`. */
  datatype ClientUpdate = ClientUpdate(
    name: Option<string>,
    email: Option<string>,
    dataLimit: Option<int>,
    expiryDate: Option<int>,
    note: Option<string>,
    isEnabled: Option<bool>)

  /** A panel user as returned, without its password hash. */
  datatype UserView = UserView(id: string, username: string, role: string, isActive: bool)

  /** Seconds within which a handshake makes a client online. */
  const OnlineWindow := 180

  // ---------------------------------------------------------------- status and online rules

  /** A data limit is in force when it is truthy (set and non-zero). */
  predicate HasLimit(dataLimit: Option<int>)
  {
    dataLimit.Some? && dataLimit.value != 0
  }

  /** Whether the expiry date (if any) lies before `now`. */
  predicate IsPast(expiryDate: Option<int>, now: int)
  {
    expiryDate.Some? && expiryDate.value < now
  }

  /**
   * The status `get_clients` assigns, first match wins: disabled, then expired,
   * then data limit reached, then active.
   */
  function StatusOf(isEnabled: Option<bool>, expiryDate: Option<int>, dataLimit: Option<int>,
                    dataUsed: int, now: int): (s: ClientStatus)
    ensures s == Disabled <==> isEnabled == Some(false)
    ensures s == Expired <==> isEnabled != Some(false) && IsPast(expiryDate, now)
    ensures s == DataLimitReached <==>
      isEnabled != Some(false) && !IsPast(expiryDate, now) && HasLimit(dataLimit) && dataUsed >= dataLimit.value
    ensures s == Active <==>
      isEnabled != Some(false) && !IsPast(expiryDate, now) && !(HasLimit(dataLimit) && dataUsed >= dataLimit.value)
  {
    if isEnabled == Some(false) then Disabled
    else if IsPast(expiryDate, now) then Expired
    else if HasLimit(dataLimit) && dataUsed >= dataLimit.value then DataLimitReached
    else Active
  }

  /** A limit of 0 or none never makes a client reach its data limit. */
  lemma NoLimitNeverReached(isEnabled: Option<bool>, expiryDate: Option<int>, dataLimit: Option<int>,
                            dataUsed: int, now: int)
    requires dataLimit == None || dataLimit == Some(0)
    ensures StatusOf(isEnabled, expiryDate, dataLimit, dataUsed, now) != DataLimitReached
  {
  }

  /** An expired client is reported expired however much data it used. */
  lemma ExpiryBeforeDataLimit(expiryDate: Option<int>, dataLimit: Option<int>, used1: int, used2: int, now: int)
    requires IsPast(expiryDate, now)
    ensures StatusOf(None, expiryDate, dataLimit, used1, now) == Expired
    ensures StatusOf(Some(true), expiryDate, dataLimit, used1, now) ==
            StatusOf(Some(true), expiryDate, dataLimit, used2, now)
  {
  }

  /** The online rule of `get_clients`: a handshake (not `None`) less than 180 s ago. */
  predicate OnlineInList(stats: map<string, WireGuard.PeerStats>, publicKey: string, now: int)
  {
    publicKey in stats && stats[publicKey].latestHandshake.Some? &&
    now - stats[publicKey].latestHandshake.value < OnlineWindow
  }

  /** The online rule of `get_dashboard_stats`: a truthy handshake less than 180 s ago. */
  predicate OnlineOnDashboard(stats: map<string, WireGuard.PeerStats>, publicKey: string, now: int)
  {
    publicKey in stats && stats[publicKey].latestHandshake.Some? &&
    stats[publicKey].latestHandshake.value != 0 &&
    now - stats[publicKey].latestHandshake.value < OnlineWindow
  }

  /** The two online rules agree once the clock is past the first 180 seconds of the epoch. */
  lemma OnlineRulesAgree(stats: map<string, WireGuard.PeerStats>, publicKey: string, now: int)
    requires now >= OnlineWindow
    ensures OnlineInList(stats, publicKey, now) <==> OnlineOnDashboard(stats, publicKey, now)
  {
  }

  /**
   * One iteration of the `get_clients` loop: with the peer in the stats,
   * `data_used` becomes rx + tx; then the online flag and the status are set.
   */
  function Annotate(doc: ClientDoc, stats: map<string, WireGuard.PeerStats>, now: int): (v: ClientView)
    ensures v.isOnline <==> OnlineInList(stats, doc.publicKey, now)
    ensures doc.publicKey in stats ==>
      v.doc.dataUsed == Some(stats[doc.publicKey].transferRx + stats[doc.publicKey].transferTx)
    ensures doc.publicKey !in stats ==> v.doc.dataUsed == doc.dataUsed
    ensures v.doc.status == StatusOf(doc.isEnabled, doc.expiryDate, doc.dataLimit, v.doc.dataUsed.GetOr(0), now)
    ensures v.doc == doc.(dataUsed := v.doc.dataUsed, status := v.doc.status)
  {
    var used := if doc.publicKey in stats
                then Some(stats[doc.publicKey].transferRx + stats[doc.publicKey].transferTx)
                else doc.dataUsed;
    var online := doc.publicKey in stats && stats[doc.publicKey].latestHandshake.Some? &&
                  now - stats[doc.publicKey].latestHandshake.value < OnlineWindow;
    var status := StatusOf(doc.isEnabled, doc.expiryDate, doc.dataLimit, used.GetOr(0), now);
    ClientView(doc.(dataUsed := used, status := status), online)
  }

  /** A client missing from the stats is offline and keeps its stored usage. */
  lemma UnknownPeerOffline(doc: ClientDoc, stats: map<string, WireGuard.PeerStats>, now: int)
    requires doc.publicKey !in stats
    ensures !Annotate(doc, stats, now).isOnline
    ensures Annotate(doc, stats, now).doc.dataUsed == doc.dataUsed
  {
  }

  // ---------------------------------------------------------------- dashboard counters

  /** The bucket `get_dashboard_stats` counts a client in: data-limited clients count as active. */
  function DashboardStatus(doc: ClientDoc, now: int): (s: ClientStatus)
    ensures s != DataLimitReached
    ensures forall used :: s == (if StatusOf(doc.isEnabled, doc.expiryDate, doc.dataLimit, used, now) == DataLimitReached
                                 then Active
                                 else StatusOf(doc.isEnabled, doc.expiryDate, doc.dataLimit, used, now))
  {
    if doc.isEnabled == Some(false) then Disabled
    else if IsPast(doc.expiryDate, now) then Expired
    else Active
  }

  function CountStatus(docs: seq<ClientDoc>, s: ClientStatus, now: int): (n: nat)
    ensures n <= |docs|
  {
    if docs == [] then 0
    else CountStatus(docs[..|docs| - 1], s, now) + (if DashboardStatus(docs[|docs| - 1], now) == s then 1 else 0)
  }

  function UsageOf(doc: ClientDoc, stats: map<string, WireGuard.PeerStats>): int
  {
    if doc.publicKey in stats then stats[doc.publicKey].transferRx + stats[doc.publicKey].transferTx else 0
  }

  function TotalUsage(docs: seq<ClientDoc>, stats: map<string, WireGuard.PeerStats>): int
  {
    if docs == [] then 0 else TotalUsage(docs[..|docs| - 1], stats) + UsageOf(docs[|docs| - 1], stats)
  }

  function CountOnline(docs: seq<ClientDoc>, stats: map<string, WireGuard.PeerStats>, now: int): (n: nat)
    ensures n <= |docs|
  {
    if docs == [] then 0
    else CountOnline(docs[..|docs| - 1], stats, now) +
         (if OnlineOnDashboard(stats, docs[|docs| - 1].publicKey, now) then 1 else 0)
  }

  /** The counters over a list of client documents. */
  function DashboardOf(docs: seq<ClientDoc>, stats: map<string, WireGuard.PeerStats>, now: int): DashboardStats
  {
    DashboardStats(|docs|, CountStatus(docs, Active, now), CountStatus(docs, Disabled, now),
                   CountStatus(docs, Expired, now), TotalUsage(docs, stats), CountOnline(docs, stats, now))
  }

  /** Every client is counted exactly once as disabled, expired or active. */
  lemma {:induction false} DashboardPartition(docs: seq<ClientDoc>, now: int)
    ensures CountStatus(docs, Disabled, now) + CountStatus(docs, Expired, now) + CountStatus(docs, Active, now) == |docs|
  {
    if docs != [] {
      DashboardPartition(docs[..|docs| - 1], now);
    }
  }

  /** Without peer statistics nothing is used and nobody is online. */
  lemma {:induction false} DashboardWithoutStats(docs: seq<ClientDoc>, now: int)
    ensures TotalUsage(docs, map[]) == 0 && CountOnline(docs, map[], now) == 0
  {
    if docs != [] {
      DashboardWithoutStats(docs[..|docs| - 1], now);
    }
  }

  // ---------------------------------------------------------------- partial updates and settings

  /** `update_client`'s `$set`: each field given (not `None`) replaces the stored one. */
  function ApplyClientUpdate(doc: ClientDoc, u: ClientUpdate): (r: ClientDoc)
    ensures r.name == u.name.GetOr(doc.name)
    ensures r.email == (if u.email.Some? then u.email else doc.email)
    ensures r.dataLimit == (if u.dataLimit.Some? then u.dataLimit else doc.dataLimit)
    ensures r.expiryDate == (if u.expiryDate.Some? then u.expiryDate else doc.expiryDate)
    ensures r.note == (if u.note.Some? then u.note else doc.note)
    ensures r.isEnabled == (if u.isEnabled.Some? then u.isEnabled else doc.isEnabled)
    ensures r.(name := doc.name, email := doc.email, dataLimit := doc.dataLimit, expiryDate := doc.expiryDate,
               note := doc.note, isEnabled := doc.isEnabled) == doc
  {
    doc.(name := u.name.GetOr(doc.name),
         email := if u.email.Some? then u.email else doc.email,
         dataLimit := if u.dataLimit.Some? then u.dataLimit else doc.dataLimit,
         expiryDate := if u.expiryDate.Some? then u.expiryDate else doc.expiryDate,
         note := if u.note.Some? then u.note else doc.note,
         isEnabled := if u.isEnabled.Some? then u.isEnabled else doc.isEnabled)
  }

  const NoClientChange := ClientUpdate(None, None, None, None, None, None)

  /** An update with nothing given changes nothing; applying an update twice is applying it once. */
  lemma ClientUpdateLaws(doc: ClientDoc, u: ClientUpdate)
    ensures ApplyClientUpdate(doc, NoClientChange) == doc
    ensures ApplyClientUpdate(ApplyClientUpdate(doc, u), u) == ApplyClientUpdate(doc, u)
  {
  }

  /** `update_user`'s `$set`: each field given replaces the stored one; the password is stored hashed. */
  function ApplyUserUpdate(user: AdminUser, u: UserUpdate, passwordHash: string): (r: AdminUser)
    ensures r.username == u.username.GetOr(user.username)
    ensures r.hashedPassword == (if u.password.Some? then passwordHash else user.hashedPassword)
    ensures r.role == (if u.role.Some? then u.role.value.Value() else user.role)
    ensures r.isActive == u.isActive.GetOr(user.isActive)
  {
    AdminUser(u.username.GetOr(user.username),
              if u.password.Some? then passwordHash else user.hashedPassword,
              if u.role.Some? then u.role.value.Value() else user.role,
              u.isActive.GetOr(user.isActive))
  }

  lemma UserUpdateNothing(user: AdminUser, passwordHash: string)
    ensures ApplyUserUpdate(user, UserUpdate(None, None, None, None), passwordHash) == user
  {
  }

  /** The keys `update_settings` accepts. */
  const AllowedSettings: set<string> := {"server_name", "endpoint", "wg_port", "wg_dns", "mtu", "persistent_keepalive"}

  /** `update_settings`' comprehension: the given keys that are whitelisted, with their values. */
  function Whitelisted(update: map<string, Json>): (w: map<string, Json>)
    ensures w.Keys == update.Keys * AllowedSettings
    ensures forall k :: k in w ==> w[k] == update[k]
  {
    map k | k in update && k in AllowedSettings :: update[k]
  }

  /** No request can reach the keys, the address or the network of the server through the whitelist. */
  lemma WhitelistProtects(update: map<string, Json>)
    ensures "server_private_key" !in Whitelisted(update)
    ensures "server_public_key" !in Whitelisted(update)
    ensures "server_address" !in Whitelisted(update)
    ensures "wg_network" !in Whitelisted(update)
    ensures Whitelisted(Whitelisted(update)) == Whitelisted(update)
  {
  }

  /** `settings.pop("server_private_key", None)`. */
  function WithoutPrivateKey(settings: map<string, Json>): (r: map<string, Json>)
    ensures "server_private_key" !in r
    ensures r.Keys == settings.Keys - {"server_private_key"}
    ensures forall k :: k in r ==> r[k] == settings[k]
  {
    settings - {"server_private_key"}
  }

  // ---------------------------------------------------------------- listings

  predicate Distinct(ids: seq<string>)
  {
    forall i, j :: 0 <= i < j < |ids| ==> ids[i] != ids[j]
  }

  /** `ids` lists every key of the collection exactly once, in some order. */
  ghost predicate Listing(ids: seq<string>, keys: set<string>)
  {
    Distinct(ids) && (forall k :: k in keys <==> k in ids)
  }

  /** The text before the prefix length: the address part compared by `create_client`. */
  function AddressPart(address: string): string
  {
    Before(address, '/')
  }

  /** Every client's address part, and the server's when known. */
  function UsedBy(clients: map<string, ClientDoc>, server: Option<string>): (used: set<string>)
    ensures forall id :: id in clients ==> AddressPart(clients[id].address) in used
    ensures server.Some? ==> server.value in used
  {
    (set id | id in clients :: AddressPart(clients[id].address)) + (if server.Some? then {server.value} else {})
  }

  ghost predicate DistinctAddresses(clients: map<string, ClientDoc>, server: Option<string>)
  {
    (forall a, b :: a in clients && b in clients && a != b ==>
       AddressPart(clients[a].address) != AddressPart(clients[b].address)) &&
    (server.Some? ==> forall a :: a in clients ==> AddressPart(clients[a].address) != server.value)
  }

  /** The address part of the `server_address` setting, when it is a string. */
  function ServerPart(settings: Option<map<string, Json>>): (r: Option<string>)
    ensures r.Some? ==> settings.Some? && "server_address" in settings.value
  {
    if settings.Some? && "server_address" in settings.value && settings.value["server_address"].JStr?
    then Some(AddressPart(settings.value["server_address"].s))
    else None
  }

  /** A settings update through the whitelist leaves the server address alone. */
  lemma WhitelistKeepsServer(settings: map<string, Json>, update: map<string, Json>)
    ensures ServerPart(Some(settings + Whitelisted(update))) == ServerPart(Some(settings))
  {
    assert "server_address" !in Whitelisted(update);
  }

  /** Changing clients without touching any address keeps the addresses apart. */
  lemma KeepAddresses(before: map<string, ClientDoc>, after: map<string, ClientDoc>, server: Option<string>)
    requires DistinctAddresses(before, server) && after.Keys == before.Keys
    requires forall k :: k in before ==> after[k].address == before[k].address
    ensures DistinctAddresses(after, server)
  {
  }

  /** A client whose address part is unused keeps every address apart. */
  lemma InsertUnused(clients: map<string, ClientDoc>, server: Option<string>, id: string, doc: ClientDoc)
    requires DistinctAddresses(clients, server) && id !in clients
    requires AddressPart(doc.address) !in UsedBy(clients, server)
    ensures DistinctAddresses(clients[id := doc], server)
  {
  }

  /** Settings `create_client` can allocate from: a truthy endpoint, and the server address and network as strings. */
  predicate Allocatable(s: map<string, Json>)
  {
    "endpoint" in s && Truthy(s["endpoint"]) &&
    "server_address" in s && s["server_address"].JStr? && "wg_network" in s && s["wg_network"].JStr?
  }

  /**
   * `str(e)` of what `settings["server_address"].split("/")` raises, outside
   * any `try`: a KeyError for a missing key, an AttributeError for a value
   * that is not a string; `None` when the split succeeds.
   */
  function ServerAddressFault(s: map<string, Json>): (fault: Option<string>)
    ensures fault.None? <==> "server_address" in s && s["server_address"].JStr?
    ensures fault.Some? ==> |fault.value| > 0 && fault.value[0] == '\''
  {
    if "server_address" !in s then Some("'server_address'")
    else match s["server_address"]
      case JStr(_) => None
      case JInt(_) => Some("'int' object has no attribute 'split'")
      case JBool(_) => Some("'bool' object has no attribute 'split'")
      case JNull => Some("'NoneType' object has no attribute 'split'")
  }

  /**
   * `str(e)` of what `get_next_ip(settings["wg_network"], …)` raises when the
   * network is not a string, all inside the `try` that answers 400: a
   * KeyError for a missing key; `ip_network(None)`'s ValueError; and for a
   * bool or an integer below 2^128, a one-address network (an IPv4 /32 or an
   * IPv6 /128) whose only host is the skipped first one.
   */
  function NetworkFault(s: map<string, Json>): (detail: string)
    requires !("wg_network" in s && s["wg_network"].JStr?)
    ensures detail == WireGuard.NoAddressError <==>
      "wg_network" in s && (s["wg_network"].JBool? || (s["wg_network"].JInt? && 0 <= s["wg_network"].i < Pow2Of128))
  {
    if "wg_network" !in s then "'wg_network'"
    else match s["wg_network"]
      case JNull => NullNetworkError
      case JBool(_) => WireGuard.NoAddressError
      case JInt(i) =>
        if 0 <= i < Pow2Of128 then WireGuard.NoAddressError
        else IntToString(i) + " does not appear to be an IPv4 or IPv6 network"
  }

  const Pow2Of128: int := 0x1_0000_0000_0000_0000_0000_0000_0000_0000
  const NullNetworkError := "None does not appear to be an IPv4 or IPv6 network"

  /** The address a `create_client` answer carries, or the detail of its failure. */
  function AddressOutcome(r: Result<ClientDoc, Auth.HttpError>): (o: Result<string, string>)
    ensures o.Ok? <==> r.Ok?
    ensures r.Ok? ==> o.value == r.value.address
    ensures r.Err? ==> o.error == r.error.detail
  {
    match r
    case Ok(doc) => Ok(doc.address)
    case Err(e) => Err(e.detail)
  }

  /**
   * `get_next_ip` as `create_client` relies on it: a network that does not
   * parse fails; otherwise the answer is the lowest free host after the first,
   * and an exhausted network fails.
   */
  method Allocate(network: string, used: set<string>) returns (r: Result<string, string>)
    ensures WireGuard.ParseCidr(network).None? ==> r == Err(WireGuard.InvalidNetworkError(network))
    ensures WireGuard.ParseCidr(network).Some? ==>
      WireGuard.NextIpSpec(WireGuard.HostNames(WireGuard.ParseCidr(network).value), used, r)
    ensures r.Ok? ==> AddressPart(r.value) !in used
    ensures r.Ok? ==> exists h :: h in WireGuard.HostNames(WireGuard.ParseCidr(network).value) && r.value == h + "/32"
  {
    r := WireGuard.GetNextIp(network, used);
  }

  /** One iteration of the `get_clients` loop. */
  method AnnotateClient(doc: ClientDoc, stats: map<string, WireGuard.PeerStats>, now: int) returns (v: ClientView)
    ensures v == Annotate(doc, stats, now)
  {
    var used := doc.dataUsed;
    var online := false;
    if doc.publicKey in stats {
      var peer := stats[doc.publicKey];
      used := Some(peer.transferRx + peer.transferTx);
      online := peer.latestHandshake.Some? && now - peer.latestHandshake.value < OnlineWindow;
    }
    var status;
    if doc.isEnabled == Some(false) {
      status := Disabled;
    } else if doc.expiryDate.Some? && doc.expiryDate.value < now {
      status := Expired;
    } else if doc.dataLimit.Some? && doc.dataLimit.value != 0 && used.GetOr(0) >= doc.dataLimit.value {
      status := DataLimitReached;
    } else {
      status := Active;
    }
    v := ClientView(doc.(dataUsed := used, status := status), online);
  }

  /** The dashboard counters of a prefix grow by the next client's contribution. */
  lemma TallyStep(docs: seq<ClientDoc>, i: nat, stats: map<string, WireGuard.PeerStats>, now: int)
    requires i < |docs|
    ensures CountStatus(docs[..i + 1], Active, now) ==
      CountStatus(docs[..i], Active, now) + (if DashboardStatus(docs[i], now) == Active then 1 else 0)
    ensures CountStatus(docs[..i + 1], Disabled, now) ==
      CountStatus(docs[..i], Disabled, now) + (if DashboardStatus(docs[i], now) == Disabled then 1 else 0)
    ensures CountStatus(docs[..i + 1], Expired, now) ==
      CountStatus(docs[..i], Expired, now) + (if DashboardStatus(docs[i], now) == Expired then 1 else 0)
    ensures TotalUsage(docs[..i + 1], stats) == TotalUsage(docs[..i], stats) + UsageOf(docs[i], stats)
    ensures CountOnline(docs[..i + 1], stats, now) ==
      CountOnline(docs[..i], stats, now) + (if OnlineOnDashboard(stats, docs[i].publicKey, now) then 1 else 0)
  {
    assert docs[..i + 1][..i] == docs[..i];
  }

  class Panel {
    var users: map<string, AdminUser>
    var clients: map<string, ClientDoc>
    var settings: Option<map<string, Json>>
    ghost var peers: map<string, string>

    constructor (users0: map<string, AdminUser>, clients0: map<string, ClientDoc>, settings0: Option<map<string, Json>>)
      ensures users == users0 && clients == clients0 && settings == settings0 && peers == map[]
    {
      users := users0;
      clients := clients0;
      settings := settings0;
      peers := map[];
    }

    /** The address part of `settings["server_address"]`, when the settings hold one. */
    function ServerAddressPart(): (r: Option<string>)
      reads this
      ensures r.Some? ==> settings.Some? && "server_address" in settings.value
    {
      ServerPart(settings)
    }

    /** The address parts `create_client` treats as used. */
    function UsedAddresses(): (used: set<string>)
      reads this
      ensures forall id :: id in clients ==> AddressPart(clients[id].address) in used
      ensures ServerAddressPart().Some? ==> ServerAddressPart().value in used
    {
      UsedBy(clients, ServerAddressPart())
    }

    /** No two clients share an address, and none has the server's. */
    ghost predicate AddressesDistinct()
      reads this
    {
      DistinctAddresses(clients, ServerAddressPart())
    }

    /** `list(clients_collection.find({}))`: every client document once, in some order. */
    method ListClients() returns (docs: seq<ClientDoc>, ghost ids: seq<string>)
      ensures Listing(ids, clients.Keys) && |ids| == |clients|
      ensures |docs| == |ids| && forall i :: 0 <= i < |ids| ==> docs[i] == clients[ids[i]]
    {
      docs, ids := [], [];
      var rest := clients.Keys;
      while rest != {}
        invariant rest <= clients.Keys
        invariant forall k :: k in clients.Keys <==> k in rest || k in ids
        invariant forall k :: k in rest ==> k !in ids
        invariant Distinct(ids) && |ids| + |rest| == |clients|
        invariant |docs| == |ids| && forall i :: 0 <= i < |ids| ==> docs[i] == clients[ids[i]]
        decreases |rest|
      {
        var k :| k in rest;
        docs, ids := docs + [clients[k]], ids + [k];
        rest := rest - {k};
      }
    }

    /** `get_clients`: every client annotated with its usage, online flag and status. */
    method GetClients(stats: map<string, WireGuard.PeerStats>, now: int) returns (views: seq<ClientView>, ghost ids: seq<string>)
      ensures Listing(ids, clients.Keys) && |views| == |ids|
      ensures forall i :: 0 <= i < |ids| ==> views[i] == Annotate(clients[ids[i]], stats, now)
    {
      var docs;
      docs, ids := ListClients();
      views := [];
      var i := 0;
      while i < |docs|
        invariant 0 <= i <= |docs|
        invariant |views| == i && forall j :: 0 <= j < i ==> views[j] == Annotate(docs[j], stats, now)
      {
        var v := AnnotateClient(docs[i], stats, now);
        views := views + [v];
        i := i + 1;
      }
    }

    /** `get_dashboard_stats`: the counters accumulated over every client. */
    method GetDashboardStats(stats: map<string, WireGuard.PeerStats>, now: int)
      returns (d: DashboardStats, ghost docs: seq<ClientDoc>, ghost ids: seq<string>)
      ensures Listing(ids, clients.Keys) && |docs| == |ids|
      ensures forall i :: 0 <= i < |ids| ==> docs[i] == clients[ids[i]]
      ensures d == DashboardOf(docs, stats, now)
      ensures d.totalClients == |clients|
      ensures d.disabledClients + d.expiredClients + d.activeClients == d.totalClients
    {
      var all;
      all, ids := ListClients();
      docs := all;
      var active, disabled, expired, totalData, online := 0, 0, 0, 0, 0;
      var i := 0;
      while i < |all|
        invariant 0 <= i <= |all| && docs == all
        invariant active == CountStatus(docs[..i], Active, now)
        invariant disabled == CountStatus(docs[..i], Disabled, now)
        invariant expired == CountStatus(docs[..i], Expired, now)
        invariant totalData == TotalUsage(docs[..i], stats)
        invariant online == CountOnline(docs[..i], stats, now)
      {
        var doc := all[i];
        TallyStep(docs, i, stats, now);
        if doc.isEnabled == Some(false) {
          disabled := disabled + 1;
        } else if doc.expiryDate.Some? && doc.expiryDate.value < now {
          expired := expired + 1;
        } else {
          active := active + 1;
        }
        if doc.publicKey in stats {
          var peer := stats[doc.publicKey];
          totalData := totalData + (peer.transferRx + peer.transferTx);
          if peer.latestHandshake.Some? && peer.latestHandshake.value != 0 &&
             now - peer.latestHandshake.value < OnlineWindow {
            online := online + 1;
          }
        }
        i := i + 1;
      }
      assert docs[..i] == docs;
      d := DashboardStats(|all|, active, disabled, expired, totalData, online);
      DashboardPartition(docs, now);
    }

    /**
     * `create_client`: the next free address of the server network, skipping
     * every client's address and the server's own; the new client is enabled,
     * active, has used nothing and is added as a peer.
     */
    method CreateClient(c: ClientCreate, id: string, privateKey: string, publicKey: string, presharedKey: string,
                        userId: string, now: int)
      returns (r: Result<ClientDoc, Auth.HttpError>)
      requires id !in clients
      modifies this
      ensures settings == old(settings) && users == old(users)
      ensures old(settings).None? ==> r == Err(Auth.HttpError(500, "Server settings not found"))
      ensures old(settings).Some? && !("endpoint" in old(settings).value && Truthy(old(settings).value["endpoint"])) ==>
        r.Err? && r.error.status == 400
      ensures old(settings).Some? && "endpoint" in old(settings).value && Truthy(old(settings).value["endpoint"]) &&
              ServerAddressFault(old(settings).value).Some? ==>
        r == Err(Auth.HttpError(500, ServerAddressFault(old(settings).value).value))
      ensures old(settings).Some? && "endpoint" in old(settings).value && Truthy(old(settings).value["endpoint"]) &&
              ServerAddressFault(old(settings).value).None? &&
              !("wg_network" in old(settings).value && old(settings).value["wg_network"].JStr?) ==>
        r == Err(Auth.HttpError(400, NetworkFault(old(settings).value)))
      ensures old(settings).Some? && Allocatable(old(settings).value) ==>
        var network := old(settings).value["wg_network"].s;
        (WireGuard.ParseCidr(network).None? ==> r == Err(Auth.HttpError(400, WireGuard.InvalidNetworkError(network)))) &&
        (WireGuard.ParseCidr(network).Some? ==>
          WireGuard.NextIpSpec(WireGuard.HostNames(WireGuard.ParseCidr(network).value), old(UsedAddresses()), AddressOutcome(r)) &&
          (r.Err? ==> r.error.status == 400))
      ensures r.Err? ==> clients == old(clients) && peers == old(peers)
      ensures r.Ok? ==>
        clients == old(clients)[id := r.value] && peers == old(peers)[publicKey := r.value.address] &&
        AddressPart(r.value.address) !in old(UsedAddresses()) &&
        r.value == ClientDoc(c.name, c.email, privateKey, publicKey, presharedKey, r.value.address,
                             c.dataLimit, c.expiryDate, c.note, Some(true), Active, Some(0), now, userId)
      ensures old(AddressesDistinct()) ==> AddressesDistinct()
    {
      if settings.None? {
        return Err(Auth.HttpError(500, "Server settings not found"));
      }
      var s := settings.value;
      if !("endpoint" in s && Truthy(s["endpoint"])) {
        return Err(Auth.HttpError(400, "Server endpoint not configured. Please set it in settings."));
      }
      var fault := ServerAddressFault(s);
      if fault.Some? {
        return Err(Auth.HttpError(500, fault.value));
      }
      if !("wg_network" in s && s["wg_network"].JStr?) {
        return Err(Auth.HttpError(400, NetworkFault(s)));
      }
      var used := UsedAddresses();
      var next := Allocate(s["wg_network"].s, used);
      if next.Err? {
        r := Err(Auth.HttpError(400, next.error));
        assert AddressOutcome(r) == next;
        return;
      }
      var doc := ClientDoc(c.name, c.email, privateKey, publicKey, presharedKey, next.value,
                           c.dataLimit, c.expiryDate, c.note, Some(true), Active, Some(0), now, userId);
      AddClient(id, doc);
      r := Ok(doc);
      assert AddressOutcome(r) == next;
    }

    /** `add_peer` followed by `insert_one` for a client whose address part is unused. */
    method AddClient(id: string, doc: ClientDoc)
      requires id !in clients && AddressPart(doc.address) !in UsedAddresses()
      modifies this
      ensures users == old(users) && settings == old(settings)
      ensures clients == old(clients)[id := doc] && peers == old(peers)[doc.publicKey := doc.address]
      ensures old(AddressesDistinct()) ==> AddressesDistinct()
    {
      if AddressesDistinct() {
        InsertUnused(clients, ServerAddressPart(), id, doc);
      }
      peers := peers[doc.publicKey := doc.address];
      clients := clients[id := doc];
    }

    /** `update_user`: 404 for an unknown id, 400 for a username another user has, else the partial update. */
    method UpdateUser(id: string, u: UserUpdate, passwordHash: string) returns (r: Result<UserView, Auth.HttpError>)
      modifies this
      ensures clients == old(clients) && settings == old(settings) && peers == old(peers)
      ensures id !in old(users) ==> r == Err(Auth.HttpError(404, "User not found")) && users == old(users)
      ensures id in old(users) && u.username.Some? &&
              (exists other :: other in old(users) && other != id && old(users)[other].username == u.username.value) ==>
              r == Err(Auth.HttpError(400, "Username already exists")) && users == old(users)
      ensures r.Ok? <==>
                id in old(users) &&
                !(u.username.Some? && exists other :: other in old(users) && other != id && old(users)[other].username == u.username.value)
      ensures r.Err? ==> users == old(users)
      ensures r.Ok? ==> id in old(users) && users == old(users)[id := ApplyUserUpdate(old(users)[id], u, passwordHash)]
      ensures r.Ok? ==> r.value == UserView(id, users[id].username, users[id].role, users[id].isActive)
      ensures id in old(users) && u == UserUpdate(None, None, None, None) ==> users == old(users) && r.Ok?
    {
      if id !in users {
        return Err(Auth.HttpError(404, "User not found"));
      }
      if u.username.Some? && exists other :: other in users && other != id && users[other].username == u.username.value {
        return Err(Auth.HttpError(400, "Username already exists"));
      }
      if u != UserUpdate(None, None, None, None) {
        users := users[id := ApplyUserUpdate(users[id], u, passwordHash)];
      } else {
        UserUpdateNothing(users[id], passwordHash);
      }
      var user := users[id];
      return Ok(UserView(id, user.username, user.role, user.isActive));
    }

    /** `delete_user`: deleting one's own account is refused with 400, an unknown id with 404. */
    method DeleteUser(id: string, currentUserId: string) returns (r: Result<string, Auth.HttpError>)
      modifies this
      ensures clients == old(clients) && settings == old(settings) && peers == old(peers)
      ensures id == currentUserId ==> r == Err(Auth.HttpError(400, "Cannot delete your own account"))
      ensures id != currentUserId && id !in old(users) ==> r == Err(Auth.HttpError(404, "User not found"))
      ensures r.Err? ==> users == old(users)
      ensures r.Ok? <==> id != currentUserId && id in old(users)
      ensures r.Ok? ==> users == old(users) - {id}
    {
      if id == currentUserId {
        return Err(Auth.HttpError(400, "Cannot delete your own account"));
      }
      if id !in users {
        return Err(Auth.HttpError(404, "User not found"));
      }
      users := users - {id};
      return Ok("User deleted successfully");
    }

    /** `update_client`: the partial update; a given `is_enabled` adds or removes the peer. */
    method UpdateClient(id: string, u: ClientUpdate) returns (r: Result<ClientDoc, Auth.HttpError>)
      modifies this
      ensures users == old(users) && settings == old(settings)
      ensures id !in old(clients) ==> r == Err(Auth.HttpError(404, "Client not found"))
      ensures r.Ok? <==> id in old(clients)
      ensures r.Err? ==> clients == old(clients) && peers == old(peers)
      ensures r.Ok? ==>
        id in old(clients) && clients == old(clients)[id := ApplyClientUpdate(old(clients)[id], u)] &&
        r.value == clients[id]
      ensures r.Ok? && u.isEnabled == Some(true) ==>
        peers == old(peers)[old(clients)[id].publicKey := old(clients)[id].address]
      ensures r.Ok? && u.isEnabled == Some(false) ==> peers == old(peers) - {old(clients)[id].publicKey}
      ensures u.isEnabled.None? ==> peers == old(peers)
      ensures old(AddressesDistinct()) ==> AddressesDistinct()
    {
      if id !in clients {
        return Err(Auth.HttpError(404, "Client not found"));
      }
      var doc := clients[id];
      if u.isEnabled.Some? {
        SetPeer(doc, u.isEnabled.value);
      }
      if u != NoClientChange {
        var updated := ApplyClientUpdate(doc, u);
        if AddressesDistinct() {
          KeepAddresses(clients, clients[id := updated], ServerAddressPart());
        }
        clients := clients[id := updated];
      } else {
        ClientUpdateLaws(doc, u);
      }
      return Ok(clients[id]);
    }

    /** `add_peer` when `enabled`, else `remove_peer`, for the client's public key. */
    method SetPeer(doc: ClientDoc, enabled: bool)
      modifies this
      ensures users == old(users) && clients == old(clients) && settings == old(settings)
      ensures peers == if enabled then old(peers)[doc.publicKey := doc.address] else old(peers) - {doc.publicKey}
    {
      if enabled {
        peers := peers[doc.publicKey := doc.address];
      } else {
        peers := peers - {doc.publicKey};
      }
    }

    /** `delete_client`: 404 for an unknown id; otherwise the peer and the document go. */
    method DeleteClient(id: string) returns (r: Result<string, Auth.HttpError>)
      modifies this
      ensures users == old(users) && settings == old(settings)
      ensures r.Err? <==> id !in old(clients)
      ensures r.Err? ==> clients == old(clients) && peers == old(peers)
      ensures r.Ok? ==> clients == old(clients) - {id} && peers == old(peers) - {old(clients)[id].publicKey}
      ensures old(AddressesDistinct()) ==> AddressesDistinct()
    {
      if id !in clients {
        return Err(Auth.HttpError(404, "Client not found"));
      }
      peers := peers - {clients[id].publicKey};
      clients := clients - {id};
      return Ok("Client deleted successfully");
    }

    /** `reset_client_data`: `data_used` becomes 0 and nothing else changes. */
    method ResetClientData(id: string) returns (r: Result<string, Auth.HttpError>)
      modifies this
      ensures users == old(users) && settings == old(settings) && peers == old(peers)
      ensures r.Err? <==> id !in old(clients)
      ensures r.Err? ==> clients == old(clients)
      ensures r.Ok? ==> clients == old(clients)[id := old(clients)[id].(dataUsed := Some(0))]
      ensures old(AddressesDistinct()) ==> AddressesDistinct()
    {
      if id !in clients {
        return Err(Auth.HttpError(404, "Client not found"));
      }
      var reset := clients[id := clients[id].(dataUsed := Some(0))];
      if AddressesDistinct() {
        KeepAddresses(clients, reset, ServerAddressPart());
      }
      clients := reset;
      return Ok("Data usage reset successfully");
    }

    /** `get_settings`: the settings without the private key, 404 when there are none. */
    function GetSettings(): (r: Result<map<string, Json>, Auth.HttpError>)
      reads this
      ensures r.Err? <==> settings.None?
      ensures r.Ok? ==> "server_private_key" !in r.value && r.value == WithoutPrivateKey(settings.value)
    {
      if settings.None? then Err(Auth.HttpError(404, "Settings not found")) else Ok(WithoutPrivateKey(settings.value))
    }

    /**
     * `update_settings`: only whitelisted keys are written (nothing when none is
     * given); the answer never holds the private key. Without a settings
     * document nothing is written and the handler fails.
     */
    method UpdateSettings(update: map<string, Json>) returns (r: Result<map<string, Json>, Auth.HttpError>)
      modifies this
      ensures users == old(users) && clients == old(clients) && peers == old(peers)
      ensures old(settings).None? ==> settings == old(settings) && r.Err?
      ensures r.Ok? <==> old(settings).Some?
      ensures old(settings).Some? ==> settings == Some(old(settings).value + Whitelisted(update))
      ensures old(settings).Some? ==> forall k :: k !in AllowedSettings && k in old(settings).value ==>
        k in settings.value && settings.value[k] == old(settings).value[k]
      ensures r.Ok? ==> settings.Some? && r.value == WithoutPrivateKey(settings.value)
      ensures old(AddressesDistinct()) ==> AddressesDistinct()
    {
      var updateData := map k | k in update && k in AllowedSettings :: update[k];
      if updateData != map[] && settings.Some? {
        WhitelistKeepsServer(settings.value, update);
        settings := Some(settings.value + updateData);
      }
      if settings.None? {
        return Err(Auth.HttpError(500, "'NoneType' object has no attribute 'pop'"));
      }
      if updateData == map[] {
        assert settings.value + updateData == settings.value;
      }
      return Ok(settings.value - {"server_private_key"});
    }
  }


}

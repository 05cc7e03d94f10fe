/**
 * The location helpers of the CLI (src/actions/location.go): which locations
 * are premium, the country filter and the sort behind `location list`, the
 * table rows it prints, and the WireGuard configuration SetLocation writes.
 */
module Locations {
  import opened Wrappers
  import opened GoStrings

  /** The two locations free users may connect to. */
  const Falkenstein: string := "b134d679-8697-4dc6-b629-c4c189392fca"
  const Helsinki: string := "7fc5b17c-eddf-413f-8b37-9d36eb5e33ec"

  /** A location of the API, as far as the CLI reads it. */
  datatype Location = Location(id: string, name: string, countryName: string)

  /** A location together with whether it needs a premium subscription. */
  datatype LocationWrapper = LocationWrapper(location: Location, premium: bool)

  /** Every location except Helsinki and Falkenstein needs premium, the one with an empty id included. */
  function IsPremiumLocation(l: Location): (premium: bool)
    ensures premium <==> l.id != Helsinki && l.id != Falkenstein
  {
    if l.id == Helsinki || l.id == Falkenstein then false
    else if l.id == "" then true
    else true
  }

  lemma EmptyIdIsPremium(l: Location)
    requires l.id == ""
    ensures IsPremiumLocation(l)
  {
    assert |l.id| != |Helsinki| && |l.id| != |Falkenstein|;
  }

  function Wrap(l: Location): LocationWrapper {
    LocationWrapper(l, IsPremiumLocation(l))
  }

  /** The wrappers of a list of locations: one per location, in the same order. */
  function Wrapped(locations: seq<Location>): (wrappers: seq<LocationWrapper>)
    ensures |wrappers| == |locations|
  {
    seq(|locations|, i requires 0 <= i < |locations| => Wrap(locations[i]))
  }

  /** GetLocationWrappers: one wrapper per location, in the same order, marked by IsPremiumLocation. */
  method GetLocationWrappers(locations: seq<Location>) returns (wrappers: seq<LocationWrapper>)
    ensures wrappers == Wrapped(locations)
    ensures |wrappers| == |locations|
    ensures forall i :: 0 <= i < |locations| ==> wrappers[i] == Wrap(locations[i])
    ensures forall i :: 0 <= i < |locations| ==> (wrappers[i].premium <==> locations[i].id != Helsinki && locations[i].id != Falkenstein)
  {
    wrappers := [];
    for i := 0 to |locations|
      invariant |wrappers| == i
      invariant forall k :: 0 <= k < i ==> wrappers[k] == Wrap(locations[k])
    {
      wrappers := wrappers + [Wrap(locations[i])];
    }
  }

  // ---------------------------------------------------------------------------
  // The country filter
  // ---------------------------------------------------------------------------

  predicate InCountry(l: Location, country: string) {
    EqualFold(l.countryName, country)
  }

  /** The locations whose country name equals `country` up to case, in their original order. */
  function ByCountry(locations: seq<Location>, country: string): (r: seq<Location>)
    ensures |r| <= |locations|
    ensures forall i :: 0 <= i < |r| ==> r[i] in locations && InCountry(r[i], country)
    decreases |locations|
  {
    if locations == [] then []
    else
      var init := ByCountry(locations[..|locations| - 1], country);
      var last := locations[|locations| - 1];
      if InCountry(last, country) then init + [last] else init
  }

  /** filterLocationsByCountry. */
  method FilterLocationsByCountry(locations: seq<Location>, country: string) returns (byCountry: seq<Location>)
    ensures byCountry == ByCountry(locations, country)
  {
    byCountry := [];
    for i := 0 to |locations|
      invariant byCountry == ByCountry(locations[..i], country)
    {
      assert locations[..i + 1][..i] == locations[..i];
      if InCountry(locations[i], country) {
        byCountry := byCountry + [locations[i]];
      }
    }
    assert locations[..|locations|] == locations;
  }

  /** The filter keeps every matching location as often as it occurs, and nothing else. */
  lemma {:induction false} ByCountryCounts(locations: seq<Location>, country: string, l: Location)
    ensures multiset(ByCountry(locations, country))[l] == if InCountry(l, country) then multiset(locations)[l] else 0
    decreases |locations|
  {
    if locations != [] {
      var init := locations[..|locations| - 1];
      ByCountryCounts(init, country, l);
      assert locations == init + [locations[|locations| - 1]];
    }
  }

  /** The filter keeps the order: filtering a concatenation concatenates the filtered parts. */
  lemma {:induction false} ByCountryAppend(a: seq<Location>, b: seq<Location>, country: string)
    ensures ByCountry(a + b, country) == ByCountry(a, country) + ByCountry(b, country)
    decreases |b|
  {
    if b == [] {
      assert a + b == a;
    } else {
      var init := b[..|b| - 1];
      ByCountryAppend(a, init, country);
      assert (a + b)[..|a + b| - 1] == a + init;
    }
  }

  // ---------------------------------------------------------------------------
  // The sort
  // ---------------------------------------------------------------------------

  /** The comparator handed to sort.Slice: both the name and the country name must be smaller. */
  function SortsBefore(x: Location, y: Location): (before: bool)
    ensures before ==> x.name != y.name && x.countryName != y.countryName
  {
    Less(x.name, y.name) && Less(x.countryName, y.countryName)
  }

  predicate Incomparable(x: Location, y: Location) {
    !SortsBefore(x, y) && !SortsBefore(y, x)
  }

  /** The comparator is no strict weak order: being incomparable is not transitive, so no order is promised. */
  lemma ComparatorNotStrictWeakOrder()
    ensures Incomparable(Location("", "a", "a"), Location("", "b", "a"))
    ensures Incomparable(Location("", "b", "a"), Location("", "b", "b"))
    ensures SortsBefore(Location("", "a", "a"), Location("", "b", "b"))
  {
    assert Less("a", "b") && !Less("a", "a") && !Less("b", "b") && !Less("b", "a");
  }

  /** sortLocations: rearranges the slice in place; with this comparator only the rearrangement is certain. */
  method SortLocations(a: array<Location>)
    modifies a
    ensures multiset(a[..]) == multiset(old(a[..]))
  {
    var i := 1;
    while i < a.Length
      invariant multiset(a[..]) == multiset(old(a[..]))
    {
      var j := i;
      while 0 < j && SortsBefore(a[j], a[j - 1])
        invariant 0 <= j <= i < a.Length
        invariant multiset(a[..]) == multiset(old(a[..]))
      {
        a[j - 1], a[j] := a[j], a[j - 1];
        j := j - 1;
      }
      i := i + 1;
    }
  }

  // ---------------------------------------------------------------------------
  // location list
  // ---------------------------------------------------------------------------

  /** The locations `location list` shows: the country filter applies only to a non-empty country. */
  function Chosen(locations: seq<Location>, country: string): seq<Location> {
    if |country| > 0 then ByCountry(locations, country) else locations
  }

  /** One table row: City, Country, UUID and a "*" in the Premium column. */
  function Row(w: LocationWrapper): (row: seq<string>)
    ensures |row| == 4
    ensures row[..3] == [w.location.name, w.location.countryName, w.location.id]
    ensures row[3] == "*" <==> w.premium
  {
    [w.location.name, w.location.countryName, w.location.id, if w.premium then "*" else ""]
  }

  function Rows(shown: seq<Location>): (rows: seq<seq<string>>)
    ensures |rows| == |shown|
    ensures forall i :: 0 <= i < |shown| ==> |rows[i]| == 4 && rows[i][2] == shown[i].id && (rows[i][3] == "*" <==> IsPremiumLocation(shown[i]))
  {
    seq(|shown|, i requires 0 <= i < |shown| => Row(Wrap(shown[i])))
  }

  /** The Premium column is marked exactly for the locations other than Helsinki and Falkenstein. */
  lemma RowMarksPremium(l: Location)
    ensures Row(Wrap(l))[3] == "*" <==> l.id != Helsinki && l.id != Falkenstein
  {
    assert "" != "*";
  }

  /**
   * ListLocations after the locations were fetched: the rows of the chosen
   * locations in the order the sort left them; the table rendering is not modelled.
   */
  method ListLocations(locations: seq<Location>, country: string) returns (rows: seq<seq<string>>)
    ensures exists shown :: multiset(shown) == multiset(Chosen(locations, country)) && rows == Rows(shown)
    ensures |rows| == |Chosen(locations, country)|
  {
    var chosen := locations;
    if |country| > 0 {
      chosen := FilterLocationsByCountry(locations, country);
    }
    var a := new Location[|chosen|](i requires 0 <= i < |chosen| => chosen[i]);
    assert a[..] == chosen;
    SortLocations(a);
    var shown := a[..];
    var wrapped := GetLocationWrappers(shown);
    rows := [];
    for i := 0 to |wrapped|
      invariant |rows| == i
      invariant forall k :: 0 <= k < i ==> rows[k] == Row(wrapped[k])
    {
      rows := rows + [Row(wrapped[i])];
    }
    assert rows == Rows(shown);
    assert |shown| == |multiset(shown)| == |multiset(chosen)| == |chosen|;
  }

  // ---------------------------------------------------------------------------
  // The WireGuard configuration
  // ---------------------------------------------------------------------------

  datatype Peer = Peer(allowedIps: seq<string>, endpoint: string, pubKey: string, psKey: string)

  /** The device the API returns: its addresses, DNS servers, WireGuard private key and peers. */
  datatype Device = Device(ips: seq<string>, dns: seq<string>, privKey: string, peers: seq<Peer>)

  datatype Key = Key(name: string, value: string)

  /** An ini section as the code requests it, keys in the order they are added. */
  datatype Section = Section(name: string, keys: seq<Key>)

  /** The type of utils.ExcludeDisallowedIps: the allowed IPs without the SSH client's, or an error. */
  type Excluder = (seq<string>, string) -> Result<seq<string>>

  function InterfaceSection(d: Device): (section: Section)
    ensures section.name == "Interface" && |section.keys| == 3
    ensures section.keys[0] == Key("Address", Join(d.ips, ",")) && section.keys[2] == Key("DNS", Join(d.dns, ","))
    ensures section.keys[1] == Key("PrivateKey", d.privKey)
  {
    Section("Interface", [Key("Address", Join(d.ips, ",")), Key("PrivateKey", d.privKey), Key("DNS", Join(d.dns, ","))])
  }

  /**
   * The AllowedIPs of a peer: the whole IPv4 space on darwin and windows;
   * elsewhere the peer's own, less the SSH client's when one is connected.
   */
  function AllowedIps(p: Peer, os: string, sshClient: string, exclude: Excluder): (r: Result<seq<string>>)
    ensures (os == "darwin" || os == "windows") ==> r == Success(RouteAll)
    ensures r.Failure? ==> os != "darwin" && os != "windows" && |sshClient| > 0
  {
    if os == "darwin" || os == "windows" then Success(RouteAll)
    else if |sshClient| > 0 then exclude(p.allowedIps, sshClient)
    else Success(p.allowedIps)
  }

  function PeerSection(p: Peer, allowedIps: seq<string>): (section: Section)
    ensures |section.keys| >= 3 && section.keys[0] == Key("AllowedIPs", Join(allowedIps, ", "))
    ensures section.name == "Peer" && section.keys[1] == Key("Endpoint", p.endpoint) && section.keys[2] == Key("PublicKey", p.pubKey)
  {
    Section("Peer",
      [Key("AllowedIPs", Join(allowedIps, ", ")), Key("Endpoint", p.endpoint), Key("PublicKey", p.pubKey)]
      + (if |p.psKey| > 0 then [Key("PresharedKey", p.psKey)] else []))
  }

  /** The Peer sections of the peers in order, or the first error. */
  function PeerSections(peers: seq<Peer>, os: string, sshClient: string, exclude: Excluder): (r: Result<seq<Section>>)
    ensures r.Success? ==> |r.value| == |peers|
    ensures r.Success? ==> forall i :: 0 <= i < |r.value| ==> r.value[i].name == "Peer"
    decreases |peers|
  {
    if peers == [] then Success([])
    else
      var last := peers[|peers| - 1];
      match PeerSections(peers[..|peers| - 1], os, sshClient, exclude)
      case Failure(e) => Failure(e)
      case Success(sections) =>
        match AllowedIps(last, os, sshClient, exclude)
        case Failure(e) => Failure(e)
        case Success(ips) => Success(sections + [PeerSection(last, ips)])
  }

  /** The configuration SetLocation builds, or the error it returns. */
  function Config(d: Device, os: string, sshClient: string, exclude: Excluder): (r: Result<seq<Section>>)
    ensures r.Failure? <==> PeerSections(d.peers, os, sshClient, exclude).Failure?
    ensures r.Success? ==> |r.value| == 1 + |d.peers| && r.value[0] == InterfaceSection(d)
  {
    match PeerSections(d.peers, os, sshClient, exclude)
    case Failure(e) => Failure(e)
    case Success(sections) => Success([InterfaceSection(d)] + sections)
  }

  /** SetLocation up to the write of the file: the sections it adds, in order, or the error it returns. */
  method SetLocation(device: Device, os: string, sshClient: string, exclude: Excluder) returns (config: Result<seq<Section>>)
    ensures config == Config(device, os, sshClient, exclude)
  {
    var sections := [InterfaceSection(device)];
    assert device.peers[..0] == [] && sections[1..] == [];
    assert PeerSections([], os, sshClient, exclude) == Success([]);
    for i := 0 to |device.peers|
      invariant |sections| >= 1 && sections[0] == InterfaceSection(device)
      invariant PeerSections(device.peers[..i], os, sshClient, exclude) == Success(sections[1..])
    {
      assert device.peers[..i + 1][..i] == device.peers[..i];
      var peer := device.peers[i];
      var allowedIps := AllowedIps(peer, os, sshClient, exclude);
      if allowedIps.Failure? {
        PeerSectionsFailureSticks(device.peers, i + 1, os, sshClient, exclude);
        return Failure(allowedIps.error);
      }
      assert (sections + [PeerSection(peer, allowedIps.value)])[1..] == sections[1..] + [PeerSection(peer, allowedIps.value)];
      sections := sections + [PeerSection(peer, allowedIps.value)];
    }
    assert device.peers[..|device.peers|] == device.peers;
    assert [InterfaceSection(device)] + sections[1..] == sections;
    config := Success(sections);
  }

  /** Once a prefix of the peers fails, the whole list fails with the same error. */
  lemma {:induction false} PeerSectionsFailureSticks(peers: seq<Peer>, n: nat, os: string, sshClient: string, exclude: Excluder)
    requires n <= |peers|
    requires PeerSections(peers[..n], os, sshClient, exclude).Failure?
    ensures PeerSections(peers, os, sshClient, exclude) == PeerSections(peers[..n], os, sshClient, exclude)
    decreases |peers| - n
  {
    if n == |peers| {
      assert peers[..n] == peers;
    } else {
      assert peers[..n + 1][..n] == peers[..n];
      PeerSectionsFailureSticks(peers, n + 1, os, sshClient, exclude);
    }
  }

  /** Every AllowedIPs computation succeeds for the peers of the list. */
  predicate AllAllowed(peers: seq<Peer>, os: string, sshClient: string, exclude: Excluder) {
    forall i :: 0 <= i < |peers| ==> AllowedIps(peers[i], os, sshClient, exclude).Success?
  }

  /** The Peer sections are those of the peers, one each, in order, exactly when no AllowedIPs computation fails. */
  lemma {:induction false} PeerSectionsShape(peers: seq<Peer>, os: string, sshClient: string, exclude: Excluder)
    ensures PeerSections(peers, os, sshClient, exclude).Success? <==> AllAllowed(peers, os, sshClient, exclude)
    ensures PeerSections(peers, os, sshClient, exclude).Success? ==>
      var sections := PeerSections(peers, os, sshClient, exclude).value;
      |sections| == |peers| &&
      forall i :: 0 <= i < |peers| ==> sections[i] == PeerSection(peers[i], AllowedIps(peers[i], os, sshClient, exclude).value)
    decreases |peers|
  {
    if peers != [] {
      var init := peers[..|peers| - 1];
      PeerSectionsShape(init, os, sshClient, exclude);
      assert forall i :: 0 <= i < |init| ==> init[i] == peers[i];
    }
  }

  /** The configuration is the Interface section followed by one Peer section per peer, unless a peer's AllowedIPs fail. */
  lemma ConfigShape(d: Device, os: string, sshClient: string, exclude: Excluder)
    ensures Config(d, os, sshClient, exclude).Success? <==> AllAllowed(d.peers, os, sshClient, exclude)
    ensures Config(d, os, sshClient, exclude).Success? ==>
      var sections := Config(d, os, sshClient, exclude).value;
      |sections| == 1 + |d.peers| && sections[0] == InterfaceSection(d) &&
      forall i :: 0 <= i < |d.peers| ==> sections[i + 1] == PeerSection(d.peers[i], AllowedIps(d.peers[i], os, sshClient, exclude).value)
  {
    PeerSectionsShape(d.peers, os, sshClient, exclude);
  }

  /** The AllowedIPs of every peer on darwin and windows. */
  const RouteAll: seq<string> := ["0.0.0.0/0"]

  lemma RouteAllJoined()
    ensures Join(RouteAll, ", ") == "0.0.0.0/0"
  {
  }

  /** On darwin and windows nothing can fail and every peer routes 0.0.0.0/0. */
  lemma DesktopRoutesEverything(d: Device, os: string, sshClient: string, exclude: Excluder)
    requires os == "darwin" || os == "windows"
    ensures Config(d, os, sshClient, exclude).Success?
    ensures |Config(d, os, sshClient, exclude).value| == 1 + |d.peers|
    ensures forall i :: 0 <= i < |d.peers| ==> Config(d, os, sshClient, exclude).value[i + 1] == PeerSection(d.peers[i], RouteAll)
  {
    ConfigShape(d, os, sshClient, exclude);
  }

  /** Without an SSH client the peer keeps its own AllowedIPs, joined with ", ". */
  lemma NoSshClientKeepsAllowedIps(p: Peer, os: string, exclude: Excluder)
    requires os != "darwin" && os != "windows"
    ensures AllowedIps(p, os, "", exclude) == Success(p.allowedIps)
    ensures PeerSection(p, p.allowedIps).keys[0] == Key("AllowedIPs", Join(p.allowedIps, ", "))
  {
  }

  /** A PresharedKey entry is written exactly when the peer has a non-empty preshared key, and then with that key. */
  lemma PresharedKeyOnlyWhenSet(p: Peer, allowedIps: seq<string>)
    ensures (exists j :: 0 <= j < |PeerSection(p, allowedIps).keys| && PeerSection(p, allowedIps).keys[j].name == "PresharedKey")
      <==> |p.psKey| > 0
    ensures |p.psKey| > 0 ==> PeerSection(p, allowedIps).keys[3] == Key("PresharedKey", p.psKey)
  {
    var keys := PeerSection(p, allowedIps).keys;
    assert "AllowedIPs" != "PresharedKey" && "Endpoint" != "PresharedKey" && "PublicKey" != "PresharedKey";
    if |p.psKey| > 0 {
      assert keys[3].name == "PresharedKey";
    }
  }
}

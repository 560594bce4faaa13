/** pkg/util: merging string maps, node ports of a service, and the endpoint a service is reached at. */
module Util {
  import opened Basics
  import opened Text
  import opened Api

  // ---- MergeData ---------------------------------------------------------------------------

  /** All maps overlaid in order: of several values for one key the last map's wins. */
  function Merged(ms: seq<Data>): Data
  {
    if |ms| == 0 then map[] else Merged(ms[..|ms| - 1]) + ms[|ms| - 1]
  }

  method MergeData(ms: seq<Data>) returns (res: Data)
    ensures res == Merged(ms)
  {
    res := map[];
    for i := 0 to |ms|
      invariant res == Merged(ms[..i])
    {
      res := Overlay(res, ms[i]);
      assert ms[..i + 1][..i] == ms[..i];
    }
    assert ms[..|ms|] == ms;
  }

  /** The inner loop of MergeData: every entry of `m`, in any order, written over `before`. */
  method Overlay(before: Data, m: Data) returns (res: Data)
    ensures res == before + m
  {
    res := before;
    var rest := m.Keys;
    while rest != {}
      invariant rest <= m.Keys
      invariant res.Keys == before.Keys + (m.Keys - rest)
      invariant forall k :: k in res ==> res[k] == if k in m && k !in rest then m[k] else before[k]
      decreases rest
    {
      var k :| k in rest;
      res := res[k := m[k]];
      rest := rest - {k};
    }
  }

  /** A key is present when some map has it, and its value is that of the last map that does. */
  lemma {:induction false} MergedLastWins(ms: seq<Data>, k: string)
    ensures k in Merged(ms) <==> exists i :: 0 <= i < |ms| && k in ms[i]
    ensures forall i :: 0 <= i < |ms| && k in ms[i] && (forall j :: i < j < |ms| ==> k !in ms[j]) ==>
              Merged(ms)[k] == ms[i][k]
  {
    if |ms| > 0 {
      var last := |ms| - 1;
      MergedLastWins(ms[..last], k);
      if k in ms[last] {
        assert 0 <= last < |ms|;
      } else if i :| 0 <= i < last && k in ms[..last][i] {
        assert k in ms[i];
      }
    }
  }

  // ---- GetNodePort -------------------------------------------------------------------------

  function NodePortOf(ports: seq<Port>, name: string): int
  {
    if |ports| == 0 then 0
    else if ports[0].name == name then ports[0].nodePort
    else NodePortOf(ports[1..], name)
  }

  /** The node port of the first port with this name, and 0 only when no port has it or its own is 0. */
  method GetNodePort(ports: seq<Port>, portName: string) returns (nodePort: int)
    ensures nodePort == NodePortOf(ports, portName)
    ensures (forall i :: 0 <= i < |ports| ==> ports[i].name != portName) ==> nodePort == 0
    ensures forall i :: (0 <= i < |ports| && ports[i].name == portName && forall j :: 0 <= j < i ==>
              ports[j].name != portName)
              ==> nodePort == ports[i].nodePort
  {
    for i := 0 to |ports|
      invariant forall j :: 0 <= j < i ==> ports[j].name != portName
      invariant NodePortOf(ports, portName) == NodePortOf(ports[i..], portName)
    {
      if ports[i].name == portName {
        return ports[i].nodePort;
      }
    }
    return 0;
  }

  // ---- GetServiceEndpoint ------------------------------------------------------------------

  datatype AddressType = ExternalIP | InternalIP | OtherAddress
  datatype Address = Address(kind: AddressType, address: string)
  datatype Node = Node(addresses: seq<Address>)

  /** Where the operator process runs: the two environment-variable tests, in the order they are made. */
  datatype Site = InCluster | InTest(url: string) | Outside

  datatype Endpoint =
    | ClusterEndpoint(service: string, ns: string, port: int, path: string)
    | TestEndpoint(url: string, path: string)
    | NodeEndpoint(host: string, nodePort: int, path: string)

  /** `n`'s first address of this kind is at `a` and is not empty. */
  ghost predicate Offers(n: Node, kind: AddressType, a: int)
  {
    && 0 <= a < |n.addresses|
    && n.addresses[a].kind == kind
    && n.addresses[a].address != ""
    && forall b :: 0 <= b < a ==> n.addresses[b].kind != kind
  }

  /** The earliest node whose first address of this kind is not empty gives `host`; "" when there is none. */
  ghost predicate IsHost(nodes: seq<Node>, kind: AddressType, host: string)
  {
    if host == "" then
      forall i, a :: 0 <= i < |nodes| ==> !Offers(nodes[i], kind, a)
    else
      exists i, a ::
        && 0 <= i < |nodes| && Offers(nodes[i], kind, a) && nodes[i].addresses[a].address == host
        && forall j, b :: 0 <= j < i ==> !Offers(nodes[j], kind, b)
  }

  /** One of the two nested node loops, with both breaks. */
  method FindHost(nodes: seq<Node>, kind: AddressType) returns (host: string)
    ensures IsHost(nodes, kind, host)
    ensures host == "" <==> IsHost(nodes, kind, "")
  {
    host := "";
    for i := 0 to |nodes|
      invariant host == ""
      invariant forall j, b :: 0 <= j < i ==> !Offers(nodes[j], kind, b)
    {
      var addresses := nodes[i].addresses;
      for a := 0 to |addresses|
        invariant host == ""
        invariant forall b :: 0 <= b < a ==> addresses[b].kind != kind
      {
        if addresses[a].kind == kind {
          host := addresses[a].address;
          assert host != "" ==> Offers(nodes[i], kind, a);
          break;
        }
      }
      if host != "" {
        break;
      }
    }
  }

  /** The first port with this number is at `p`. */
  ghost predicate IsFirstPort(ports: seq<Port>, number: int, p: int)
  {
    0 <= p < |ports| && ports[p].port == number && forall q :: 0 <= q < p ==> ports[q].port != number
  }

  ghost predicate NoNodePort(ports: seq<Port>, number: int)
  {
    forall p :: IsFirstPort(ports, number, p) ==> ports[p].nodePort == 0
  }

  method FindNodePort(ports: seq<Port>, internalPort: int) returns (nodePort: int)
    ensures nodePort == 0 <==> NoNodePort(ports, internalPort)
    ensures nodePort != 0 ==> exists p :: IsFirstPort(ports, internalPort, p) && ports[p].nodePort == nodePort
  {
    nodePort := 0;
    for i := 0 to |ports|
      invariant nodePort == 0
      invariant forall j :: 0 <= j < i ==> ports[j].port != internalPort
    {
      if ports[i].port == internalPort {
        nodePort := ports[i].nodePort;
        assert IsFirstPort(ports, internalPort, i);
        break;
      }
    }
  }

  function Digits(n: nat): string
  {
    if n < 10 then ["0123456789"[n]] else Digits(n / 10) + ["0123456789"[n % 10]]
  }

  /** An integer as `%d` prints it. */
  function Decimal(n: int): string
  {
    if n < 0 then "-" + Digits(-n) else Digits(n)
  }

  function Url(e: Endpoint): string
  {
    match e
    case ClusterEndpoint(service, ns, port, path) =>
      "http://" + service + "." + ns + ".svc.cluster.local:" + Decimal(port) + "/" + path
    case TestEndpoint(url, path) => url + "/" + path
    case NodeEndpoint(host, nodePort, path) => "http://" + host + ":" + Decimal(nodePort) + "/" + path
  }

  // ---- what a printed endpoint says --------------------------------------------------------

  ghost predicate AllDigits(s: string)
  {
    forall i :: 0 <= i < |s| ==> '0' <= s[i] <= '9'
  }

  /** The number a reader of decimal digits gets. */
  ghost function ReadDigits(s: string): int
  {
    if |s| == 0 then 0 else 10 * ReadDigits(s[..|s| - 1]) + (s[|s| - 1] as int - '0' as int)
  }

  /** `text` is the number in decimal, without a leading zero. */
  ghost predicate Prints(text: string, n: nat)
  {
    |text| > 0 && AllDigits(text) && ReadDigits(text) == n && (text[0] == '0' ==> text == "0")
  }

  lemma DigitReads(n: nat)
    requires n < 10
    ensures "0123456789"[n] == ('0' as int + n) as char
  {
  }

  /** Printed numbers read back. */
  lemma {:induction false} DigitsPrint(n: nat)
    ensures Prints(Digits(n), n)
    ensures n > 0 ==> Digits(n)[0] != '0'
  {
    var front := if n < 10 then "" else Digits(n / 10);
    var text := Digits(n);
    if n < 10 {
      DigitReads(n);
      assert text[..0] == "";
    } else {
      DigitsPrint(n / 10);
      DigitReads(n % 10);
      assert text[..|text| - 1] == front;
    }
  }

  lemma DecimalPrints(n: int)
    ensures n >= 0 ==> Prints(Decimal(n), n)
    ensures n < 0 ==> Decimal(n)[0] == '-' && Prints(Decimal(n)[1..], -n)
  {
    DigitsPrint(if n < 0 then -n else n);
  }

  lemma DigitsHaveNo(text: string, c: char)
    requires AllDigits(text) && !('0' <= c <= '9')
    ensures c !in text
  {
  }

  /** Outside the cluster, a reader finds "http:", nothing, the host with the node port behind a colon, and the path
      between slashes. */
  lemma NodeUrlReads(host: string, nodePort: nat, path: string)
    requires '/' !in host && ':' !in host
    ensures var parts := Split(Url(NodeEndpoint(host, nodePort, path)), '/');
            && |parts| >= 4 && parts[0] == "http:" && parts[1] == "" && parts[3..] == Split(path, '/')
            && |Split(parts[2], ':')| == 2 && Split(parts[2], ':')[0] == host
            && Prints(Split(parts[2], ':')[1], nodePort)
  {
    hide Split, Digits, ReadDigits, AllDigits, Decimal;
    var port := Decimal(nodePort);
    DecimalPrints(nodePort);
    HttpUrlReads(host, port, path);
    assert Url(NodeEndpoint(host, nodePort, path)) == "http://" + host + ":" + port + "/" + path;
  }

  /** Inside the cluster, the host is the service's name in the namespace. */
  lemma ClusterUrlReads(service: string, ns: string, port: nat, path: string)
    requires '/' !in service && ':' !in service && '/' !in ns && ':' !in ns
    ensures var parts := Split(Url(ClusterEndpoint(service, ns, port, path)), '/');
            && |parts| >= 4 && parts[0] == "http:" && parts[1] == "" && parts[3..] == Split(path, '/')
            && |Split(parts[2], ':')| == 2 && Split(parts[2], ':')[0] == service + "." + ns + ".svc.cluster.local"
            && Prints(Split(parts[2], ':')[1], port)
  {
    hide Split, Digits, ReadDigits, AllDigits, Decimal;
    var host := service + "." + ns + ".svc.cluster.local";
    DecimalPrints(port);
    InCluster(service, ns, '/');
    InCluster(service, ns, ':');
    HttpUrlReads(host, Decimal(port), path);
    assert Url(ClusterEndpoint(service, ns, port, path)) == "http://" + host + ":" + Decimal(port) + "/" + path;
  }

  lemma InCluster(service: string, ns: string, c: char)
    requires c !in service && c !in ns && c !in ".svc.cluster.local"
    ensures c !in service + "." + ns + ".svc.cluster.local"
  {
  }

  lemma HttpUrlReads(host: string, port: string, path: string)
    requires '/' !in host && ':' !in host && AllDigits(port)
    ensures Split("http://" + host + ":" + port + "/" + path, '/') ==
            ["http:", "", host + ":" + port] + Split(path, '/')
    ensures Split(host + ":" + port, ':') == [host, port]
  {
    var middle := host + ":" + port;
    DigitsHaveNo(port, '/');
    DigitsHaveNo(port, ':');
    assert "http://" + host + ":" + port + "/" + path == "http:" + ['/'] + ("" + ['/'] + (middle + ['/'] + path));
    SplitHead("http:", '/', "" + ['/'] + (middle + ['/'] + path));
    SplitHead("", '/', middle + ['/'] + path);
    SplitHead(middle, '/', path);
    assert middle == host + [':'] + port;
    SplitHead(host, ':', port);
    SplitFree(port, ':');
  }

  /** Outside the cluster: an external IP is preferred, an internal one is the fall-back, and it is an error
      exactly when no client can be built, neither address exists or the service has no node port for `internalPort`.
      `nodes` is what listing the nodes returned; a failed list returns none. */
  method GetServiceEndpoint(site: Site, name: string, ns: string, ports: seq<Port>, path: string, internalPort: int,
                            clientBuilt: bool, nodes: seq<Node>) returns (endpoint: Result<string>)
    ensures site.InCluster? ==> endpoint == Ok(Url(ClusterEndpoint(name, ns, internalPort, path)))
    ensures site.InTest? ==> endpoint == Ok(site.url + "/" + path)
    ensures site.Outside? ==>
              (endpoint.Err? <==>
                 || !clientBuilt
                 || NoNodePort(ports, internalPort)
                 || (IsHost(nodes, ExternalIP, "") && IsHost(nodes, InternalIP, "")))
    ensures site.Outside? && endpoint.Ok? ==>
              exists host, p ::
                && host != ""
                && IsHost(nodes, if IsHost(nodes, ExternalIP, "") then InternalIP else ExternalIP, host)
                && IsFirstPort(ports, internalPort, p)
                && endpoint.value == Url(NodeEndpoint(host, ports[p].nodePort, path))
  {
    if site.InCluster? {
      return Ok(Url(ClusterEndpoint(name, ns, internalPort, path)));
    } else if site.InTest? {
      return Ok(Url(TestEndpoint(site.url, path)));
    }
    hide Url, IsHost, IsFirstPort;
    if !clientBuilt {
      return Err;
    }
    var host := FindHost(nodes, ExternalIP);
    if host == "" {
      host := FindHost(nodes, InternalIP);
    }
    if host == "" {
      return Err;
    }
    var nodePort := FindNodePort(ports, internalPort);
    if nodePort == 0 {
      return Err;
    }
    return Ok(Url(NodeEndpoint(host, nodePort, path)));
  }

  /** The selection rule picks one host: two hosts that satisfy it are the same. */
  lemma HostUnique(nodes: seq<Node>, kind: AddressType, x: string, y: string)
    requires IsHost(nodes, kind, x) && IsHost(nodes, kind, y)
    ensures x == y
  {
    if x != "" && y != "" {
      var i, a :| 0 <= i < |nodes| && Offers(nodes[i], kind, a) && nodes[i].addresses[a].address == x
                  && forall j, b :: 0 <= j < i ==> !Offers(nodes[j], kind, b);
      var i', a' :| 0 <= i' < |nodes| && Offers(nodes[i'], kind, a') && nodes[i'].addresses[a'].address == y
                    && forall j, b :: 0 <= j < i' ==> !Offers(nodes[j], kind, b);
      assert i == i';
      assert a == a';
    }
  }
}

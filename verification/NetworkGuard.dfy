/** The configuration fingerprint that decides whether a host still is as planned. */
module NetworkGuard {
  import opened Wrappers
  import opened Json

  /** A NetworkManager connection; `uuid` and `interface` are the texts it is ordered by. */
  datatype Connection = Connection(uuid: string, interface: string, rest: Json)

  datatype Interface = Interface(name: string, ipv4: seq<string>, rest: Json)

  datatype RdmaRow = RdmaRow(device: string, devlink: Option<map<string, Json>>, rest: Json)

  datatype Management = Management(routeDev: Option<string>, error: bool, rest: Json)

  /** One probe of a host, as far as the network helper reads it. `containers` are the
      states of Docker containers, `rdmaUsers` whether each RDMA resource has a process. */
  datatype Facts = Facts(
    management: Management,
    routes: Json,
    interfaces: seq<Interface>,
    rdma: seq<RdmaRow>,
    connections: Option<seq<Connection>>,
    computeProcesses: Option<seq<int>>,
    containers: Option<seq<string>>,
    rdmaUsers: Option<seq<bool>>)

  datatype HostSpec = HostSpec(
    netdevs: set<string>,
    devices: set<string>,
    managementNetdev: string,
    addresses: map<string, string>)

  datatype Guard = Guard(
    management: Management,
    routes: Json,
    interfaces: seq<Interface>,
    rdma: seq<RdmaRow>,
    connections: seq<Connection>)

  // ---- ordering connections ----

  predicate TextBelow(a: string, b: string) {
    b != [] && (a == [] || a[0] < b[0] || (a[0] == b[0] && TextBelow(a[1..], b[1..])))
  }

  lemma {:induction false} TextTrichotomy(a: string, b: string)
    ensures TextBelow(a, b) || a == b || TextBelow(b, a)
    ensures !(TextBelow(a, b) && TextBelow(b, a)) && !TextBelow(a, a)
  {
    if a != [] {
      TextTrichotomy(a[1..], a[1..]);
    }
    if a != [] && b != [] {
      TextTrichotomy(a[1..], b[1..]);
      assert a == [a[0]] + a[1..] && b == [b[0]] + b[1..];
    }
  }

  lemma {:induction false} TextTransitive(a: string, b: string, c: string)
    requires TextBelow(a, b) && TextBelow(b, c)
    ensures TextBelow(a, c)
  {
    if a != [] && a[0] == b[0] == c[0] {
      TextTransitive(a[1..], b[1..], c[1..]);
    }
  }

  predicate SameKey(c: Connection, d: Connection) {
    c.uuid == d.uuid && c.interface == d.interface
  }

  predicate Below(c: Connection, d: Connection) {
    TextBelow(c.uuid, d.uuid) || (c.uuid == d.uuid && TextBelow(c.interface, d.interface))
  }

  lemma BelowOrder(c: Connection, d: Connection, e: Connection)
    ensures Below(c, d) || SameKey(c, d) || Below(d, c)
    ensures !(Below(c, d) && Below(d, c)) && (SameKey(c, d) ==> !Below(c, d))
    ensures !Below(d, c) && !Below(e, d) ==> !Below(e, c)
  {
    TextTrichotomy(c.uuid, d.uuid);
    TextTrichotomy(c.interface, d.interface);
    TextTrichotomy(d.uuid, e.uuid);
    TextTrichotomy(d.interface, e.interface);
    TextTrichotomy(c.uuid, e.uuid);
    TextTrichotomy(c.interface, e.interface);
    if TextBelow(c.uuid, d.uuid) && TextBelow(d.uuid, e.uuid) {
      TextTransitive(c.uuid, d.uuid, e.uuid);
    }
    if TextBelow(c.interface, d.interface) && TextBelow(d.interface, e.interface) {
      TextTransitive(c.interface, d.interface, e.interface);
    }
  }

  function Insert(c: Connection, cs: seq<Connection>): (r: seq<Connection>)
    ensures multiset(r) == multiset{c} + multiset(cs)
  {
    if cs == [] || !Below(cs[0], c) then
      [c] + cs
    else
      assert cs == [cs[0]] + cs[1..];
      [cs[0]] + Insert(c, cs[1..])
  }

  /** A stable sort by key. */
  function SortConnections(cs: seq<Connection>): (r: seq<Connection>)
    ensures multiset(r) == multiset(cs)
  {
    if cs == [] then []
    else
      assert cs == [cs[0]] + cs[1..];
      Insert(cs[0], SortConnections(cs[1..]))
  }

  ghost predicate Ordered(cs: seq<Connection>) {
    forall i, j | 0 <= i < j < |cs| :: !Below(cs[j], cs[i])
  }

  lemma {:induction false} InsertOrdered(c: Connection, cs: seq<Connection>)
    requires Ordered(cs)
    ensures Ordered(Insert(c, cs))
  {
    if cs == [] {
    } else if !Below(cs[0], c) {
      forall j | 0 <= j < |cs| ensures !Below(cs[j], c) {
        BelowOrder(c, cs[0], cs[j]);
        BelowOrder(cs[0], cs[0], cs[0]);
      }
    } else {
      InsertOrdered(c, cs[1..]);
      var rest := Insert(c, cs[1..]);
      forall j | 0 <= j < |rest| ensures !Below(rest[j], cs[0]) {
        BelowOrder(cs[0], c, c);
        assert rest[j] in multiset(rest);
        if rest[j] != c {
          assert rest[j] in cs[1..];
        }
      }
    }
  }

  lemma {:induction false} SortOrdered(cs: seq<Connection>)
    ensures Ordered(SortConnections(cs))
  {
    if cs != [] {
      SortOrdered(cs[1..]);
      InsertOrdered(cs[0], SortConnections(cs[1..]));
    }
  }

  /** The connections with the key of `k`, in order. */
  function WithKey(cs: seq<Connection>, k: Connection): seq<Connection> {
    if cs == [] then []
    else (if SameKey(cs[0], k) then [cs[0]] else []) + WithKey(cs[1..], k)
  }

  lemma WithKeyFirst(c: Connection, cs: seq<Connection>, k: Connection)
    ensures WithKey([c] + cs, k) == (if SameKey(c, k) then [c] else []) + WithKey(cs, k)
  {
    assert ([c] + cs)[1..] == cs;
  }

  lemma {:induction false} InsertStable(c: Connection, cs: seq<Connection>, k: Connection)
    ensures WithKey(Insert(c, cs), k) == (if SameKey(c, k) then [c] else []) + WithKey(cs, k)
  {
    if cs == [] || !Below(cs[0], c) {
      WithKeyFirst(c, cs, k);
    } else {
      InsertStable(c, cs[1..], k);
      WithKeyFirst(cs[0], Insert(c, cs[1..]), k);
      BelowOrder(cs[0], c, c);
    }
  }

  lemma {:induction false} SortStable(cs: seq<Connection>, k: Connection)
    ensures WithKey(SortConnections(cs), k) == WithKey(cs, k)
  {
    if cs != [] {
      SortStable(cs[1..], k);
      var sorted := SortConnections(cs[1..]);
      InsertStable(cs[0], sorted, k);
    }
  }

  /** No two different connections share a key. */
  ghost predicate KeysDetermine(cs: seq<Connection>) {
    forall c, d | c in cs && d in cs && SameKey(c, d) :: c == d
  }

  lemma OrderedHead(a: seq<Connection>, b: seq<Connection>)
    requires Ordered(a) && Ordered(b) && multiset(a) == multiset(b) && KeysDetermine(a) && a != []
    ensures b != [] && a[0] == b[0]
  {
    assert a[0] in multiset(b);
    assert b[0] in multiset(a);
    var i :| 0 <= i < |b| && b[i] == a[0];
    var j :| 0 <= j < |a| && a[j] == b[0];
    assert !Below(b[i], b[0]) || i == 0;
    assert !Below(a[j], a[0]) || j == 0;
    BelowOrder(a[0], b[0], a[0]);
  }

  lemma TailReady(a: seq<Connection>)
    requires a != [] && Ordered(a) && KeysDetermine(a)
    ensures Ordered(a[1..]) && KeysDetermine(a[1..]) && multiset(a[1..]) == multiset(a) - multiset{a[0]}
  {
    assert a == [a[0]] + a[1..];
    forall c, d | c in a[1..] && d in a[1..] && SameKey(c, d) ensures c == d {
      assert c in a && d in a;
    }
  }

  lemma {:induction false} OrderedUnique(a: seq<Connection>, b: seq<Connection>)
    requires Ordered(a) && Ordered(b) && multiset(a) == multiset(b) && KeysDetermine(a)
    ensures a == b
  {
    hide Ordered, KeysDetermine;
    if a == [] {
      assert |multiset(a)| == |multiset(b)|;
    } else {
      OrderedHead(a, b);
      SameKeysDetermine(a, b);
      TailReady(a);
      TailReady(b);
      OrderedUnique(a[1..], b[1..]);
      assert a == [a[0]] + a[1..] && b == [b[0]] + b[1..];
    }
  }

  lemma SameKeysDetermine(a: seq<Connection>, b: seq<Connection>)
    requires multiset(a) == multiset(b) && KeysDetermine(a)
    ensures KeysDetermine(b)
  {
    forall c | c in b ensures c in a {
      assert c in multiset(a);
    }
  }

  lemma KeysGiveOneOrder(cs: seq<Connection>, ds: seq<Connection>)
    requires KeysDetermine(cs) && multiset(cs) == multiset(ds)
    ensures SortConnections(cs) == SortConnections(ds)
  {
    SortOrdered(cs);
    SortOrdered(ds);
    SameKeysDetermine(cs, SortConnections(cs));
    OrderedUnique(SortConnections(cs), SortConnections(ds));
  }

  lemma SwapChangesOrder(c: Connection, d: Connection, rest: seq<Connection>)
    requires c != d && SameKey(c, d)
    ensures SortConnections([c] + ([d] + rest)) != SortConnections([d] + ([c] + rest))
  {
    var a, b := [c] + ([d] + rest), [d] + ([c] + rest);
    SortStable(a, c);
    SortStable(b, c);
    WithKeyFirst(c, [d] + rest, c);
    WithKeyFirst(d, [c] + rest, c);
    assert WithKey(a, c)[0] == c && WithKey(b, c)[0] == d;
  }

  /** Every way to list the connections sorts the same exactly when no two different
      connections share their sorting key. */
  lemma SortIgnoresOrder(cs: seq<Connection>)
    ensures KeysDetermine(cs)
       <==> forall ds | multiset(ds) == multiset(cs) :: SortConnections(ds) == SortConnections(cs)
  {
    if KeysDetermine(cs) {
      forall ds | multiset(ds) == multiset(cs) ensures SortConnections(ds) == SortConnections(cs) {
        KeysGiveOneOrder(cs, ds);
      }
    } else {
      var ds, es := SharedKeySplits(cs);
    }
  }

  lemma SharedKeySplits(cs: seq<Connection>) returns (ds: seq<Connection>, es: seq<Connection>)
    requires !KeysDetermine(cs)
    ensures multiset(ds) == multiset(cs) == multiset(es)
    ensures SortConnections(ds) != SortConnections(es)
  {
    var c, d :| c in cs && d in cs && SameKey(c, d) && c != d;
    var rest := Without(cs, c, d);
    SwapChangesOrder(c, d, rest);
    ds, es := [c] + ([d] + rest), [d] + ([c] + rest);
    assert multiset(ds) == multiset{c, d} + multiset(rest);
    assert multiset(es) == multiset{c, d} + multiset(rest);
  }

  /** `cs` without one occurrence each of `c` and `d`. */
  ghost function Without(cs: seq<Connection>, c: Connection, d: Connection): (rest: seq<Connection>)
    requires c in cs && d in cs && c != d
    ensures multiset(cs) == multiset{c, d} + multiset(rest)
  {
    var one := Removed(cs, c);
    assert multiset(cs)[d] == multiset(one)[d];
    Removed(one, d)
  }

  ghost function Removed(cs: seq<Connection>, c: Connection): (rest: seq<Connection>)
    requires c in cs
    ensures multiset(cs) == multiset{c} + multiset(rest)
  {
    assert cs == [cs[0]] + cs[1..];
    if cs[0] == c then cs[1..] else [cs[0]] + Removed(cs[1..], c)
  }

  // ---- the fingerprint ----

  /** Reload counters change between discovery and comparison, and are left out. */
  function WithoutReload(row: RdmaRow): RdmaRow {
    if row.devlink.Some? then row.(devlink := Some(row.devlink.value - {"reload"})) else row
  }

  /** The fabric's own devices, without their reload counters. */
  method PlannedRows(rows: seq<RdmaRow>, devices: set<string>) returns (r: seq<RdmaRow>)
    ensures r == RowsOf(rows, devices)
  {
    r := [];
    for i := 0 to |rows|
      invariant r == RowsOf(rows[..i], devices)
    {
      assert rows[..i + 1][..i] == rows[..i];
      if rows[i].device in devices {
        r := r + [WithoutReload(rows[i])];
      }
    }
    assert rows[..|rows|] == rows;
  }

  function RowsOf(rows: seq<RdmaRow>, devices: set<string>): seq<RdmaRow> {
    if rows == [] then []
    else
      var last := rows[|rows| - 1];
      RowsOf(rows[..|rows| - 1], devices) + if last.device in devices then [WithoutReload(last)] else []
  }

  function InterfacesOf(interfaces: seq<Interface>, names: set<string>): seq<Interface> {
    if interfaces == [] then []
    else (if interfaces[0].name in names then [interfaces[0]] else []) + InterfacesOf(interfaces[1..], names)
  }

  function GuardOf(facts: Facts, host: HostSpec): Guard {
    Guard(
      facts.management,
      facts.routes,
      InterfacesOf(facts.interfaces, host.netdevs),
      RowsOf(facts.rdma, host.devices),
      SortConnections(if facts.connections.Some? then facts.connections.value else []))
  }

  method FingerprintOf(facts: Facts, host: HostSpec) returns (guard: Guard)
    ensures guard == GuardOf(facts, host)
  {
    var rdma := PlannedRows(facts.rdma, host.devices);
    guard := Guard(
      facts.management,
      facts.routes,
      InterfacesOf(facts.interfaces, host.netdevs),
      rdma,
      SortConnections(if facts.connections.Some? then facts.connections.value else []));
  }

  /** Two RDMA rows agree in everything but the reload counter. */
  ghost predicate SameRow(a: RdmaRow, b: RdmaRow) {
    && a.device == b.device && a.rest == b.rest && (a.devlink.Some? <==> b.devlink.Some?)
    && (a.devlink.Some? ==> forall k | k != "reload" ::
          && (k in a.devlink.value <==> k in b.devlink.value)
          && (k in a.devlink.value ==> a.devlink.value[k] == b.devlink.value[k]))
  }

  lemma ReloadsAside(a: RdmaRow, b: RdmaRow)
    ensures WithoutReload(a) == WithoutReload(b) <==> SameRow(a, b)
  {
    if a.devlink.Some? && b.devlink.Some? {
      var x, y := a.devlink.value - {"reload"}, b.devlink.value - {"reload"};
      if WithoutReload(a) == WithoutReload(b) {
        assert x == y;
        forall k | k != "reload"
          ensures k in a.devlink.value <==> k in b.devlink.value
          ensures k in a.devlink.value ==> a.devlink.value[k] == b.devlink.value[k]
        {
          assert k in a.devlink.value <==> k in x;
          assert k in b.devlink.value <==> k in y;
        }
      }
      if SameRow(a, b) {
        assert x.Keys == y.Keys;
        assert x == y;
      }
    }
  }

  /** Where two probes list the same RDMA devices, the planned rows compare exactly those of
      the planned devices, apart from their reload counters. */
  lemma {:induction false} RowsCompared(a: seq<RdmaRow>, b: seq<RdmaRow>, devices: set<string>)
    requires |a| == |b| && forall i | 0 <= i < |a| :: a[i].device == b[i].device
    ensures |RowsOf(a, devices)| == |RowsOf(b, devices)|
    ensures RowsOf(a, devices) == RowsOf(b, devices) <==> forall i | 0 <= i < |a| && a[i].device in devices :: SameRow(a[i], b[i])
  {
    hide SameRow;
    if a != [] {
      var n := |a| - 1;
      var x, y := RowsOf(a[..n], devices), RowsOf(b[..n], devices);
      var u, v := WithoutReload(a[n]), WithoutReload(b[n]);
      RowsCompared(a[..n], b[..n], devices);
      ReloadsAside(a[n], b[n]);
      assert a[n].device in devices ==> (x + [u] == y + [v] <==> x == y && u == v) by {
        assert (x + [u])[..|x|] == x && (y + [v])[..|y|] == y && (x + [u])[|x|] == u && (y + [v])[|y|] == v;
      }
      assert (forall i | 0 <= i < |a| && a[i].device in devices :: SameRow(a[i], b[i]))
        <==> (a[n].device in devices ==> SameRow(a[n], b[n]))
             && (forall i | 0 <= i < |a[..n]| && a[..n][i].device in devices :: SameRow(a[..n][i], b[..n][i]));
    }
  }

  /** Where two probes list the same interfaces, the fingerprint compares exactly the planned ones. */
  lemma {:induction false} InterfacesCompared(a: seq<Interface>, b: seq<Interface>, names: set<string>)
    requires |a| == |b| && forall i | 0 <= i < |a| :: a[i].name == b[i].name
    ensures |InterfacesOf(a, names)| == |InterfacesOf(b, names)|
    ensures InterfacesOf(a, names) == InterfacesOf(b, names) <==> forall i | 0 <= i < |a| && a[i].name in names :: a[i] == b[i]
  {
    if a != [] {
      var x, y := InterfacesOf(a[1..], names), InterfacesOf(b[1..], names);
      InterfacesCompared(a[1..], b[1..], names);
      ConsEqual(a[0], x, b[0], y);
      assert InterfacesOf(a, names) == if a[0].name in names then [a[0]] + x else x;
      assert InterfacesOf(b, names) == if a[0].name in names then [b[0]] + y else y;
      FirstAndRest(a, b, names);
    }
  }

  lemma ConsEqual(a: Interface, x: seq<Interface>, b: Interface, y: seq<Interface>)
    ensures [a] + x == [b] + y <==> a == b && x == y
  {
    assert ([a] + x)[1..] == x && ([b] + y)[1..] == y;
    assert ([a] + x)[0] == a && ([b] + y)[0] == b;
  }

  lemma FirstAndRest(a: seq<Interface>, b: seq<Interface>, names: set<string>)
    requires |a| == |b| > 0
    ensures (forall i | 0 <= i < |a| && a[i].name in names :: a[i] == b[i])
       <==> (a[0].name in names ==> a[0] == b[0]) && (forall i | 0 <= i < |a[1..]| && a[1..][i].name in names :: a[1..][i] == b[1..][i])
  {
    assert forall i | 1 <= i < |a| :: a[1..][i - 1] == a[i] && b[1..][i - 1] == b[i];
  }

  /** No planned interface is lost or invented, so one that appears or goes is noticed too. */
  lemma {:induction false} InterfacesKept(interfaces: seq<Interface>, names: set<string>, x: Interface)
    ensures multiset(InterfacesOf(interfaces, names))[x] == (if x.name in names then multiset(interfaces)[x] else 0)
  {
    if interfaces != [] {
      InterfacesKept(interfaces[1..], names, x);
      assert interfaces == [interfaces[0]] + interfaces[1..];
    }
  }

  /** Where two probes list the same interfaces and RDMA devices, their fingerprints agree
      exactly if management, routes, the planned interfaces, the planned RDMA rows apart from
      reload counters, and the connections in any order do. */
  lemma GuardComparesConfiguration(a: Facts, b: Facts, host: HostSpec)
    requires a.connections.Some? && b.connections.Some? && KeysDetermine(a.connections.value)
    requires |a.interfaces| == |b.interfaces| && forall i | 0 <= i < |a.interfaces| :: a.interfaces[i].name == b.interfaces[i].name
    requires |a.rdma| == |b.rdma| && forall i | 0 <= i < |a.rdma| :: a.rdma[i].device == b.rdma[i].device
    ensures GuardOf(a, host) == GuardOf(b, host)
       <==> && a.management == b.management && a.routes == b.routes
            && (forall i | 0 <= i < |a.interfaces| && a.interfaces[i].name in host.netdevs :: a.interfaces[i] == b.interfaces[i])
            && (forall i | 0 <= i < |a.rdma| && a.rdma[i].device in host.devices :: SameRow(a.rdma[i], b.rdma[i]))
            && multiset(a.connections.value) == multiset(b.connections.value)
  {
    hide SameRow, KeysDetermine, InterfacesOf, RowsOf, SortConnections;
    RowsCompared(a.rdma, b.rdma, host.devices);
    InterfacesCompared(a.interfaces, b.interfaces, host.netdevs);
    var cs, ds := a.connections.value, b.connections.value;
    assert multiset(SortConnections(cs)) == multiset(cs) && multiset(SortConnections(ds)) == multiset(ds);
    if multiset(cs) == multiset(ds) {
      KeysGiveOneOrder(cs, ds);
    }
  }
}

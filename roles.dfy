/** Role resolution (`RoleBuilder`): from the environment's attributes to the
    map from each role name to the set of host addresses playing it, plus the
    map from cluster name to that cluster's hosts. */
module RoleBuilder {
  import opened Wrappers
  import opened Text

  /** The fixed list of roles (`ROLE_LIST`). */
  datatype Role =
    | Clc | UserFacing | Console | Walrus
    | ClusterController | StorageController | NodeController
    | MidonetApi | Midolman | MidoZookeeper | MidoCassandra
    | MonBootstrap | CephMons | CephOsds
    | RiakHead | RiakNode | Haproxy | Nginx
    | All

  const RoleList: seq<Role> := [
    Clc, UserFacing, Console, Walrus,
    ClusterController, StorageController, NodeController,
    MidonetApi, Midolman, MidoZookeeper, MidoCassandra,
    MonBootstrap, CephMons, CephOsds,
    RiakHead, RiakNode, Haproxy, Nginx,
    All]

  /** The key under which the source stores each role. */
  function RoleName(r: Role): string {
    match r
    case Clc => "clc"
    case UserFacing => "user-facing"
    case Console => "console"
    case Walrus => "walrus"
    case ClusterController => "cluster-controller"
    case StorageController => "storage-controller"
    case NodeController => "node-controller"
    case MidonetApi => "midonet-api"
    case Midolman => "midolman"
    case MidoZookeeper => "mido-zookeeper"
    case MidoCassandra => "mido-cassandra"
    case MonBootstrap => "mon-bootstrap"
    case CephMons => "ceph-mons"
    case CephOsds => "ceph-osds"
    case RiakHead => "riak-head"
    case RiakNode => "riak-node"
    case Haproxy => "haproxy"
    case Nginx => "nginx"
    case All => "all"
  }

  /** Looking a role up by its key, as `roles[name]` does; `None` for a key that is no role. */
  function RoleOf(name: string): (r: Option<Role>)
    ensures r.Some? ==> RoleName(r.value) == name
    ensures r.None? ==> forall x :: RoleName(x) != name
  {
    if name == "clc" then Some(Clc)
    else if name == "user-facing" then Some(UserFacing)
    else if name == "console" then Some(Console)
    else if name == "walrus" then Some(Walrus)
    else if name == "cluster-controller" then Some(ClusterController)
    else if name == "storage-controller" then Some(StorageController)
    else if name == "node-controller" then Some(NodeController)
    else if name == "midonet-api" then Some(MidonetApi)
    else if name == "midolman" then Some(Midolman)
    else if name == "mido-zookeeper" then Some(MidoZookeeper)
    else if name == "mido-cassandra" then Some(MidoCassandra)
    else if name == "mon-bootstrap" then Some(MonBootstrap)
    else if name == "ceph-mons" then Some(CephMons)
    else if name == "ceph-osds" then Some(CephOsds)
    else if name == "riak-head" then Some(RiakHead)
    else if name == "riak-node" then Some(RiakNode)
    else if name == "haproxy" then Some(Haproxy)
    else if name == "nginx" then Some(Nginx)
    else if name == "all" then Some(All)
    else None
  }

  /** Every role is listed, once, and its key reads back as that role. */
  lemma RoleListComplete()
    ensures forall r :: r in RoleList
    ensures forall i, j :: 0 <= i < j < |RoleList| ==> RoleList[i] != RoleList[j]
    ensures forall r :: RoleOf(RoleName(r)) == Some(r)
  {
    RoleListed();
    forall r ensures RoleOf(RoleName(r)) == Some(r) {
      RoleNameReadsBack(r);
    }
  }

  /** Where each role stands in the list. */
  function Position(r: Role): (k: nat)
    ensures k < |RoleList| && RoleList[k] == r
  {
    match r
    case Clc => 0 case UserFacing => 1 case Console => 2 case Walrus => 3
    case ClusterController => 4 case StorageController => 5 case NodeController => 6
    case MidonetApi => 7 case Midolman => 8 case MidoZookeeper => 9 case MidoCassandra => 10
    case MonBootstrap => 11 case CephMons => 12 case CephOsds => 13
    case RiakHead => 14 case RiakNode => 15 case Haproxy => 16 case Nginx => 17
    case All => 18
  }

  lemma RoleListed()
    ensures forall r :: r in RoleList
  {
    forall r ensures r in RoleList {
      assert RoleList[Position(r)] == r;
    }
  }

  lemma RoleNameReadsBack(r: Role)
    ensures RoleOf(RoleName(r)) == Some(r)
  {
    match r
    case Clc => case UserFacing => case Console => case Walrus =>
    case ClusterController => case StorageController => case NodeController =>
    case MidonetApi => case Midolman => case MidoZookeeper => case MidoCassandra =>
    case MonBootstrap => case CephMons => case CephOsds =>
    case RiakHead => case RiakNode => case Haproxy => case Nginx => case All =>
  }

  type Roles = map<Role, set<string>>

  /** `_initialize_roles`: every listed role maps to the empty set, and nothing else is a key. */
  method InitializeRoles() returns (roles: Roles)
    ensures roles.Keys == set r | r in RoleList
    ensures forall r :: r in roles ==> roles[r] == {}
  {
    roles := map[];
    var i := 0;
    while i < |RoleList|
      invariant 0 <= i <= |RoleList|
      invariant roles.Keys == set r | r in RoleList[..i]
      invariant forall r :: r in roles ==> roles[r] == {}
    {
      assert RoleList[..i + 1] == RoleList[..i] + [RoleList[i]];
      roles := roles[RoleList[i] := {}];
      i := i + 1;
    }
    assert RoleList[..i] == RoleList;
  }

  // ---------------------------------------------------------------------
  // The environment's attributes (`default_attributes`), typed. An `Option`
  // field is a key that may be absent; where the source tests a value for
  // truth, `None` also stands for a false value.

  /** A Ceph monitor entry. */
  datatype Mon = Mon(ipaddr: string, init: bool)

  /** `riakcs_cluster.topology`: `head` is the head's `ipaddr` (`None`: no head or a false one). */
  datatype RiakTopology = RiakTopology(head: Option<string>, nodes: seq<string>, loadBalancer: Option<string>)

  /** `ceph.topology`: `osds` holds the OSDs' `ipaddr`s (`None`: the key is absent). */
  datatype CephTopology = CephTopology(mons: seq<Mon>, osds: Option<seq<string>>)

  /** One entry of `eucalyptus.topology.clusters`: `cc-1`, `sc-1` and the whitespace-separated `nodes`. */
  datatype Cluster = Cluster(cc: Option<string>, sc: Option<string>, nodes: Option<string>)

  /** `eucalyptus.topology`; `riakcs` is the key set of its `riakcs` section, `clusters`
      the clusters in the order the dictionary iterates them. */
  datatype EucaTopology = EucaTopology(
    clc: string,
    userFacing: seq<string>,
    console: Option<seq<string>>,
    walrus: Option<string>,
    riakcs: Option<set<string>>,
    clusters: seq<(string, Cluster)>)

  /** `eucalyptus.network`: `mode`, and the `config-json.Mido` section, `None` when either
      key is absent, holding its `EucanetdHost` otherwise. */
  datatype Network = Network(mode: Option<string>, mido: Option<Option<string>>)

  datatype Euca = Euca(topology: EucaTopology, network: Network)

  /** `midokura`: the hostname-to-address mapping, zookeeper and cassandra entries. */
  datatype Midokura = Midokura(hostMapping: Option<map<string, string>>, zookeepers: seq<string>, cassandras: seq<string>)

  /** `default_attributes`; a section that is absent or empty is `None`; `nginx` and
      `haproxy` say whether those keys hold a true value. */
  datatype Environment = Environment(
    euca: Option<Euca>,
    riak: Option<RiakTopology>,
    ceph: Option<CephTopology>,
    midokura: Option<Midokura>,
    nginx: bool,
    haproxy: bool)

  /** The exceptions `get_roles` raises. */
  datatype RoleError =
    | MissingRiakHead
    | NginxNotImplemented
    | NoLoadBalancer
    | NoInitialMon
    | MissingOsdKey
    | NoOsd
    | MissingCc(cluster: string)
    | MissingSc(cluster: string)
    | MissingNodes(cluster: string)
    | MissingNetworkMode
    | MissingMidoConfig
    | MidonetApiNotMapped(gateway: Option<string>)

  /** The resolved roles and `roles['cluster']` (absent when no cluster was processed). */
  datatype RoleGraph = RoleGraph(roles: Roles, cluster: Option<map<string, set<string>>>)

  const VpcMido: string := "VPCMIDO"

  predicate Truthy(o: Option<string>) {
    o.Some? && o.value != ""
  }

  // ---------------------------------------------------------------------
  // What `get_roles` computes, stated declaratively.

  function Addresses(xs: seq<string>): set<string> {
    set x | x in xs
  }

  /** The hosts of zookeeper entries: each entry up to its first colon. */
  function ZookeeperAddresses(zks: seq<string>): set<string> {
    set z | z in zks :: BeforeColon(z)
  }

  /** The addresses of the monitors. */
  function MonAddresses(mons: seq<Mon>): set<string> {
    set m | m in mons :: m.ipaddr
  }

  function OptSet(o: Option<string>): set<string> {
    if o.Some? then {o.value} else {}
  }

  /** The first cluster, in iteration order, that lacks `cc-1`, `sc-1` or `nodes`. */
  function ClusterError(cs: seq<(string, Cluster)>): Option<RoleError> {
    if cs == [] then None
    else if cs[0].1.cc.None? then Some(MissingCc(cs[0].0))
    else if cs[0].1.sc.None? then Some(MissingSc(cs[0].0))
    else if cs[0].1.nodes.None? then Some(MissingNodes(cs[0].0))
    else ClusterError(cs[1..])
  }

  function NodeList(c: Cluster): seq<string> {
    if c.nodes.Some? then SplitWhitespace(c.nodes.value) else []
  }

  function CcSet(cs: seq<(string, Cluster)>): set<string> {
    set c, h | c in cs && h in OptSet(c.1.cc) :: h
  }

  function ScSet(cs: seq<(string, Cluster)>): set<string> {
    set c, h | c in cs && h in OptSet(c.1.sc) :: h
  }

  function NcSet(cs: seq<(string, Cluster)>): set<string> {
    set c, h | c in cs && h in NodeList(c.1) :: h
  }

  /** A cluster's hosts: its CC, its SC and its nodes. */
  function ClusterHosts(c: Cluster): set<string> {
    OptSet(c.cc) + OptSet(c.sc) + Addresses(NodeList(c))
  }

  /** `roles['cluster']` after the loop: only the last cluster processed. */
  function LastCluster(cs: seq<(string, Cluster)>): Option<map<string, set<string>>> {
    if cs == [] then None
    else Some(map[cs[|cs| - 1].0 := ClusterHosts(cs[|cs| - 1].1)])
  }

  /** The address of the first monitor marked `init`. */
  function FirstInit(mons: seq<Mon>): Option<string> {
    if mons == [] then None
    else if mons[0].init then Some(mons[0].ipaddr)
    else FirstInit(mons[1..])
  }

  /** The Midokura roles are resolved: a `midokura` section and network mode VPCMIDO. */
  predicate MidoActive(env: Environment) {
    env.euca.Some? && env.midokura.Some? && env.euca.value.network.mode == Some(VpcMido)
  }

  /** The host mapping consulted, empty when there is none or Midokura is inactive. */
  function ActiveMapping(env: Environment): map<string, string> {
    if MidoActive(env) && env.midokura.value.hostMapping.Some? then env.midokura.value.hostMapping.value
    else map[]
  }

  /** `mido.get('EucanetdHost')`, `None` also when there is no `Mido` section to ask. */
  function GatewayHost(env: Environment): Option<string> {
    if env.euca.Some? && env.euca.value.network.mido.Some? then env.euca.value.network.mido.value else None
  }

  /** `midolman_host_mapping.get(EucanetdHost)` when it is a true value. */
  function MidonetApiAddress(env: Environment): Option<string> {
    var m := ActiveMapping(env);
    var gw := GatewayHost(env);
    if gw.Some? && gw.value in m && m[gw.value] != "" then Some(m[gw.value]) else None
  }

  function RiakError(env: Environment): Option<RoleError> {
    if env.riak.None? then None
    else if env.riak.value.head.None? then Some(MissingRiakHead)
    else if Truthy(env.riak.value.loadBalancer) && env.nginx then Some(NginxNotImplemented)
    else if Truthy(env.riak.value.loadBalancer) && !env.haproxy then Some(NoLoadBalancer)
    else None
  }

  function CephError(env: Environment): Option<RoleError> {
    if env.ceph.None? then None
    else if env.ceph.value.mons != [] && FirstInit(env.ceph.value.mons).None? then Some(NoInitialMon)
    else if env.ceph.value.osds.None? then Some(MissingOsdKey)
    else if env.ceph.value.osds == Some([]) then Some(NoOsd)
    else None
  }

  function ClustersError(env: Environment): Option<RoleError> {
    if env.euca.None? then None else ClusterError(env.euca.value.topology.clusters)
  }

  function MidoError(env: Environment): Option<RoleError> {
    if env.euca.Some? && env.midokura.Some? && env.euca.value.network.mode.None? then Some(MissingNetworkMode)
    else if MidoActive(env) && env.euca.value.network.mido.None? then Some(MissingMidoConfig)
    else if ActiveMapping(env) != map[] && MidonetApiAddress(env).None? then Some(MidonetApiNotMapped(GatewayHost(env)))
    else None
  }

  function EucaError(env: Environment): Option<RoleError> {
    if ClustersError(env).Some? then ClustersError(env) else MidoError(env)
  }

  /** The exception `get_roles` raises, checked in the order the source checks:
      Riak CS, then Ceph, then the Eucalyptus clusters, then Midokura. */
  function FirstError(env: Environment): Option<RoleError> {
    if RiakError(env).Some? then RiakError(env)
    else if CephError(env).Some? then CephError(env)
    else EucaError(env)
  }

  /** The hosts of every role but `all`. */
  function BaseHosts(env: Environment, r: Role): set<string> {
    match r
    case Clc => ClcHosts(env)
    case UserFacing => UserFacingHosts(env)
    case Console => ConsoleHosts(env)
    case Walrus => WalrusHosts(env)
    case ClusterController => CcHosts(env)
    case StorageController => ScHosts(env)
    case NodeController => NcHosts(env)
    case MidonetApi => MidonetApiHosts(env)
    case Midolman => MidolmanHosts(env)
    case MidoZookeeper => ZookeeperHosts(env)
    case MidoCassandra => CassandraHosts(env)
    case MonBootstrap => BootstrapHosts(env)
    case CephMons => MonHosts(env)
    case CephOsds => OsdHosts(env)
    case RiakHead => RiakHeadHosts(env)
    case RiakNode => RiakNodeHosts(env)
    case Haproxy => HaproxyHosts(env)
    case Nginx => {}
    case All => {}
  }

  function ClcHosts(env: Environment): set<string> {
    if env.euca.Some? then {env.euca.value.topology.clc} else {}
  }

  function UserFacingHosts(env: Environment): set<string> {
    if env.euca.Some? then Addresses(env.euca.value.topology.userFacing) else {}
  }

  function ConsoleHosts(env: Environment): set<string> {
    if env.euca.Some? && env.euca.value.topology.console.Some? then Addresses(env.euca.value.topology.console.value) else {}
  }

  function WalrusHosts(env: Environment): set<string> {
    if env.euca.Some? then OptSet(env.euca.value.topology.walrus) else {}
  }

  function CcHosts(env: Environment): set<string> {
    if env.euca.Some? then CcSet(env.euca.value.topology.clusters) else {}
  }

  function ScHosts(env: Environment): set<string> {
    if env.euca.Some? then ScSet(env.euca.value.topology.clusters) else {}
  }

  function NcHosts(env: Environment): set<string> {
    if env.euca.Some? then NcSet(env.euca.value.topology.clusters) else {}
  }

  function MidonetApiHosts(env: Environment): set<string> {
    OptSet(MidonetApiAddress(env))
  }

  function MidolmanHosts(env: Environment): set<string> {
    if ActiveMapping(env) != map[] then ActiveMapping(env).Values + NcSet(env.euca.value.topology.clusters) else {}
  }

  function ZookeeperHosts(env: Environment): set<string> {
    if MidoActive(env) then ZookeeperAddresses(env.midokura.value.zookeepers) else {}
  }

  function CassandraHosts(env: Environment): set<string> {
    if MidoActive(env) then Addresses(env.midokura.value.cassandras) else {}
  }

  function BootstrapHosts(env: Environment): set<string> {
    if env.ceph.Some? then OptSet(FirstInit(env.ceph.value.mons)) else {}
  }

  function MonHosts(env: Environment): set<string> {
    if env.ceph.Some? then MonAddresses(env.ceph.value.mons) else {}
  }

  function OsdHosts(env: Environment): set<string> {
    if env.ceph.Some? && env.ceph.value.osds.Some? then Addresses(env.ceph.value.osds.value) else {}
  }

  function RiakHeadHosts(env: Environment): set<string> {
    if env.riak.Some? then OptSet(env.riak.value.head) else {}
  }

  function RiakNodeHosts(env: Environment): set<string> {
    if env.riak.Some? then Addresses(env.riak.value.nodes) else {}
  }

  function HaproxyHosts(env: Environment): set<string> {
    if env.riak.Some? && Truthy(env.riak.value.loadBalancer) then {env.riak.value.loadBalancer.value} else {}
  }

  /** The roles whose hosts `get_roles` also adds to `all`. */
  predicate Contributes(q: Role) {
    !(q.MidonetApi? || q.Midolman? || q.MonBootstrap? || q.Nginx? || q.All?)
  }

  /** The `all` role: every host any contributing role names. */
  function AllHosts(env: Environment): set<string> {
    RiakHeadHosts(env) + RiakNodeHosts(env) + HaproxyHosts(env)
    + MonHosts(env) + OsdHosts(env)
    + ClcHosts(env) + UserFacingHosts(env) + ConsoleHosts(env) + WalrusHosts(env)
    + CcHosts(env) + ScHosts(env) + NcHosts(env)
    + ZookeeperHosts(env) + CassandraHosts(env)
  }

  function RoleHosts(env: Environment, r: Role): set<string> {
    if r == All then AllHosts(env) else BaseHosts(env, r)
  }

  /** The roles map `get_roles` returns when it raises nothing. */
  function ResolvedRoles(env: Environment): Roles {
    map r | r in RoleList :: RoleHosts(env, r)
  }

  /** `roles['cluster']` after the cluster loop. */
  function ClusterMap(env: Environment): Option<map<string, set<string>>> {
    if env.euca.Some? then LastCluster(env.euca.value.topology.clusters) else None
  }

  /** The result of `get_roles`. */
  function Resolve(env: Environment): Result<RoleGraph, RoleError> {
    if FirstError(env).Some? then Failure(FirstError(env).value)
    else Success(RoleGraph(ResolvedRoles(env), ClusterMap(env)))
  }

  // ---------------------------------------------------------------------
  // Facts about the prefix recursion used by the loops below.

  lemma {:induction false} FirstInitSnoc(mons: seq<Mon>, m: Mon)
    ensures FirstInit(mons + [m]) ==
      if FirstInit(mons).Some? then FirstInit(mons) else if m.init then Some(m.ipaddr) else None
  {
    if mons == [] {
      assert mons + [m] == [m];
    } else {
      assert (mons + [m])[1..] == mons[1..] + [m];
      FirstInitSnoc(mons[1..], m);
    }
  }

  lemma {:induction false} ClusterErrorAppend(a: seq<(string, Cluster)>, b: seq<(string, Cluster)>)
    ensures ClusterError(a + b) == if ClusterError(a).Some? then ClusterError(a) else ClusterError(b)
  {
    if a == [] {
      assert a + b == b;
    } else {
      assert (a + b)[0] == a[0];
      assert (a + b)[1..] == a[1..] + b;
      ClusterErrorAppend(a[1..], b);
    }
  }

  lemma ClusterSetsStep(cs: seq<(string, Cluster)>, i: nat)
    requires i < |cs|
    ensures CcSet(cs[..i + 1]) == CcSet(cs[..i]) + OptSet(cs[i].1.cc)
    ensures ScSet(cs[..i + 1]) == ScSet(cs[..i]) + OptSet(cs[i].1.sc)
    ensures NcSet(cs[..i + 1]) == NcSet(cs[..i]) + Addresses(NodeList(cs[i].1))
  {
    assert forall x :: x in cs[..i + 1] <==> x in cs[..i] || x == cs[i] by {
      assert cs[..i + 1] == cs[..i] + [cs[i]];
    }
  }

  lemma ClusterErrorStep(cs: seq<(string, Cluster)>, i: nat)
    requires i < |cs| && ClusterError(cs[..i]).None?
    ensures ClusterError(cs[..i + 1]) == ClusterError([cs[i]])
    ensures ClusterError([cs[i]]).Some? ==> ClusterError(cs) == ClusterError([cs[i]])
  {
    assert cs[..i + 1] == cs[..i] + [cs[i]];
    ClusterErrorAppend(cs[..i], [cs[i]]);
    assert cs == cs[..i + 1] + cs[i + 1..];
    ClusterErrorAppend(cs[..i + 1], cs[i + 1..]);
  }

  // ---------------------------------------------------------------------
  // The loops of `get_roles`.

  /** `for x in xs: acc.add(x); all.add(x)` */
  method AddAll(acc: set<string>, all: set<string>, xs: seq<string>) returns (acc': set<string>, all': set<string>)
    ensures acc' == acc + Addresses(xs)
    ensures all' == all + Addresses(xs)
  {
    acc', all' := acc, all;
    for i := 0 to |xs|
      invariant acc' == acc + Addresses(xs[..i])
      invariant all' == all + Addresses(xs[..i])
    {
      assert xs[..i + 1] == xs[..i] + [xs[i]];
      acc' := acc' + {xs[i]};
      all' := all' + {xs[i]};
    }
    assert xs[..|xs|] == xs;
  }

  /** `for host in hosts: acc.add(host)`, over a set in whatever order it iterates. */
  method AddEach(acc: set<string>, hosts: set<string>) returns (acc': set<string>)
    ensures acc' == acc + hosts
  {
    acc' := acc;
    var todo := hosts;
    while todo != {}
      invariant todo <= hosts
      invariant acc' == acc + (hosts - todo)
      decreases todo
    {
      var h :| h in todo;
      acc' := acc' + {h};
      todo := todo - {h};
    }
  }

  /** `for hostname, host_ip in mapping.iteritems(): acc.add(host_ip)` */
  method AddValues(acc: set<string>, mapping: map<string, string>) returns (acc': set<string>)
    ensures acc' == acc + mapping.Values
  {
    acc' := acc;
    var todo := mapping.Keys;
    while todo != {}
      invariant todo <= mapping.Keys
      invariant acc' == acc + set k | k in mapping.Keys - todo :: mapping[k]
      decreases todo
    {
      var k :| k in todo;
      acc' := acc' + {mapping[k]};
      todo := todo - {k};
    }
    assert (set k | k in mapping.Keys :: mapping[k]) == mapping.Values;
  }

  lemma ColonImageStep(zks: seq<string>, i: nat)
    requires i < |zks|
    ensures ZookeeperAddresses(zks[..i + 1]) == ZookeeperAddresses(zks[..i]) + {BeforeColon(zks[i])}
  {
    assert forall z :: z in zks[..i + 1] <==> z in zks[..i] || z == zks[i] by {
      assert zks[..i + 1] == zks[..i] + [zks[i]];
    }
  }

  /** `for host in zookeepers: acc.add(str(host).split(':')[0]); all.add(...)` */
  method AddZookeepers(acc: set<string>, all: set<string>, zks: seq<string>) returns (acc': set<string>, all': set<string>)
    ensures acc' == acc + ZookeeperAddresses(zks)
    ensures all' == all + ZookeeperAddresses(zks)
  {
    acc', all' := acc, all;
    for i := 0 to |zks|
      invariant acc' == acc + ZookeeperAddresses(zks[..i])
      invariant all' == all + ZookeeperAddresses(zks[..i])
    {
      ColonImageStep(zks, i);
      var host := BeforeColon(zks[i]);
      acc' := acc' + {host};
      all' := all' + {host};
    }
    assert zks[..|zks|] == zks;
  }

  /** The monitor loop: the first `init` monitor bootstraps, every monitor is a monitor. */
  method CephMonRoles(mons: seq<Mon>, all: set<string>) returns (boot: set<string>, monset: set<string>, all': set<string>)
    ensures boot == OptSet(FirstInit(mons))
    ensures monset == MonAddresses(mons)
    ensures all' == all + monset
  {
    boot, monset, all' := {}, {}, all;
    for i := 0 to |mons|
      invariant boot == OptSet(FirstInit(mons[..i]))
      invariant monset == MonAddresses(mons[..i])
      invariant all' == all + monset
    {
      assert mons[..i + 1] == mons[..i] + [mons[i]];
      FirstInitSnoc(mons[..i], mons[i]);
      if mons[i].init && boot == {} {
        boot := boot + {mons[i].ipaddr};
      }
      monset := monset + {mons[i].ipaddr};
      all' := all' + {mons[i].ipaddr};
    }
    assert mons[..|mons|] == mons;
  }

  datatype ClusterAcc = ClusterAcc(
    cc: set<string>, sc: set<string>, nc: set<string>, all: set<string>,
    cluster: Option<map<string, set<string>>>)

  /** The accumulated roles after the clusters `cs`, starting from `all`. */
  function AccAfter(cs: seq<(string, Cluster)>, all: set<string>): ClusterAcc {
    ClusterAcc(CcSet(cs), ScSet(cs), NcSet(cs), all + CcSet(cs) + ScSet(cs) + NcSet(cs), LastCluster(cs))
  }

  /** What one complete cluster adds to the accumulated roles. */
  function Added(acc: ClusterAcc, name: string, c: Cluster): ClusterAcc {
    ClusterAcc(acc.cc + OptSet(c.cc), acc.sc + OptSet(c.sc), acc.nc + Addresses(NodeList(c)),
      acc.all + ClusterHosts(c), Some(map[name := ClusterHosts(c)]))
  }

  lemma AccStep(cs: seq<(string, Cluster)>, i: nat, all: set<string>)
    requires i < |cs|
    ensures Added(AccAfter(cs[..i], all), cs[i].0, cs[i].1) == AccAfter(cs[..i + 1], all)
  {
    ClusterSetsStep(cs, i);
    ghost var next := cs[..i + 1];
    assert next[|next| - 1] == cs[i];
  }

  /** One iteration of the cluster loop: checks `cc-1`, `sc-1` and `nodes` in that order
      and adds the cluster's hosts to the controller, storage and node roles and to `all`. */
  method AddCluster(name: string, c: Cluster, acc: ClusterAcc) returns (r: Result<ClusterAcc, RoleError>)
    ensures r == match ClusterError([(name, c)])
      case Some(e) => Failure(e)
      case None => Success(Added(acc, name, c))
  {
    assert [(name, c)][0] == (name, c) && [(name, c)][1..] == [];
    if c.cc.None? {
      return Failure(MissingCc(name));
    }
    var cc := acc.cc + {c.cc.value};
    if c.sc.None? {
      return Failure(MissingSc(name));
    }
    var sc := acc.sc + {c.sc.value};
    var members := {c.cc.value, c.sc.value};
    if c.nodes.None? {
      return Failure(MissingNodes(name));
    }
    var nodes := SplitWhitespace(c.nodes.value);
    var nc;
    nc, members := AddAll(acc.nc, members, nodes);
    assert ClusterError([(name, c)]) == ClusterError([]);
    assert members == ClusterHosts(c);
    r := Success(ClusterAcc(cc, sc, nc, acc.all + members, Some(map[name := members])));
  }

  /** The cluster loop, raising for the first cluster without `cc-1`, `sc-1` or `nodes`. */
  method ClusterRoles(cs: seq<(string, Cluster)>, all: set<string>) returns (r: Result<ClusterAcc, RoleError>)
    ensures ClusterError(cs).Some? ==> r == Failure(ClusterError(cs).value)
    ensures ClusterError(cs).None? ==> r == Success(AccAfter(cs, all))
  {
    var acc := ClusterAcc({}, {}, {}, all, None);
    assert cs[..0] == [];
    for i := 0 to |cs|
      invariant ClusterError(cs[..i]).None?
      invariant acc == AccAfter(cs[..i], all)
    {
      ClusterErrorStep(cs, i);
      AccStep(cs, i, all);
      var step := AddCluster(cs[i].0, cs[i].1, acc);
      if step.Failure? {
        return step;
      }
      acc := step.value;
    }
    assert cs[..|cs|] == cs;
    r := Success(acc);
  }

  datatype RiakRoles = RiakRoles(head: set<string>, nodes: set<string>, haproxy: set<string>, all: set<string>)

  /** The Riak CS block of `get_roles`. */
  method RiakSection(env: Environment, all: set<string>) returns (r: Result<RiakRoles, RoleError>)
    ensures r.Failure? <==> RiakError(env).Some?
    ensures r.Failure? ==> r.error == RiakError(env).value
    ensures r.Success? ==> r.value == RiakRoles(
      RiakHeadHosts(env), RiakNodeHosts(env), HaproxyHosts(env),
      all + RiakHeadHosts(env) + RiakNodeHosts(env) + HaproxyHosts(env))
  {
    if env.riak.None? {
      return Success(RiakRoles({}, {}, {}, all));
    }
    var rt := env.riak.value;
    if rt.head.None? {
      return Failure(MissingRiakHead);
    }
    var head := {rt.head.value};
    var all' := all + {rt.head.value};
    var riakNodes;
    riakNodes, all' := AddAll({}, all', rt.nodes);
    var lb := {};
    if Truthy(rt.loadBalancer) {
      if env.nginx {
        return Failure(NginxNotImplemented);
      } else if !env.haproxy {
        return Failure(NoLoadBalancer);
      }
      lb := {rt.loadBalancer.value};
      all' := all' + {rt.loadBalancer.value};
    }
    r := Success(RiakRoles(head, riakNodes, lb, all'));
  }

  datatype CephRoles = CephRoles(bootstrap: set<string>, mons: set<string>, osds: set<string>, all: set<string>)

  /** The Ceph block of `get_roles`. */
  method CephSection(env: Environment, all: set<string>) returns (r: Result<CephRoles, RoleError>)
    ensures r.Failure? <==> CephError(env).Some?
    ensures r.Failure? ==> r.error == CephError(env).value
    ensures r.Success? ==> r.value == CephRoles(
      BootstrapHosts(env), MonHosts(env), OsdHosts(env),
      all + MonHosts(env) + OsdHosts(env))
  {
    if env.ceph.None? {
      return Success(CephRoles({}, {}, {}, all));
    }
    var ct := env.ceph.value;
    var boot, monset, all' := {}, {}, all;
    if ct.mons != [] {
      boot, monset, all' := CephMonRoles(ct.mons, all);
      if boot == {} {
        return Failure(NoInitialMon);
      }
    }
    if ct.osds.None? {
      return Failure(MissingOsdKey);
    }
    if ct.osds.value == [] {
      return Failure(NoOsd);
    }
    var osdset;
    osdset, all' := AddAll({}, all', ct.osds.value);
    r := Success(CephRoles(boot, monset, osdset, all'));
  }

  datatype EucaRoles = EucaRoles(
    clc: set<string>, userFacing: set<string>, console: set<string>, walrus: set<string>,
    cc: set<string>, sc: set<string>, nc: set<string>, all: set<string>,
    cluster: Option<map<string, set<string>>>)

  /** The Eucalyptus block of `get_roles` up to and including the cluster loop. */
  method EucaSection(env: Environment, all: set<string>) returns (r: Result<EucaRoles, RoleError>)
    ensures r.Failure? <==> ClustersError(env).Some?
    ensures r.Failure? ==> r.error == ClustersError(env).value
    ensures r.Success? ==> r.value == EucaRoles(
      ClcHosts(env), UserFacingHosts(env), ConsoleHosts(env), WalrusHosts(env),
      CcHosts(env), ScHosts(env), NcHosts(env),
      all + ClcHosts(env) + UserFacingHosts(env) + ConsoleHosts(env) + WalrusHosts(env)
        + CcHosts(env) + ScHosts(env) + NcHosts(env),
      if env.euca.Some? then LastCluster(env.euca.value.topology.clusters) else None)
  {
    if env.euca.None? {
      return Success(EucaRoles({}, {}, {}, {}, {}, {}, {}, all, None));
    }
    var t := env.euca.value.topology;
    var clc, ufs, consoles, walrus, all' := EucaHeader(t, all);
    var cr := ClusterRoles(t.clusters, all');
    if cr.Failure? {
      return Failure(cr.error);
    }
    EucaBase(env);
    r := Success(EucaRoles(clc, ufs, consoles, walrus, cr.value.cc, cr.value.sc, cr.value.nc, cr.value.all, cr.value.cluster));
  }

  lemma EucaBase(env: Environment)
    requires env.euca.Some?
    ensures var t := env.euca.value.topology;
      && ClcHosts(env) == {t.clc}
      && UserFacingHosts(env) == Addresses(t.userFacing)
      && ConsoleHosts(env) == (if t.console.Some? then Addresses(t.console.value) else {})
      && WalrusHosts(env) == OptSet(t.walrus)
      && CcHosts(env) == CcSet(t.clusters)
      && ScHosts(env) == ScSet(t.clusters)
      && NcHosts(env) == NcSet(t.clusters)
  {
  }

  /** The CLC, user-facing, console and walrus part of the Eucalyptus block. */
  method EucaHeader(t: EucaTopology, all: set<string>)
    returns (clc: set<string>, ufs: set<string>, consoles: set<string>, walrus: set<string>, all': set<string>)
    ensures clc == {t.clc} && ufs == Addresses(t.userFacing)
    ensures consoles == (if t.console.Some? then Addresses(t.console.value) else {})
    ensures walrus == OptSet(t.walrus)
    ensures all' == all + clc + ufs + consoles + walrus
  {
    clc := {t.clc};
    all' := all + {t.clc};
    ufs, all' := AddAll({}, all', t.userFacing);
    consoles := {};
    if t.console.Some? {
      consoles, all' := AddAll({}, all', t.console.value);
    }
    walrus := {};
    if t.walrus.Some? {
      walrus := {t.walrus.value};
      all' := all' + {t.walrus.value};
    }
  }

  datatype MidoRoles = MidoRoles(api: set<string>, midolman: set<string>, zookeepers: set<string>, cassandras: set<string>, all: set<string>)

  /** The Midokura block of `get_roles`; `nc` is the node-controller role resolved so far. */
  method MidoSection(env: Environment, nc: set<string>, all: set<string>) returns (r: Result<MidoRoles, RoleError>)
    ensures r.Failure? <==> MidoError(env).Some?
    ensures r.Failure? ==> r.error == MidoError(env).value
    ensures r.Success? ==> r.value == MidoRoles(
      MidonetApiHosts(env),
      if ActiveMapping(env) != map[] then ActiveMapping(env).Values + nc else {},
      ZookeeperHosts(env), CassandraHosts(env),
      all + ZookeeperHosts(env) + CassandraHosts(env))
  {
    if env.euca.None? || env.midokura.None? {
      return Success(MidoRoles({}, {}, {}, {}, all));
    }
    var net := env.euca.value.network;
    if net.mode.None? {
      return Failure(MissingNetworkMode);
    }
    if net.mode.value != VpcMido {
      return Success(MidoRoles({}, {}, {}, {}, all));
    }
    if net.mido.None? {
      return Failure(MissingMidoConfig);
    }
    var mk := env.midokura.value;
    var api, midolman := {}, {};
    if mk.hostMapping.Some? && mk.hostMapping.value != map[] {
      var mapping := mk.hostMapping.value;
      var gw := net.mido.value;
      if gw.None? || gw.value !in mapping || mapping[gw.value] == "" {
        return Failure(MidonetApiNotMapped(gw));
      }
      api := {mapping[gw.value]};
      midolman := AddValues({}, mapping);
      midolman := AddEach(midolman, nc);
    }
    var zks, all' := AddZookeepers({}, all, mk.zookeepers);
    var cassandras;
    cassandras, all' := AddAll({}, all', mk.cassandras);
    r := Success(MidoRoles(api, midolman, zks, cassandras, all'));
  }

  /** A roles map that holds, under every role, what `get_roles` assigns it. */
  lemma Assembled(env: Environment, roles: Roles)
    requires forall q :: q in roles
    requires roles[RiakHead] == RiakHeadHosts(env) && roles[RiakNode] == RiakNodeHosts(env)
    requires roles[Haproxy] == HaproxyHosts(env) && roles[Nginx] == {}
    requires roles[MonBootstrap] == BootstrapHosts(env) && roles[CephMons] == MonHosts(env)
    requires roles[CephOsds] == OsdHosts(env)
    requires roles[Clc] == ClcHosts(env) && roles[UserFacing] == UserFacingHosts(env)
    requires roles[Console] == ConsoleHosts(env) && roles[Walrus] == WalrusHosts(env)
    requires roles[ClusterController] == CcHosts(env)
    requires roles[StorageController] == ScHosts(env)
    requires roles[NodeController] == NcHosts(env)
    requires roles[MidonetApi] == MidonetApiHosts(env) && roles[Midolman] == MidolmanHosts(env)
    requires roles[MidoZookeeper] == ZookeeperHosts(env)
    requires roles[MidoCassandra] == CassandraHosts(env)
    requires roles[All] == AllHosts(env)
    ensures roles == ResolvedRoles(env)
  {
    RoleListComplete();
    forall q ensures roles[q] == RoleHosts(env, q) {
      match q
      case RiakHead => case RiakNode => case Haproxy => case Nginx =>
      case MonBootstrap => case CephMons => case CephOsds =>
      case Clc => case UserFacing => case Console => case Walrus =>
      case ClusterController => case StorageController => case NodeController =>
      case MidonetApi => case Midolman => case MidoZookeeper => case MidoCassandra => case All =>
    }
  }

  /** The assignments `get_roles` makes, section by section, to the initialized roles. */
  function Assign(init: Roles, riak: RiakRoles, ceph: CephRoles, e: EucaRoles, m: MidoRoles): Roles {
    init[RiakHead := riak.head][RiakNode := riak.nodes][Haproxy := riak.haproxy]
      [MonBootstrap := ceph.bootstrap][CephMons := ceph.mons][CephOsds := ceph.osds]
      [Clc := e.clc][UserFacing := e.userFacing][Console := e.console][Walrus := e.walrus]
      [ClusterController := e.cc][StorageController := e.sc][NodeController := e.nc]
      [MidonetApi := m.api][Midolman := m.midolman][MidoZookeeper := m.zookeepers]
      [MidoCassandra := m.cassandras][All := m.all]
  }

  /** What each role holds after the assignments of `get_roles`. */
  lemma AssignLookup(init: Roles, riak: RiakRoles, ceph: CephRoles, e: EucaRoles, m: MidoRoles)
    requires forall q :: q in init && init[q] == {}
    ensures var roles := Assign(init, riak, ceph, e, m);
      && (forall q :: q in roles)
      && roles[RiakHead] == riak.head && roles[RiakNode] == riak.nodes && roles[Haproxy] == riak.haproxy
      && roles[Nginx] == {}
      && roles[MonBootstrap] == ceph.bootstrap && roles[CephMons] == ceph.mons && roles[CephOsds] == ceph.osds
      && roles[Clc] == e.clc && roles[UserFacing] == e.userFacing && roles[Console] == e.console
      && roles[Walrus] == e.walrus && roles[ClusterController] == e.cc && roles[StorageController] == e.sc
      && roles[NodeController] == e.nc
      && roles[MidonetApi] == m.api && roles[Midolman] == m.midolman && roles[MidoZookeeper] == m.zookeepers
      && roles[MidoCassandra] == m.cassandras && roles[All] == m.all
  {
  }

  lemma AssignResolved(env: Environment, init: Roles, riak: RiakRoles, ceph: CephRoles, e: EucaRoles, m: MidoRoles)
    requires forall q :: q in init && init[q] == {}
    requires riak.head == RiakHeadHosts(env) && riak.nodes == RiakNodeHosts(env) && riak.haproxy == HaproxyHosts(env)
    requires ceph.bootstrap == BootstrapHosts(env) && ceph.mons == MonHosts(env) && ceph.osds == OsdHosts(env)
    requires e.clc == ClcHosts(env) && e.userFacing == UserFacingHosts(env)
    requires e.console == ConsoleHosts(env) && e.walrus == WalrusHosts(env)
    requires e.cc == CcHosts(env) && e.sc == ScHosts(env) && e.nc == NcHosts(env)
    requires m.api == MidonetApiHosts(env) && m.midolman == MidolmanHosts(env)
    requires m.zookeepers == ZookeeperHosts(env) && m.cassandras == CassandraHosts(env)
    requires m.all == AllHosts(env)
    ensures Assign(init, riak, ceph, e, m) == ResolvedRoles(env)
  {
    AssignLookup(init, riak, ceph, e, m);
    Assembled(env, Assign(init, riak, ceph, e, m));
  }

  /** `get_roles`: fills the roles section by section — Riak CS, Ceph, Eucalyptus with its
      clusters, then Midokura — and fails with the first exception the source would raise. */
  method GetRoles(env: Environment) returns (r: Result<RoleGraph, RoleError>)
    ensures r == Resolve(env)
  {
    var roles := InitializeRoles();
    RoleListComplete();
    var riak := RiakSection(env, {});
    if riak.Failure? {
      return Failure(riak.error);
    }
    var ceph := CephSection(env, riak.value.all);
    if ceph.Failure? {
      return Failure(ceph.error);
    }
    var euca := EucaSection(env, ceph.value.all);
    if euca.Failure? {
      return Failure(euca.error);
    }
    var e := euca.value;
    var mido := MidoSection(env, e.nc, e.all);
    if mido.Failure? {
      return Failure(mido.error);
    }
    var m := mido.value;
    ghost var init := roles;
    roles := roles[RiakHead := riak.value.head][RiakNode := riak.value.nodes][Haproxy := riak.value.haproxy];
    roles := roles[MonBootstrap := ceph.value.bootstrap][CephMons := ceph.value.mons][CephOsds := ceph.value.osds];
    roles := roles[Clc := e.clc][UserFacing := e.userFacing][Console := e.console][Walrus := e.walrus];
    roles := roles[ClusterController := e.cc][StorageController := e.sc][NodeController := e.nc];
    roles := roles[MidonetApi := m.api][Midolman := m.midolman][MidoZookeeper := m.zookeepers];
    roles := roles[MidoCassandra := m.cassandras][All := m.all];
    assert m.all == AllHosts(env);
    assert m.midolman == MidolmanHosts(env);
    AssignResolved(env, init, riak.value, ceph.value, e, m);
    r := Success(RoleGraph(roles, e.cluster));
  }


  // ---------------------------------------------------------------------
  // `get_euca_hosts`

  /** The Eucalyptus-only components whose hosts `get_euca_hosts` collects besides the CLC. */
  function EucaComponents(walrus: set<string>): seq<Role> {
    [UserFacing, ClusterController, StorageController, NodeController] + if walrus != {} then [Walrus] else []
  }

  /** `acc` updated with the hosts of the roles `qs`, in order. */
  function Gathered(roles: Roles, acc: set<string>, qs: seq<Role>): set<string>
    requires forall q :: q in roles
  {
    if qs == [] then acc else Gathered(roles, acc, qs[..|qs| - 1]) + roles[qs[|qs| - 1]]
  }

  /** `get_euca_hosts`: the CLC's hosts together with those of the other Eucalyptus
      components; walrus is included only when it has hosts, which adds nothing otherwise. */
  method GetEucaHosts(env: Environment) returns (r: Result<set<string>, RoleError>)
    ensures r.Failure? <==> Resolve(env).Failure?
    ensures r.Failure? ==> r.error == Resolve(env).error
    ensures r.Success? ==>
      r.value == ClcHosts(env) + UserFacingHosts(env) + CcHosts(env) + ScHosts(env) + NcHosts(env) + WalrusHosts(env)
  {
    var g := GetRoles(env);
    if g.Failure? {
      return Failure(g.error);
    }
    var roles := g.value.roles;
    ResolvedKeys(env);
    FrontRoleLookup(env);
    ClusterRoleLookup(env);
    var components := EucaComponents(roles[Walrus]);
    var hosts := AddRoles(roles, roles[Clc], components);
    EucaHostsUnion(env, roles, components);
    r := Success(hosts);
  }

  /** Adds the hosts of each of the roles `qs` to `acc`, in order. */
  method AddRoles(roles: Roles, acc: set<string>, qs: seq<Role>) returns (acc': set<string>)
    requires forall q :: q in roles
    ensures acc' == Gathered(roles, acc, qs)
  {
    acc' := acc;
    assert qs[..0] == [];
    for i := 0 to |qs|
      invariant acc' == Gathered(roles, acc, qs[..i])
    {
      assert qs[..i + 1][..i] == qs[..i];
      acc' := acc' + roles[qs[i]];
    }
    assert qs[..|qs|] == qs;
  }

  lemma EucaHostsUnion(env: Environment, roles: Roles, components: seq<Role>)
    requires forall q :: q in roles
    requires roles[Clc] == ClcHosts(env) && roles[UserFacing] == UserFacingHosts(env)
    requires roles[ClusterController] == CcHosts(env) && roles[StorageController] == ScHosts(env)
    requires roles[NodeController] == NcHosts(env) && roles[Walrus] == WalrusHosts(env)
    requires components == EucaComponents(roles[Walrus])
    ensures Gathered(roles, roles[Clc], components) ==
      ClcHosts(env) + UserFacingHosts(env) + CcHosts(env) + ScHosts(env) + NcHosts(env) + WalrusHosts(env)
  {
    ComponentsUnion(roles, roles[Clc], components);
  }

  /** The front-end roles `get_euca_hosts` reads. */
  lemma FrontRoleLookup(env: Environment)
    ensures var roles := ResolvedRoles(env);
      && Clc in roles && UserFacing in roles && Walrus in roles
      && roles[Clc] == ClcHosts(env) && roles[UserFacing] == UserFacingHosts(env) && roles[Walrus] == WalrusHosts(env)
  {
    RoleLookup(env, Clc);
    RoleLookup(env, UserFacing);
    RoleLookup(env, Walrus);
  }

  /** The cluster roles `get_euca_hosts` reads. */
  lemma ClusterRoleLookup(env: Environment)
    ensures var roles := ResolvedRoles(env);
      && ClusterController in roles && StorageController in roles && NodeController in roles
      && roles[ClusterController] == CcHosts(env) && roles[StorageController] == ScHosts(env)
      && roles[NodeController] == NcHosts(env)
  {
    RoleLookup(env, ClusterController);
    RoleLookup(env, StorageController);
    RoleLookup(env, NodeController);
  }

  lemma ComponentsUnion(roles: Roles, acc: set<string>, components: seq<Role>)
    requires forall q :: q in roles
    requires components == EucaComponents(roles[Walrus])
    ensures Gathered(roles, acc, components) ==
      acc + roles[UserFacing] + roles[ClusterController] + roles[StorageController] + roles[NodeController] + roles[Walrus]
  {
    var c1 := [UserFacing];
    var c2 := c1 + [ClusterController];
    var c3 := c2 + [StorageController];
    var c4 := c3 + [NodeController];
    assert c1[..0] == [] && c2[..1] == c1 && c3[..2] == c2 && c4[..3] == c3;
    assert Gathered(roles, acc, c1) == acc + roles[UserFacing];
    assert Gathered(roles, acc, c2) == acc + roles[UserFacing] + roles[ClusterController];
    assert Gathered(roles, acc, c3) == acc + roles[UserFacing] + roles[ClusterController] + roles[StorageController];
    assert Gathered(roles, acc, c4) == acc + roles[UserFacing] + roles[ClusterController] + roles[StorageController] + roles[NodeController];
    if roles[Walrus] != {} {
      assert components == c4 + [Walrus];
      assert components[..4] == c4;
    } else {
      assert components == c4;
    }
  }

  /** The resolved map has every role as a key. */
  lemma ResolvedKeys(env: Environment)
    ensures forall q :: q in ResolvedRoles(env)
  {
    forall q ensures q in ResolvedRoles(env) {
      assert RoleList[Position(q)] == q;
    }
  }

  // ---------------------------------------------------------------------
  // Properties of `get_roles`.

  /** Each role of the resolved map holds that role's hosts. This only unfolds the
      definition of `ResolvedRoles`; it is a step the lemmas below share. */
  lemma RoleLookup(env: Environment, q: Role)
    ensures q in ResolvedRoles(env) && ResolvedRoles(env)[q] == RoleHosts(env, q)
  {
    assert RoleList[Position(q)] == q;
  }

  /** Every host of a contributing role is also in `all`. This follows directly from the
      definition of `RoleHosts` for `all`, which unites the contributing roles. */
  lemma AllCoversContributors(env: Environment, q: Role)
    requires Contributes(q)
    ensures RoleHosts(env, q) <= RoleHosts(env, All)
  {
  }

  /** Under VPCMIDO, the midonet-api host and the hosts only the mapping names are not
      added to `all`. */
  lemma MidoHostsOutsideAll(clc: string, gw: string, addr: string)
    requires addr != clc && addr != ""
    ensures var env := Environment(
      Some(Euca(EucaTopology(clc, [], None, None, None, []), Network(Some(VpcMido), Some(Some(gw))))),
      None, None, Some(Midokura(Some(map[gw := addr]), [], [])), false, false);
      && Resolve(env).Success?
      && addr in RoleHosts(env, MidonetApi)
      && addr in RoleHosts(env, Midolman)
      && addr !in RoleHosts(env, All)
  {
    var env := Environment(
      Some(Euca(EucaTopology(clc, [], None, None, None, []), Network(Some(VpcMido), Some(Some(gw))))),
      None, None, Some(Midokura(Some(map[gw := addr]), [], [])), false, false);
    assert ActiveMapping(env) == map[gw := addr];
    assert addr in ActiveMapping(env).Values by {
      assert ActiveMapping(env)[gw] == addr;
    }
    assert Addresses([]) == {};
    assert ZookeeperHosts(env) == {};
    assert AllHosts(env) == {clc};
  }

  /** Riak CS: a missing head raises; with a load balancer, `nginx` raises first, otherwise
      `haproxy` gets the load balancer, and without either it raises. */
  lemma RiakLoadBalancer(env: Environment)
    requires env.riak.Some?
    ensures env.riak.value.head.None? ==> Resolve(env) == Failure(MissingRiakHead)
    ensures env.riak.value.head.Some? && Truthy(env.riak.value.loadBalancer) ==>
      && (env.nginx ==> Resolve(env) == Failure(NginxNotImplemented))
      && (!env.nginx && !env.haproxy ==> Resolve(env) == Failure(NoLoadBalancer))
      && (!env.nginx && env.haproxy ==> RoleHosts(env, Haproxy) == {env.riak.value.loadBalancer.value})
  {
  }

  /** `FirstInit` finds the first monitor marked `init`, and only when there is one. */
  lemma {:induction false} FirstInitIsFirst(mons: seq<Mon>)
    ensures FirstInit(mons).None? <==> forall i :: 0 <= i < |mons| ==> !mons[i].init
    ensures FirstInit(mons).Some? ==>
      exists i :: 0 <= i < |mons| && mons[i].init && FirstInit(mons).value == mons[i].ipaddr &&
        forall j :: 0 <= j < i ==> !mons[j].init
  {
    if mons != [] && !mons[0].init {
      FirstInitIsFirst(mons[1..]);
      if FirstInit(mons[1..]).Some? {
        var i :| 0 <= i < |mons[1..]| && mons[1..][i].init &&
          FirstInit(mons[1..]).value == mons[1..][i].ipaddr && forall j :: 0 <= j < i ==> !mons[1..][j].init;
        assert mons[i + 1] == mons[1..][i];
        forall j | 0 <= j < i + 1 ensures !mons[j].init {
          if j > 0 { assert mons[j] == mons[1..][j - 1]; }
        }
      } else {
        forall i | 0 <= i < |mons| ensures !mons[i].init {
          if i > 0 { assert mons[i] == mons[1..][i - 1]; }
        }
      }
    }
  }

  /** Ceph: monitors without an `init` one, a missing `osds` key or no OSDs raise, in
      that order, once the Riak CS section has passed. */
  lemma CephErrors(env: Environment)
    requires env.ceph.Some? && RiakError(env).None?
    ensures var mons := env.ceph.value.mons;
      (mons != [] && forall i :: 0 <= i < |mons| ==> !mons[i].init) ==> Resolve(env) == Failure(NoInitialMon)
    ensures (env.ceph.value.mons == [] || FirstInit(env.ceph.value.mons).Some?) ==>
      && (env.ceph.value.osds.None? ==> Resolve(env) == Failure(MissingOsdKey))
      && (env.ceph.value.osds == Some([]) ==> Resolve(env) == Failure(NoOsd))
  {
    FirstInitIsFirst(env.ceph.value.mons);
  }

  /** Ceph: `mon-bootstrap` holds exactly the first `init` monitor, `ceph-mons` every
      monitor and `ceph-osds` every OSD. */
  lemma CephRoleFacts(env: Environment)
    requires env.ceph.Some?
    ensures var mons := env.ceph.value.mons;
      && RoleHosts(env, CephMons) == MonAddresses(mons)
      && (env.ceph.value.osds.Some? ==> RoleHosts(env, CephOsds) == Addresses(env.ceph.value.osds.value))
      && RoleHosts(env, MonBootstrap) <= RoleHosts(env, CephMons)
      && (FirstInit(mons).Some? ==>
            exists i :: 0 <= i < |mons| && mons[i].init && RoleHosts(env, MonBootstrap) == {mons[i].ipaddr} &&
              forall j :: 0 <= j < i ==> !mons[j].init)
  {
    var mons := env.ceph.value.mons;
    assert RoleHosts(env, CephMons) == MonAddresses(mons);
    assert RoleHosts(env, MonBootstrap) == OptSet(FirstInit(mons));
    FirstInitIsFirst(mons);
    if FirstInit(mons).Some? {
      var i :| 0 <= i < |mons| && mons[i].init && FirstInit(mons).value == mons[i].ipaddr &&
        forall j :: 0 <= j < i ==> !mons[j].init;
      assert mons[i] in mons;
    }
  }

  /** A cluster is complete when it names its CC, its SC and its nodes. */
  predicate Complete(c: Cluster) {
    c.cc.Some? && c.sc.Some? && c.nodes.Some?
  }

  /** The error for an incomplete cluster names it and the first key it lacks. */
  function Missing(name: string, c: Cluster): RoleError {
    if c.cc.None? then MissingCc(name) else if c.sc.None? then MissingSc(name) else MissingNodes(name)
  }

  /** The cluster loop raises exactly when some cluster is incomplete, and then it names the
      first such cluster in iteration order. */
  lemma {:induction false} ClusterErrorFirst(cs: seq<(string, Cluster)>)
    ensures ClusterError(cs).None? <==> forall i :: 0 <= i < |cs| ==> Complete(cs[i].1)
    ensures ClusterError(cs).Some? ==>
      exists i :: 0 <= i < |cs| && !Complete(cs[i].1) && ClusterError(cs).value == Missing(cs[i].0, cs[i].1) &&
        forall j :: 0 <= j < i ==> Complete(cs[j].1)
  {
    if cs != [] && Complete(cs[0].1) {
      ClusterErrorFirst(cs[1..]);
      if ClusterError(cs[1..]).Some? {
        var i :| 0 <= i < |cs[1..]| && !Complete(cs[1..][i].1) &&
          ClusterError(cs[1..]).value == Missing(cs[1..][i].0, cs[1..][i].1) &&
          forall j :: 0 <= j < i ==> Complete(cs[1..][j].1);
        assert cs[i + 1] == cs[1..][i];
        forall j | 0 <= j < i + 1 ensures Complete(cs[j].1) {
          if j > 0 { assert cs[j] == cs[1..][j - 1]; }
        }
      } else {
        forall i | 0 <= i < |cs| ensures Complete(cs[i].1) {
          if i > 0 { assert cs[i] == cs[1..][i - 1]; }
        }
      }
    }
  }

  lemma InClusterSets(cs: seq<(string, Cluster)>, k: nat)
    requires k < |cs| && Complete(cs[k].1)
    ensures cs[k].1.cc.value in CcSet(cs) && cs[k].1.sc.value in ScSet(cs)
    ensures Addresses(SplitWhitespace(cs[k].1.nodes.value)) <= NcSet(cs)
  {
    assert cs[k] in cs;
    assert cs[k].1.cc.value in OptSet(cs[k].1.cc);
    assert cs[k].1.sc.value in OptSet(cs[k].1.sc);
    assert NodeList(cs[k].1) == SplitWhitespace(cs[k].1.nodes.value);
    forall h | h in Addresses(NodeList(cs[k].1)) ensures h in NcSet(cs) {
      assert h in NodeList(cs[k].1);
    }
  }

  /** A complete cluster's CC, SC and nodes land in the controller roles. */
  lemma ClusterMembers(env: Environment, k: nat)
    requires env.euca.Some? && k < |env.euca.value.topology.clusters|
    requires Complete(env.euca.value.topology.clusters[k].1)
    ensures var c := env.euca.value.topology.clusters[k].1;
      && c.cc.value in RoleHosts(env, ClusterController)
      && c.sc.value in RoleHosts(env, StorageController)
      && Addresses(SplitWhitespace(c.nodes.value)) <= RoleHosts(env, NodeController)
  {
    InClusterSets(env.euca.value.topology.clusters, k);
  }

  /** The cluster map keeps only the last cluster, with its CC, SC and nodes. */
  lemma LastClusterOnly(env: Environment)
    requires env.euca.Some? && env.euca.value.topology.clusters != []
    requires Complete(env.euca.value.topology.clusters[|env.euca.value.topology.clusters| - 1].1)
    ensures var cs := env.euca.value.topology.clusters; var last := cs[|cs| - 1].1;
      ClusterMap(env) == Some(map[cs[|cs| - 1].0 :=
        {last.cc.value, last.sc.value} + Addresses(SplitWhitespace(last.nodes.value))])
  {
    var cs := env.euca.value.topology.clusters;
    var last := cs[|cs| - 1].1;
    assert ClusterHosts(last) == {last.cc.value, last.sc.value} + Addresses(SplitWhitespace(last.nodes.value));
  }

  /** Midokura under VPCMIDO with a non-empty host mapping: a gateway that is not mapped
      raises once the earlier sections pass. */
  lemma MidoGatewayUnmapped(env: Environment)
    requires MidoActive(env) && env.euca.value.network.mido.Some?
    requires env.midokura.value.hostMapping.Some? && env.midokura.value.hostMapping.value != map[]
    requires RiakError(env).None? && CephError(env).None? && ClustersError(env).None?
    ensures var m, gw := env.midokura.value.hostMapping.value, env.euca.value.network.mido.value;
      (gw.None? || gw.value !in m || m[gw.value] == "") <==> Resolve(env) == Failure(MidonetApiNotMapped(gw))
  {
  }

  /** Under VPCMIDO, a mapped gateway makes midonet-api exactly its mapped address. */
  lemma MidonetApiMapped(env: Environment)
    requires MidoActive(env) && env.euca.value.network.mido.Some? && env.midokura.value.hostMapping.Some?
    requires var m, gw := env.midokura.value.hostMapping.value, env.euca.value.network.mido.value;
      gw.Some? && gw.value in m && m[gw.value] != ""
    ensures RoleHosts(env, MidonetApi) ==
      {env.midokura.value.hostMapping.value[env.euca.value.network.mido.value.value]}
  {
  }

  /** Under VPCMIDO, a missing `config-json.Mido` section raises once the earlier
      sections pass, whatever the mapping holds; outside VPCMIDO it is never read. */
  lemma MidoConfigMissing(env: Environment)
    requires env.euca.Some? && env.midokura.Some? && env.euca.value.network.mido.None?
    requires RiakError(env).None? && CephError(env).None? && ClustersError(env).None?
    ensures MidoActive(env) <==> Resolve(env) == Failure(MissingMidoConfig)
    ensures !MidoActive(env) && env.euca.value.network.mode.Some? ==> Resolve(env).Success?
  {
  }

  /** Midolman covers every mapped address and every node controller. */
  lemma MidolmanCovers(env: Environment)
    requires MidoActive(env)
    requires env.midokura.value.hostMapping.Some? && env.midokura.value.hostMapping.value != map[]
    ensures env.midokura.value.hostMapping.value.Values + RoleHosts(env, NodeController)
      <= RoleHosts(env, Midolman)
  {
  }

  /** A network mode other than VPCMIDO resolves no Midokura role. */
  lemma MidoInactive(env: Environment)
    requires env.euca.Some? && env.euca.value.network.mode.Some? && env.euca.value.network.mode.value != VpcMido
    ensures RoleHosts(env, MidonetApi) == {} && RoleHosts(env, Midolman) == {}
    ensures RoleHosts(env, MidoZookeeper) == {} && RoleHosts(env, MidoCassandra) == {}
  {
  }

  /** A zookeeper entry "host:port", or a bare "host", contributes its host to
      mido-zookeeper and to `all`. */
  lemma ZookeeperHost(env: Environment, host: string, port: string)
    requires MidoActive(env) && ':' !in host
    requires host + ":" + port in env.midokura.value.zookeepers || host in env.midokura.value.zookeepers
    ensures host in RoleHosts(env, MidoZookeeper)
    ensures host in RoleHosts(env, All)
  {
    BeforeColonOfHostPort(host, port);
  }
}

/** The topology validator: every host of `roles['cluster']` must "appear" in one
    cluster only, the clc and user-facing roles must have hosts, exactly one of the
    walrus and riakcs storage sections must be configured, and every cluster must name a
    cluster controller, a storage controller and its node controllers. Each check
    reports into the tally. */
module Topology {
  import opened Wrappers
  import opened Text
  import opened RoleBuilder
  import opened Debugger

  /** The `KeyError` of a missing `roles['cluster']`, the `AssertionError`s the validator
      raises, and the `exit(1)` when both storage sections are configured. */
  datatype TopologyError =
    | MissingClusterRole
    | MultipleClusters(host: string, appearances: seq<string>)
    | NoClc
    | NoUserFacing
    | BothStorageKeys
    | NoWalrusHost
    | NoCc(cluster: string)
    | NoSc(cluster: string)
    | NoNodes(cluster: string)

  /** `eucalyptus.topology` as the validator reads it: whether a `walrus` key is present,
      the keys of the `riakcs` section when it is present, and the clusters in the order
      the dictionary iterates them. */
  datatype TopologySection = TopologySection(walrus: bool, riakcs: Option<set<string>>, clusters: seq<(string, Cluster)>)

  /** The reports of a check, and the error that stopped it, if any. */
  datatype Checked = Checked(reports: seq<Report>, error: Option<TopologyError>)

  // ---------------------------------------------------------------------
  // One cluster per host.

  /** The names of the clusters, in iteration order. */
  function Names(clusters: seq<(string, seq<string>)>): (ns: seq<string>)
    ensures |ns| == |clusters|
    ensures forall i :: 0 <= i < |clusters| ==> ns[i] == clusters[i].0
  {
    if clusters == [] then [] else Names(clusters[..|clusters| - 1]) + [clusters[|clusters| - 1].0]
  }

  /** Every cluster's hosts, cluster after cluster. */
  function Flatten(clusters: seq<(string, seq<string>)>): seq<string> {
    if clusters == [] then [] else Flatten(clusters[..|clusters| - 1]) + clusters[|clusters| - 1].1
  }

  /** The clusters `host` "appears" in: the names it is a substring of, in order. */
  function Appearances(host: string, names: seq<string>): (a: seq<string>)
    ensures |a| <= |names|
  {
    if names == [] then []
    else
      var n := names[|names| - 1];
      Appearances(host, names[..|names| - 1]) + (if IsSubstring(host, n) then [n] else [])
  }

  /** A cluster name is among a host's appearances iff it is one of the names and the host
      is a substring of it. */
  lemma {:induction false} AppearancesMembers(host: string, names: seq<string>)
    ensures forall n :: n in Appearances(host, names) <==> n in names && IsSubstring(host, n)
  {
    if names != [] {
      var init := names[..|names| - 1];
      var n := names[|names| - 1];
      assert names == init + [n];
      AppearancesMembers(host, init);
    }
  }

  /** The hosts that passed, and the first host found in several clusters, if any. */
  datatype HostsChecked = HostsChecked(good: seq<string>, error: Option<TopologyError>)

  /** `_single_cluster_per_host` over `hosts` in order: it stops at the first host that
      appears in more than one of `names`. */
  function CheckHosts(hosts: seq<string>, names: seq<string>): HostsChecked {
    if hosts == [] then HostsChecked([], None)
    else
      var p := CheckHosts(hosts[..|hosts| - 1], names);
      var h := hosts[|hosts| - 1];
      if p.error.Some? then p
      else if |Appearances(h, names)| > 1 then HostsChecked(p.good, Some(MultipleClusters(h, Appearances(h, names))))
      else HostsChecked(p.good + [h], None)
  }

  /** `_single_cluster_per_host` on `roles['cluster']`: reading it raises `KeyError` when
      it is absent (`None`, as when `get_roles` processed no cluster); otherwise its
      clusters and their hosts are listed in iteration order. */
  function HostsCheck(cluster: Option<seq<(string, seq<string>)>>): HostsChecked {
    if cluster.None? then HostsChecked([], Some(MissingClusterRole))
    else CheckHosts(Flatten(cluster.value), Names(cluster.value))
  }

  /** One success per host that passed. */
  function GoodReports(good: seq<string>): (rs: seq<Report>)
    ensures |rs| == |good| && Passes(rs) == |good| && Fails(rs) == 0
  {
    if good == [] then []
    else
      var rs := GoodReports(good[..|good| - 1]) + [GoodReport(good[|good| - 1])];
      assert rs[..|rs| - 1] == GoodReports(good[..|good| - 1]);
      rs
  }

  /** The success reported for a host that appears in one cluster at most. */
  function GoodReport(h: string): Report {
    Pass(h + " only in 1 cluster")
  }

  /** The check passes a prefix of the hosts, each of which appears in at most one
      cluster name. It passes them all when it succeeds; otherwise it names the next host,
      with the names it appears in, which are more than one. */
  lemma {:induction false} CheckHostsFacts(hosts: seq<string>, names: seq<string>)
    ensures var c := CheckHosts(hosts, names);
      && |c.good| <= |hosts| && c.good == hosts[..|c.good|]
      && (forall i :: 0 <= i < |c.good| ==> |Appearances(hosts[i], names)| <= 1)
      && (c.error.None? ==> c.good == hosts)
      && (c.error.Some? ==>
            && |c.good| < |hosts|
            && |Appearances(hosts[|c.good|], names)| > 1
            && c.error == Some(MultipleClusters(hosts[|c.good|], Appearances(hosts[|c.good|], names))))
  {
    if hosts != [] {
      var init := hosts[..|hosts| - 1];
      CheckHostsFacts(init, names);
      var p := CheckHosts(init, names);
      assert forall i :: 0 <= i < |init| ==> init[i] == hosts[i];
      if p.error.None? {
        assert hosts == init + [hosts[|hosts| - 1]];
      }
    }
  }

  /** The check succeeds iff no host appears in more than one cluster name. */
  lemma CheckHostsPasses(hosts: seq<string>, names: seq<string>)
    ensures CheckHosts(hosts, names).error.None? <==> forall i :: 0 <= i < |hosts| ==> |Appearances(hosts[i], names)| <= 1
  {
    CheckHostsFacts(hosts, names);
  }

  /** The quirk of the check: it tests whether the host is a substring of a cluster's
      name, not whether it is among the cluster's hosts. A host listed in two clusters
      passes... */
  lemma ListedTwicePasses(h: string, one: string, two: string)
    requires !IsSubstring(h, one) && !IsSubstring(h, two)
    ensures CheckHosts(Flatten([(one, [h]), (two, [h])]), [one, two]).error.None?
  {
    FlattenPair((one, [h]), (two, [h]));
    assert [h] + [h] == [h, h];
    assert Appearances(h, [one, two]) == [] by {
      assert [one, two][..1] == [one] && [one][..0] == [];
    }
    CheckTwiceUnseen(h, [one, two]);
  }

  lemma FlattenPair(a: (string, seq<string>), b: (string, seq<string>))
    ensures Flatten([a, b]) == a.1 + b.1
  {
    assert [a, b][..1] == [a];
    assert Flatten([a]) == a.1 by {
      assert [a][..0] == [];
    }
  }

  /** A host that appears in no name passes, however often it is listed. */
  lemma CheckTwiceUnseen(h: string, names: seq<string>)
    requires Appearances(h, names) == []
    ensures CheckHosts([h, h], names) == HostsChecked([h, h], None)
  {
    assert CheckHosts([h], names) == HostsChecked([h], None) by {
      assert [h][..0] == [];
    }
    assert [h, h][..1] == [h];
  }

  /** For instance, an address is longer than the cluster names `one` and `two`. */
  lemma AddressListedTwicePasses()
    ensures CheckHosts(Flatten([("one", ["10.0.0.1"]), ("two", ["10.0.0.1"])]), ["one", "two"]).error.None?
  {
    TooLongForSubstring("10.0.0.1", "one");
    TooLongForSubstring("10.0.0.1", "two");
    ListedTwicePasses("10.0.0.1", "one", "two");
  }

  /** ... while a host whose name begins two cluster names fails, even when it is listed
      in no cluster at all. */
  lemma NameInTwoNamesFails(h: string, suffix: string)
    ensures CheckHosts([h], [h, h + suffix]).error == Some(MultipleClusters(h, [h, h + suffix]))
  {
    SubstringOfPrefix(h, []);
    SubstringOfPrefix(h, suffix);
    assert h + [] == h;
    assert [h, h + suffix][..1] == [h] && [h][..0] == [];
    assert Appearances(h, [h, h + suffix]) == [h, h + suffix];
  }

  // ---------------------------------------------------------------------
  // The storage and cluster sections.

  const RiakcsKeys: seq<string> := ["access-key", "admin-email", "admin-name", "endpoint", "port", "secret-key"]

  /** One report per required riakcs key: a success when the section has it, a failure
      otherwise. */
  function KeyReports(keys: seq<string>, present: set<string>): (rs: seq<Report>)
    ensures |rs| == |keys|
    ensures forall i :: 0 <= i < |keys| ==> (rs[i].Pass? <==> keys[i] in present)
  {
    if keys == [] then []
    else
      KeyReports(keys[..|keys| - 1], present) + [KeyReport(keys[|keys| - 1], present)]
  }

  /** The report for one required riakcs key. */
  function KeyReport(k: string, present: set<string>): Report {
    if k in present then Pass("riakcs property \"" + k + "\" is present.")
    else Fail("riakcs property \"" + k + "\" is missing or invalid!  ")
  }

  /** One more key adds one success when the section has it and one failure otherwise. */
  lemma KeyReportsStep(keys: seq<string>, i: nat, present: set<string>)
    requires i < |keys|
    ensures Passes(KeyReports(keys[..i + 1], present)) == Passes(KeyReports(keys[..i], present)) + Passes([KeyReport(keys[i], present)])
    ensures Fails(KeyReports(keys[..i + 1], present)) == Fails(KeyReports(keys[..i], present)) + Fails([KeyReport(keys[i], present)])
  {
    assert keys[..i + 1][..i] == keys[..i];
    CountsConcat(KeyReports(keys[..i], present), [KeyReport(keys[i], present)]);
  }

  /** The walrus/riakcs part of `validate`. */
  function StorageCheck(t: TopologySection, roles: Roles): Checked
    requires Walrus in roles
  {
    if t.walrus && t.riakcs.Some? then Checked([Fail("Can not have both riakcs and walrus keys configured")], Some(BothStorageKeys))
    else if t.walrus then
      if roles[Walrus] == {} then Checked([], Some(NoWalrusHost)) else Checked([Pass("Walrus host is present")], None)
    else if t.riakcs.Some? then Checked(KeyReports(RiakcsKeys, t.riakcs.value), None)
    else Checked([Fail("Must have riakcs or walrus key defined!")], None)
  }

  /** The checks of one cluster: the controllers, then the node controllers, each
      reported after its asserts pass. */
  function ClusterCheck(name: string, c: Cluster): Checked {
    if !Truthy(c.cc) then Checked([], Some(NoCc(name)))
    else if !Truthy(c.sc) then Checked([], Some(NoSc(name)))
    else if !Truthy(c.nodes) then Checked([Pass("Cluster " + name + " has both an SC and CC")], Some(NoNodes(name)))
    else Checked([Pass("Cluster " + name + " has both an SC and CC"), Pass("Cluster " + name + " has node controllers")], None)
  }

  /** The cluster loop of `validate`, stopping at the first failed assert. */
  function ClustersCheck(cs: seq<(string, Cluster)>): Checked {
    if cs == [] then Checked([], None)
    else
      var p := ClustersCheck(cs[..|cs| - 1]);
      if p.error.Some? then p
      else
        var c := ClusterCheck(cs[|cs| - 1].0, cs[|cs| - 1].1);
        Checked(p.reports + c.reports, c.error)
  }

  /** `validate`: the cluster-per-host check first, then the role, storage and cluster
      checks, in that order, up to the first error. */
  function Validation(roles: Roles, cluster: Option<seq<(string, seq<string>)>>, t: TopologySection): Checked
    requires Clc in roles && UserFacing in roles && Walrus in roles
  {
    var hc := HostsCheck(cluster);
    var r0 := GoodReports(hc.good);
    if hc.error.Some? then Checked(r0, hc.error)
    else if roles[Clc] == {} then Checked(r0, Some(NoClc))
    else if roles[UserFacing] == {} then Checked(r0, Some(NoUserFacing))
    else
      var st := StorageCheck(t, roles);
      if st.error.Some? then Checked(r0 + st.reports, st.error)
      else
        var cl := ClustersCheck(t.clusters);
        Checked(r0 + st.reports + cl.reports, cl.error)
  }

  // ---------------------------------------------------------------------
  // What the checks report.

  /** Both storage sections: one failure, then the run stops. A walrus section needs walrus
      hosts and passes once. A riakcs section reports each required key exactly once, as
      a success iff the key is present. Neither: exactly one failure. */
  lemma StorageFacts(t: TopologySection, roles: Roles)
    requires Walrus in roles
    ensures var c := StorageCheck(t, roles);
      && (t.walrus && t.riakcs.Some? ==> Passes(c.reports) == 0 && Fails(c.reports) == 1 && c.error == Some(BothStorageKeys))
      && (t.walrus && t.riakcs.None? ==>
            (c.error.None? <==> roles[Walrus] != {}) && Fails(c.reports) == 0 && Passes(c.reports) == (if roles[Walrus] != {} then 1 else 0))
      && (!t.walrus && t.riakcs.Some? ==>
            && c.error.None? && |c.reports| == |RiakcsKeys|
            && forall i :: 0 <= i < |RiakcsKeys| ==> (c.reports[i].Pass? <==> RiakcsKeys[i] in t.riakcs.value))
      && (!t.walrus && t.riakcs.None? ==> c.error.None? && Passes(c.reports) == 0 && Fails(c.reports) == 1)
  {
    var c := StorageCheck(t, roles);
    assert [Fail("Can not have both riakcs and walrus keys configured")][..0] == [];
    assert [Fail("Must have riakcs or walrus key defined!")][..0] == [];
    assert [Pass("Walrus host is present")][..0] == [];
  }

  /** One cluster passes iff it names a truthy cluster controller, storage controller and
      node list; it then reports two successes. */
  lemma ClusterFacts(name: string, c: Cluster)
    ensures var k := ClusterCheck(name, c);
      && (k.error.None? <==> Truthy(c.cc) && Truthy(c.sc) && Truthy(c.nodes))
      && (k.error.None? ==> Passes(k.reports) == 2 && Fails(k.reports) == 0)
  {
    var k := ClusterCheck(name, c);
    if k.error.None? {
      var r := k.reports;
      assert r[..1][..0] == [] && r[..1] == [r[0]] && r[..|r| - 1] == r[..1];
      assert Passes(r[..1]) == 1 && Fails(r[..1]) == 0;
    }
  }

  /** The cluster loop passes iff every cluster names a truthy cluster controller, storage
      controller and node list; it then reports two successes per cluster and no failure. */
  lemma {:induction false} ClustersFacts(cs: seq<(string, Cluster)>)
    ensures var c := ClustersCheck(cs);
      && (c.error.None? <==> forall i :: 0 <= i < |cs| ==> ClusterCheck(cs[i].0, cs[i].1).error.None?)
      && (c.error.None? ==> Passes(c.reports) == 2 * |cs| && Fails(c.reports) == 0)
  {
    if cs != [] {
      var init := cs[..|cs| - 1];
      ClustersFacts(init);
      var p := ClustersCheck(init);
      assert forall i :: 0 <= i < |init| ==> init[i] == cs[i];
      if p.error.None? {
        var last := cs[|cs| - 1];
        var k := ClusterCheck(last.0, last.1);
        CountsConcat(p.reports, k.reports);
        ClusterFacts(last.0, last.1);
      }
    }
  }

  /** The order of `validate`: a host found in several clusters stops it after the hosts
      that passed, with nothing else checked; then empty clc and user-facing roles stop
      it; the storage and cluster checks only report once those have passed. */
  lemma ValidationOrder(roles: Roles, cluster: Option<seq<(string, seq<string>)>>, t: TopologySection)
    requires Clc in roles && UserFacing in roles && Walrus in roles
    ensures cluster.None? ==> Validation(roles, cluster, t) == Checked([], Some(MissingClusterRole))
    ensures var hc := HostsCheck(cluster);
      var v := Validation(roles, cluster, t);
      && v.reports[..|hc.good|] == GoodReports(hc.good)
      && (hc.error.Some? ==> v == Checked(GoodReports(hc.good), hc.error))
      && (hc.error.None? && roles[Clc] == {} ==> v == Checked(GoodReports(hc.good), Some(NoClc)))
      && (hc.error.None? && roles[Clc] != {} && roles[UserFacing] == {} ==> v == Checked(GoodReports(hc.good), Some(NoUserFacing)))
      && (v.error.None? ==>
            && hc.error.None? && roles[Clc] != {} && roles[UserFacing] != {}
            && v.reports == GoodReports(hc.good) + StorageCheck(t, roles).reports + ClustersCheck(t.clusters).reports)
  {
    var hc := HostsCheck(cluster);
    var r0 := GoodReports(hc.good);
    if hc.error.None? && roles[Clc] != {} && roles[UserFacing] != {} {
      var st := StorageCheck(t, roles);
      var cl := ClustersCheck(t.clusters);
      assert (r0 + st.reports)[..|r0|] == r0;
      assert (r0 + st.reports + cl.reports)[..|r0|] == r0;
    } else {
      assert r0[..|hc.good|] == r0;
    }
  }

  /** Once a cluster has failed, later clusters change nothing. */
  lemma {:induction false} ClustersStops(cs: seq<(string, Cluster)>, k: nat)
    requires k <= |cs| && ClustersCheck(cs[..k]).error.Some?
    ensures ClustersCheck(cs) == ClustersCheck(cs[..k])
  {
    if k < |cs| {
      assert cs[..|cs| - 1][..k] == cs[..k];
      ClustersStops(cs[..|cs| - 1], k);
    } else {
      assert cs[..k] == cs;
    }
  }

  /** A later prefix of the flattened hosts belongs to the hosts of the whole map. */
  lemma {:induction false} FlattenPrefix(cs: seq<(string, seq<string>)>, i: nat)
    requires i <= |cs|
    ensures Flatten(cs[..i]) <= Flatten(cs)
    decreases |cs|
  {
    if i < |cs| {
      var init := cs[..|cs| - 1];
      assert init[..i] == cs[..i];
      FlattenPrefix(init, i);
    } else {
      assert cs[..i] == cs;
    }
  }

  lemma FlattenStep(cs: seq<(string, seq<string>)>, i: nat)
    requires i < |cs|
    ensures Flatten(cs[..i + 1]) == Flatten(cs[..i]) + cs[i].1
  {
    assert cs[..i + 1][..i] == cs[..i];
  }

  /** Once a host has failed, later hosts change nothing. */
  lemma {:induction false} CheckHostsStops(hosts: seq<string>, k: nat, names: seq<string>)
    requires k <= |hosts| && CheckHosts(hosts[..k], names).error.Some?
    ensures CheckHosts(hosts, names) == CheckHosts(hosts[..k], names)
  {
    if k < |hosts| {
      assert hosts[..|hosts| - 1][..k] == hosts[..k];
      CheckHostsStops(hosts[..|hosts| - 1], k, names);
    } else {
      assert hosts[..k] == hosts;
    }
  }

  /** A failure before the end of a prefix of the hosts is the failure of all hosts. */
  lemma CheckHostsPrefixStop(pre: seq<string>, hosts: seq<string>, names: seq<string>)
    requires pre <= hosts && CheckHosts(pre, names).error.Some?
    ensures CheckHosts(hosts, names) == CheckHosts(pre, names)
  {
    assert hosts[..|pre|] == pre;
    CheckHostsStops(hosts, |pre|, names);
  }

  /** A failure among the hosts of cluster `i` is the failure of the whole map. */
  lemma ClusterStop(cs: seq<(string, seq<string>)>, i: nat, names: seq<string>)
    requires i < |cs| && CheckHosts(Flatten(cs[..i]) + cs[i].1, names).error.Some?
    ensures CheckHosts(Flatten(cs), names) == CheckHosts(Flatten(cs[..i]) + cs[i].1, names)
  {
    FlattenStep(cs, i);
    FlattenPrefix(cs, i + 1);
    CheckHostsPrefixStop(Flatten(cs[..i]) + cs[i].1, Flatten(cs), names);
  }

  /** How the hosts the validator keeps after a failure in cluster `i` relate to the
      check of the whole map. */
  lemma ClusterFailed(cs: seq<(string, seq<string>)>, i: nat, names: seq<string>, g0: seq<string>, passed: nat)
    requires i < |cs| && passed <= |cs[i].1|
    requires var c := CheckHosts(Flatten(cs[..i]) + cs[i].1, names);
      c.error.Some? && c.good == Flatten(cs[..i]) + cs[i].1[..passed]
    ensures var c := CheckHosts(Flatten(cs), names);
      && c.error == CheckHosts(Flatten(cs[..i]) + cs[i].1, names).error
      && g0 + Flatten(cs[..i]) + cs[i].1[..passed] == g0 + c.good
      && |Flatten(cs[..i])| + passed == |c.good|
  {
    ClusterStop(cs, i, names);
  }

  /** And after cluster `i` has passed. */
  lemma ClusterPassed(cs: seq<(string, seq<string>)>, i: nat, g0: seq<string>)
    requires i < |cs|
    ensures Flatten(cs[..i]) + cs[i].1 == Flatten(cs[..i + 1])
    ensures g0 + Flatten(cs[..i]) + cs[i].1[..|cs[i].1|] == g0 + Flatten(cs[..i + 1])
    ensures |Flatten(cs[..i])| + |cs[i].1| == |Flatten(cs[..i + 1])|
  {
    FlattenStep(cs, i);
    assert cs[i].1[..|cs[i].1|] == cs[i].1;
  }

  /** Every one of `hosts` appears in one cluster name at most. */
  predicate AllGood(hosts: seq<string>, names: seq<string>) {
    forall i :: 0 <= i < |hosts| ==> |Appearances(hosts[i], names)| <= 1
  }

  /** Then the check passes them all. */
  lemma AllGoodChecks(hosts: seq<string>, names: seq<string>)
    requires AllGood(hosts, names)
    ensures CheckHosts(hosts, names) == HostsChecked(hosts, None)
  {
    CheckHostsFacts(hosts, names);
  }

  /** One more host after hosts that all passed: it passes iff it appears at most once. */
  lemma CheckHostsSnoc(done: seq<string>, h: string, names: seq<string>)
    requires AllGood(done, names)
    ensures |Appearances(h, names)| <= 1 ==> AllGood(done + [h], names)
    ensures |Appearances(h, names)| > 1 ==> CheckHosts(done + [h], names) == HostsChecked(done, Some(MultipleClusters(h, Appearances(h, names))))
  {
    AllGoodChecks(done, names);
    assert (done + [h])[..|done|] == done;
  }

  /** Host `j` of a cluster, after hosts that all passed: it passes iff it appears at most
      once, and otherwise its failure is the failure of the whole list. */
  lemma HostStep(done: seq<string>, hosts: seq<string>, j: nat, names: seq<string>)
    requires j < |hosts| && AllGood(done + hosts[..j], names)
    ensures |Appearances(hosts[j], names)| <= 1 ==> AllGood(done + hosts[..j + 1], names)
    ensures |Appearances(hosts[j], names)| > 1 ==>
      CheckHosts(done + hosts, names) == HostsChecked(done + hosts[..j], Some(MultipleClusters(hosts[j], Appearances(hosts[j], names))))
  {
    assert done + hosts[..j + 1] == done + hosts[..j] + [hosts[j]];
    CheckHostsSnoc(done + hosts[..j], hosts[j], names);
    if |Appearances(hosts[j], names)| > 1 {
      assert hosts == hosts[..j + 1] + hosts[j + 1..];
      CheckHostsPrefixStop(done + hosts[..j + 1], done + hosts, names);
    }
  }

  // ---------------------------------------------------------------------
  // The validator object.

  class TopologyValidator {
    const tally: Tally
    const roles: Roles
    var goodHosts: seq<string>
    var failedHosts: seq<string>

    constructor (tally: Tally, roles: Roles)
      ensures this.tally == tally && this.roles == roles && goodHosts == [] && failedHosts == []
    {
      this.tally := tally;
      this.roles := roles;
      goodHosts, failedHosts := [], [];
    }

    /** The cluster names `host` appears in, collected one by one. */
    method CollectAppearances(host: string, names: seq<string>) returns (appearances: seq<string>)
      ensures appearances == Appearances(host, names)
    {
      appearances := [];
      var i := 0;
      while i < |names|
        invariant 0 <= i <= |names|
        invariant appearances == Appearances(host, names[..i])
      {
        assert names[..i + 1][..i] == names[..i];
        if IsSubstring(host, names[i]) {
          appearances := appearances + [names[i]];
        }
        i := i + 1;
      }
      assert names[..i] == names;
    }

    /** One host: the cluster names it appears in, and a success when they are at most one. */
    method CheckHost(host: string, names: seq<string>) returns (appearances: seq<string>)
      modifies this, tally
      ensures appearances == Appearances(host, names)
      ensures |appearances| <= 1 ==> goodHosts == old(goodHosts) + [host] && tally.passed == old(tally.passed) + 1
      ensures |appearances| > 1 ==> goodHosts == old(goodHosts) && tally.passed == old(tally.passed)
      ensures tally.failed == old(tally.failed) && tally.warnings == old(tally.warnings) && failedHosts == old(failedHosts)
    {
      appearances := CollectAppearances(host, names);
      if |appearances| <= 1 {
        tally.Success(GoodReport(host).message);
        goodHosts := goodHosts + [host];
      }
    }

    /** The hosts of one cluster, checked after the hosts `done`, which all passed. */
    method CheckClusterHosts(hosts: seq<string>, names: seq<string>, ghost done: seq<string>)
      returns (err: Option<TopologyError>, ghost passed: nat)
      requires AllGood(done, names)
      modifies this, tally
      ensures passed <= |hosts|
      ensures goodHosts == old(goodHosts) + hosts[..passed] && tally.passed == old(tally.passed) + passed
      ensures err.None? ==> passed == |hosts| && AllGood(done + hosts, names)
      ensures err.Some? ==> CheckHosts(done + hosts, names) == HostsChecked(done + hosts[..passed], err)
      ensures tally.failed == old(tally.failed) && tally.warnings == old(tally.warnings) && failedHosts == old(failedHosts)
    {
      var j := 0;
      assert done + hosts[..0] == done;
      while j < |hosts|
        invariant 0 <= j <= |hosts|
        invariant AllGood(done + hosts[..j], names)
        invariant goodHosts == old(goodHosts) + hosts[..j]
        invariant tally.passed == old(tally.passed) + j
        invariant tally.failed == old(tally.failed) && tally.warnings == old(tally.warnings) && failedHosts == old(failedHosts)
      {
        var host := hosts[j];
        HostStep(done, hosts, j, names);
        var appearances := CheckHost(host, names);
        if |appearances| > 1 {
          err, passed := Some(MultipleClusters(host, appearances)), j;
          return;
        }
        j := j + 1;
      }
      assert hosts[..j] == hosts;
      err, passed := None, j;
    }

    /** The hosts of cluster `i`, after those of the clusters before it, which all passed
        and account for the hosts passed since `g0` and `p0`. */
    method CheckCluster(clusterHosts: seq<(string, seq<string>)>, i: nat, names: seq<string>, ghost g0: seq<string>, ghost p0: nat)
      returns (err: Option<TopologyError>)
      requires i < |clusterHosts| && AllGood(Flatten(clusterHosts[..i]), names)
      requires goodHosts == g0 + Flatten(clusterHosts[..i]) && tally.passed == p0 + |Flatten(clusterHosts[..i])|
      modifies this, tally
      ensures err.None? ==>
        && AllGood(Flatten(clusterHosts[..i + 1]), names)
        && goodHosts == g0 + Flatten(clusterHosts[..i + 1]) && tally.passed == p0 + |Flatten(clusterHosts[..i + 1])|
      ensures err.Some? ==>
        var c := CheckHosts(Flatten(clusterHosts), names);
        err == c.error && goodHosts == g0 + c.good && tally.passed == p0 + |c.good|
      ensures tally.failed == old(tally.failed) && tally.warnings == old(tally.warnings) && failedHosts == old(failedHosts)
    {
      ghost var done := Flatten(clusterHosts[..i]);
      ghost var passed;
      err, passed := CheckClusterHosts(clusterHosts[i].1, names, done);
      if err.Some? {
        ClusterFailed(clusterHosts, i, names, g0, passed);
      } else {
        ClusterPassed(clusterHosts, i, g0);
      }
    }

    /** `_single_cluster_per_host`. */
    method SingleClusterPerHost(cluster: Option<seq<(string, seq<string>)>>) returns (err: Option<TopologyError>)
      modifies this, tally
      ensures var c := HostsCheck(cluster);
        && err == c.error
        && goodHosts == old(goodHosts) + c.good
        && tally.passed == old(tally.passed) + |c.good|
      ensures tally.failed == old(tally.failed) && tally.warnings == old(tally.warnings) && failedHosts == old(failedHosts)
    {
      if cluster.None? {
        return Some(MissingClusterRole);
      }
      var clusterHosts := cluster.value;
      var names := Names(clusterHosts);
      var i := 0;
      assert clusterHosts[..0] == [];
      while i < |clusterHosts|
        invariant 0 <= i <= |clusterHosts|
        invariant AllGood(Flatten(clusterHosts[..i]), names)
        invariant goodHosts == old(goodHosts) + Flatten(clusterHosts[..i])
        invariant tally.passed == old(tally.passed) + |Flatten(clusterHosts[..i])|
        invariant tally.failed == old(tally.failed) && tally.warnings == old(tally.warnings) && failedHosts == old(failedHosts)
      {
        err := CheckCluster(clusterHosts, i, names, old(goodHosts), old(tally.passed));
        if err.Some? {
          return;
        }
        i := i + 1;
      }
      assert clusterHosts[..i] == clusterHosts;
      AllGoodChecks(Flatten(clusterHosts), names);
      err := None;
    }

    /** The walrus/riakcs part of `validate`, reporting into the tally. */
    method CheckStorage(t: TopologySection) returns (err: Option<TopologyError>)
      requires Walrus in roles
      modifies tally
      ensures var st := StorageCheck(t, roles);
        && err == st.error
        && tally.passed == old(tally.passed) + Passes(st.reports) && tally.failed == old(tally.failed) + Fails(st.reports)
        && tally.warnings == old(tally.warnings)
    {
      if t.walrus && t.riakcs.Some? {
        tally.Tell(Fail("Can not have both riakcs and walrus keys configured"));
        return Some(BothStorageKeys);
      }
      err := None;
      if t.walrus {
        if roles[Walrus] == {} {
          return Some(NoWalrusHost);
        }
        tally.Tell(Pass("Walrus host is present"));
      } else if t.riakcs.Some? {
        CheckKeys(RiakcsKeys, t.riakcs.value);
      } else {
        tally.Tell(Fail("Must have riakcs or walrus key defined!"));
      }
    }

    /** One report per required riakcs key. */
    method CheckKeys(keys: seq<string>, present: set<string>)
      modifies tally
      ensures tally.passed == old(tally.passed) + Passes(KeyReports(keys, present))
      ensures tally.failed == old(tally.failed) + Fails(KeyReports(keys, present))
      ensures tally.warnings == old(tally.warnings)
    {
      var i := 0;
      assert keys[..0] == [];
      while i < |keys|
        invariant 0 <= i <= |keys|
        invariant tally.passed == old(tally.passed) + Passes(KeyReports(keys[..i], present))
        invariant tally.failed == old(tally.failed) + Fails(KeyReports(keys[..i], present))
        invariant tally.warnings == old(tally.warnings)
      {
        KeyReportsStep(keys, i, present);
        tally.Tell(KeyReport(keys[i], present));
        i := i + 1;
      }
      assert keys[..i] == keys;
    }

    /** The checks of one cluster, reporting into the tally. */
    method CheckOneCluster(name: string, c: Cluster) returns (err: Option<TopologyError>)
      modifies tally
      ensures var k := ClusterCheck(name, c);
        && err == k.error
        && tally.passed == old(tally.passed) + Passes(k.reports) && tally.failed == old(tally.failed) + Fails(k.reports)
        && tally.warnings == old(tally.warnings)
    {
      ClusterFacts(name, c);
      if !Truthy(c.cc) {
        return Some(NoCc(name));
      }
      if !Truthy(c.sc) {
        return Some(NoSc(name));
      }
      tally.Success("Cluster " + name + " has both an SC and CC");
      if !Truthy(c.nodes) {
        assert [Pass("Cluster " + name + " has both an SC and CC")][..0] == [];
        return Some(NoNodes(name));
      }
      tally.Success("Cluster " + name + " has node controllers");
      err := None;
    }

    /** The cluster loop of `validate`. */
    method CheckClusters(cs: seq<(string, Cluster)>) returns (err: Option<TopologyError>)
      modifies tally
      ensures var cl := ClustersCheck(cs);
        && err == cl.error
        && tally.passed == old(tally.passed) + Passes(cl.reports) && tally.failed == old(tally.failed) + Fails(cl.reports)
        && tally.warnings == old(tally.warnings)
    {
      var i := 0;
      while i < |cs|
        invariant 0 <= i <= |cs|
        invariant ClustersCheck(cs[..i]).error.None?
        invariant tally.passed == old(tally.passed) + Passes(ClustersCheck(cs[..i]).reports)
        invariant tally.failed == old(tally.failed) + Fails(ClustersCheck(cs[..i]).reports)
        invariant tally.warnings == old(tally.warnings)
      {
        ghost var p := ClustersCheck(cs[..i]);
        ghost var k := ClusterCheck(cs[i].0, cs[i].1);
        assert cs[..i + 1][..i] == cs[..i];
        assert ClustersCheck(cs[..i + 1]) == Checked(p.reports + k.reports, k.error);
        CountsConcat(p.reports, k.reports);
        err := CheckOneCluster(cs[i].0, cs[i].1);
        i := i + 1;
        if err.Some? {
          ClustersStops(cs, i);
          return;
        }
      }
      assert cs[..i] == cs;
      err := None;
    }

    /** `validate`: resets the host lists, then runs the checks in order up to the first
        error, every report reaching the tally. */
    method Validate(cluster: Option<seq<(string, seq<string>)>>, t: TopologySection) returns (err: Option<TopologyError>)
      requires Clc in roles && UserFacing in roles && Walrus in roles
      modifies this, tally
      ensures var v := Validation(roles, cluster, t);
        && err == v.error
        && tally.passed == old(tally.passed) + Passes(v.reports) && tally.failed == old(tally.failed) + Fails(v.reports)
        && tally.warnings == old(tally.warnings)
      ensures goodHosts == HostsCheck(cluster).good && failedHosts == []
    {
      failedHosts := [];
      goodHosts := [];
      err := SingleClusterPerHost(cluster);
      ghost var r0 := GoodReports(HostsCheck(cluster).good);
      if err.Some? {
        return;
      }
      if roles[Clc] == {} {
        return Some(NoClc);
      }
      if roles[UserFacing] == {} {
        return Some(NoUserFacing);
      }
      ghost var st := StorageCheck(t, roles);
      CountsConcat(r0, st.reports);
      err := CheckStorage(t);
      if err.Some? {
        return;
      }
      ghost var cl := ClustersCheck(t.clusters);
      CountsConcat(r0 + st.reports, cl.reports);
      err := CheckClusters(t.clusters);
    }
  }
}

/** The node run-list store (`ChefManager`): node records keyed by node name, looked up
    by their declared address, whose run lists are merged into and cleared. Remote
    actions are not performed; each is recorded as a `Step` of the store's trace, and
    the per-host results of a chef run come from an `Agent`. */
module ChefManager {
  import opened Wrappers
  import opened Text

  /** A node document: its `name`, its `automatic.ipaddress` and, when the key is
      present, its `run_list`. */
  datatype NodeRecord = NodeRecord(name: string, ipaddress: string, runList: Option<seq<string>>)

  type NodeHash = map<string, NodeRecord>

  /** A remote action, on the hosts it was executed on. A chef run carries the node
      records the run saw (the local node files are pushed before each run). */
  datatype Step =
    | SyncKeys(hosts: seq<string>)
    | Push(hosts: seq<string>)
    | InstallChef(hosts: seq<string>)
    | RunChef(hosts: seq<string>, nodes: NodeHash)
    | Pull(hosts: seq<string>)
    | BulkDelete
    | FailureLog(host: string, output: string)

  /** `FailedToFindNodeException` (no record declares the address), the `KeyError`
      raised when the declaring record's name files no record, and fabric's abort of the
      bootstrap chef run when it failed on some hosts. */
  datatype ChefError = NodeNotFound(address: string) | MissingNode(name: string) | BootstrapFailed(failed: seq<string>)

  /** The result fabric reports for one host's chef run. */
  datatype HostResult = HostResult(succeeded: bool, stdout: string)

  /** The remote side: the result of the chef run that is step `n` of the trace, on host `h`. */
  type Agent = (nat, string) -> HostResult

  /** The hosts, in order, whose chef run `n` failed. */
  function FailedHosts(hosts: seq<string>, agent: Agent, n: nat): (f: seq<string>)
    ensures forall h :: h in f <==> h in hosts && !agent(n, h).succeeded
    ensures f == [] <==> forall h :: h in hosts ==> agent(n, h).succeeded
  {
    if hosts == [] then []
    else
      var init := FailedHosts(hosts[..|hosts| - 1], agent, n);
      var h := hosts[|hosts| - 1];
      assert forall x :: x in hosts <==> x in hosts[..|hosts| - 1] || x == h by {
        assert hosts == hosts[..|hosts| - 1] + [h];
      }
      if agent(n, h).succeeded then init else init + [h]
  }

  /** No two records declare the same address, so an address names at most one record. */
  predicate UniqueAddresses(nodes: NodeHash) {
    forall k1, k2 :: k1 in nodes && k2 in nodes && nodes[k1].ipaddress == nodes[k2].ipaddress ==> k1 == k2
  }

  /** Each record is filed under its own name, as node files written by a chef run are. */
  predicate NamedByKey(nodes: NodeHash) {
    forall k :: k in nodes ==> nodes[k].name == k
  }

  predicate HasAddress(nodes: NodeHash, ip: string) {
    exists k :: k in nodes && nodes[k].ipaddress == ip
  }

  /** `get_node_name_by_ip`, as a specification: the name of a record declaring `ip`. */
  ghost function NameOf(nodes: NodeHash, ip: string): (r: Option<string>)
    ensures r.None? <==> !HasAddress(nodes, ip)
    ensures r.Some? ==> exists k :: k in nodes && nodes[k].ipaddress == ip && nodes[k].name == r.value
  {
    if HasAddress(nodes, ip) then
      var k :| k in nodes && nodes[k].ipaddress == ip;
      Some(nodes[k].name)
    else None
  }

  /** With unique addresses the lookup is determined: it is the name of the one record
      that declares the address. */
  lemma NameOfUnique(nodes: NodeHash, ip: string, k: string)
    requires UniqueAddresses(nodes) && k in nodes && nodes[k].ipaddress == ip
    ensures NameOf(nodes, ip) == Some(nodes[k].name)
  {
  }

  // ---------------------------------------------------------------------
  // Run lists.

  /** A record's run list, empty when it has none. */
  function RunListOf(r: NodeRecord): seq<string> {
    if r.runList.Some? then r.runList.value else []
  }

  predicate NoDup(s: seq<string>) {
    forall i, j :: 0 <= i < j < |s| ==> s[i] != s[j]
  }

  /** The inner loop of `add_to_run_list`: each recipe, in order, is appended unless the
      run list already holds it. */
  function Merge(rl: seq<string>, recipes: seq<string>): (m: seq<string>)
    ensures |rl| <= |m| && m[..|rl|] == rl
  {
    if recipes == [] then rl
    else
      var m := Merge(rl, recipes[..|recipes| - 1]);
      var x := recipes[|recipes| - 1];
      if x in m then m else m + [x]
  }

  /** `add_to_run_list` on one record: a missing run list becomes empty before the first
      recipe is considered, so a record keeps its missing key only when there is no recipe. */
  function WithRecipes(r: NodeRecord, recipes: seq<string>): NodeRecord {
    if recipes == [] then r else r.(runList := Some(Merge(RunListOf(r), recipes)))
  }

  lemma {:induction false} MergeMembers(rl: seq<string>, recipes: seq<string>, x: string)
    ensures x in Merge(rl, recipes) <==> x in rl || x in recipes
  {
    if recipes != [] {
      var init := recipes[..|recipes| - 1];
      MergeMembers(rl, init, x);
      assert recipes == init + [recipes[|recipes| - 1]];
    }
  }

  /** A duplicate-free run list stays duplicate-free. */
  lemma {:induction false} MergeNoDup(rl: seq<string>, recipes: seq<string>)
    requires NoDup(rl)
    ensures NoDup(Merge(rl, recipes))
  {
    if recipes != [] {
      MergeNoDup(rl, recipes[..|recipes| - 1]);
    }
  }

  /** Merging recipes the run list already holds changes nothing. */
  lemma {:induction false} MergeCovered(rl: seq<string>, recipes: seq<string>)
    requires forall i :: 0 <= i < |recipes| ==> recipes[i] in rl
    ensures Merge(rl, recipes) == rl
  {
    if recipes != [] {
      MergeCovered(rl, recipes[..|recipes| - 1]);
    }
  }

  /** Merging the same recipes twice is merging them once. */
  lemma MergeIdempotent(rl: seq<string>, recipes: seq<string>)
    ensures Merge(Merge(rl, recipes), recipes) == Merge(rl, recipes)
  {
    forall i | 0 <= i < |recipes| ensures recipes[i] in Merge(rl, recipes) {
      MergeMembers(rl, recipes, recipes[i]);
    }
    MergeCovered(Merge(rl, recipes), recipes);
  }

  /** Into an empty run list, duplicate-free recipes go in list order. */
  lemma {:induction false} MergeIntoEmpty(recipes: seq<string>)
    requires NoDup(recipes)
    ensures Merge([], recipes) == recipes
  {
    if recipes != [] {
      var init := recipes[..|recipes| - 1];
      MergeIntoEmpty(init);
      var x := recipes[|recipes| - 1];
      assert x !in init by {
        forall i | 0 <= i < |init| ensures init[i] != x {
          assert init[i] == recipes[i];
        }
      }
      assert init + [x] == recipes;
    }
  }

  /** Position `i` of `recipes` is the first occurrence of a recipe that `rl` lacks. */
  predicate FirstNew(rl: seq<string>, recipes: seq<string>, i: nat)
    requires i < |recipes|
  {
    recipes[i] !in rl && recipes[i] !in recipes[..i]
  }

  /** The recipes at the first-new positions of `recipes`, in the order of those positions:
      the selection a run list should gain from `add_to_run_list`. */
  function NewRecipes(rl: seq<string>, recipes: seq<string>): seq<string> {
    if recipes == [] then []
    else
      var n := |recipes| - 1;
      NewRecipes(rl, recipes[..n]) + (if FirstNew(rl, recipes, n) then [recipes[n]] else [])
  }

  /** A new recipe is one of `recipes` that the run list lacks. */
  lemma {:induction false} NewRecipesMembers(rl: seq<string>, recipes: seq<string>, x: string)
    ensures x in NewRecipes(rl, recipes) <==> x in recipes && x !in rl
  {
    if recipes != [] {
      var n := |recipes| - 1;
      NewRecipesMembers(rl, recipes[..n], x);
      assert recipes == recipes[..n] + [recipes[n]];
    }
  }

  /** Each new recipe is selected once. */
  lemma {:induction false} NewRecipesNoDup(rl: seq<string>, recipes: seq<string>)
    ensures NoDup(NewRecipes(rl, recipes))
  {
    if recipes != [] {
      var n := |recipes| - 1;
      NewRecipesNoDup(rl, recipes[..n]);
      NewRecipesMembers(rl, recipes[..n], recipes[n]);
    }
  }

  /** Of two first-new positions, the earlier one's recipe is selected first: at `p`,
      before the later one's at `q`. */
  lemma {:induction false} NewRecipesOrder(rl: seq<string>, recipes: seq<string>, i: nat, j: nat) returns (p: nat, q: nat)
    requires i < j < |recipes| && FirstNew(rl, recipes, i) && FirstNew(rl, recipes, j)
    ensures var t := NewRecipes(rl, recipes);
      p < q < |t| && t[p] == recipes[i] && t[q] == recipes[j]
  {
    var n := |recipes| - 1;
    var init := recipes[..n];
    var t0 := NewRecipes(rl, init);
    assert init[..i] == recipes[..i] && init[i] == recipes[i];
    if j < n {
      assert init[..j] == recipes[..j] && init[j] == recipes[j];
      p, q := NewRecipesOrder(rl, init, i, j);
    } else {
      NewRecipesMembers(rl, init, recipes[i]);
      var k :| 0 <= k < |t0| && t0[k] == recipes[i];
      p, q := k, |t0|;
    }
  }

  /** `add_to_run_list` keeps the run list and appends exactly the new recipes, in the
      order of their first occurrence in `recipes`. */
  lemma {:induction false} MergeAppends(rl: seq<string>, recipes: seq<string>)
    ensures Merge(rl, recipes) == rl + NewRecipes(rl, recipes)
  {
    if recipes != [] {
      var n := |recipes| - 1;
      MergeAppends(rl, recipes[..n]);
      MergeMembers(rl, recipes[..n], recipes[n]);
    }
  }

  /** The part of the run list `add_to_run_list` appends: the recipes the list lacked, each
      once, in the order in which they first occur among `recipes`. */
  lemma MergeOrder(rl: seq<string>, recipes: seq<string>)
    ensures var t := Merge(rl, recipes)[|rl|..];
      && (forall x :: x in t <==> x in recipes && x !in rl)
      && NoDup(t)
      && forall i: nat, j: nat :: i < j < |recipes| && FirstNew(rl, recipes, i) && FirstNew(rl, recipes, j) ==>
           exists p, q :: 0 <= p < q < |t| && t[p] == recipes[i] && t[q] == recipes[j]
  {
    MergeAppends(rl, recipes);
    var t := NewRecipes(rl, recipes);
    assert Merge(rl, recipes)[|rl|..] == t;
    forall x ensures x in t <==> x in recipes && x !in rl {
      NewRecipesMembers(rl, recipes, x);
    }
    NewRecipesNoDup(rl, recipes);
    forall i: nat, j: nat | i < j < |recipes| && FirstNew(rl, recipes, i) && FirstNew(rl, recipes, j)
      ensures exists p, q :: 0 <= p < q < |t| && t[p] == recipes[i] && t[q] == recipes[j]
    {
      var p, q := NewRecipesOrder(rl, recipes, i, j);
      assert 0 <= p < q < |t| && t[p] == recipes[i] && t[q] == recipes[j];
    }
  }

  /** After `add_to_run_list` a record holds every recipe in its run list, and merging the
      same recipes again leaves it as it is. */
  lemma WithRecipesFacts(r: NodeRecord, recipes: seq<string>)
    ensures forall i :: 0 <= i < |recipes| ==> recipes[i] in RunListOf(WithRecipes(r, recipes))
    ensures RunListOf(r) == RunListOf(WithRecipes(r, recipes))[..|RunListOf(r)|]
    ensures WithRecipes(WithRecipes(r, recipes), recipes) == WithRecipes(r, recipes)
    ensures NoDup(RunListOf(r)) ==> NoDup(RunListOf(WithRecipes(r, recipes)))
    ensures WithRecipes(r, recipes).name == r.name && WithRecipes(r, recipes).ipaddress == r.ipaddress
  {
    forall i | 0 <= i < |recipes| ensures recipes[i] in RunListOf(WithRecipes(r, recipes)) {
      MergeMembers(RunListOf(r), recipes, recipes[i]);
    }
    if recipes != [] {
      MergeIdempotent(RunListOf(r), recipes);
      if NoDup(RunListOf(r)) {
        MergeNoDup(RunListOf(r), recipes);
      }
    }
  }

  // ---------------------------------------------------------------------
  // Store updates over a batch of hosts.

  /** The store after the initial bootstrap: the records it already held, plus the records
      `discover` holds under names the store did not know. */
  function Discovered(nodes: NodeHash, discover: NodeHash): (r: NodeHash)
    ensures r.Keys == nodes.Keys + discover.Keys
    ensures forall k :: k in nodes ==> r[k] == nodes[k]
  {
    map k | k in nodes.Keys + discover.Keys :: if k in nodes then nodes[k] else discover[k]
  }

  /** The store, the remote actions so far, and the error that stopped the batch, if any. */
  datatype Batch = Batch(nodes: NodeHash, trace: seq<Step>, error: Option<ChefError>)

  /** The store the lookup is retried on: after a bootstrap, the store with the records it
      made available. */
  ghost function BootNodes(nodes: NodeHash, ip: string, discover: NodeHash): NodeHash {
    if NameOf(nodes, ip).None? then Discovered(nodes, discover) else nodes
  }

  /** One iteration of `add_to_run_list` for the address `ip` of the batch `hosts`. An
      unknown address first triggers a push and a chef run on the whole batch (step
      `|b.trace| + 1`), which fabric aborts when it fails on any host; otherwise the lookup
      is tried once more. */
  ghost function AddHost(b: Batch, ip: string, hosts: seq<string>, recipes: seq<string>, discover: NodeHash, agent: Agent): Batch {
    if NameOf(b.nodes, ip).None? && FailedHosts(hosts, agent, |b.trace| + 1) != [] then
      Batch(b.nodes, b.trace + [Push(hosts), RunChef(hosts, b.nodes)], Some(BootstrapFailed(FailedHosts(hosts, agent, |b.trace| + 1))))
    else Lookup(b, ip, hosts, recipes, discover)
  }

  /** The lookup of `ip`, retried after a successful bootstrap run when the address was
      unknown, and the merge of `recipes` into the run list of the node found. */
  ghost function Lookup(b: Batch, ip: string, hosts: seq<string>, recipes: seq<string>, discover: NodeHash): Batch {
    var nodes := BootNodes(b.nodes, ip, discover);
    var trace := if NameOf(b.nodes, ip).None? then b.trace + [Push(hosts), RunChef(hosts, b.nodes)] else b.trace;
    match NameOf(nodes, ip)
    case None => Batch(nodes, trace, Some(NodeNotFound(ip)))
    case Some(name) => Merged(nodes, trace, name, recipes)
  }

  /** The merge of `recipes` into the run list of the node named `name`: the `KeyError`
      of a name without a node file. */
  ghost function Merged(nodes: NodeHash, trace: seq<Step>, name: string, recipes: seq<string>): Batch {
    if name in nodes then Batch(nodes[name := WithRecipes(nodes[name], recipes)], trace, None)
    else Batch(nodes, trace, Some(MissingNode(name)))
  }

  /** The three ways one iteration of `add_to_run_list` can go: a known address is merged
      into at once; an unknown one fails with the bootstrap run or is looked up again. */
  lemma AddHostPaths(b: Batch, ip: string, hosts: seq<string>, recipes: seq<string>, discover: NodeHash, agent: Agent)
    ensures var r := AddHost(b, ip, hosts, recipes, discover, agent);
      var t := b.trace + [Push(hosts), RunChef(hosts, b.nodes)];
      var f := FailedHosts(hosts, agent, |b.trace| + 1);
      var d := Discovered(b.nodes, discover);
      && (NameOf(b.nodes, ip).Some? ==> r == Merged(b.nodes, b.trace, NameOf(b.nodes, ip).value, recipes))
      && (NameOf(b.nodes, ip).None? && f != [] ==> r == Batch(b.nodes, t, Some(BootstrapFailed(f))))
      && (NameOf(b.nodes, ip).None? && f == [] && NameOf(d, ip).None? ==> r == Batch(d, t, Some(NodeNotFound(ip))))
      && (NameOf(b.nodes, ip).None? && f == [] && NameOf(d, ip).Some? ==> r == Merged(d, t, NameOf(d, ip).value, recipes))
  {
  }

  /** `add_to_run_list` over the addresses `ips`, in order, stopping at the first error. */
  ghost function AddHosts(b: Batch, ips: seq<string>, hosts: seq<string>, recipes: seq<string>, discover: NodeHash, agent: Agent): Batch {
    if ips == [] then b
    else
      var p := AddHosts(b, ips[..|ips| - 1], hosts, recipes, discover, agent);
      if p.error.Some? then p else AddHost(p, ips[|ips| - 1], hosts, recipes, discover, agent)
  }

  /** `clear_run_list` over the addresses `ips`: unknown addresses are skipped. */
  ghost function ClearHosts(b: Batch, ips: seq<string>): Batch {
    if ips == [] then b
    else
      var p := ClearHosts(b, ips[..|ips| - 1]);
      if p.error.Some? then p
      else match NameOf(p.nodes, ips[|ips| - 1])
        case None => p
        case Some(name) =>
          if name in p.nodes then p.(nodes := p.nodes[name := p.nodes[name].(runList := Some([]))])
          else p.(error := Some(MissingNode(name)))
  }

  // ---------------------------------------------------------------------
  // Properties of the batch updates.

  /** `b` holds the records of `a` under the same keys, with the same names and addresses. */
  predicate Extends(a: NodeHash, b: NodeHash) {
    && a.Keys <= b.Keys
    && forall k :: k in a ==> b[k].name == a[k].name && b[k].ipaddress == a[k].ipaddress
  }

  /** A lookup that succeeds in a store gives the same name in any extension of it whose
      addresses are unique. */
  lemma NameOfExtends(a: NodeHash, b: NodeHash, ip: string)
    requires Extends(a, b) && UniqueAddresses(b) && HasAddress(a, ip)
    ensures NameOf(b, ip) == NameOf(a, ip)
  {
    var k :| k in a && a[k].ipaddress == ip;
    NameOfUnique(b, ip, k);
    assert UniqueAddresses(a);
    NameOfUnique(a, ip, k);
  }

  /** Changing run lists only does not change any lookup. */
  lemma NameOfSameIds(a: NodeHash, b: NodeHash, ip: string)
    requires Extends(a, b) && a.Keys == b.Keys && UniqueAddresses(b)
    ensures NameOf(a, ip) == NameOf(b, ip)
  {
    if HasAddress(a, ip) {
      NameOfExtends(a, b, ip);
    } else {
      assert !HasAddress(b, ip);
    }
  }

  /** `ip` resolves to a record that already holds every recipe, as `add_to_run_list` leaves it. */
  ghost predicate Holds(nodes: NodeHash, ip: string, recipes: seq<string>) {
    && NameOf(nodes, ip).Some?
    && NameOf(nodes, ip).value in nodes
    && WithRecipes(nodes[NameOf(nodes, ip).value], recipes) == nodes[NameOf(nodes, ip).value]
  }

  /** The store lies between the initial store `n0` and `n0` after a bootstrap. */
  predicate Between(nodes: NodeHash, n0: NodeHash, discover: NodeHash) {
    n0.Keys <= nodes.Keys && Extends(nodes, Discovered(n0, discover))
  }

  lemma DiscoveredBetween(nodes: NodeHash, n0: NodeHash, discover: NodeHash)
    requires Between(nodes, n0, discover)
    ensures Between(Discovered(nodes, discover), n0, discover)
  {
  }

  lemma BootNodesFacts(nodes: NodeHash, ip: string, discover: NodeHash, n0: NodeHash)
    requires Between(nodes, n0, discover) && UniqueAddresses(Discovered(n0, discover))
    ensures Between(BootNodes(nodes, ip, discover), n0, discover)
    ensures Extends(nodes, BootNodes(nodes, ip, discover))
    ensures UniqueAddresses(BootNodes(nodes, ip, discover))
  {
    if NameOf(nodes, ip).None? {
      DiscoveredBetween(nodes, n0, discover);
    }
  }

  /** Merging recipes into one record keeps every name and address. */
  lemma RecordUpdate(nodes: NodeHash, name: string, recipes: seq<string>, n0: NodeHash, discover: NodeHash)
    requires Between(nodes, n0, discover) && name in nodes
    ensures var u := nodes[name := WithRecipes(nodes[name], recipes)];
      Between(u, n0, discover) && Extends(u, nodes) && u.Keys == nodes.Keys
  {
    WithRecipesFacts(nodes[name], recipes);
  }

  lemma AddHostHolds(p: Batch, ip: string, hosts: seq<string>, recipes: seq<string>, discover: NodeHash, agent: Agent, n0: NodeHash)
    requires p.error.None? && Between(p.nodes, n0, discover) && UniqueAddresses(Discovered(n0, discover))
    ensures Between(AddHost(p, ip, hosts, recipes, discover, agent).nodes, n0, discover)
    ensures AddHost(p, ip, hosts, recipes, discover, agent).error.None? ==> Holds(AddHost(p, ip, hosts, recipes, discover, agent).nodes, ip, recipes)
  {
    if !(NameOf(p.nodes, ip).None? && FailedHosts(hosts, agent, |p.trace| + 1) != []) {
      LookupHolds(p, ip, hosts, recipes, discover, n0);
    }
  }

  lemma LookupHolds(p: Batch, ip: string, hosts: seq<string>, recipes: seq<string>, discover: NodeHash, n0: NodeHash)
    requires p.error.None? && Between(p.nodes, n0, discover) && UniqueAddresses(Discovered(n0, discover))
    ensures Between(Lookup(p, ip, hosts, recipes, discover).nodes, n0, discover)
    ensures Lookup(p, ip, hosts, recipes, discover).error.None? ==> Holds(Lookup(p, ip, hosts, recipes, discover).nodes, ip, recipes)
  {
    var nodes := BootNodes(p.nodes, ip, discover);
    BootNodesFacts(p.nodes, ip, discover, n0);
    if NameOf(nodes, ip).Some? && NameOf(nodes, ip).value in nodes {
      var name := NameOf(nodes, ip).value;
      RecordUpdate(nodes, name, recipes, n0, discover);
      var u := nodes[name := WithRecipes(nodes[name], recipes)];
      NameOfSameIds(u, nodes, ip);
      WithRecipesFacts(nodes[name], recipes);
    }
  }

  lemma AddHostKeeps(p: Batch, ip: string, hosts: seq<string>, recipes: seq<string>, discover: NodeHash, agent: Agent, n0: NodeHash, ip0: string)
    requires p.error.None? && Between(p.nodes, n0, discover) && UniqueAddresses(Discovered(n0, discover))
    requires Holds(p.nodes, ip0, recipes)
    ensures Holds(AddHost(p, ip, hosts, recipes, discover, agent).nodes, ip0, recipes)
  {
    if !(NameOf(p.nodes, ip).None? && FailedHosts(hosts, agent, |p.trace| + 1) != []) {
      LookupKeeps(p, ip, hosts, recipes, discover, n0, ip0);
    }
  }

  lemma LookupKeeps(p: Batch, ip: string, hosts: seq<string>, recipes: seq<string>, discover: NodeHash, n0: NodeHash, ip0: string)
    requires p.error.None? && Between(p.nodes, n0, discover) && UniqueAddresses(Discovered(n0, discover))
    requires Holds(p.nodes, ip0, recipes)
    ensures Holds(Lookup(p, ip, hosts, recipes, discover).nodes, ip0, recipes)
  {
    var nodes := BootNodes(p.nodes, ip, discover);
    BootNodesFacts(p.nodes, ip, discover, n0);
    NameOfExtends(p.nodes, nodes, ip0);
    var name0 := NameOf(p.nodes, ip0).value;
    assert nodes[name0] == p.nodes[name0];
    if NameOf(nodes, ip).Some? && NameOf(nodes, ip).value in nodes {
      var name := NameOf(nodes, ip).value;
      RecordUpdate(nodes, name, recipes, n0, discover);
      var u := nodes[name := WithRecipes(nodes[name], recipes)];
      NameOfSameIds(u, nodes, ip0);
      if name == name0 {
        WithRecipesFacts(nodes[name], recipes);
      } else {
        assert u[name0] == nodes[name0];
      }
    }
  }

  lemma AddHostFacts(p: Batch, ip: string, hosts: seq<string>, recipes: seq<string>, discover: NodeHash, agent: Agent, n0: NodeHash)
    requires p.error.None? && Between(p.nodes, n0, discover) && UniqueAddresses(Discovered(n0, discover))
    ensures Between(AddHost(p, ip, hosts, recipes, discover, agent).nodes, n0, discover)
    ensures AddHost(p, ip, hosts, recipes, discover, agent).error.None? ==> Holds(AddHost(p, ip, hosts, recipes, discover, agent).nodes, ip, recipes)
    ensures forall ip0 :: Holds(p.nodes, ip0, recipes) ==> Holds(AddHost(p, ip, hosts, recipes, discover, agent).nodes, ip0, recipes)
  {
    AddHostHolds(p, ip, hosts, recipes, discover, agent, n0);
    forall ip0 | Holds(p.nodes, ip0, recipes) ensures Holds(AddHost(p, ip, hosts, recipes, discover, agent).nodes, ip0, recipes) {
      AddHostKeeps(p, ip, hosts, recipes, discover, agent, n0, ip0);
    }
  }

  /** Once a batch has failed, later addresses change nothing. */
  lemma {:induction false} AddHostsStops(b: Batch, ips: seq<string>, j: nat, hosts: seq<string>, recipes: seq<string>, discover: NodeHash, agent: Agent)
    requires j <= |ips| && AddHosts(b, ips[..j], hosts, recipes, discover, agent).error.Some?
    ensures AddHosts(b, ips, hosts, recipes, discover, agent) == AddHosts(b, ips[..j], hosts, recipes, discover, agent)
  {
    if j < |ips| {
      assert ips[..|ips| - 1][..j] == ips[..j];
      AddHostsStops(b, ips[..|ips| - 1], j, hosts, recipes, discover, agent);
    } else {
      assert ips[..j] == ips;
    }
  }

  lemma {:induction false} AddHostsFacts(b0: Batch, ips: seq<string>, hosts: seq<string>, recipes: seq<string>, discover: NodeHash, agent: Agent)
    requires b0.error.None? && UniqueAddresses(Discovered(b0.nodes, discover))
    ensures Between(AddHosts(b0, ips, hosts, recipes, discover, agent).nodes, b0.nodes, discover)
    ensures AddHosts(b0, ips, hosts, recipes, discover, agent).error.None? ==>
      forall i :: 0 <= i < |ips| ==> Holds(AddHosts(b0, ips, hosts, recipes, discover, agent).nodes, ips[i], recipes)
  {
    if ips != [] {
      var init := ips[..|ips| - 1];
      AddHostsFacts(b0, init, hosts, recipes, discover, agent);
      var p := AddHosts(b0, init, hosts, recipes, discover, agent);
      if p.error.None? {
        AddHostFacts(p, ips[|ips| - 1], hosts, recipes, discover, agent, b0.nodes);
        forall i | 0 <= i < |ips| - 1 ensures ips[i] == init[i] { }
      }
    }
  }

  /** After a successful `add_to_run_list`, every recipe is in the run list of the node
      each address of the batch resolves to. */
  lemma RecipesAdded(b0: Batch, hosts: seq<string>, recipes: seq<string>, discover: NodeHash, agent: Agent)
    requires b0.error.None? && UniqueAddresses(Discovered(b0.nodes, discover))
    ensures var r := AddHosts(b0, hosts, hosts, recipes, discover, agent);
      r.error.None? ==>
        forall i :: 0 <= i < |hosts| ==>
          && NameOf(r.nodes, hosts[i]).Some?
          && NameOf(r.nodes, hosts[i]).value in r.nodes
          && forall j :: 0 <= j < |recipes| ==> recipes[j] in RunListOf(r.nodes[NameOf(r.nodes, hosts[i]).value])
  {
    var r := AddHosts(b0, hosts, hosts, recipes, discover, agent);
    AddHostsFacts(b0, hosts, hosts, recipes, discover, agent);
    if r.error.None? {
      forall i | 0 <= i < |hosts|
        ensures forall j :: 0 <= j < |recipes| ==> recipes[j] in RunListOf(r.nodes[NameOf(r.nodes, hosts[i]).value])
      {
        WithRecipesFacts(r.nodes[NameOf(r.nodes, hosts[i]).value], recipes);
      }
    }
  }

  lemma {:induction false} AddHostsFixed(b: Batch, ips: seq<string>, hosts: seq<string>, recipes: seq<string>, discover: NodeHash, agent: Agent)
    requires b.error.None? && forall i :: 0 <= i < |ips| ==> Holds(b.nodes, ips[i], recipes)
    ensures AddHosts(b, ips, hosts, recipes, discover, agent) == b
  {
    if ips != [] {
      AddHostsFixed(b, ips[..|ips| - 1], hosts, recipes, discover, agent);
      var name := NameOf(b.nodes, ips[|ips| - 1]).value;
      assert b.nodes[name := b.nodes[name]] == b.nodes;
    }
  }

  /** Applying `add_to_run_list` twice with the same arguments is applying it once: the
      second call changes no record and performs no remote action. */
  lemma AddTwice(b0: Batch, hosts: seq<string>, recipes: seq<string>, discover: NodeHash, agent: Agent)
    requires b0.error.None? && UniqueAddresses(Discovered(b0.nodes, discover))
    requires AddHosts(b0, hosts, hosts, recipes, discover, agent).error.None?
    ensures var r := AddHosts(b0, hosts, hosts, recipes, discover, agent);
      AddHosts(r, hosts, hosts, recipes, discover, agent) == r
  {
    AddHostsFacts(b0, hosts, hosts, recipes, discover, agent);
    AddHostsFixed(AddHosts(b0, hosts, hosts, recipes, discover, agent), hosts, hosts, recipes, discover, agent);
  }

  /** `ip` resolves to a record whose run list holds every recipe of `recipes`. */
  ghost predicate Contains(nodes: NodeHash, ip: string, recipes: seq<string>) {
    && NameOf(nodes, ip).Some?
    && NameOf(nodes, ip).value in nodes
    && forall j :: 0 <= j < |recipes| ==> recipes[j] in RunListOf(nodes[NameOf(nodes, ip).value])
  }

  lemma HoldsContains(nodes: NodeHash, ip: string, recipes: seq<string>)
    requires Holds(nodes, ip, recipes)
    ensures Contains(nodes, ip, recipes)
  {
    WithRecipesFacts(nodes[NameOf(nodes, ip).value], recipes);
  }

  /** Merging recipes into a run list keeps every recipe it held. */
  lemma WithRecipesKeeps(r: NodeRecord, recipes: seq<string>, x: string)
    requires x in RunListOf(r)
    ensures x in RunListOf(WithRecipes(r, recipes))
  {
    if recipes != [] {
      MergeMembers(RunListOf(r), recipes, x);
    }
  }

  /** Adding any recipes for any address keeps the recipes every other address's node held. */
  lemma AddHostKeepsOthers(p: Batch, ip: string, hosts: seq<string>, recipes: seq<string>, discover: NodeHash, agent: Agent, n0: NodeHash, ip0: string, rec0: seq<string>)
    requires p.error.None? && Between(p.nodes, n0, discover) && UniqueAddresses(Discovered(n0, discover))
    requires Contains(p.nodes, ip0, rec0)
    ensures Contains(AddHost(p, ip, hosts, recipes, discover, agent).nodes, ip0, rec0)
  {
    if !(NameOf(p.nodes, ip).None? && FailedHosts(hosts, agent, |p.trace| + 1) != []) {
      LookupKeepsOthers(p, ip, hosts, recipes, discover, n0, ip0, rec0);
    }
  }

  lemma LookupKeepsOthers(p: Batch, ip: string, hosts: seq<string>, recipes: seq<string>, discover: NodeHash, n0: NodeHash, ip0: string, rec0: seq<string>)
    requires p.error.None? && Between(p.nodes, n0, discover) && UniqueAddresses(Discovered(n0, discover))
    requires Contains(p.nodes, ip0, rec0)
    ensures Contains(Lookup(p, ip, hosts, recipes, discover).nodes, ip0, rec0)
  {
    var nodes := BootNodes(p.nodes, ip, discover);
    BootNodesFacts(p.nodes, ip, discover, n0);
    NameOfExtends(p.nodes, nodes, ip0);
    var name0 := NameOf(p.nodes, ip0).value;
    assert nodes[name0] == p.nodes[name0];
    assert Contains(nodes, ip0, rec0);
    if NameOf(nodes, ip).Some? {
      var trace := if NameOf(p.nodes, ip).None? then p.trace + [Push(hosts), RunChef(hosts, p.nodes)] else p.trace;
      MergedKeepsOthers(nodes, trace, NameOf(nodes, ip).value, recipes, n0, discover, ip0, rec0);
    }
  }

  /** Merging into one node keeps the recipes every node held. */
  lemma MergedKeepsOthers(nodes: NodeHash, trace: seq<Step>, name: string, recipes: seq<string>, n0: NodeHash, discover: NodeHash, ip0: string, rec0: seq<string>)
    requires Between(nodes, n0, discover) && UniqueAddresses(nodes)
    requires Contains(nodes, ip0, rec0)
    ensures Contains(Merged(nodes, trace, name, recipes).nodes, ip0, rec0)
  {
    if name in nodes {
      var name0 := NameOf(nodes, ip0).value;
      RecordUpdate(nodes, name, recipes, n0, discover);
      var u := nodes[name := WithRecipes(nodes[name], recipes)];
      NameOfSameIds(u, nodes, ip0);
      if name == name0 {
        forall j | 0 <= j < |rec0| ensures rec0[j] in RunListOf(u[name0]) {
          WithRecipesKeeps(nodes[name], recipes, rec0[j]);
        }
      } else {
        assert u[name0] == nodes[name0];
      }
    }
  }

  lemma {:induction false} AddHostsKeepsOthers(b0: Batch, ips: seq<string>, hosts: seq<string>, recipes: seq<string>, discover: NodeHash, agent: Agent, n0: NodeHash, ip0: string, rec0: seq<string>)
    requires b0.error.None? && Between(b0.nodes, n0, discover) && UniqueAddresses(Discovered(n0, discover))
    requires Contains(b0.nodes, ip0, rec0)
    ensures Between(AddHosts(b0, ips, hosts, recipes, discover, agent).nodes, n0, discover)
    ensures Contains(AddHosts(b0, ips, hosts, recipes, discover, agent).nodes, ip0, rec0)
  {
    if ips != [] {
      var init := ips[..|ips| - 1];
      AddHostsKeepsOthers(b0, init, hosts, recipes, discover, agent, n0, ip0, rec0);
      var p := AddHosts(b0, init, hosts, recipes, discover, agent);
      if p.error.None? {
        AddHostHolds(p, ips[|ips| - 1], hosts, recipes, discover, agent, n0);
        AddHostKeepsOthers(p, ips[|ips| - 1], hosts, recipes, discover, agent, n0, ip0, rec0);
      }
    }
  }

  /** `add_to_run_list` only appends to the remote actions. */
  lemma {:induction false} AddHostsTrace(b0: Batch, ips: seq<string>, hosts: seq<string>, recipes: seq<string>, discover: NodeHash, agent: Agent)
    ensures b0.trace <= AddHosts(b0, ips, hosts, recipes, discover, agent).trace
  {
    if ips != [] {
      AddHostsTrace(b0, ips[..|ips| - 1], hosts, recipes, discover, agent);
      AddHostTrace(AddHosts(b0, ips[..|ips| - 1], hosts, recipes, discover, agent), ips[|ips| - 1], hosts, recipes, discover, agent);
    }
  }

  lemma AddHostTrace(p: Batch, ip: string, hosts: seq<string>, recipes: seq<string>, discover: NodeHash, agent: Agent)
    ensures p.trace <= AddHost(p, ip, hosts, recipes, discover, agent).trace
  {
  }

  /** Clearing run lists keeps the store between `n0` and `n0` after a bootstrap. */
  lemma ClearHostsBetween(b0: Batch, ips: seq<string>, n0: NodeHash, discover: NodeHash)
    requires b0.error.None? && Between(b0.nodes, n0, discover)
    ensures Between(ClearHosts(b0, ips).nodes, n0, discover)
  {
    ClearHostsShape(b0, ips);
  }

  /** An address the store does not know triggers a push and a chef run on the whole
      batch; the batch aborts, with the store unchanged, iff that run failed on some host,
      naming exactly those hosts, and otherwise the lookup is retried once. An address the
      store knows triggers no remote action. */
  lemma InitialBootstrap(b: Batch, ip: string, hosts: seq<string>, recipes: seq<string>, discover: NodeHash, agent: Agent)
    requires b.error.None?
    ensures var r := AddHost(b, ip, hosts, recipes, discover, agent);
      var n := |b.trace| + 1;
      var ok := forall h :: h in hosts ==> agent(n, h).succeeded;
      && (!HasAddress(b.nodes, ip) ==> r.trace == b.trace + [Push(hosts), RunChef(hosts, b.nodes)])
      && (HasAddress(b.nodes, ip) ==> r.trace == b.trace && r.nodes.Keys == b.nodes.Keys)
      && (r.error.Some? && r.error.value.BootstrapFailed? <==> !HasAddress(b.nodes, ip) && !ok)
      && (r.error.Some? && r.error.value.BootstrapFailed? ==>
            r.nodes == b.nodes && forall h :: h in r.error.value.failed <==> h in hosts && !agent(n, h).succeeded)
      && (r.error == Some(NodeNotFound(ip)) <==> !HasAddress(b.nodes, ip) && ok && !HasAddress(Discovered(b.nodes, discover), ip))
  {
  }

  /** The retry looks at the store as the bootstrap left it. The push and the chef run are
      remote, so unless records are read back in the store is unchanged and an unknown
      address fails the batch. */
  lemma RetryWithoutReload(b: Batch, ip: string, hosts: seq<string>, recipes: seq<string>, agent: Agent)
    requires b.error.None? && !HasAddress(b.nodes, ip)
    requires forall h :: h in hosts ==> agent(|b.trace| + 1, h).succeeded
    ensures AddHost(b, ip, hosts, recipes, map[], agent).error == Some(NodeNotFound(ip))
  {
    assert Discovered(b.nodes, map[]) == b.nodes;
  }

  /** When the records read back after the bootstrap declare the address, the retry
      succeeds and the node gets the recipes. */
  lemma RetryAfterReload(b: Batch, ip: string, hosts: seq<string>, recipes: seq<string>, discover: NodeHash, agent: Agent, k: string)
    requires b.error.None? && !HasAddress(b.nodes, ip)
    requires UniqueAddresses(Discovered(b.nodes, discover)) && NamedByKey(discover)
    requires k in discover && k !in b.nodes && discover[k].ipaddress == ip
    requires forall h :: h in hosts ==> agent(|b.trace| + 1, h).succeeded
    ensures var r := AddHost(b, ip, hosts, recipes, discover, agent);
      r.error.None? && k in r.nodes && r.nodes[k] == WithRecipes(discover[k], recipes)
  {
    var nodes := Discovered(b.nodes, discover);
    NameOfUnique(nodes, ip, k);
  }

  /** Every record is kept, or kept with an empty run list. */
  predicate ClearedOrKept(nodes: NodeHash, n0: NodeHash) {
    && nodes.Keys == n0.Keys
    && forall k :: k in n0 ==> nodes[k] == n0[k] || nodes[k] == n0[k].(runList := Some([]))
  }

  lemma {:induction false} ClearHostsShape(b0: Batch, ips: seq<string>)
    requires b0.error.None?
    ensures ClearHosts(b0, ips).trace == b0.trace
    ensures ClearedOrKept(ClearHosts(b0, ips).nodes, b0.nodes)
  {
    if ips != [] {
      ClearHostsShape(b0, ips[..|ips| - 1]);
    }
  }

  /** `clear_run_list` empties the run list of every record an address of the batch
      resolves to; an error means some resolved name files no record. */
  lemma {:induction false} ClearHostsCleared(b0: Batch, ips: seq<string>)
    requires b0.error.None? && UniqueAddresses(b0.nodes)
    ensures ClearHosts(b0, ips).nodes.Keys == b0.nodes.Keys
    ensures var r := ClearHosts(b0, ips);
      r.error.None? ==>
        forall i :: 0 <= i < |ips| && HasAddress(b0.nodes, ips[i]) ==>
          && NameOf(b0.nodes, ips[i]).value in b0.nodes
          && r.nodes[NameOf(b0.nodes, ips[i]).value] == b0.nodes[NameOf(b0.nodes, ips[i]).value].(runList := Some([]))
  {
    if ips != [] {
      var init := ips[..|ips| - 1];
      ClearHostsCleared(b0, init);
      ClearHostsShape(b0, init);
      var p := ClearHosts(b0, init);
      var r := ClearHosts(b0, ips);
      if r.error.None? {
        assert Extends(p.nodes, b0.nodes);
        NameOfSameIds(p.nodes, b0.nodes, ips[|ips| - 1]);
        forall i | 0 <= i < |ips| && HasAddress(b0.nodes, ips[i])
          ensures NameOf(b0.nodes, ips[i]).value in b0.nodes
          ensures r.nodes[NameOf(b0.nodes, ips[i]).value] == b0.nodes[NameOf(b0.nodes, ips[i]).value].(runList := Some([]))
        {
          if i < |ips| - 1 {
            assert ips[i] == init[i];
          }
        }
      }
    }
  }

  /** `clear_run_list` leaves alone every record no address of the batch resolves to. */
  lemma {:induction false} ClearHostsKeeps(b0: Batch, ips: seq<string>, k: string)
    requires b0.error.None? && UniqueAddresses(b0.nodes)
    requires k in b0.nodes && forall i :: 0 <= i < |ips| ==> NameOf(b0.nodes, ips[i]) != Some(k)
    ensures k in ClearHosts(b0, ips).nodes && ClearHosts(b0, ips).nodes[k] == b0.nodes[k]
  {
    if ips != [] {
      var init := ips[..|ips| - 1];
      assert forall i :: 0 <= i < |ips| - 1 ==> ips[i] == init[i];
      ClearHostsKeeps(b0, init, k);
      ClearHostsShape(b0, init);
      var p := ClearHosts(b0, init);
      if p.error.None? {
        assert Extends(p.nodes, b0.nodes);
        NameOfSameIds(p.nodes, b0.nodes, ips[|ips| - 1]);
      }
    }
  }

  /** With every record filed under its own name, `clear_run_list` cannot fail. */
  lemma {:induction false} ClearHostsNoError(b0: Batch, ips: seq<string>)
    requires b0.error.None? && UniqueAddresses(b0.nodes) && NamedByKey(b0.nodes)
    ensures ClearHosts(b0, ips).error.None?
  {
    if ips != [] {
      var init := ips[..|ips| - 1];
      ClearHostsNoError(b0, init);
      ClearHostsShape(b0, init);
      var p := ClearHosts(b0, init);
      assert Extends(p.nodes, b0.nodes);
      NameOfSameIds(p.nodes, b0.nodes, ips[|ips| - 1]);
    }
  }

  lemma ExtendsUnique(a: NodeHash, b: NodeHash)
    requires Extends(a, b) && UniqueAddresses(b)
    ensures UniqueAddresses(a)
  {
  }

  // ---------------------------------------------------------------------
  // The store itself.

  /** The in-memory node hash of a deployment, and the remote actions performed so far.
      The node files on disk are taken to mirror `nodeHash`: every change is written back
      at once, so reloading them changes nothing and is not modelled. */
  class NodeStore {
    var nodeHash: NodeHash
    var trace: seq<Step>

    constructor ()
      ensures nodeHash == map[] && trace == []
    {
      nodeHash := map[];
      trace := [];
    }

    /** `read_node_hash`: the document of the file `path`, when it parses, is stored
        under the file's basename without its extension; otherwise the store is left as
        it is and the unreadable node's name is reported. */
    method ReadNodeHash(path: string, document: Option<NodeRecord>) returns (err: Option<string>)
      modifies this
      ensures document.None? ==> err == Some(NodeKey(path)) && nodeHash == old(nodeHash)
      ensures document.Some? ==> err.None? && nodeHash == old(nodeHash)[NodeKey(path) := document.value]
      ensures trace == old(trace)
    {
      var key := NodeKey(path);
      if document.None? {
        return Some(key);
      }
      nodeHash := nodeHash[key := document.value];
      err := None;
    }

    /** `get_node_name_by_ip`: the name of a record declaring `ip`, or `None` (the
        source's `FailedToFindNodeException`) when no record does. */
    method GetNodeNameByIp(ip: string) returns (r: Option<string>)
      ensures r.None? <==> !HasAddress(nodeHash, ip)
      ensures r.Some? ==> exists k :: k in nodeHash && nodeHash[k].ipaddress == ip && nodeHash[k].name == r.value
      ensures UniqueAddresses(nodeHash) ==> r == NameOf(nodeHash, ip)
    {
      var keys := nodeHash.Keys;
      while keys != {}
        invariant keys <= nodeHash.Keys
        invariant forall k :: k in nodeHash && k !in keys ==> nodeHash[k].ipaddress != ip
        decreases |keys|
      {
        var k :| k in keys;
        if nodeHash[k].ipaddress == ip {
          if UniqueAddresses(nodeHash) {
            NameOfUnique(nodeHash, ip, k);
          }
          return Some(nodeHash[k].name);
        }
        keys := keys - {k};
      }
      return None;
    }

    /** Records one remote action. */
    method Record(step: Step)
      modifies this
      ensures trace == old(trace) + [step] && nodeHash == old(nodeHash)
    {
      trace := trace + [step];
    }

    /** One iteration of `add_to_run_list`, for the address `ip` of the batch `hosts`. */
    method AddHostToRunList(ip: string, hosts: seq<string>, recipes: seq<string>, discover: NodeHash, agent: Agent) returns (err: Option<ChefError>)
      requires UniqueAddresses(nodeHash) && UniqueAddresses(BootNodes(nodeHash, ip, discover))
      modifies this
      ensures Batch(nodeHash, trace, err) == AddHost(Batch(old(nodeHash), old(trace), None), ip, hosts, recipes, discover, agent)
    {
      ghost var b := Batch(nodeHash, trace, None);
      var name := GetNodeNameByIp(ip);
      AddHostPaths(b, ip, hosts, recipes, discover, agent);
      if name.None? {
        trace := trace + [Push(hosts), RunChef(hosts, nodeHash)];
        var failed := FailedHosts(hosts, agent, |trace| - 1);
        if failed != [] {
          return Some(BootstrapFailed(failed));
        }
        nodeHash := Discovered(nodeHash, discover);
        name := GetNodeNameByIp(ip);
        if name.None? {
          return Some(NodeNotFound(ip));
        }
      }
      err := MergeInto(name.value, recipes);
    }

    /** The inner loop of `add_to_run_list`, on the node named `name`. */
    method MergeInto(name: string, recipes: seq<string>) returns (err: Option<ChefError>)
      modifies this
      ensures Batch(nodeHash, trace, err) == Merged(old(nodeHash), old(trace), name, recipes)
    {
      if name !in nodeHash {
        return Some(MissingNode(name));
      }
      nodeHash := nodeHash[name := WithRecipes(nodeHash[name], recipes)];
      err := None;
    }

    /** `add_to_run_list`: merges `recipes` into the run list of the node of each address
        of `hosts`, in order. `discover` holds the records a bootstrap makes available. */
    method AddToRunList(hosts: seq<string>, recipes: seq<string>, discover: NodeHash, agent: Agent) returns (err: Option<ChefError>)
      requires UniqueAddresses(Discovered(nodeHash, discover))
      modifies this
      ensures Batch(nodeHash, trace, err) == AddHosts(Batch(old(nodeHash), old(trace), None), hosts, hosts, recipes, discover, agent)
    {
      ghost var b0 := Batch(nodeHash, trace, None);
      var i := 0;
      while i < |hosts|
        invariant 0 <= i <= |hosts|
        invariant Batch(nodeHash, trace, None) == AddHosts(b0, hosts[..i], hosts, recipes, discover, agent)
        invariant Between(nodeHash, b0.nodes, discover)
      {
        assert hosts[..i + 1][..i] == hosts[..i];
        ExtendsUnique(nodeHash, Discovered(b0.nodes, discover));
        BootNodesFacts(nodeHash, hosts[i], discover, b0.nodes);
        err := AddHostToRunList(hosts[i], hosts, recipes, discover, agent);
        if err.Some? {
          AddHostsStops(b0, hosts, i + 1, hosts, recipes, discover, agent);
          return;
        }
        AddHostsFacts(b0, hosts[..i + 1], hosts, recipes, discover, agent);
        i := i + 1;
      }
      assert hosts[..i] == hosts;
      err := None;
    }

    /** `clear_run_list`: empties the run list of the node of each known address of
        `hosts`; unknown addresses are skipped. */
    method ClearRunList(hosts: seq<string>) returns (err: Option<ChefError>)
      requires UniqueAddresses(nodeHash)
      modifies this
      ensures Batch(nodeHash, trace, err) == ClearHosts(Batch(old(nodeHash), old(trace), None), hosts)
    {
      ghost var b0 := Batch(nodeHash, trace, None);
      var i := 0;
      while i < |hosts|
        invariant 0 <= i <= |hosts|
        invariant Batch(nodeHash, trace, None) == ClearHosts(b0, hosts[..i])
      {
        assert hosts[..i + 1][..i] == hosts[..i];
        ClearHostsShape(b0, hosts[..i]);
        assert Extends(nodeHash, b0.nodes);
        ExtendsUnique(nodeHash, b0.nodes);
        var name := GetNodeNameByIp(hosts[i]);
        if name.Some? {
          if name.value !in nodeHash {
            err := Some(MissingNode(name.value));
            ClearHostsStops(b0, hosts, i + 1);
            return;
          }
          nodeHash := nodeHash[name.value := nodeHash[name.value].(runList := Some([]))];
        }
        i := i + 1;
      }
      assert hosts[..i] == hosts;
      err := None;
    }
  }

  lemma {:induction false} ClearHostsStops(b: Batch, ips: seq<string>, j: nat)
    requires j <= |ips| && ClearHosts(b, ips[..j]).error.Some?
    ensures ClearHosts(b, ips) == ClearHosts(b, ips[..j])
  {
    if j < |ips| {
      assert ips[..|ips| - 1][..j] == ips[..j];
      ClearHostsStops(b, ips[..|ips| - 1], j);
    } else {
      assert ips[..j] == ips;
    }
  }
}

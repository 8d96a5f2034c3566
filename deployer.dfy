/** The chef deployer (`Chef`): recipe lookup in the deployer config, the aggregation of a
    chef run's per-host results, and the four phases `prepare`, `bootstrap`, `provision`
    and `uninstall` as ordered sequences of run-list changes and runs. */
module Deployer {
  import opened Wrappers
  import opened RoleBuilder
  import opened ChefManager

  /** One entry of the chef config's `roles` list: a component and its recipes. */
  datatype RoleEntry = RoleEntry(component: string, recipes: seq<string>)

  /** The `deployer.chef` section of the config file. */
  datatype ChefConfig = ChefConfig(roles: seq<RoleEntry>)

  /** What makes a phase stop: the `IndexError`s and `ValueError` of the config lookups,
      the `KeyError` of a component that is no role, an error of the node store, and the
      `exit(1)` calls. */
  datatype DeployError =
    | NoDeployerSection
    | NoChefSection
    | NoComponent(component: string)
    | UnknownRole(name: string)
    | NodeStoreError(cause: ChefError)
    | RunFailed(failed: seq<string>)
    | NoCloudKeys
    | CloudKeyMissing(key: string)
    | NoNetworkMode

  /** `get_chef_config`: the `chef` entry of the `deployer` section, with a distinct error
      for each missing level. */
  function GetChefConfig(full: map<string, map<string, ChefConfig>>): (r: Result<ChefConfig, DeployError>)
    ensures r.Success? <==> "deployer" in full && "chef" in full["deployer"]
    ensures r.Success? ==> r.value == full["deployer"]["chef"]
    ensures r == Failure(NoDeployerSection) <==> "deployer" !in full
    ensures r == Failure(NoChefSection) <==> "deployer" in full && "chef" !in full["deployer"]
  {
    if "deployer" in full then
      if "chef" in full["deployer"] then Success(full["deployer"]["chef"])
      else Failure(NoChefSection)
    else Failure(NoDeployerSection)
  }

  /** The recipes of the first entry naming `component`. */
  function FindRecipes(entries: seq<RoleEntry>, component: string): (r: Option<seq<string>>)
    ensures r.None? <==> forall i :: 0 <= i < |entries| ==> entries[i].component != component
    ensures r.Some? ==>
      exists i :: (0 <= i < |entries| && entries[i].component == component && r.value == entries[i].recipes
                   && forall j :: 0 <= j < i ==> entries[j].component != component)
  {
    if entries == [] then None
    else if entries[0].component == component then
      assert entries[0].component == component;
      Some(entries[0].recipes)
    else
      var r := FindRecipes(entries[1..], component);
      assert forall j :: 1 <= j < |entries| ==> entries[j] == entries[1..][j - 1];
      r
  }

  /** `_get_recipe_list`: the recipes of the first config entry naming `component`, or
      the `ValueError` naming it when no entry does. */
  function GetRecipeList(config: ChefConfig, component: string): (r: Result<seq<string>, DeployError>)
    ensures r.Failure? <==> forall i :: 0 <= i < |config.roles| ==> config.roles[i].component != component
    ensures r.Failure? ==> r.error == NoComponent(component)
    ensures r.Success? ==>
      exists i :: (0 <= i < |config.roles| && config.roles[i].component == component && r.value == config.roles[i].recipes
                   && forall j :: 0 <= j < i ==> config.roles[j].component != component)
  {
    match FindRecipes(config.roles, component)
    case Some(recipes) => Success(recipes)
    case None => Failure(NoComponent(component))
  }

  /** The order in which a set of hosts is iterated: the hosts of `order` that are in `s`.
      `order` stands for the iteration order of the source's sets. */
  function Listing(order: seq<string>, s: set<string>): (l: seq<string>)
    ensures forall h :: h in l <==> h in order && h in s
    ensures NoDup(order) ==> NoDup(l)
  {
    if order == [] then []
    else
      var rest := Listing(order[1..], s);
      assert forall h :: h in order[1..] ==> h in order;
      if order[0] in s then
        assert NoDup(order) ==> NoDup(order[1..]) by {
          if NoDup(order) {
            forall i, j | 0 <= i < j < |order[1..]| ensures order[1..][i] != order[1..][j] {
              assert order[1..][i] == order[i + 1] && order[1..][j] == order[j + 1];
            }
          }
        }
        [order[0]] + rest
      else
        assert NoDup(order) ==> NoDup(order[1..]) by {
          if NoDup(order) {
            forall i, j | 0 <= i < j < |order[1..]| ensures order[1..][i] != order[1..][j] {
              assert order[1..][i] == order[i + 1] && order[1..][j] == order[j + 1];
            }
          }
        }
        rest
  }

  // ---------------------------------------------------------------------
  // Remote chef runs.

  /** The store, the remote actions so far, and the error that stopped the phase, if any. */
  datatype Run = Run(nodes: NodeHash, trace: seq<Step>, error: Option<DeployError>)

  /** The failure logs `calyptos-failure-<host>.log` of run `n`, one per failed host, in order. */
  function FailureLogs(hosts: seq<string>, agent: Agent, n: nat): seq<Step> {
    if hosts == [] then []
    else
      var h := hosts[|hosts| - 1];
      FailureLogs(hosts[..|hosts| - 1], agent, n) + (if agent(n, h).succeeded then [] else [FailureLog(h, agent(n, h).stdout)])
  }

  /** Host `i` adds itself to the failed hosts and its log to the logs iff it failed. */
  lemma FailureStep(hosts: seq<string>, i: nat, agent: Agent, n: nat)
    requires i < |hosts|
    ensures var h := hosts[i];
      && FailedHosts(hosts[..i + 1], agent, n) == FailedHosts(hosts[..i], agent, n) + (if agent(n, h).succeeded then [] else [h])
      && FailureLogs(hosts[..i + 1], agent, n) == FailureLogs(hosts[..i], agent, n) + (if agent(n, h).succeeded then [] else [FailureLog(h, agent(n, h).stdout)])
  {
    assert hosts[..i + 1][..i] == hosts[..i];
    if agent(n, hosts[i]).succeeded {
      assert FailedHosts(hosts[..i], agent, n) + [] == FailedHosts(hosts[..i], agent, n);
    }
  }

  /** The logs record exactly the failed hosts, each with its own output. */
  lemma {:induction false} FailureLogsMembers(hosts: seq<string>, agent: Agent, n: nat, st: Step)
    ensures st in FailureLogs(hosts, agent, n) <==>
      (st.FailureLog? && st.host in hosts && !agent(n, st.host).succeeded && st.output == agent(n, st.host).stdout)
  {
    if hosts != [] {
      var init := hosts[..|hosts| - 1];
      FailureLogsMembers(init, agent, n, st);
      assert hosts == init + [hosts[|hosts| - 1]];
    }
  }

  /** `_run_chef_on_hosts`: push, run, then one failure log per failed host; the run
      aborts after all hosts are examined if any failed, and otherwise pulls the node
      files. The store is not changed. */
  function Converge(s: Run, hosts: seq<string>, agent: Agent): Run {
    var n := |s.trace| + 1;
    var t := s.trace + [Push(hosts), RunChef(hosts, s.nodes)] + FailureLogs(hosts, agent, n);
    if FailedHosts(hosts, agent, n) != [] then Run(s.nodes, t, Some(RunFailed(FailedHosts(hosts, agent, n))))
    else Run(s.nodes, t + [Pull(hosts)], None)
  }

  /** A chef run fails iff some host failed; it then names exactly the failed hosts, logs
      each with its output, and pulls nothing. The run is step `|trace| + 1` and saw the
      store as it was. */
  lemma ConvergeFacts(s: Run, hosts: seq<string>, agent: Agent)
    ensures var r := Converge(s, hosts, agent);
      var n := |s.trace| + 1;
      && r.nodes == s.nodes
      && |r.trace| >= n + 1 && r.trace[..n + 1] == s.trace + [Push(hosts), RunChef(hosts, s.nodes)]
      && (r.error.Some? <==> exists h :: h in hosts && !agent(n, h).succeeded)
      && (r.error.Some? ==> forall h :: h in r.error.value.failed <==> h in hosts && !agent(n, h).succeeded)
      && (forall h :: h in hosts && !agent(n, h).succeeded ==> FailureLog(h, agent(n, h).stdout) in r.trace)
      && (Pull(hosts) in r.trace[n + 1..] <==> r.error.None?)
  {
    var n := |s.trace| + 1;
    var r := Converge(s, hosts, agent);
    var logs := FailureLogs(hosts, agent, n);
    var t := s.trace + [Push(hosts), RunChef(hosts, s.nodes)] + logs;
    assert t[..n + 1] == s.trace + [Push(hosts), RunChef(hosts, s.nodes)];
    forall h | h in hosts && !agent(n, h).succeeded ensures FailureLog(h, agent(n, h).stdout) in r.trace {
      FailureLogsMembers(hosts, agent, n, FailureLog(h, agent(n, h).stdout));
      assert FailureLog(h, agent(n, h).stdout) in t[n + 1..];
    }
    assert Pull(hosts) !in logs by {
      FailureLogsMembers(hosts, agent, n, Pull(hosts));
    }
    var failed := FailedHosts(hosts, agent, n);
    if failed != [] {
      assert failed[0] in failed;
    }
    if r.error.Some? {
      assert r.trace[n + 1..] == logs;
    } else {
      assert r.trace[n + 1..] == logs + [Pull(hosts)];
    }
  }

  /** `_run_chef_on_hosts` on the node store: every host's result is examined before the
      run is declared failed. */
  method RunChefOnHosts(store: NodeStore, hosts: seq<string>, agent: Agent) returns (err: Option<DeployError>)
    modifies store
    ensures Run(store.nodeHash, store.trace, err) == Converge(Run(old(store.nodeHash), old(store.trace), None), hosts, agent)
  {
    ghost var s := Run(store.nodeHash, store.trace, None);
    store.Record(Push(hosts));
    store.Record(RunChef(hosts, store.nodeHash));
    var n := |store.trace| - 1;
    var failed := false;
    var failedHosts: seq<string> := [];
    var i := 0;
    while i < |hosts|
      invariant 0 <= i <= |hosts|
      invariant store.nodeHash == s.nodes
      invariant store.trace == s.trace + [Push(hosts), RunChef(hosts, s.nodes)] + FailureLogs(hosts[..i], agent, n)
      invariant failedHosts == FailedHosts(hosts[..i], agent, n)
      invariant failed <==> failedHosts != []
    {
      FailureStep(hosts, i, agent, n);
      var result := agent(n, hosts[i]);
      if !result.succeeded {
        failed := true;
        failedHosts := failedHosts + [hosts[i]];
        store.Record(FailureLog(hosts[i], result.stdout));
      }
      i := i + 1;
    }
    assert hosts[..i] == hosts;
    if failed {
      return Some(RunFailed(failedHosts));
    }
    store.Record(Pull(hosts));
    err := None;
  }

  // ---------------------------------------------------------------------
  // Phases as plans of actions.

  /** One step of a phase: a change of run lists, a chef run, or a remote action. */
  datatype Action =
    | Clear(hosts: seq<string>)
    | Add(hosts: seq<string>, recipes: seq<string>)
    | ChefRun(hosts: seq<string>)
    | PlainRun(hosts: seq<string>)
    | Abort(error: DeployError)
    | Remote(step: Step)

  function Lift(e: Option<ChefError>): Option<DeployError> {
    if e.Some? then Some(NodeStoreError(e.value)) else None
  }

  /** What one action does to the store and the trace. `ChefRun` is `_run_chef_on_hosts`;
      `PlainRun` is a bare `execute(run_chef_client)`, which fabric aborts on any failure. */
  ghost function Perform(s: Run, a: Action, agent: Agent, discover: NodeHash): Run {
    match a
    case Clear(hosts) =>
      var b := ClearHosts(Batch(s.nodes, s.trace, None), hosts);
      Run(b.nodes, b.trace, Lift(b.error))
    case Add(hosts, recipes) =>
      var b := AddHosts(Batch(s.nodes, s.trace, None), hosts, hosts, recipes, discover, agent);
      Run(b.nodes, b.trace, Lift(b.error))
    case ChefRun(hosts) => Converge(s, hosts, agent)
    case PlainRun(hosts) =>
      var f := FailedHosts(hosts, agent, |s.trace|);
      Run(s.nodes, s.trace + [RunChef(hosts, s.nodes)], if f != [] then Some(RunFailed(f)) else None)
    case Abort(e) => s.(error := Some(e))
    case Remote(st) => s.(trace := s.trace + [st])
  }

  /** A plan's actions in order, up to the first error. */
  ghost function Exec(s: Run, plan: seq<Action>, agent: Agent, discover: NodeHash): Run
    decreases |plan|
  {
    if plan == [] || s.error.Some? then s
    else Exec(Perform(s, plan[0], agent, discover), plan[1..], agent, discover)
  }

  lemma {:induction false} ExecConcat(s: Run, p: seq<Action>, q: seq<Action>, agent: Agent, discover: NodeHash)
    ensures Exec(s, p + q, agent, discover) == Exec(Exec(s, p, agent, discover), q, agent, discover)
    decreases |p|
  {
    if p == [] {
      assert p + q == q;
    } else if s.error.Some? {
      assert Exec(s, q, agent, discover) == s;
    } else {
      assert (p + q)[1..] == p[1..] + q;
      ExecConcat(Perform(s, p[0], agent, discover), p[1..], q, agent, discover);
    }
  }

  lemma ExecStopped(s: Run, p: seq<Action>, q: seq<Action>, agent: Agent, discover: NodeHash)
    requires Exec(s, p, agent, discover).error.Some?
    ensures Exec(s, p + q, agent, discover) == Exec(s, p, agent, discover)
  {
    ExecConcat(s, p, q, agent, discover);
  }

  /** Running one more action of a plan. */
  lemma ExecSnoc(s: Run, done: seq<Action>, a: Action, agent: Agent, discover: NodeHash)
    ensures Exec(s, done + [a], agent, discover) ==
      (if Exec(s, done, agent, discover).error.Some? then Exec(s, done, agent, discover)
       else Perform(Exec(s, done, agent, discover), a, agent, discover))
  {
    ExecConcat(s, done, [a], agent, discover);
  }

  /** A plan of one action performs that action. */
  lemma ExecSingle(s: Run, a: Action, agent: Agent, discover: NodeHash)
    requires s.error.None?
    ensures Exec(s, [a], agent, discover) == Perform(s, a, agent, discover)
  {
    assert [a][1..] == [];
  }

  /** A phase that has failed on a prefix of its plan has failed on the whole plan. */
  lemma ExecPrefixStop(s: Run, done: seq<Action>, plan: seq<Action>, agent: Agent, discover: NodeHash)
    requires done <= plan && Exec(s, done, agent, discover).error.Some?
    ensures Exec(s, plan, agent, discover) == Exec(s, done, agent, discover)
  {
    assert plan == done + plan[|done|..];
    ExecStopped(s, done, plan[|done|..], agent, discover);
  }

  predicate HasAllRoles(roles: Roles) {
    forall r: Role :: r in roles
  }

  /** `order` lists every host of every role, each once: the source walks each role's
      host set, and walking a set visits each of its members exactly once. */
  predicate Enumerates(order: seq<string>, roles: Roles) {
    NoDup(order) && forall q, h :: q in roles && h in roles[q] ==> h in order
  }

  /** Under an order that enumerates the roles, a role's listing holds exactly the role's
      hosts, each once. */
  lemma RoleListing(order: seq<string>, roles: Roles, q: Role)
    requires Enumerates(order, roles) && q in roles
    ensures forall h :: h in Listing(order, roles[q]) <==> h in roles[q]
    ensures NoDup(Listing(order, roles[q]))
  {
  }

  /** A role's step: clear every host's run list if asked to, then give the role's hosts
      the role's recipes and run chef on them. A failed recipe lookup stops the phase
      after the clearing. */
  function Segment(clear: bool, all: seq<string>, hosts: seq<string>, recipes: Result<seq<string>, DeployError>): seq<Action> {
    (if clear then [Clear(all)] else [])
    + (match recipes
       case Failure(e) => [Abort(e)]
       case Success(rs) => [Add(hosts, rs), ChefRun(hosts)])
  }

  /** A role's step, taken only when the role has hosts. */
  function OptSegment(present: bool, clear: bool, all: seq<string>, hosts: seq<string>, recipes: Result<seq<string>, DeployError>): seq<Action> {
    if present then Segment(clear, all, hosts, recipes) else []
  }

  const MidolmanRecipes: seq<string> := ["midokura::midolman"]

  /** `bootstrap`: mon-bootstrap, riak-head, midolman, then clc, each only when its role
      has hosts; all but the midolman step clear every run list first. */
  function BootstrapPlan(roles: Roles, config: ChefConfig, order: seq<string>): seq<Action>
    requires HasAllRoles(roles)
  {
    var all := Listing(order, roles[All]);
    (OptSegment(roles[MonBootstrap] != {}, true, all, Listing(order, roles[MonBootstrap]), GetRecipeList(config, "mon-bootstrap"))
     + OptSegment(roles[RiakHead] != {}, true, all, Listing(order, roles[RiakHead]), GetRecipeList(config, "riak-head")))
    + (OptSegment(roles[Midolman] != {}, false, all, Listing(order, roles[Midolman]), Success(MidolmanRecipes))
       + OptSegment(roles[Clc] != {}, true, all, Listing(order, roles[Clc]), GetRecipeList(config, "clc")))
  }

  /** `prepare`: sync keys, clear every run list, then push, install chef, run and pull on
      every host, in that order. */
  function PreparePlan(roles: Roles, order: seq<string>): seq<Action>
    requires HasAllRoles(roles)
  {
    var all := Listing(order, roles[All]);
    [Remote(SyncKeys(all)), Clear(all), Remote(Push(all)), Remote(InstallChef(all)), PlainRun(all), Remote(Pull(all))]
  }

  const CloudKeys: seq<string> := ["cloud-cert.pem", "cloud-pk.pem", "euca.p12"]

  /** The first of `keys` missing from `present`. */
  function FirstMissing(keys: seq<string>, present: set<string>): (r: Option<string>)
    ensures r.None? <==> forall i :: 0 <= i < |keys| ==> keys[i] in present
    ensures r.Some? ==> r.value in keys && r.value !in present
  {
    if keys == [] then None
    else if keys[0] !in present then Some(keys[0])
    else
      assert forall i :: 1 <= i < |keys| ==> keys[i] == keys[1..][i - 1];
      FirstMissing(keys[1..], present)
  }

  /** `_pre_provision_check`: with clc hosts, the first clc node's `cloud-keys` (`None`
      when the key is absent) must hold the three bootstrap artifacts. */
  function PreProvisionCheck(clc: set<string>, cloudKeys: Option<set<string>>): (r: Option<DeployError>)
    ensures r.None? <==> clc == {} || (cloudKeys.Some? && forall i :: 0 <= i < |CloudKeys| ==> CloudKeys[i] in cloudKeys.value)
  {
    if clc == {} then None
    else if cloudKeys.None? then Some(NoCloudKeys)
    else match FirstMissing(CloudKeys, cloudKeys.value)
      case Some(k) => Some(CloudKeyMissing(k))
      case None => None
  }

  /** What the provision loop does for one config entry: `roles[name]` (a `KeyError` when
      the name is no role), then the recipes of the first entry with that name. */
  function EntryAction(e: RoleEntry, roles: Roles, config: ChefConfig, order: seq<string>): seq<Action>
    requires HasAllRoles(roles)
  {
    match RoleOf(e.component)
    case None => [Abort(UnknownRole(e.component))]
    case Some(r) =>
      match GetRecipeList(config, e.component)
      case Failure(err) => [Abort(err)]
      case Success(rs) => [Add(Listing(order, roles[r]), rs)]
  }

  function EntryActions(entries: seq<RoleEntry>, roles: Roles, config: ChefConfig, order: seq<string>): seq<Action>
    requires HasAllRoles(roles)
  {
    if entries == [] then []
    else EntryActions(entries[..|entries| - 1], roles, config, order) + EntryAction(entries[|entries| - 1], roles, config, order)
  }

  lemma {:induction false} EntryActionsPrefix(entries: seq<RoleEntry>, j: nat, roles: Roles, config: ChefConfig, order: seq<string>)
    requires HasAllRoles(roles) && j <= |entries|
    ensures EntryActions(entries[..j], roles, config, order) <= EntryActions(entries, roles, config, order)
    decreases |entries|
  {
    if j < |entries| {
      var init := entries[..|entries| - 1];
      assert init[..j] == entries[..j];
      EntryActionsPrefix(init, j, roles, config, order);
    } else {
      assert entries[..j] == entries;
    }
  }

  const RiakFinish: seq<string> := ["riakcs-cluster::plancommit", "riakcs-cluster::mergecreds"]
  const ClcFinish: seq<string> := ["eucalyptus::configure"]
  const MidoFinish: seq<string> := ["midokura::create-first-resources"]

  /** The finishing steps of `provision` for the clc: configure, then, in VPCMIDO mode,
      create the first midonet resources; a missing network mode stops the phase. */
  function ClcFinishPlan(roles: Roles, order: seq<string>, mode: Option<string>): seq<Action>
    requires HasAllRoles(roles)
  {
    var clc := Listing(order, roles[Clc]);
    var api := Listing(order, roles[MidonetApi]);
    [Add(clc, ClcFinish), ChefRun(clc)]
    + (if mode.None? then [Abort(NoNetworkMode)]
       else if mode.value == VpcMido then [Add(api, MidoFinish), ChefRun(api)]
       else [])
  }

  /** `provision`: the pre-provision check, then every run list cleared, every config
      entry's recipes given to its role's hosts, one run over all hosts, and the riak-head
      and clc finishing steps, each only when its role has hosts. */
  function ProvisionPlan(roles: Roles, config: ChefConfig, order: seq<string>, mode: Option<string>, cloudKeys: Option<set<string>>): seq<Action>
    requires HasAllRoles(roles)
  {
    var all := Listing(order, roles[All]);
    match PreProvisionCheck(roles[Clc], cloudKeys)
    case Some(e) => [Abort(e)]
    case None =>
      [Clear(all)] + EntryActions(config.roles, roles, config, order) + ProvisionTail(all, roles, order, mode)
  }

  /** What `provision` does after its loop: one run over all hosts, then the riak-head
      plan commit when there is a riak head, then the clc's finishing steps when there is
      a clc. */
  function ProvisionTail(all: seq<string>, roles: Roles, order: seq<string>, mode: Option<string>): seq<Action>
    requires HasAllRoles(roles)
  {
    var riak := Listing(order, roles[RiakHead]);
    [ChefRun(all)]
    + OptSegment(roles[RiakHead] != {}, false, riak, riak, Success(RiakFinish))
    + (if roles[Clc] != {} then ClcFinishPlan(roles, order, mode) else [])
  }

  /** An `add_to_run_list` taken only when `present`. */
  function OptAdd(present: bool, hosts: seq<string>, recipes: seq<string>): seq<Action> {
    if present then [Add(hosts, recipes)] else []
  }

  /** The nuke recipe given to every host for each role `uninstall` tears down, when
      that role has hosts: clc, riak-head, mon-bootstrap, then haproxy. */
  function NukePlan(all: seq<string>, roles: Roles): seq<Action>
    requires HasAllRoles(roles)
  {
    OptAdd(roles[Clc] != {}, all, ["eucalyptus::nuke"]) + OptAdd(roles[RiakHead] != {}, all, ["riakcs-cluster::nuke"])
    + (OptAdd(roles[MonBootstrap] != {}, all, ["ceph-cluster::nuke"]) + OptAdd(roles[Haproxy] != {}, all, ["haproxy::nuke"]))
  }

  /** `uninstall`: every run list cleared, the nuke recipes given to every host, one run
      over all hosts, and the local node records deleted. */
  function UninstallPlan(roles: Roles, order: seq<string>): seq<Action>
    requires HasAllRoles(roles)
  {
    var all := Listing(order, roles[All]);
    [Clear(all)] + NukePlan(all, roles) + [ChefRun(all), Remote(BulkDelete)]
  }

  lemma UninstallMembers(roles: Roles, order: seq<string>, a: Action)
    requires HasAllRoles(roles)
    ensures var all := Listing(order, roles[All]);
      a in UninstallPlan(roles, order) <==> a == Clear(all) || a == ChefRun(all) || a == Remote(BulkDelete) || a in NukePlan(all, roles)
  {
  }

  // ---------------------------------------------------------------------
  // The deployer object.

  lemma BetweenTrans(x: NodeHash, p: NodeHash, n0: NodeHash, discover: NodeHash)
    requires Between(x, p, discover) && Between(p, n0, discover)
    ensures Between(x, n0, discover)
  {
    DiscoveredBetween(p, n0, discover);
  }

  lemma StartBetween(n0: NodeHash, discover: NodeHash)
    ensures Between(n0, n0, discover)
  {
  }

  /** A deployment: the resolved roles, the chef config, the iteration order of its
      hosts, and the node store the phases work on. */
  class Chef {
    const roles: Roles
    const config: ChefConfig
    const order: seq<string>
    const store: NodeStore

    constructor (roles: Roles, config: ChefConfig, order: seq<string>, store: NodeStore)
      requires Enumerates(order, roles)
      ensures this.roles == roles && this.config == config && this.order == order && this.store == store
    {
      this.roles := roles;
      this.config := config;
      this.order := order;
      this.store := store;
    }

    /** `clear_run_list` as a phase step. */
    method DoClear(hosts: seq<string>, agent: Agent, discover: NodeHash, ghost n0: NodeHash) returns (err: Option<DeployError>)
      requires Between(store.nodeHash, n0, discover) && UniqueAddresses(Discovered(n0, discover))
      modifies store
      ensures Run(store.nodeHash, store.trace, err) == Perform(Run(old(store.nodeHash), old(store.trace), None), Clear(hosts), agent, discover)
      ensures Between(store.nodeHash, n0, discover)
    {
      ghost var b0 := Batch(store.nodeHash, store.trace, None);
      ExtendsUnique(store.nodeHash, Discovered(n0, discover));
      var e := store.ClearRunList(hosts);
      ClearHostsShape(b0, hosts);
      err := Lift(e);
    }

    /** `add_to_run_list` as a phase step. */
    method DoAdd(hosts: seq<string>, recipes: seq<string>, agent: Agent, discover: NodeHash, ghost n0: NodeHash) returns (err: Option<DeployError>)
      requires Between(store.nodeHash, n0, discover) && UniqueAddresses(Discovered(n0, discover))
      modifies store
      ensures Run(store.nodeHash, store.trace, err) == Perform(Run(old(store.nodeHash), old(store.trace), None), Add(hosts, recipes), agent, discover)
      ensures Between(store.nodeHash, n0, discover)
    {
      ghost var b0 := Batch(store.nodeHash, store.trace, None);
      DiscoveredBetween(store.nodeHash, n0, discover);
      ExtendsUnique(Discovered(store.nodeHash, discover), Discovered(n0, discover));
      var e := store.AddToRunList(hosts, recipes, discover, agent);
      AddHostsFacts(b0, hosts, hosts, recipes, discover, agent);
      BetweenTrans(store.nodeHash, b0.nodes, n0, discover);
      err := Lift(e);
    }

    /** `add_to_run_list` and then `_run_chef_on_hosts` on the same hosts. */
    method DoAddRun(hosts: seq<string>, recipes: seq<string>, agent: Agent, discover: NodeHash, ghost n0: NodeHash) returns (err: Option<DeployError>)
      requires Between(store.nodeHash, n0, discover) && UniqueAddresses(Discovered(n0, discover))
      modifies store
      ensures Run(store.nodeHash, store.trace, err) == Exec(Run(old(store.nodeHash), old(store.trace), None), [Add(hosts, recipes), ChefRun(hosts)], agent, discover)
      ensures Between(store.nodeHash, n0, discover)
    {
      ghost var s0 := Run(store.nodeHash, store.trace, None);
      ExecConcat(s0, [Add(hosts, recipes)], [ChefRun(hosts)], agent, discover);
      ExecSingle(s0, Add(hosts, recipes), agent, discover);
      err := DoAdd(hosts, recipes, agent, discover, n0);
      if err.Some? {
        return;
      }
      ExecSingle(Run(store.nodeHash, store.trace, None), ChefRun(hosts), agent, discover);
      err := RunChefOnHosts(store, hosts, agent);
    }

    /** A segment of a phase: optional clearing, then `add_to_run_list` and
        `_run_chef_on_hosts` on the same hosts. */
    method DoSegment(clear: bool, all: seq<string>, hosts: seq<string>, recipes: Result<seq<string>, DeployError>,
                     agent: Agent, discover: NodeHash, ghost n0: NodeHash) returns (err: Option<DeployError>)
      requires Between(store.nodeHash, n0, discover) && UniqueAddresses(Discovered(n0, discover))
      modifies store
      ensures Run(store.nodeHash, store.trace, err) == Exec(Run(old(store.nodeHash), old(store.trace), None), Segment(clear, all, hosts, recipes), agent, discover)
      ensures Between(store.nodeHash, n0, discover)
    {
      ghost var s0 := Run(store.nodeHash, store.trace, None);
      ghost var head: seq<Action> := if clear then [Clear(all)] else [];
      ghost var rest := Segment(false, all, hosts, recipes);
      assert Segment(clear, all, hosts, recipes) == head + rest;
      ExecConcat(s0, head, rest, agent, discover);
      if clear {
        ExecSingle(s0, Clear(all), agent, discover);
        err := DoClear(all, agent, discover, n0);
        if err.Some? {
          return;
        }
      }
      ghost var s1 := Run(store.nodeHash, store.trace, None);
      assert Exec(s0, head, agent, discover) == s1;
      if recipes.Failure? {
        err := Some(recipes.error);
        ExecSingle(s1, Abort(recipes.error), agent, discover);
        return;
      }
      assert rest == [Add(hosts, recipes.value), ChefRun(hosts)];
      err := DoAddRun(hosts, recipes.value, agent, discover, n0);
    }

    /** A role's step when `present`, nothing otherwise. */
    method DoOptSegment(present: bool, clear: bool, all: seq<string>, hosts: seq<string>, recipes: Result<seq<string>, DeployError>,
                        agent: Agent, discover: NodeHash, ghost n0: NodeHash) returns (err: Option<DeployError>)
      requires Between(store.nodeHash, n0, discover) && UniqueAddresses(Discovered(n0, discover))
      modifies store
      ensures Run(store.nodeHash, store.trace, err) == Exec(Run(old(store.nodeHash), old(store.trace), None), OptSegment(present, clear, all, hosts, recipes), agent, discover)
      ensures Between(store.nodeHash, n0, discover)
    {
      err := None;
      if present {
        err := DoSegment(clear, all, hosts, recipes, agent, discover, n0);
      }
    }

    /** Two role steps in a row. */
    method DoOptSegments(pr1: bool, c1: bool, h1: seq<string>, rec1: Result<seq<string>, DeployError>,
                         pr2: bool, c2: bool, h2: seq<string>, rec2: Result<seq<string>, DeployError>,
                         all: seq<string>, agent: Agent, discover: NodeHash, ghost n0: NodeHash) returns (err: Option<DeployError>)
      requires Between(store.nodeHash, n0, discover) && UniqueAddresses(Discovered(n0, discover))
      modifies store
      ensures Run(store.nodeHash, store.trace, err) ==
        Exec(Run(old(store.nodeHash), old(store.trace), None), OptSegment(pr1, c1, all, h1, rec1) + OptSegment(pr2, c2, all, h2, rec2), agent, discover)
      ensures Between(store.nodeHash, n0, discover)
    {
      ExecConcat(Run(store.nodeHash, store.trace, None), OptSegment(pr1, c1, all, h1, rec1), OptSegment(pr2, c2, all, h2, rec2), agent, discover);
      err := DoOptSegment(pr1, c1, all, h1, rec1, agent, discover, n0);
      if err.Some? {
        return;
      }
      err := DoOptSegment(pr2, c2, all, h2, rec2, agent, discover, n0);
    }

    /** `bootstrap`. */
    method Bootstrap(agent: Agent, discover: NodeHash) returns (err: Option<DeployError>)
      requires HasAllRoles(roles) && UniqueAddresses(Discovered(store.nodeHash, discover))
      modifies store
      ensures Run(store.nodeHash, store.trace, err) == Exec(Run(old(store.nodeHash), old(store.trace), None), BootstrapPlan(roles, config, order), agent, discover)
    {
      ghost var n0 := store.nodeHash;
      StartBetween(n0, discover);
      var all := Listing(order, roles[All]);
      ghost var q1 := OptSegment(roles[MonBootstrap] != {}, true, all, Listing(order, roles[MonBootstrap]), GetRecipeList(config, "mon-bootstrap"))
        + OptSegment(roles[RiakHead] != {}, true, all, Listing(order, roles[RiakHead]), GetRecipeList(config, "riak-head"));
      ghost var q2 := OptSegment(roles[Midolman] != {}, false, all, Listing(order, roles[Midolman]), Success(MidolmanRecipes))
        + OptSegment(roles[Clc] != {}, true, all, Listing(order, roles[Clc]), GetRecipeList(config, "clc"));
      ExecConcat(Run(store.nodeHash, store.trace, None), q1, q2, agent, discover);
      err := DoOptSegments(roles[MonBootstrap] != {}, true, Listing(order, roles[MonBootstrap]), GetRecipeList(config, "mon-bootstrap"),
                           roles[RiakHead] != {}, true, Listing(order, roles[RiakHead]), GetRecipeList(config, "riak-head"),
                           all, agent, discover, n0);
      if err.Some? {
        return;
      }
      err := DoOptSegments(roles[Midolman] != {}, false, Listing(order, roles[Midolman]), Success(MidolmanRecipes),
                           roles[Clc] != {}, true, Listing(order, roles[Clc]), GetRecipeList(config, "clc"),
                           all, agent, discover, n0);
    }

    /** `_run_chef_on_hosts` as a phase step. */
    method DoRun(hosts: seq<string>, agent: Agent, discover: NodeHash) returns (err: Option<DeployError>)
      modifies store
      ensures Run(store.nodeHash, store.trace, err) == Perform(Run(old(store.nodeHash), old(store.trace), None), ChefRun(hosts), agent, discover)
      ensures store.nodeHash == old(store.nodeHash)
    {
      err := RunChefOnHosts(store, hosts, agent);
    }

    /** A bare `execute(run_chef_client)`: the run is recorded, and a failure on any host
        makes fabric abort. */
    method DoPlainRun(hosts: seq<string>, agent: Agent, discover: NodeHash) returns (err: Option<DeployError>)
      modifies store
      ensures Run(store.nodeHash, store.trace, err) == Perform(Run(old(store.nodeHash), old(store.trace), None), PlainRun(hosts), agent, discover)
      ensures store.nodeHash == old(store.nodeHash)
    {
      var n := |store.trace|;
      store.Record(RunChef(hosts, store.nodeHash));
      var failed := FailedHosts(hosts, agent, n);
      err := if failed != [] then Some(RunFailed(failed)) else None;
    }

    /** A remote action recorded as a phase step. */
    method DoRemote(step: Step, agent: Agent, discover: NodeHash)
      modifies store
      ensures Run(store.nodeHash, store.trace, None) == Perform(Run(old(store.nodeHash), old(store.trace), None), Remote(step), agent, discover)
    {
      store.Record(step);
    }

    /** The remote part of `prepare`: push, install chef, run and pull, on `all`. */
    method PrepareHosts(all: seq<string>, agent: Agent, discover: NodeHash) returns (err: Option<DeployError>)
      modifies store
      ensures Run(store.nodeHash, store.trace, err) ==
        Exec(Run(old(store.nodeHash), old(store.trace), None), [Remote(Push(all)), Remote(InstallChef(all)), PlainRun(all), Remote(Pull(all))], agent, discover)
    {
      ghost var s0 := Run(store.nodeHash, store.trace, None);
      ghost var a1, a2, a3, a4 := Remote(Push(all)), Remote(InstallChef(all)), PlainRun(all), Remote(Pull(all));
      DoRemote(Push(all), agent, discover);
      ghost var s1 := Run(store.nodeHash, store.trace, None);
      DoRemote(InstallChef(all), agent, discover);
      ghost var s2 := Run(store.nodeHash, store.trace, None);
      err := DoPlainRun(all, agent, discover);
      ghost var s3 := Run(store.nodeHash, store.trace, err);
      if err.None? {
        DoRemote(Pull(all), agent, discover);
        assert Exec(s3, [a4], agent, discover) == Run(store.nodeHash, store.trace, err);
      }
      assert Exec(s2, [a3, a4], agent, discover) == Exec(s3, [a4], agent, discover);
      assert Exec(s1, [a2, a3, a4], agent, discover) == Exec(s2, [a3, a4], agent, discover);
      assert Exec(s0, [a1, a2, a3, a4], agent, discover) == Exec(s1, [a2, a3, a4], agent, discover);
    }

    /** `prepare`. */
    method Prepare(agent: Agent, discover: NodeHash) returns (err: Option<DeployError>)
      requires HasAllRoles(roles) && UniqueAddresses(Discovered(store.nodeHash, discover))
      modifies store
      ensures Run(store.nodeHash, store.trace, err) == Exec(Run(old(store.nodeHash), old(store.trace), None), PreparePlan(roles, order), agent, discover)
    {
      ghost var n0 := store.nodeHash;
      ghost var s0 := Run(store.nodeHash, store.trace, None);
      StartBetween(n0, discover);
      var all := Listing(order, roles[All]);
      ghost var head := [Remote(SyncKeys(all)), Clear(all)];
      ghost var rest := [Remote(Push(all)), Remote(InstallChef(all)), PlainRun(all), Remote(Pull(all))];
      assert PreparePlan(roles, order) == head + rest;
      ExecConcat(s0, head, rest, agent, discover);
      DoRemote(SyncKeys(all), agent, discover);
      ghost var s1 := Run(store.nodeHash, store.trace, None);
      err := DoClear(all, agent, discover, n0);
      assert Exec(s1, [Clear(all)], agent, discover) == Run(store.nodeHash, store.trace, err);
      assert Exec(s0, head, agent, discover) == Exec(s1, [Clear(all)], agent, discover);
      if err.Some? {
        return;
      }
      err := PrepareHosts(all, agent, discover);
    }
  
    /** One pass of the `provision` loop: the entry's role hosts get the entry's recipes. */
    method DoEntry(e: RoleEntry, agent: Agent, discover: NodeHash, ghost n0: NodeHash) returns (err: Option<DeployError>)
      requires HasAllRoles(roles)
      requires Between(store.nodeHash, n0, discover) && UniqueAddresses(Discovered(n0, discover))
      modifies store
      ensures Run(store.nodeHash, store.trace, err) == Exec(Run(old(store.nodeHash), old(store.trace), None), EntryAction(e, roles, config, order), agent, discover)
      ensures Between(store.nodeHash, n0, discover)
    {
      ghost var s0 := Run(store.nodeHash, store.trace, None);
      var r := RoleOf(e.component);
      if r.None? {
        err := Some(UnknownRole(e.component));
        assert Exec(s0, [Abort(UnknownRole(e.component))], agent, discover) == Exec(s0.(error := err), [], agent, discover);
        return;
      }
      var recipes := GetRecipeList(config, e.component);
      if recipes.Failure? {
        err := Some(recipes.error);
        assert Exec(s0, [Abort(recipes.error)], agent, discover) == Exec(s0.(error := err), [], agent, discover);
        return;
      }
      var hosts := Listing(order, roles[r.value]);
      err := DoAdd(hosts, recipes.value, agent, discover, n0);
      assert Exec(s0, [Add(hosts, recipes.value)], agent, discover) == Exec(Run(store.nodeHash, store.trace, err), [], agent, discover);
    }

    /** Entry `i` of the loop, after the first `i` entries ran without an error. */
    method DoEntryAt(ghost s0: Run, entries: seq<RoleEntry>, i: nat, agent: Agent, discover: NodeHash, ghost n0: NodeHash) returns (err: Option<DeployError>)
      requires HasAllRoles(roles) && i < |entries|
      requires Between(store.nodeHash, n0, discover) && UniqueAddresses(Discovered(n0, discover))
      requires Run(store.nodeHash, store.trace, None) == Exec(s0, EntryActions(entries[..i], roles, config, order), agent, discover)
      modifies store
      ensures Run(store.nodeHash, store.trace, err) == Exec(s0, EntryActions(entries[..i + 1], roles, config, order), agent, discover)
      ensures err.Some? ==> Run(store.nodeHash, store.trace, err) == Exec(s0, EntryActions(entries, roles, config, order), agent, discover)
      ensures Between(store.nodeHash, n0, discover)
    {
      EntryStep(s0, entries, i, roles, config, order, agent, discover);
      err := DoEntry(entries[i], agent, discover, n0);
      if err.Some? {
        EntryStop(s0, entries, i + 1, roles, config, order, agent, discover);
      }
    }

    /** The loop of `provision` over the config entries. */
    method ProvisionEntries(agent: Agent, discover: NodeHash, ghost n0: NodeHash) returns (err: Option<DeployError>)
      requires HasAllRoles(roles)
      requires Between(store.nodeHash, n0, discover) && UniqueAddresses(Discovered(n0, discover))
      modifies store
      ensures Run(store.nodeHash, store.trace, err) == Exec(Run(old(store.nodeHash), old(store.trace), None), EntryActions(config.roles, roles, config, order), agent, discover)
      ensures Between(store.nodeHash, n0, discover)
    {
      ghost var s0 := Run(store.nodeHash, store.trace, None);
      var entries := config.roles;
      var i := 0;
      while i < |entries|
        invariant 0 <= i <= |entries|
        invariant Run(store.nodeHash, store.trace, None) == Exec(s0, EntryActions(entries[..i], roles, config, order), agent, discover)
        invariant Between(store.nodeHash, n0, discover)
      {
        err := DoEntryAt(s0, entries, i, agent, discover, n0);
        if err.Some? {
          return;
        }
        i := i + 1;
      }
      assert entries[..i] == entries;
      err := None;
    }

    /** `[Clear(all)]` and the `provision` loop. */
    method ProvisionSetup(all: seq<string>, agent: Agent, discover: NodeHash, ghost n0: NodeHash) returns (err: Option<DeployError>)
      requires HasAllRoles(roles)
      requires Between(store.nodeHash, n0, discover) && UniqueAddresses(Discovered(n0, discover))
      modifies store
      ensures Run(store.nodeHash, store.trace, err) == Exec(Run(old(store.nodeHash), old(store.trace), None), [Clear(all)] + EntryActions(config.roles, roles, config, order), agent, discover)
      ensures Between(store.nodeHash, n0, discover)
    {
      ghost var s0 := Run(store.nodeHash, store.trace, None);
      ghost var rest := EntryActions(config.roles, roles, config, order);
      err := DoClear(all, agent, discover, n0);
      ghost var s1 := Run(store.nodeHash, store.trace, err);
      assert Exec(s0, [Clear(all)], agent, discover) == s1;
      ExecConcat(s0, [Clear(all)], rest, agent, discover);
      if err.Some? {
        return;
      }
      err := ProvisionEntries(agent, discover, n0);
    }

    /** The clc's finishing steps of `provision`. */
    method DoClcFinish(mode: Option<string>, agent: Agent, discover: NodeHash, ghost n0: NodeHash) returns (err: Option<DeployError>)
      requires HasAllRoles(roles)
      requires Between(store.nodeHash, n0, discover) && UniqueAddresses(Discovered(n0, discover))
      modifies store
      ensures Run(store.nodeHash, store.trace, err) == Exec(Run(old(store.nodeHash), old(store.trace), None), ClcFinishPlan(roles, order, mode), agent, discover)
      ensures Between(store.nodeHash, n0, discover)
    {
      ghost var s0 := Run(store.nodeHash, store.trace, None);
      var clc := Listing(order, roles[Clc]);
      var api := Listing(order, roles[MidonetApi]);
      ghost var head := Segment(false, clc, clc, Success(ClcFinish));
      ghost var tail := if mode.None? then [Abort(NoNetworkMode)] else if mode.value == VpcMido then Segment(false, api, api, Success(MidoFinish)) else [];
      assert ClcFinishPlan(roles, order, mode) == head + tail;
      ExecConcat(s0, head, tail, agent, discover);
      err := DoSegment(false, clc, clc, Success(ClcFinish), agent, discover, n0);
      if err.Some? {
        return;
      }
      ghost var s1 := Run(store.nodeHash, store.trace, None);
      if mode.None? {
        err := Some(NoNetworkMode);
        assert Exec(s1, tail, agent, discover) == Exec(s1.(error := err), [], agent, discover);
      } else if mode.value == VpcMido {
        err := DoSegment(false, api, api, Success(MidoFinish), agent, discover, n0);
      }
    }

    /** The riak-head and clc finishing steps of `provision`. */
    method ProvisionFinishRoles(mode: Option<string>, agent: Agent, discover: NodeHash, ghost n0: NodeHash) returns (err: Option<DeployError>)
      requires HasAllRoles(roles)
      requires Between(store.nodeHash, n0, discover) && UniqueAddresses(Discovered(n0, discover))
      modifies store
      ensures Run(store.nodeHash, store.trace, err) == Exec(Run(old(store.nodeHash), old(store.trace), None),
        OptSegment(roles[RiakHead] != {}, false, Listing(order, roles[RiakHead]), Listing(order, roles[RiakHead]), Success(RiakFinish))
        + (if roles[Clc] != {} then ClcFinishPlan(roles, order, mode) else []), agent, discover)
    {
      ghost var s0 := Run(store.nodeHash, store.trace, None);
      var riak := Listing(order, roles[RiakHead]);
      ghost var p2 := OptSegment(roles[RiakHead] != {}, false, riak, riak, Success(RiakFinish));
      ghost var p3 := if roles[Clc] != {} then ClcFinishPlan(roles, order, mode) else [];
      ExecConcat(s0, p2, p3, agent, discover);
      err := DoOptSegment(roles[RiakHead] != {}, false, riak, riak, Success(RiakFinish), agent, discover, n0);
      if err.Some? {
        return;
      }
      if roles[Clc] != {} {
        err := DoClcFinish(mode, agent, discover, n0);
      }
    }

    /** One run over all hosts, then the finishing steps of `provision`. */
    method ProvisionFinish(all: seq<string>, mode: Option<string>, agent: Agent, discover: NodeHash, ghost n0: NodeHash) returns (err: Option<DeployError>)
      requires HasAllRoles(roles)
      requires Between(store.nodeHash, n0, discover) && UniqueAddresses(Discovered(n0, discover))
      modifies store
      ensures Run(store.nodeHash, store.trace, err) == Exec(Run(old(store.nodeHash), old(store.trace), None), ProvisionTail(all, roles, order, mode), agent, discover)
    {
      ghost var s0 := Run(store.nodeHash, store.trace, None);
      ghost var riak := Listing(order, roles[RiakHead]);
      ghost var rest := OptSegment(roles[RiakHead] != {}, false, riak, riak, Success(RiakFinish))
        + (if roles[Clc] != {} then ClcFinishPlan(roles, order, mode) else []);
      assert ProvisionTail(all, roles, order, mode) == [ChefRun(all)] + rest;
      ExecConcat(s0, [ChefRun(all)], rest, agent, discover);
      ExecSingle(s0, ChefRun(all), agent, discover);
      err := DoRun(all, agent, discover);
      if err.Some? {
        return;
      }
      err := ProvisionFinishRoles(mode, agent, discover, n0);
    }

    /** `provision`. */
    method Provision(mode: Option<string>, cloudKeys: Option<set<string>>, agent: Agent, discover: NodeHash) returns (err: Option<DeployError>)
      requires HasAllRoles(roles) && UniqueAddresses(Discovered(store.nodeHash, discover))
      modifies store
      ensures Run(store.nodeHash, store.trace, err) == Exec(Run(old(store.nodeHash), old(store.trace), None), ProvisionPlan(roles, config, order, mode, cloudKeys), agent, discover)
    {
      ghost var n0 := store.nodeHash;
      ghost var s0 := Run(store.nodeHash, store.trace, None);
      StartBetween(n0, discover);
      err := PreProvisionCheck(roles[Clc], cloudKeys);
      if err.Some? {
        assert Exec(s0, [Abort(err.value)], agent, discover) == Exec(s0.(error := err), [], agent, discover);
        return;
      }
      var all := Listing(order, roles[All]);
      ghost var head := [Clear(all)] + EntryActions(config.roles, roles, config, order);
      ghost var tail := ProvisionTail(all, roles, order, mode);
      assert ProvisionPlan(roles, config, order, mode, cloudKeys) == head + tail;
      ExecConcat(s0, head, tail, agent, discover);
      err := ProvisionSetup(all, agent, discover, n0);
      if err.Some? {
        return;
      }
      err := ProvisionFinish(all, mode, agent, discover, n0);
    }

    /** An `add_to_run_list` taken only when `present`. */
    method DoOptAdd(present: bool, hosts: seq<string>, recipes: seq<string>, agent: Agent, discover: NodeHash, ghost n0: NodeHash) returns (err: Option<DeployError>)
      requires Between(store.nodeHash, n0, discover) && UniqueAddresses(Discovered(n0, discover))
      modifies store
      ensures Run(store.nodeHash, store.trace, err) == Exec(Run(old(store.nodeHash), old(store.trace), None), OptAdd(present, hosts, recipes), agent, discover)
      ensures Between(store.nodeHash, n0, discover)
    {
      err := None;
      if present {
        ExecSingle(Run(store.nodeHash, store.trace, None), Add(hosts, recipes), agent, discover);
        err := DoAdd(hosts, recipes, agent, discover, n0);
      }
    }

    /** Two optional `add_to_run_list` calls in a row. */
    method DoOptAdds(p1: bool, r1: seq<string>, p2: bool, r2: seq<string>, hosts: seq<string>, agent: Agent, discover: NodeHash, ghost n0: NodeHash) returns (err: Option<DeployError>)
      requires Between(store.nodeHash, n0, discover) && UniqueAddresses(Discovered(n0, discover))
      modifies store
      ensures Run(store.nodeHash, store.trace, err) == Exec(Run(old(store.nodeHash), old(store.trace), None), OptAdd(p1, hosts, r1) + OptAdd(p2, hosts, r2), agent, discover)
      ensures Between(store.nodeHash, n0, discover)
    {
      ExecConcat(Run(store.nodeHash, store.trace, None), OptAdd(p1, hosts, r1), OptAdd(p2, hosts, r2), agent, discover);
      err := DoOptAdd(p1, hosts, r1, agent, discover, n0);
      if err.Some? {
        return;
      }
      err := DoOptAdd(p2, hosts, r2, agent, discover, n0);
    }

    /** The nuke part of `uninstall`. */
    method DoNuke(all: seq<string>, agent: Agent, discover: NodeHash, ghost n0: NodeHash) returns (err: Option<DeployError>)
      requires HasAllRoles(roles)
      requires Between(store.nodeHash, n0, discover) && UniqueAddresses(Discovered(n0, discover))
      modifies store
      ensures Run(store.nodeHash, store.trace, err) == Exec(Run(old(store.nodeHash), old(store.trace), None), NukePlan(all, roles), agent, discover)
      ensures Between(store.nodeHash, n0, discover)
    {
      ghost var q1 := OptAdd(roles[Clc] != {}, all, ["eucalyptus::nuke"]) + OptAdd(roles[RiakHead] != {}, all, ["riakcs-cluster::nuke"]);
      ghost var q2 := OptAdd(roles[MonBootstrap] != {}, all, ["ceph-cluster::nuke"]) + OptAdd(roles[Haproxy] != {}, all, ["haproxy::nuke"]);
      ExecConcat(Run(store.nodeHash, store.trace, None), q1, q2, agent, discover);
      err := DoOptAdds(roles[Clc] != {}, ["eucalyptus::nuke"], roles[RiakHead] != {}, ["riakcs-cluster::nuke"], all, agent, discover, n0);
      if err.Some? {
        return;
      }
      err := DoOptAdds(roles[MonBootstrap] != {}, ["ceph-cluster::nuke"], roles[Haproxy] != {}, ["haproxy::nuke"], all, agent, discover, n0);
    }

    /** The run over all hosts and the local `knife node bulk delete` that end `uninstall`. */
    method UninstallFinish(all: seq<string>, agent: Agent, discover: NodeHash) returns (err: Option<DeployError>)
      modifies store
      ensures Run(store.nodeHash, store.trace, err) == Exec(Run(old(store.nodeHash), old(store.trace), None), [ChefRun(all), Remote(BulkDelete)], agent, discover)
    {
      ghost var s0 := Run(store.nodeHash, store.trace, None);
      ExecConcat(s0, [ChefRun(all)], [Remote(BulkDelete)], agent, discover);
      ExecSingle(s0, ChefRun(all), agent, discover);
      err := DoRun(all, agent, discover);
      if err.Some? {
        return;
      }
      ExecSingle(Run(store.nodeHash, store.trace, None), Remote(BulkDelete), agent, discover);
      DoRemote(BulkDelete, agent, discover);
    }

    /** `uninstall`. */
    method Uninstall(agent: Agent, discover: NodeHash) returns (err: Option<DeployError>)
      requires HasAllRoles(roles) && UniqueAddresses(Discovered(store.nodeHash, discover))
      modifies store
      ensures Run(store.nodeHash, store.trace, err) == Exec(Run(old(store.nodeHash), old(store.trace), None), UninstallPlan(roles, order), agent, discover)
    {
      ghost var n0 := store.nodeHash;
      ghost var s0 := Run(store.nodeHash, store.trace, None);
      StartBetween(n0, discover);
      var all := Listing(order, roles[All]);
      ghost var nuke := NukePlan(all, roles);
      ghost var tail := [ChefRun(all), Remote(BulkDelete)];
      assert UninstallPlan(roles, order) == [Clear(all)] + (nuke + tail);
      ExecConcat(s0, [Clear(all)], nuke + tail, agent, discover);
      ExecSingle(s0, Clear(all), agent, discover);
      err := DoClear(all, agent, discover, n0);
      if err.Some? {
        return;
      }
      ExecConcat(Run(store.nodeHash, store.trace, None), nuke, tail, agent, discover);
      err := DoNuke(all, agent, discover, n0);
      if err.Some? {
        return;
      }
      err := UninstallFinish(all, agent, discover);
    }
  }

  /** One more pass of the `provision` loop runs one more entry's actions. */
  lemma EntryStep(s0: Run, entries: seq<RoleEntry>, i: nat, roles: Roles, config: ChefConfig, order: seq<string>, agent: Agent, discover: NodeHash)
    requires HasAllRoles(roles) && i < |entries|
    ensures Exec(s0, EntryActions(entries[..i + 1], roles, config, order), agent, discover) ==
      Exec(Exec(s0, EntryActions(entries[..i], roles, config, order), agent, discover), EntryAction(entries[i], roles, config, order), agent, discover)
  {
    assert entries[..i + 1][..i] == entries[..i];
    ExecConcat(s0, EntryActions(entries[..i], roles, config, order), EntryAction(entries[i], roles, config, order), agent, discover);
  }

  /** An error in the first `j` entries ends the whole loop. */
  lemma EntryStop(s0: Run, entries: seq<RoleEntry>, j: nat, roles: Roles, config: ChefConfig, order: seq<string>, agent: Agent, discover: NodeHash)
    requires HasAllRoles(roles) && j <= |entries|
    requires Exec(s0, EntryActions(entries[..j], roles, config, order), agent, discover).error.Some?
    ensures Exec(s0, EntryActions(entries, roles, config, order), agent, discover) == Exec(s0, EntryActions(entries[..j], roles, config, order), agent, discover)
  {
    EntryActionsPrefix(entries, j, roles, config, order);
    ExecPrefixStop(s0, EntryActions(entries[..j], roles, config, order), EntryActions(entries, roles, config, order), agent, discover);
  }

  // ---------------------------------------------------------------------
  // Properties of the phases.

  /** A phase only appends to the remote actions. */
  lemma PerformTrace(s: Run, a: Action, agent: Agent, discover: NodeHash)
    ensures s.trace <= Perform(s, a, agent, discover).trace
  {
    match a
    case Clear(hosts) => ClearHostsShape(Batch(s.nodes, s.trace, None), hosts);
    case Add(hosts, recipes) => AddHostsTrace(Batch(s.nodes, s.trace, None), hosts, hosts, recipes, discover, agent);
    case ChefRun(hosts) => ConvergeFacts(s, hosts, agent);
    case PlainRun(hosts) =>
    case Abort(e) =>
    case Remote(st) =>
  }

  lemma {:induction false} ExecTrace(s: Run, plan: seq<Action>, agent: Agent, discover: NodeHash)
    ensures s.trace <= Exec(s, plan, agent, discover).trace
    decreases |plan|
  {
    if plan != [] && s.error.None? {
      PerformTrace(s, plan[0], agent, discover);
      ExecTrace(Perform(s, plan[0], agent, discover), plan[1..], agent, discover);
    }
  }

  /** The config entry `e` has been applied to `nodes`: its component names a role, its
      recipes resolve, and every host of the role resolves to a node whose run list holds
      all of them. */
  ghost predicate EntryApplied(nodes: NodeHash, e: RoleEntry, roles: Roles, config: ChefConfig, order: seq<string>)
    requires HasAllRoles(roles)
  {
    && RoleOf(e.component).Some?
    && GetRecipeList(config, e.component).Success?
    && forall h :: h in roles[RoleOf(e.component).value] ==> Contains(nodes, h, GetRecipeList(config, e.component).value)
  }

  /** Giving more recipes to some hosts keeps every applied entry applied. */
  lemma AddKeepsApplied(p: Run, hosts: seq<string>, rs: seq<string>, agent: Agent, discover: NodeHash, n0: NodeHash,
                        e0: RoleEntry, roles: Roles, config: ChefConfig, order: seq<string>)
    requires HasAllRoles(roles)
    requires p.error.None? && Between(p.nodes, n0, discover) && UniqueAddresses(Discovered(n0, discover))
    requires EntryApplied(p.nodes, e0, roles, config, order)
    ensures EntryApplied(Perform(p, Add(hosts, rs), agent, discover).nodes, e0, roles, config, order)
  {
    var b := Batch(p.nodes, p.trace, None);
    var rec0 := GetRecipeList(config, e0.component).value;
    forall h | h in roles[RoleOf(e0.component).value]
      ensures Contains(AddHosts(b, hosts, hosts, rs, discover, agent).nodes, h, rec0)
    {
      AddHostsKeepsOthers(b, hosts, hosts, rs, discover, agent, n0, h, rec0);
    }
  }

  /** A successful `add_to_run_list` applies the entry whose recipes it gave. */
  lemma AddApplies(p: Run, e: RoleEntry, agent: Agent, discover: NodeHash, n0: NodeHash, roles: Roles, config: ChefConfig, order: seq<string>)
    requires Enumerates(order, roles)
    requires HasAllRoles(roles) && RoleOf(e.component).Some? && GetRecipeList(config, e.component).Success?
    requires p.error.None? && Between(p.nodes, n0, discover) && UniqueAddresses(Discovered(n0, discover))
    ensures var hosts := Listing(order, roles[RoleOf(e.component).value]);
      var r := Perform(p, Add(hosts, GetRecipeList(config, e.component).value), agent, discover);
      && Between(r.nodes, n0, discover)
      && (r.error.None? ==> EntryApplied(r.nodes, e, roles, config, order))
  {
    var hosts := Listing(order, roles[RoleOf(e.component).value]);
    var rs := GetRecipeList(config, e.component).value;
    var b := Batch(p.nodes, p.trace, None);
    DiscoveredBetween(p.nodes, n0, discover);
    ExtendsUnique(Discovered(p.nodes, discover), Discovered(n0, discover));
    AddHostsFacts(b, hosts, hosts, rs, discover, agent);
    BetweenTrans(AddHosts(b, hosts, hosts, rs, discover, agent).nodes, p.nodes, n0, discover);
    var r := AddHosts(b, hosts, hosts, rs, discover, agent);
    if r.error.None? {
      RoleListing(order, roles, RoleOf(e.component).value);
      forall h | h in roles[RoleOf(e.component).value] ensures Contains(r.nodes, h, rs) {
        var i :| 0 <= i < |hosts| && hosts[i] == h;
        HoldsContains(r.nodes, hosts[i], rs);
      }
    }
  }

  /** Every entry of `entries` has been applied to `nodes`. */
  ghost predicate AllApplied(nodes: NodeHash, entries: seq<RoleEntry>, roles: Roles, config: ChefConfig, order: seq<string>)
    requires HasAllRoles(roles)
  {
    forall i :: 0 <= i < |entries| ==> EntryApplied(nodes, entries[i], roles, config, order)
  }

  lemma AllAppliedSnoc(nodes: NodeHash, entries: seq<RoleEntry>, roles: Roles, config: ChefConfig, order: seq<string>)
    requires HasAllRoles(roles) && entries != []
    requires AllApplied(nodes, entries[..|entries| - 1], roles, config, order)
    requires EntryApplied(nodes, entries[|entries| - 1], roles, config, order)
    ensures AllApplied(nodes, entries, roles, config, order)
  {
    forall i | 0 <= i < |entries| - 1 ensures EntryApplied(nodes, entries[i], roles, config, order) {
      assert entries[i] == entries[..|entries| - 1][i];
    }
  }

  /** Giving more recipes to some hosts keeps every applied entry applied. */
  lemma AddKeepsAllApplied(p: Run, hosts: seq<string>, rs: seq<string>, agent: Agent, discover: NodeHash, n0: NodeHash,
                           done: seq<RoleEntry>, roles: Roles, config: ChefConfig, order: seq<string>)
    requires HasAllRoles(roles)
    requires p.error.None? && Between(p.nodes, n0, discover) && UniqueAddresses(Discovered(n0, discover))
    requires AllApplied(p.nodes, done, roles, config, order)
    ensures AllApplied(Perform(p, Add(hosts, rs), agent, discover).nodes, done, roles, config, order)
  {
    forall i | 0 <= i < |done| ensures EntryApplied(Perform(p, Add(hosts, rs), agent, discover).nodes, done[i], roles, config, order) {
      AddKeepsApplied(p, hosts, rs, agent, discover, n0, done[i], roles, config, order);
    }
  }

  /** One entry of the `provision` loop keeps the earlier entries applied and applies its own. */
  lemma EntryKeepsApplied(p: Run, entries: seq<RoleEntry>, agent: Agent, discover: NodeHash, n0: NodeHash, roles: Roles, config: ChefConfig, order: seq<string>)
    requires Enumerates(order, roles)
    requires HasAllRoles(roles) && entries != []
    requires p.error.None? && Between(p.nodes, n0, discover) && UniqueAddresses(Discovered(n0, discover))
    requires AllApplied(p.nodes, entries[..|entries| - 1], roles, config, order)
    ensures var r := Exec(p, EntryAction(entries[|entries| - 1], roles, config, order), agent, discover);
      r.error.None? ==> Between(r.nodes, n0, discover) && AllApplied(r.nodes, entries, roles, config, order)
  {
    var e := entries[|entries| - 1];
    if RoleOf(e.component).Some? && GetRecipeList(config, e.component).Success? {
      var hosts := Listing(order, roles[RoleOf(e.component).value]);
      var rs := GetRecipeList(config, e.component).value;
      ExecSingle(p, Add(hosts, rs), agent, discover);
      AddApplies(p, e, agent, discover, n0, roles, config, order);
      AddKeepsAllApplied(p, hosts, rs, agent, discover, n0, entries[..|entries| - 1], roles, config, order);
      var r := Perform(p, Add(hosts, rs), agent, discover);
      if r.error.None? {
        AllAppliedSnoc(r.nodes, entries, roles, config, order);
      }
    } else if RoleOf(e.component).None? {
      ExecSingle(p, Abort(UnknownRole(e.component)), agent, discover);
    } else {
      ExecSingle(p, Abort(GetRecipeList(config, e.component).error), agent, discover);
    }
  }

  /** After the `provision` loop, every config entry has been applied. */
  lemma {:induction false} EntriesApplied(s0: Run, entries: seq<RoleEntry>, agent: Agent, discover: NodeHash, n0: NodeHash, roles: Roles, config: ChefConfig, order: seq<string>)
    requires Enumerates(order, roles)
    requires HasAllRoles(roles)
    requires s0.error.None? && Between(s0.nodes, n0, discover) && UniqueAddresses(Discovered(n0, discover))
    ensures var r := Exec(s0, EntryActions(entries, roles, config, order), agent, discover);
      r.error.None? ==> Between(r.nodes, n0, discover) && AllApplied(r.nodes, entries, roles, config, order)
  {
    if entries != [] {
      var init := entries[..|entries| - 1];
      EntriesApplied(s0, init, agent, discover, n0, roles, config, order);
      ExecConcat(s0, EntryActions(init, roles, config, order), EntryAction(entries[|entries| - 1], roles, config, order), agent, discover);
      var p := Exec(s0, EntryActions(init, roles, config, order), agent, discover);
      if p.error.None? {
        EntryKeepsApplied(p, entries, agent, discover, n0, roles, config, order);
      }
    }
  }

  /** The clearing and the loop of `provision` apply every config entry. */
  lemma ProvisionSetupApplied(s0: Run, all: seq<string>, agent: Agent, discover: NodeHash, roles: Roles, config: ChefConfig, order: seq<string>)
    requires Enumerates(order, roles)
    requires HasAllRoles(roles)
    requires s0.error.None? && UniqueAddresses(Discovered(s0.nodes, discover))
    ensures var mid := Exec(s0, [Clear(all)] + EntryActions(config.roles, roles, config, order), agent, discover);
      mid.error.None? ==> AllApplied(mid.nodes, config.roles, roles, config, order)
  {
    var entries := EntryActions(config.roles, roles, config, order);
    ExecConcat(s0, [Clear(all)], entries, agent, discover);
    ExecSingle(s0, Clear(all), agent, discover);
    var c := Perform(s0, Clear(all), agent, discover);
    if c.error.None? {
      StartBetween(s0.nodes, discover);
      ClearHostsBetween(Batch(s0.nodes, s0.trace, None), all, s0.nodes, discover);
      EntriesApplied(c, config.roles, agent, discover, s0.nodes, roles, config, order);
    }
  }

  /** A plan that starts with a chef run on `hosts` records that run, on the store as it
      was, as its second remote action. */
  lemma ChefRunFirst(s: Run, hosts: seq<string>, rest: seq<Action>, agent: Agent, discover: NodeHash)
    requires s.error.None?
    ensures var r := Exec(s, [ChefRun(hosts)] + rest, agent, discover);
      |s.trace| + 1 < |r.trace| && r.trace[|s.trace| + 1] == RunChef(hosts, s.nodes)
  {
    ExecConcat(s, [ChefRun(hosts)], rest, agent, discover);
    ExecSingle(s, ChefRun(hosts), agent, discover);
    ConvergeFacts(s, hosts, agent);
    ExecTrace(Converge(s, hosts, agent), rest, agent, discover);
    var n := |s.trace| + 1;
    assert Converge(s, hosts, agent).trace[..n + 1][n] == RunChef(hosts, s.nodes);
  }

  lemma ProvisionTailShape(all: seq<string>, roles: Roles, order: seq<string>, mode: Option<string>)
    requires HasAllRoles(roles)
    ensures ProvisionTail(all, roles, order, mode) == [ChefRun(all)] + ProvisionTail(all, roles, order, mode)[1..]
  {
  }

  /** `provision` runs chef on all hosts once its loop is done, and that run sees every
      host's run list holding the recipes of every config entry whose role the host has.
      A failure before that run ends the phase there. */
  lemma ProvisionRunsApplied(s0: Run, mode: Option<string>, cloudKeys: Option<set<string>>, agent: Agent, discover: NodeHash,
                             roles: Roles, config: ChefConfig, order: seq<string>)
    requires Enumerates(order, roles)
    requires HasAllRoles(roles)
    requires s0.error.None? && UniqueAddresses(Discovered(s0.nodes, discover))
    requires PreProvisionCheck(roles[Clc], cloudKeys).None?
    ensures var all := Listing(order, roles[All]);
      var mid := Exec(s0, [Clear(all)] + EntryActions(config.roles, roles, config, order), agent, discover);
      var r := Exec(s0, ProvisionPlan(roles, config, order, mode, cloudKeys), agent, discover);
      && (mid.error.Some? ==> r == mid)
      && (mid.error.None? ==>
            && AllApplied(mid.nodes, config.roles, roles, config, order)
            && |mid.trace| + 1 < |r.trace|
            && r.trace[|mid.trace| + 1] == RunChef(all, mid.nodes))
  {
    var all := Listing(order, roles[All]);
    var head := [Clear(all)] + EntryActions(config.roles, roles, config, order);
    var tail := ProvisionTail(all, roles, order, mode);
    var mid := Exec(s0, head, agent, discover);
    ProvisionSplit(s0, mode, cloudKeys, agent, discover, roles, config, order);
    ProvisionSetupApplied(s0, all, agent, discover, roles, config, order);
    var r := Exec(s0, ProvisionPlan(roles, config, order, mode, cloudKeys), agent, discover);
    if mid.error.None? {
      ProvisionTailShape(all, roles, order, mode);
      ChefRunFirst(mid, all, tail[1..], agent, discover);
      var t := Exec(mid, [ChefRun(all)] + tail[1..], agent, discover).trace;
      assert r.trace == t;
      assert |mid.trace| + 1 < |t| && t[|mid.trace| + 1] == RunChef(all, mid.nodes);
    }
  }

  /** Once its check passes, `provision` is its clearing and loop followed by its tail. */
  lemma ProvisionSplit(s0: Run, mode: Option<string>, cloudKeys: Option<set<string>>, agent: Agent, discover: NodeHash,
                       roles: Roles, config: ChefConfig, order: seq<string>)
    requires HasAllRoles(roles)
    requires PreProvisionCheck(roles[Clc], cloudKeys).None?
    ensures var all := Listing(order, roles[All]);
      var head := [Clear(all)] + EntryActions(config.roles, roles, config, order);
      Exec(s0, ProvisionPlan(roles, config, order, mode, cloudKeys), agent, discover)
        == Exec(Exec(s0, head, agent, discover), ProvisionTail(all, roles, order, mode), agent, discover)
  {
    var all := Listing(order, roles[All]);
    var head := [Clear(all)] + EntryActions(config.roles, roles, config, order);
    var tail := ProvisionTail(all, roles, order, mode);
    assert ProvisionPlan(roles, config, order, mode, cloudKeys) == head + tail;
    ExecConcat(s0, head, tail, agent, discover);
  }

  /** A failed pre-provision check stops `provision` before anything is done. */
  lemma ProvisionChecked(s0: Run, mode: Option<string>, cloudKeys: Option<set<string>>, agent: Agent, discover: NodeHash,
                         roles: Roles, config: ChefConfig, order: seq<string>)
    requires HasAllRoles(roles) && s0.error.None?
    ensures var r := Exec(s0, ProvisionPlan(roles, config, order, mode, cloudKeys), agent, discover);
      PreProvisionCheck(roles[Clc], cloudKeys).Some? ==>
        r == Run(s0.nodes, s0.trace, PreProvisionCheck(roles[Clc], cloudKeys))
  {
    if PreProvisionCheck(roles[Clc], cloudKeys).Some? {
      ExecSingle(s0, Abort(PreProvisionCheck(roles[Clc], cloudKeys).value), agent, discover);
    }
  }

  /** With every role present and every recipe lookup succeeding, `bootstrap` handles
      mon-bootstrap, riak-head, midolman and clc in that order; each step but the
      midolman one first clears every run list. */
  lemma BootstrapOrder(roles: Roles, config: ChefConfig, order: seq<string>)
    requires HasAllRoles(roles)
    requires roles[MonBootstrap] != {} && roles[RiakHead] != {} && roles[Midolman] != {} && roles[Clc] != {}
    requires GetRecipeList(config, "mon-bootstrap").Success? && GetRecipeList(config, "riak-head").Success? && GetRecipeList(config, "clc").Success?
    ensures var all := Listing(order, roles[All]);
      var mon, riak, mido, clc := Listing(order, roles[MonBootstrap]), Listing(order, roles[RiakHead]), Listing(order, roles[Midolman]), Listing(order, roles[Clc]);
      BootstrapPlan(roles, config, order) ==
        ([Clear(all), Add(mon, GetRecipeList(config, "mon-bootstrap").value), ChefRun(mon)]
         + [Clear(all), Add(riak, GetRecipeList(config, "riak-head").value), ChefRun(riak)])
        + ([Add(mido, MidolmanRecipes), ChefRun(mido)]
           + [Clear(all), Add(clc, GetRecipeList(config, "clc").value), ChefRun(clc)])
  {
    var all := Listing(order, roles[All]);
    var monR, riakR, clcR := GetRecipeList(config, "mon-bootstrap"), GetRecipeList(config, "riak-head"), GetRecipeList(config, "clc");
    var mon, riak, mido, clc := Listing(order, roles[MonBootstrap]), Listing(order, roles[RiakHead]), Listing(order, roles[Midolman]), Listing(order, roles[Clc]);
    var a := OptSegment(true, true, all, mon, monR);
    var b := OptSegment(true, true, all, riak, riakR);
    var c := OptSegment(true, false, all, mido, Success(MidolmanRecipes));
    var d := OptSegment(true, true, all, clc, clcR);
    assert a == [Clear(all), Add(mon, monR.value), ChefRun(mon)];
    assert b == [Clear(all), Add(riak, riakR.value), ChefRun(riak)];
    assert c == [Add(mido, MidolmanRecipes), ChefRun(mido)];
    assert d == [Clear(all), Add(clc, clcR.value), ChefRun(clc)];
    assert BootstrapPlan(roles, config, order) == (a + b) + (c + d);
  }

  /** A role without hosts contributes no step to `bootstrap`; with no host in any of its
      four roles the phase does nothing at all. */
  lemma BootstrapIdle(s0: Run, roles: Roles, config: ChefConfig, order: seq<string>, agent: Agent, discover: NodeHash)
    requires HasAllRoles(roles)
    requires roles[MonBootstrap] == {} && roles[RiakHead] == {} && roles[Midolman] == {} && roles[Clc] == {}
    ensures BootstrapPlan(roles, config, order) == []
    ensures Exec(s0, BootstrapPlan(roles, config, order), agent, discover) == s0
  {
  }

  /** The midolman step of `bootstrap` does not clear: every recipe a host's run list held
      before it is still there after it. */
  lemma MidolmanKeeps(s: Run, all: seq<string>, hosts: seq<string>, agent: Agent, discover: NodeHash, ip0: string, rec0: seq<string>)
    requires s.error.None? && UniqueAddresses(Discovered(s.nodes, discover))
    requires Contains(s.nodes, ip0, rec0)
    ensures var r := Exec(s, Segment(false, all, hosts, Success(MidolmanRecipes)), agent, discover);
      r.error.None? ==> Contains(r.nodes, ip0, rec0)
  {
    var add := Add(hosts, MidolmanRecipes);
    assert Segment(false, all, hosts, Success(MidolmanRecipes)) == [add] + [ChefRun(hosts)];
    ExecConcat(s, [add], [ChefRun(hosts)], agent, discover);
    ExecSingle(s, add, agent, discover);
    StartBetween(s.nodes, discover);
    AddHostsKeepsOthers(Batch(s.nodes, s.trace, None), hosts, hosts, MidolmanRecipes, discover, agent, s.nodes, ip0, rec0);
    var p := Perform(s, add, agent, discover);
    if p.error.None? {
      ExecSingle(p, ChefRun(hosts), agent, discover);
    }
  }

  /** The steps with a clear empty the run list of every address of `all` the store
      knows before the role's recipes are added. */
  lemma SegmentClears(s: Run, all: seq<string>, agent: Agent, discover: NodeHash)
    requires s.error.None? && UniqueAddresses(s.nodes)
    ensures var c := Perform(s, Clear(all), agent, discover);
      c.error.None? ==>
        forall i :: 0 <= i < |all| && HasAddress(s.nodes, all[i]) ==>
          && NameOf(s.nodes, all[i]).value in c.nodes
          && RunListOf(c.nodes[NameOf(s.nodes, all[i]).value]) == []
  {
    ClearHostsCleared(Batch(s.nodes, s.trace, None), all);
  }

  lemma NukeMembers(all: seq<string>, roles: Roles, a: Action)
    requires HasAllRoles(roles)
    ensures a in NukePlan(all, roles) <==>
      || (roles[Clc] != {} && a == Add(all, ["eucalyptus::nuke"]))
      || (roles[RiakHead] != {} && a == Add(all, ["riakcs-cluster::nuke"]))
      || (roles[MonBootstrap] != {} && a == Add(all, ["ceph-cluster::nuke"]))
      || (roles[Haproxy] != {} && a == Add(all, ["haproxy::nuke"]))
  {
  }

  /** `uninstall` gives a role's nuke recipe iff the role has hosts, and always to every
      host. */
  lemma UninstallNukes(roles: Roles, order: seq<string>)
    requires HasAllRoles(roles)
    ensures var all := Listing(order, roles[All]);
      var plan := UninstallPlan(roles, order);
      && (Add(all, ["eucalyptus::nuke"]) in plan <==> roles[Clc] != {})
      && (Add(all, ["riakcs-cluster::nuke"]) in plan <==> roles[RiakHead] != {})
      && (Add(all, ["ceph-cluster::nuke"]) in plan <==> roles[MonBootstrap] != {})
      && (Add(all, ["haproxy::nuke"]) in plan <==> roles[Haproxy] != {})
      && (forall a :: a in plan && a.Add? ==> a.hosts == all)
  {
    var all := Listing(order, roles[All]);
    var e, r, c, h := ["eucalyptus::nuke"], ["riakcs-cluster::nuke"], ["ceph-cluster::nuke"], ["haproxy::nuke"];
    assert e[0] != r[0] && e[0] != c[0] && e[0] != h[0] && r[0] != c[0] && r[0] != h[0] && c[0] != h[0];
    UninstallMembers(roles, order, Add(all, e));
    NukeMembers(all, roles, Add(all, e));
    UninstallMembers(roles, order, Add(all, r));
    NukeMembers(all, roles, Add(all, r));
    UninstallMembers(roles, order, Add(all, c));
    NukeMembers(all, roles, Add(all, c));
    UninstallMembers(roles, order, Add(all, h));
    NukeMembers(all, roles, Add(all, h));
    forall a | a in UninstallPlan(roles, order) && a.Add? ensures a.hosts == all {
      UninstallMembers(roles, order, a);
      NukeMembers(all, roles, a);
    }
  }

  /** `uninstall` deletes the local node records only once its run over all hosts has
      succeeded, as its last remote action. */
  lemma UninstallDeletesLast(s0: Run, roles: Roles, order: seq<string>, agent: Agent, discover: NodeHash)
    requires HasAllRoles(roles)
    ensures var r := Exec(s0, UninstallPlan(roles, order), agent, discover);
      r.error.None? ==> |r.trace| > 0 && r.trace[|r.trace| - 1] == BulkDelete
  {
    var all := Listing(order, roles[All]);
    var head := [Clear(all)] + NukePlan(all, roles) + [ChefRun(all)];
    assert UninstallPlan(roles, order) == head + [Remote(BulkDelete)];
    ExecConcat(s0, head, [Remote(BulkDelete)], agent, discover);
    var m := Exec(s0, head, agent, discover);
    if m.error.None? {
      ExecSingle(m, Remote(BulkDelete), agent, discover);
    }
  }
}

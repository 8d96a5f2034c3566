# calyptos core, modelled in Dafny

calyptos deploys a Eucalyptus cloud, together with its Ceph, RiakCS and Midokura parts,
with Chef. It reads an environment file that describes the hosts. From it, it works out
which host plays which role, and keeps a local copy of each Chef node's record and
`run_list`. It then drives four phases over those hosts: `prepare`, `bootstrap`,
`provision` and `uninstall`. Validators check the environment before deployment. Every
check reports into a pass/fail tally.

The project models that core in eight modules, one per source file it covers:

| file | module | models |
|---|---|---|
| `wrappers.dfy` | `Wrappers` | `Option` and `Result` |
| `text.dfy` | `Text` | the string operations the core relies on, with Python's meaning: `str.split()`, `s.split(':')[0]`, substring `in`, and basename-without-extension |
| `tally.dfy` | `Debugger` | the `DebuggerPlugin` counters, thresholds and final report |
| `roles.dfy` | `RoleBuilder` | `ROLE_LIST`, `_initialize_roles`, `get_roles` and `get_euca_hosts` |
| `chefmanager.dfy` | `ChefManager` | the node store: `read_node_hash`'s key, `get_node_name_by_ip`, `add_to_run_list` and `clear_run_list` |
| `deployer.dfy` | `Deployer` | `get_chef_config`, `_get_recipe_list`, `_run_chef_on_hosts`, `_pre_provision_check` and the four phases |
| `topology.dfy` | `Topology` | the topology validator |
| `vpc.dfy` | `Vpc` | the VPC validator, over a generic JSON document |

## How the model is built

**Role resolution.** `get_roles` is stated twice:
- `Resolve` says declaratively which hosts each role holds, and which exception stops resolution first.
- `GetRoles` builds the map step by step, with the source's loops, and is proved equal to `Resolve`.

The properties of role resolution are lemmas about `Resolve`. The `get_*_attributes` lookups become the `Option` sections of `Environment`: an absent or empty section is `None`.

**Node store.** The node store is a class, `NodeStore`. It holds:
- `nodeHash`: the records, keyed by node name;
- `trace`: the remote actions taken so far.

Its methods are proved against the functions `AddHosts` and `ClearHosts` over a `Batch`. A `Batch` is the store, the trace, and the error that stopped the batch.

The initial bootstrap of an unknown host pushes the deployment data and runs chef on the whole batch. The `Agent` oracle gives each host's result of that run. Fabric runs the hosts in parallel (`env.parallel`, `eucadeploy/chefmanager.py:34`), so a failure on any host aborts the batch once all hosts have run. After a successful run the lookup is retried. As written, the source retries on the store it loaded before the run; the model does that when `discover` is `map[]`. A non-empty `discover` map models the retry the authors evidently intended (see "## Findings"): it holds the records the node files have once that run is over, and the retry adds them to the store under names the store did not know yet.

**Phases.** A phase is a plan, a sequence of `Action`s:
- clear run lists;
- add recipes;
- a chef run (`_run_chef_on_hosts`);
- a plain run;
- an abort;
- a recorded remote step.

`Exec` performs a plan up to its first error. Each phase method of the class `Chef` is proved to do exactly what `Exec` does with its plan. What the phases promise is proved about those plans.

Remote execution is an `Agent` oracle. Given the position of a chef run in the trace and a host, it returns that host's success flag and output.

**Validators.** Each validator is a class whose methods report into a `Tally`. Each check is also given as a function that returns its reports and the error that stopped it. Each method is proved to bump the tally by that function's pass and fail counts, to collect the same host names, and to end with the same error.

## Model

| member | source | states |
|---|---|---|
| Debugger.Tally.constructor | eucadeploy/plugins/debugger/debuggerplugin.py:17-30 | a new tally starts with zero passes, failures and warnings, and has the thresholds 4000000 KB memory, 30 GB disk, OS version 6 and 20 s clock skew |
| Debugger.Tally.Success | eucadeploy/plugins/debugger/debuggerplugin.py:46-49 | `passed` grows by exactly one; the other counters are unchanged |
| Debugger.Tally.Failure | eucadeploy/plugins/debugger/debuggerplugin.py:51-54 | `failed` grows by exactly one; the other counters are unchanged |
| Debugger.Tally.Warning | eucadeploy/plugins/debugger/debuggerplugin.py:60-63 | only `warnings` grows, by one |
| Debugger.Tally.Tell | eucadeploy/plugins/debugger/debuggerplugin.py:46-54 | reporting one message as a success or a failure adds its pass and fail count to the tally |
| Debugger.Tally.Report | eucadeploy/plugins/debugger/debuggerplugin.py:65-75 | the report carries the name, `passed` and `failed`; it is cyan iff nothing failed and red otherwise |
| Debugger.PassesFails | eucadeploy/plugins/debugger/debuggerplugin.py:46-54 | every report counts as exactly one pass or one failure |
| Debugger.CountsConcat | eucadeploy/plugins/debugger/debuggerplugin.py:46-54 | pass and fail counts add up over consecutive runs of reports |
| Text.Token | calyptos/rolebuilder.py:183 | a token is the longest prefix free of Python whitespace |
| Text.SplitWhitespace | calyptos/rolebuilder.py:183 | `str.split()` yields only non-empty words without whitespace |
| Text.TokenOfWord | calyptos/rolebuilder.py:183 | a word followed by whitespace or by the end is read back as one token |
| Text.SplitJoin | calyptos/rolebuilder.py:183 | splitting the space-joined words gives the same words back |
| Text.BeforeColon | calyptos/rolebuilder.py:210-211 | `s.split(':')[0]` is the longest colon-free prefix of `s`, and is followed by a colon when shorter than `s` |
| Text.BeforeColonOfPrefix | calyptos/rolebuilder.py:210-211 | a colon-free host followed by a colon, or by nothing, is cut back to the host |
| Text.BeforeColonOfHostPort | calyptos/rolebuilder.py:210-211 | `host:port` and a bare `host` both give `host` |
| Text.SubstringAt | calyptos/plugins/validator/topology.py:46 | the `in` test on two strings holds iff the needle occurs at some index of the haystack |
| Text.TooLongForSubstring | calyptos/plugins/validator/topology.py:46 | a needle longer than the haystack never occurs in it |
| Text.SubstringOfPrefix | calyptos/plugins/validator/topology.py:46 | a string occurs in any string it begins |
| Text.Basename | eucadeploy/chefmanager.py:80 | `p.split('/')[-1]`: the slash-free suffix that follows the last slash |
| Text.LastDot | eucadeploy/chefmanager.py:80 | the index found holds the last dot; no dot is found iff there is none |
| Text.StripExtension | eucadeploy/chefmanager.py:80 | `splitext(b)[0]` is a prefix of `b` |
| Text.BasenameOf | eucadeploy/chefmanager.py:80 | the basename of `dir/name` is `name` |
| Text.LastDotOfJson | eucadeploy/chefmanager.py:80 | in `name.json` the last dot is the one before `json` |
| Text.StripJson | eucadeploy/chefmanager.py:80 | `splitext` removes `.json` from `name.json` unless `name` is all dots |
| Text.NodeKeyOfFile | eucadeploy/chefmanager.py:80 | the node file `dir/name.json` files its record under `name` |
| RoleBuilder.RoleOf | calyptos/rolebuilder.py:7-25 | looking a key up finds the role with that name, and finds nothing iff no role has that name |
| RoleBuilder.RoleListComplete | calyptos/rolebuilder.py:7-25 | `ROLE_LIST` names every role exactly once, and each role's name reads back as that role |
| RoleBuilder.Position | calyptos/rolebuilder.py:7-25 | every role has a place in `ROLE_LIST` |
| RoleBuilder.RoleNameReadsBack | calyptos/rolebuilder.py:7-25 | looking up a role's name gives that role back |
| RoleBuilder.InitializeRoles | calyptos/rolebuilder.py:59-63 | the fresh role map has exactly the names of `ROLE_LIST` as keys, each sent to the empty set |
| RoleBuilder.GetRoles | calyptos/rolebuilder.py:79-215 | building the roles step by step gives exactly `Resolve`: the first exception raised (a missing `config-json.Mido` section under VPCMIDO among them), or every role's declared hosts together with `roles['cluster']` |
| RoleBuilder.RiakSection | calyptos/rolebuilder.py:87-109 | the riak part raises iff its declarative error exists; otherwise it gives the head, node and haproxy hosts, all added to `all` |
| RoleBuilder.CephSection | calyptos/rolebuilder.py:111-138 | the ceph part raises iff its declarative error exists; otherwise it gives the bootstrap monitor, the monitors and the OSDs, all added to `all` |
| RoleBuilder.CephMonRoles | calyptos/rolebuilder.py:113-120 | the monitor loop keeps the first `init` monitor as bootstrap, collects every monitor address, and adds each one to `all` |
| RoleBuilder.EucaSection | calyptos/rolebuilder.py:140-189 | the eucalyptus part raises iff some cluster is incomplete; otherwise it gives clc, user-facing, console, walrus and the cluster roles |
| RoleBuilder.EucaHeader | calyptos/rolebuilder.py:143-164 | clc, user-facing, console (when the key is present) and walrus (when present) hold the declared hosts, and all of them go to `all` |
| RoleBuilder.ClusterRoles | calyptos/rolebuilder.py:166-189 | the cluster loop raises the first incomplete cluster's error; otherwise it yields the controller sets and the map of the last cluster only |
| RoleBuilder.AddCluster | calyptos/rolebuilder.py:167-189 | one cluster raises for a missing `cc-1`, `sc-1` or `nodes`, in that order; otherwise its cc, sc and split nodes join their roles, `all`, and a freshly reset cluster map |
| RoleBuilder.AddZookeepers | calyptos/rolebuilder.py:209-211 | each zookeeper entry joins `mido-zookeeper` and `all`, cut at its first colon |
| RoleBuilder.AddValues | calyptos/rolebuilder.py:205-206 | every address of the host mapping joins `midolman` |
| RoleBuilder.MidoSection | calyptos/rolebuilder.py:191-214 | the Midokura part raises iff the network mode is missing, the `config-json.Mido` section is missing under VPCMIDO, or the gateway address is missing from a non-empty mapping, and the error is the first of these; otherwise it gives midonet-api, midolman, zookeepers and cassandras |
| RoleBuilder.GetEucaHosts | calyptos/rolebuilder.py:65-77 | the eucalyptus hosts are clc, user-facing, cluster, storage and node controllers and walrus; it raises exactly what `get_roles` raises |
| RoleBuilder.AddRoles | calyptos/rolebuilder.py:75-76 | the update loop adds the hosts of each listed role |
| RoleBuilder.EucaHostsUnion | calyptos/rolebuilder.py:65-77 | gathering clc and the eucalyptus components gives exactly the union of their declared hosts |
| RoleBuilder.ComponentsUnion | calyptos/rolebuilder.py:69-76 | the component list adds user-facing, the three controllers and walrus; walrus adds nothing when it is empty |
| RoleBuilder.MidoConfigMissing | calyptos/rolebuilder.py:191-193 | with Midokura attributes and no `config-json.Mido` section, resolution stops on that `KeyError` iff the mode is VPCMIDO; under another mode the section is never read |
| RoleBuilder.FrontRoleLookup | calyptos/rolebuilder.py:143-164 | in the resolved roles, clc, user-facing and walrus hold exactly their declared hosts |
| RoleBuilder.ClusterRoleLookup | calyptos/rolebuilder.py:166-189 | in the resolved roles, the cluster, storage and node controller roles hold exactly the hosts of all clusters |
| RoleBuilder.ResolvedKeys | calyptos/rolebuilder.py:59-63 | every role is a key of the resolved roles |
| RoleBuilder.RoleLookup | calyptos/rolebuilder.py:79-215 | each role of the resolved roles holds `RoleHosts` of that role |
| RoleBuilder.AllCoversContributors | calyptos/rolebuilder.py:85-214 | every riak, ceph monitor or OSD, clc, user-facing, console, walrus, cluster member, zookeeper and cassandra host is in `all` |
| RoleBuilder.MidoHostsOutsideAll | calyptos/rolebuilder.py:197-208 | a concrete environment whose midonet-api and midolman host is missing from `all` |
| RoleBuilder.RiakLoadBalancer | calyptos/rolebuilder.py:89-109 | a false head raises. With a load balancer: nginx raises first, otherwise haproxy receives the balancer, otherwise resolution raises |
| RoleBuilder.FirstInitIsFirst | calyptos/rolebuilder.py:116-118 | the bootstrap monitor is the first monitor with `init`, and there is none iff no monitor has `init` |
| RoleBuilder.CephErrors | calyptos/rolebuilder.py:113-138 | monitors without an `init` one raise; a missing or empty `osds` raises |
| RoleBuilder.CephRoleFacts | calyptos/rolebuilder.py:113-136 | `ceph-mons` is every monitor, `ceph-osds` every OSD, and `mon-bootstrap` exactly the first `init` monitor, within `ceph-mons` |
| RoleBuilder.ClusterErrorFirst | calyptos/rolebuilder.py:167-185 | the cluster loop raises iff some cluster is incomplete, naming the first such cluster |
| RoleBuilder.InClusterSets | calyptos/rolebuilder.py:169-188 | a complete cluster's cc, sc and split nodes are in the controller sets |
| RoleBuilder.ClusterMembers | calyptos/rolebuilder.py:169-188 | a complete cluster's cc, sc and nodes are in the cluster, storage and node controller roles |
| RoleBuilder.LastClusterOnly | calyptos/rolebuilder.py:167-189 | `roles['cluster']` maps only the last cluster, to {cc, sc} and its split nodes |
| RoleBuilder.MidoGatewayUnmapped | calyptos/rolebuilder.py:193-201 | under VPCMIDO with a non-empty mapping, resolution raises for the gateway iff `EucanetdHost` is missing, unmapped or mapped to an empty address |
| RoleBuilder.MidonetApiMapped | calyptos/rolebuilder.py:197-203 | midonet-api holds exactly the address the mapping gives `EucanetdHost` |
| RoleBuilder.MidolmanCovers | calyptos/rolebuilder.py:204-208 | midolman holds every mapped address and every node controller |
| RoleBuilder.MidoInactive | calyptos/rolebuilder.py:193 | outside VPCMIDO the four Midokura roles are empty |
| RoleBuilder.ZookeeperHost | calyptos/rolebuilder.py:209-211 | an entry `host:port` or `host` puts `host` into `mido-zookeeper` and `all` |
| ChefManager.NameOf | eucadeploy/chefmanager.py:94-100 | the lookup finds the name of a record that declares the address, and finds nothing iff no record declares it |
| ChefManager.NameOfUnique | eucadeploy/chefmanager.py:94-100 | with unique addresses, the lookup finds the record that declares the address |
| ChefManager.Merge | eucadeploy/chefmanager.py:112-117 | the existing run list stays a prefix of the merged one |
| ChefManager.MergeMembers | eucadeploy/chefmanager.py:112-117 | a recipe is in the merged list iff it was in the run list or among the recipes |
| ChefManager.MergeNoDup | eucadeploy/chefmanager.py:116-117 | merging keeps a duplicate-free run list duplicate-free |
| ChefManager.MergeCovered | eucadeploy/chefmanager.py:116-117 | recipes already present are not appended again |
| ChefManager.MergeIdempotent | eucadeploy/chefmanager.py:112-117 | merging the same recipes twice equals merging them once |
| ChefManager.MergeIntoEmpty | eucadeploy/chefmanager.py:113-117 | duplicate-free recipes merged into an empty run list appear in their own order |
| ChefManager.NewRecipesMembers | eucadeploy/chefmanager.py:116-117 | the selected new recipes are exactly the recipes the run list lacks |
| ChefManager.NewRecipesNoDup | eucadeploy/chefmanager.py:116-117 | each new recipe is selected once |
| ChefManager.NewRecipesOrder | eucadeploy/chefmanager.py:112-117 | of two first occurrences of recipes the run list lacks, the earlier is selected first |
| ChefManager.MergeAppends | eucadeploy/chefmanager.py:112-117 | merging keeps the run list and appends exactly the new recipes, at their first occurrences, in order |
| ChefManager.MergeOrder | eucadeploy/chefmanager.py:112-117 | for any run list and recipes, the appended part holds exactly the recipes the list lacked, each once, in the order of their first occurrence among the recipes |
| ChefManager.WithRecipesFacts | eucadeploy/chefmanager.py:112-117 | once a record is given recipes, all of them are in its run list, the old list is a prefix, a second update changes nothing, no duplicates appear, and its name and address are kept |
| ChefManager.Discovered | eucadeploy/chefmanager.py:105-111 | the initial bootstrap keeps every known record and adds only records under new names |
| ChefManager.AddHostHolds | eucadeploy/chefmanager.py:102-118 | one host's update keeps the store within its bounds, and on success the host's record holds the recipes |
| ChefManager.AddHostKeeps | eucadeploy/chefmanager.py:102-118 | one host's update keeps the recipes other hosts already hold |
| ChefManager.AddHostFacts | eucadeploy/chefmanager.py:102-118 | one host's update stays within bounds, gives that host the recipes, and keeps every host that already held them |
| ChefManager.AddHostsFacts | eucadeploy/chefmanager.py:102-118 | after a batch without error, every listed host's record holds every recipe |
| ChefManager.RecipesAdded | eucadeploy/chefmanager.py:102-118 | after `add_to_run_list(hosts, recipes)`, each host resolves to a record whose run list holds every recipe |
| ChefManager.AddHostsFixed | eucadeploy/chefmanager.py:112-117 | a batch whose hosts already hold the recipes changes neither the store nor the trace |
| ChefManager.AddTwice | eucadeploy/chefmanager.py:102-118 | calling `add_to_run_list` twice with the same arguments equals calling it once |
| ChefManager.AddHostKeepsOthers | eucadeploy/chefmanager.py:112-118 | adding recipes to one host removes no recipe from any host |
| ChefManager.AddHostsKeepsOthers | eucadeploy/chefmanager.py:102-118 | a batch removes no recipe from any host |
| ChefManager.AddHostsTrace | eucadeploy/chefmanager.py:105-111 | a batch only appends remote actions |
| ChefManager.AddHostsStops | eucadeploy/chefmanager.py:102-111 | the first failed lookup ends the batch |
| ChefManager.InitialBootstrap | eucadeploy/chefmanager.py:105-111 | an unknown host triggers a push and a chef run on the whole batch; a known host triggers neither. The batch aborts on that run iff some host's run fails, naming exactly the failed hosts and leaving the store as it was; after a successful run the lookup fails iff the bootstrap made no record declare the host |
| ChefManager.RetryWithoutReload | eucadeploy/chefmanager.py:104-111 | as written, with no records reloaded after a successful bootstrap run, the retried lookup of an unknown host always fails |
| ChefManager.RetryAfterReload | eucadeploy/chefmanager.py:105-117 | when the records of a successful bootstrap run are loaded, an unknown host's new record receives the recipes |
| ChefManager.ClearHostsShape | eucadeploy/chefmanager.py:120-129 | clearing takes no remote action, and each record is either kept or has its run list emptied |
| ChefManager.ClearHostsCleared | eucadeploy/chefmanager.py:120-129 | every resolvable host's run list becomes `[]`, and the set of records is unchanged |
| ChefManager.ClearHostsKeeps | eucadeploy/chefmanager.py:120-129 | a record that no listed host resolves to is unchanged |
| ChefManager.ClearHostsNoError | eucadeploy/chefmanager.py:122-127 | with records filed under their own names, clearing skips unknown hosts and never fails |
| ChefManager.ClearHostsStops | eucadeploy/chefmanager.py:120-129 | an error ends the clearing loop |
| ChefManager.NodeStore.constructor | eucadeploy/chefmanager.py:40 | a new store has no records and no remote actions |
| ChefManager.NodeStore.ReadNodeHash | eucadeploy/chefmanager.py:77-85 | a parsed document is stored under the file's basename without its extension; an unparsable one is an error naming that key and changes nothing |
| ChefManager.NodeStore.GetNodeNameByIp | eucadeploy/chefmanager.py:94-100 | the lookup returns the name of a record declaring the address, and fails iff no record declares it |
| ChefManager.NodeStore.AddHostToRunList | eucadeploy/chefmanager.py:103-118 | one loop iteration does exactly what `AddHost` specifies |
| ChefManager.NodeStore.AddToRunList | eucadeploy/chefmanager.py:102-118 | the store, the trace and the error are exactly those `AddHosts` specifies |
| ChefManager.NodeStore.ClearRunList | eucadeploy/chefmanager.py:120-129 | the store, the trace and the error are exactly those `ClearHosts` specifies |
| Deployer.GetChefConfig | calyptos/plugins/deployer/chef.py:49-58 | returns `deployer.chef` iff both levels exist; a missing `deployer` and a missing `chef` are distinct errors |
| Deployer.FindRecipes | calyptos/plugins/deployer/chef.py:60-64 | finds the recipes of the first entry naming the component, and finds nothing iff no entry names it |
| Deployer.GetRecipeList | calyptos/plugins/deployer/chef.py:60-64 | the recipes of the first entry naming the component; the `ValueError` iff none does |
| Deployer.Listing | calyptos/plugins/deployer/chef.py:115-136 | a host set walked in the order `order`: exactly the hosts of the set that `order` lists, each once when `order` has no duplicate |
| Deployer.RoleListing | calyptos/plugins/deployer/chef.py:115-136 | under an order that enumerates the roles, a role's listing holds exactly the role's hosts, each once |
| ChefManager.FailedHosts | calyptos/plugins/deployer/chef.py:86-95 | the failed hosts are exactly the listed hosts whose run failed, and there are none iff every host's run succeeded |
| Deployer.FailureStep | calyptos/plugins/deployer/chef.py:87-95 | each host's result adds that host to the failed hosts and to the failure logs exactly when its run failed |
| Deployer.FailureLogsMembers | calyptos/plugins/deployer/chef.py:90-95 | a failure log is written, with the host's output, for exactly the hosts whose run failed |
| Deployer.ConvergeFacts | calyptos/plugins/deployer/chef.py:81-99 | the push and chef run come first; every host is examined; the run fails iff some host failed, naming every failed host, each with a failure log; the pull happens iff nothing failed |
| Deployer.RunChefOnHosts | calyptos/plugins/deployer/chef.py:81-99 | the store, the trace and the error are exactly those `Converge` specifies |
| Deployer.FirstMissing | calyptos/plugins/deployer/chef.py:144-149 | finds a key that is missing, and finds none iff every key is present |
| Deployer.PreProvisionCheck | calyptos/plugins/deployer/chef.py:139-153 | the pre-provision check passes iff there is no clc, or the clc's `cloud-keys` exist and hold the three artifacts |
| Deployer.Chef.Prepare | calyptos/plugins/deployer/chef.py:101-111 | `prepare` does exactly its plan: sync keys, clear, then push, install chef, run and pull on all hosts |
| Deployer.Chef.Bootstrap | calyptos/plugins/deployer/chef.py:113-137 | `bootstrap` does exactly `BootstrapPlan` |
| Deployer.BootstrapOrder | calyptos/plugins/deployer/chef.py:113-136 | with every role present, bootstrap runs mon-bootstrap, riak-head, midolman, then clc; all but the midolman step clear every run list first |
| Deployer.BootstrapIdle | calyptos/plugins/deployer/chef.py:113-136 | with none of the four roles present, bootstrap does nothing |
| Deployer.MidolmanKeeps | calyptos/plugins/deployer/chef.py:127-130 | the midolman step does not clear, so every recipe a host held is still held |
| Deployer.SegmentClears | calyptos/plugins/deployer/chef.py:115-136 | a clearing step empties the run list of every host that resolves |
| Deployer.Chef.DoEntry | calyptos/plugins/deployer/chef.py:159-162 | one config entry does exactly its `EntryAction`: an unknown role or component stops the phase, otherwise the role's hosts get the recipes |
| Deployer.Chef.ProvisionEntries | calyptos/plugins/deployer/chef.py:159-162 | the config loop does exactly every entry's action in order, up to the first error |
| Deployer.AddApplies | calyptos/plugins/deployer/chef.py:160-162 | after an entry's update without error, every host of its role holds the component's recipes |
| Deployer.EntriesApplied | calyptos/plugins/deployer/chef.py:159-162 | after the config loop without error, every host holds the recipes of every config role it belongs to |
| Deployer.ProvisionSetupApplied | calyptos/plugins/deployer/chef.py:158-162 | clearing and then the config loop leave every host with the recipes of its config roles |
| Deployer.ProvisionRunsApplied | calyptos/plugins/deployer/chef.py:155-163 | once the check passes, provision's first chef run covers all hosts and sees every host's config recipes; an earlier error stops provision |
| Deployer.ProvisionChecked | calyptos/plugins/deployer/chef.py:139-156 | a failed pre-provision check stops provision before anything changes |
| Deployer.Chef.DoClcFinish | calyptos/plugins/deployer/chef.py:170-178 | the clc is configured and run; under VPCMIDO the midonet-api then creates the first resources; a missing network mode stops |
| Deployer.Chef.ProvisionFinishRoles | calyptos/plugins/deployer/chef.py:165-178 | the riak-head plan commit and the clc steps run in that order, each only when its role has hosts |
| Deployer.Chef.ProvisionFinish | calyptos/plugins/deployer/chef.py:163-178 | the run over all hosts, then the finishing steps |
| Deployer.Chef.Provision | calyptos/plugins/deployer/chef.py:155-179 | `provision` does exactly `ProvisionPlan` |
| Deployer.Chef.Uninstall | calyptos/plugins/deployer/chef.py:181-194 | `uninstall` does exactly `UninstallPlan` |
| Deployer.UninstallMembers | calyptos/plugins/deployer/chef.py:181-193 | uninstall clears, adds nuke recipes, runs on all hosts and bulk-deletes, and does nothing else |
| Deployer.NukeMembers | calyptos/plugins/deployer/chef.py:183-190 | each nuke recipe is given to all hosts iff its role has hosts |
| Deployer.UninstallNukes | calyptos/plugins/deployer/chef.py:181-191 | the eucalyptus, riakcs, ceph and haproxy nukes are present iff clc, riak-head, mon-bootstrap and haproxy have hosts, and every addition targets all hosts |
| Deployer.UninstallDeletesLast | calyptos/plugins/deployer/chef.py:191-193 | a successful uninstall ends with the bulk delete of the node records |
| Topology.Appearances | calyptos/plugins/validator/topology.py:44-47 | at most one appearance per cluster name |
| Topology.AppearancesMembers | calyptos/plugins/validator/topology.py:44-47 | a host "appears" in a cluster iff the host string is a substring of the cluster's name |
| Topology.GoodReports | calyptos/plugins/validator/topology.py:52-53 | each good host is reported as one success |
| Topology.CheckHostsFacts | calyptos/plugins/validator/topology.py:38-53 | the good hosts are the hosts before the first one that appears in two or more clusters; that host raises, carrying its appearances |
| Topology.CheckHostsPasses | calyptos/plugins/validator/topology.py:38-53 | the check passes iff no host appears in more than one cluster |
| Topology.ListedTwicePasses | calyptos/plugins/validator/topology.py:42-50 | a host listed in two clusters whose names do not contain it passes |
| Topology.AddressListedTwicePasses | calyptos/plugins/validator/topology.py:38-53 | `10.0.0.1` listed in the clusters `one` and `two` passes |
| Topology.NameInTwoNamesFails | calyptos/plugins/validator/topology.py:44-50 | a host that is part of two cluster names raises, whichever clusters list it |
| Topology.KeyReports | calyptos/plugins/validator/topology.py:21-26 | one report per required riakcs key, a success iff the key is present |
| Topology.StorageFacts | calyptos/plugins/validator/topology.py:14-28 | both keys: one failure, then stop. Walrus alone: passes once iff walrus has hosts. riakcs alone: one report per required key. Neither: exactly one failure |
| Topology.ClusterFacts | calyptos/plugins/validator/topology.py:29-34 | a cluster passes iff `cc-1`, `sc-1` and `nodes` are true values, with two successes |
| Topology.ClustersFacts | calyptos/plugins/validator/topology.py:29-34 | the cluster loop passes iff every cluster passes, with two successes each |
| Topology.ValidationOrder | calyptos/plugins/validator/topology.py:4-34 | the cluster-per-host check comes first, and a missing `roles['cluster']` stops validation there with the `KeyError`; clc and then user-facing must have hosts; storage and cluster checks follow in that order |
| Topology.TopologyValidator.constructor | calyptos/plugins/validator/topology.py:5-6 | the good and failed host lists start empty |
| Topology.TopologyValidator.CollectAppearances | calyptos/plugins/validator/topology.py:44-47 | the loop collects exactly the clusters whose names contain the host |
| Topology.TopologyValidator.CheckHost | calyptos/plugins/validator/topology.py:44-53 | a host in at most one cluster is one success and joins `good_hosts`; otherwise nothing changes |
| Topology.TopologyValidator.CheckClusterHosts | calyptos/plugins/validator/topology.py:42-53 | one cluster's hosts are checked in order up to the first duplicate, each good one reported and kept |
| Topology.TopologyValidator.CheckCluster | calyptos/plugins/validator/topology.py:40-53 | one cluster of the outer loop extends the good hosts by its hosts, or ends the check with the error `CheckHosts` specifies |
| Topology.TopologyValidator.SingleClusterPerHost | calyptos/plugins/validator/topology.py:38-53 | a missing `roles['cluster']` is the `KeyError`, with no report and no good host; otherwise the error, the good hosts and the successes are exactly those `CheckHosts` specifies |
| Topology.TopologyValidator.CheckStorage | calyptos/plugins/validator/topology.py:14-28 | the tally changes by exactly the reports of `StorageCheck` |
| Topology.TopologyValidator.CheckKeys | calyptos/plugins/validator/topology.py:21-26 | the tally changes by exactly the key reports |
| Topology.TopologyValidator.CheckOneCluster | calyptos/plugins/validator/topology.py:30-34 | the tally changes by exactly one cluster's reports |
| Topology.TopologyValidator.CheckClusters | calyptos/plugins/validator/topology.py:29-34 | the tally changes by exactly the cluster loop's reports |
| Topology.TopologyValidator.Validate | calyptos/plugins/validator/topology.py:4-39 | the tally, the error and `good_hosts` are exactly those `Validation` specifies, a missing `roles['cluster']` included |
| Vpc.Get | calyptos/plugins/validator/vpc.py:16-17 | a key's lookup finds a value filed under it, and finds nothing iff the key is absent |
| Vpc.Walk | calyptos/plugins/validator/vpc.py:13-21 | a failed walk names a position of the path |
| Vpc.WalkConcat | calyptos/plugins/validator/vpc.py:13-21 | walking `p + q` is walking `p` and then `q` from where `p` ends |
| Vpc.WalkMissing | calyptos/plugins/validator/vpc.py:15-20 | a failed walk stops at the first key that is absent, or whose holder is not a dictionary |
| Vpc.EnvAttrSnoc | calyptos/plugins/validator/vpc.py:13-21 | `path + [key]` resolves iff `path` resolves to a dictionary that holds `key`, and then gives that key's value |
| Vpc.EnvAttrMissing | calyptos/plugins/validator/vpc.py:15-20 | a missing attribute's message names the first missing key and the whole path |
| Vpc.FieldReport | calyptos/plugins/validator/vpc.py:45-61 | a gateway field is reported as a success iff it is a true value |
| Vpc.Elements | calyptos/plugins/validator/vpc.py:44 | iterating a list gives its items, a dictionary its keys, a string its characters, and a number or null nothing |
| Vpc.GatewaysPass | calyptos/plugins/validator/vpc.py:44-61 | the gateway loop passes iff every gateway is a dictionary |
| Vpc.GatewaysReports | calyptos/plugins/validator/vpc.py:44-61 | each gateway gives exactly three reports, host, ip and interface, in order |
| Vpc.GatewaysHosts | calyptos/plugins/validator/vpc.py:44-50 | the collected host names are true values, at most one per gateway, and every gateway's true `GatewayHost` is among them |
| Vpc.GatewaysOutcomes | calyptos/plugins/validator/vpc.py:34-43 | the legacy `GatewayHost` key reports and collects nothing; a missing `Gateways` is exactly one failure with the `KeyError`'s text |
| Vpc.GatewaysNotList | calyptos/plugins/validator/vpc.py:40-50 | a `Gateways` value that is not a list passes iff it is an empty dictionary or string, and then contributes nothing |
| Vpc.EntryReport | calyptos/plugins/validator/vpc.py:74-80 | for an ip that can be looked up (no list or dictionary), a mapping entry fails iff its ip is no clc and no node controller host and its name is no gateway host name |
| Vpc.EntryReports | calyptos/plugins/validator/vpc.py:74-80 | one report per mapping entry, in order |
| Vpc.MemberReport | calyptos/plugins/validator/vpc.py:81-90 | a clc or node controller host passes iff it is among the mapping's addresses |
| Vpc.MemberReports | calyptos/plugins/validator/vpc.py:81-90 | one report per clc or node controller host, in order |
| Vpc.MissingMapping | calyptos/plugins/validator/vpc.py:64-70 | a missing mapping is exactly one failure and nothing more |
| Vpc.MappingEntries | calyptos/plugins/validator/vpc.py:64-80 | the presence success comes first, then one report per entry, failing exactly as `EntryReport` says |
| Vpc.MappingHashable | calyptos/plugins/validator/vpc.py:64-90 | when no address is a list or dictionary, the mapping checks raise nothing and report exactly `MappingChecks` |
| Vpc.MappingUnhashable | calyptos/plugins/validator/vpc.py:74-75 | otherwise the `TypeError` of the first list or dictionary address stops them, after one report per earlier entry and before any clc or node-controller lookup |
| Vpc.MappingClc | calyptos/plugins/validator/vpc.py:81-85 | each clc host's report passes iff it is among the mapping's addresses |
| Vpc.MappingNc | calyptos/plugins/validator/vpc.py:86-90 | each node controller's report passes iff it is among the mapping's addresses |
| Vpc.ValidationModes | calyptos/plugins/validator/vpc.py:23-31 | a missing mode raises; a mode other than VPCMIDO checks nothing; a missing Mido section raises before any report; otherwise the gateway checks run before the mapping checks, which see every collected gateway name |
| Vpc.GatewaysNeedMido | calyptos/plugins/validator/vpc.py:27-40 | without the Mido section neither gateway key can be found |
| Vpc.VpcValidator.constructor | calyptos/plugins/validator/vpc.py:6-11 | the two paths are the network-mode and Mido paths, and no gateway host name is collected yet |
| Vpc.VpcValidator.GetEnvAttr | calyptos/plugins/validator/vpc.py:13-21 | the loop finds exactly what `EnvAttr` gives |
| Vpc.VpcValidator.CheckGateway | calyptos/plugins/validator/vpc.py:45-61 | one gateway's three reports go into the tally, and its true host name is appended |
| Vpc.VpcValidator.CheckGatewayList | calyptos/plugins/validator/vpc.py:44-61 | the tally, the host names and the error are exactly those `GatewaysCheck` specifies |
| Vpc.VpcValidator.CheckMidoGateways | calyptos/plugins/validator/vpc.py:33-61 | the tally, the host names and the error are exactly those `MidoGateways` specifies |
| Vpc.VpcValidator.CheckEntries | calyptos/plugins/validator/vpc.py:74-80 | the loop raises the `TypeError` iff some address is a list or dictionary; the tally changes by exactly the reports of the entries before the first such address, or of all entries |
| Vpc.VpcValidator.CheckMapping | calyptos/plugins/validator/vpc.py:74-90 | the tally and the error are exactly those `EntriesOutcome` specifies |
| Vpc.VpcValidator.CheckMembers | calyptos/plugins/validator/vpc.py:81-90 | the tally changes by exactly the membership reports |
| Vpc.VpcValidator.CheckMidoHostMapping | calyptos/plugins/validator/vpc.py:63-90 | the tally and the error are exactly those `HostMapping` specifies |
| Vpc.VpcValidator.Validate | calyptos/plugins/validator/vpc.py:23-31 | the tally, the host names and the error are exactly those `Validation` specifies |

## Left out

- Remote execution and transfer are not modelled: fabric's `execute`, `run`, `local` and `get`, `rsync_project`, installing chef, `knife node bulk delete`, git and berks. Each becomes a recorded `Step` of the trace. The per-host result of every chef run, the initial bootstrap's included, comes from the `Agent` oracle; every other recorded step succeeds.
- `sync_ssh_key` and `bootstrap_chef` are single recorded steps: their shell contents and per-host outcomes are not modelled.
- `pull_node_info` is recorded as a step and adds no record to the store, so node records change only through `read_node_hash`, `add_to_run_list`, `clear_run_list` and the initial bootstrap.
- File, YAML and JSON I/O are not modelled:
  - the environment is a given value (`Environment` for role resolution, `Json` for the VPC validator);
  - `read_node_hash` receives the parsed document, or `None` when parsing fails;
  - `write_node_hash` and `load_local_node_info` are not modelled. Reloading re-reads the node files, including those `pull_node_info` fetched after a chef run (`eucadeploy/chefmanager.py:149-154`, after `calyptos/plugins/deployer/chef.py:98` and `:107`). The model assumes that each pulled file has the same key, name, address and run list as the record already in the store, so it keeps the records it had.
- The records the initial bootstrap's chef run produces are abstract: they are the `discover` parameter, added only under names the store did not know. The source as written passes none, which is `discover == map[]`.
- The `exit(1)` calls and uncaught exceptions become error values that stop a phase or a check. The model does not distinguish `exit` from raising.
- Concurrency, the parallel pool and colourised printing are not modelled.
- The console output of `success`, `failure`, `warning`, `info` and `report` is not modelled. `Report` returns what would be printed.
- The `info` method becomes `Tally.Info`, which changes nothing. Its empty `modifies` frame says so, and it has no contract beyond that.
- Iteration order over sets and dictionaries is a parameter:
  - the `order` sequence lists hosts through `Listing`; a `Chef` deployment requires that it list every host of every role, each once (`Enumerates`);
  - dictionaries are sequences of pairs in iteration order;
  - the validators receive the clc and node-controller hosts as sequences.
- ChefManager.NodeStore.AddToRunList: it requires that no two records declare the same address (`UniqueAddresses`), and so do `AddHostToRunList`, `ClearRunList` and the phase methods. With duplicates, `get_node_name_by_ip` would pick whichever record the dictionary yields first, and that order is not modelled.
- `get_node_json`, which reads the first clc node's attributes, is not modelled. Its `cloud-keys` entry becomes the `cloudKeys` parameter of `Provision`.
- Deployer.PreProvisionCheck: a missing cloud key is an abort. The message at `calyptos/plugins/deployer/chef.py:147` would itself raise a `KeyError` before `exit(1)`, and the model does not tell the two apart.
- Deployer.Chef.Prepare: `prepare` runs chef through a bare `execute`. Fabric runs the hosts in parallel and aborts once any of them has failed. The model records it as one run that fails iff some host fails, with no failure logs and no pull.
- Deployer.EntriesApplied: it states that every host gets the recipes of its roles. It does not state the converse, that a host holds no other recipe: under the initial bootstrap the store can also hold records the config never touched.
- Deployer.ClcFinishPlan: `calyptos/plugins/deployer/chef.py:174-178` does not check that `midonet-api` has hosts. Under VPCMIDO with an empty host mapping that role is empty (`calyptos/rolebuilder.py:197-203`). The model then records a push, a chef run over no hosts and a pull, and succeeds. What fabric's `execute` does with an empty host list is library behaviour and is not modelled.
- Deployer.EntryAction: a provision config entry whose component is `cluster` gives `UnknownRole` in the model. In the source, `self.roles['cluster']` exists once a cluster is resolved, and `add_to_run_list` would iterate the cluster names as addresses and attempt an initial bootstrap against them (`eucadeploy/chefmanager.py:106-110`). Both stop the phase, but the model does not follow the source's path there.
- Deployer.Chef.Provision: `role_dict.keys().pop()` becomes the entry's single `component`. A config entry with several keys is not modelled.
- Topology.ClusterFacts: a missing `cc-1`, `sc-1` or `nodes` key (a `KeyError`) and a false one (an `AssertionError`) are the same error in the model.
- The topology validator receives `roles['cluster']` as a sequence of (name, hosts) pairs in iteration order.
- The VPC validator's `Json` keeps numbers, booleans and null only through their truth value and their printed text. `Show` prints nothing for dictionaries and lists.
- A VPC document with duplicate keys differs from Python's `dict`, which keeps one entry per key. In the model, `Get` resolves a key to its first occurrence. Iteration (`Values`, `Elements`, `EntryReports`) visits every pair, duplicates included. A host mapping such as `{"h": "1.1.1.1", "h": "2.2.2.2"}` therefore gets two entry reports, and both addresses count as mapped.
- The VPC validator's `KeyErrorText` renders the `KeyError` message inside quotes. Python's `repr` escaping of quotes and backslashes inside the message is not modelled.
- In the VPC validator, calling `get` on a gateway that is not a dictionary, or iterating a host mapping that is not one, is one `Malformed` error. The different Python exception types are not distinguished.
- Role resolution works on a typed environment. A value of the wrong shape, such as a cluster's `nodes` that is not a string or a monitor without `ipaddr`, is outside the model.
- `calyptos/chefmanager.py`, which `chef.py` imports, is not part of this model. `eucadeploy/chefmanager.py` is modelled in its place. Its `run_chef_client` returns nothing, so with it `result.succeeded` at `calyptos/plugins/deployer/chef.py:88` would fail. The `Agent`'s `HostResult` stands for the per-host fabric run result that the chef manager `chef.py` imports returns.
- The validator base class (`validatorplugin.py`) is not part of this model. The validators are given the tally, the roles and the environment directly.
- `pinghosts.py`, `repos.py` and the shell-and-regex debugger checks are not modelled. They only compare text fetched from remote hosts or over the network.

## Findings

| source | as written | input that shows it | evidently intended | confidence | as-written member | corrected member |
|---|---|---|---|---|---|---|
| eucadeploy/chefmanager.py:105-111 | after the initial bootstrap, the lookup is retried on the node hash loaded at line 104; neither the push nor the remote chef run refreshes it | `add_to_run_list(["10.0.0.9"], ["r"])` with no local record declaring `10.0.0.9`: the retry at line 111 raises `FailedToFindNodeException` | the retry should see the record the bootstrap run produced, and give it the recipes | medium, not executed | ChefManager.RetryWithoutReload | ChefManager.RetryAfterReload |

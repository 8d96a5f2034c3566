/** The VPC validator: under the VPCMIDO network mode it requires the Midonet
    configuration section, checks every gateway's host, ip and interface fields, and
    cross-checks the Midolman host mapping against the clc and node-controller hosts and
    the gateway host names. Each check reports into the tally. */
module Vpc {
  import opened Wrappers
  import opened Debugger

  /** A value of the environment document. Numbers, booleans and null are kept only
      through their truthiness and the text `str()` gives them. */
  datatype Json =
    | Object(fields: seq<(string, Json)>)
    | Array(items: seq<Json>)
    | Str(text: string)
    | Scalar(truthy: bool, shown: string)

  /** Python's truth value of a document value. */
  predicate Truthy(j: Json) {
    match j
    case Object(fs) => fs != []
    case Array(xs) => xs != []
    case Str(t) => t != ""
    case Scalar(b, _) => b
  }

  /** The text `'{0}'.format(j)` puts in a message (not modelled for objects and arrays). */
  function Show(j: Json): string {
    match j
    case Str(t) => t
    case Scalar(_, t) => t
    case _ => ""
  }

  /** `d.get(key)` on an object's pairs: the value of the first pair named `key`. */
  function Get(fields: seq<(string, Json)>, key: string): (r: Option<Json>)
    ensures r.None? <==> forall i :: 0 <= i < |fields| ==> fields[i].0 != key
    ensures r.Some? ==> (key, r.value) in fields
  {
    if fields == [] then None
    else if fields[0].0 == key then Some(fields[0].1)
    else
      var r := Get(fields[1..], key);
      assert forall p :: p in fields[1..] ==> p in fields;
      r
  }

  /** `d.values()` */
  function Values(fields: seq<(string, Json)>): (vs: seq<Json>)
    ensures |vs| == |fields| && forall i :: 0 <= i < |fields| ==> vs[i] == fields[i].1
  {
    if fields == [] then [] else [fields[0].1] + Values(fields[1..])
  }

  /** `gw.get(field, None)` is truthy. */
  predicate HasField(fields: seq<(string, Json)>, field: string) {
    Get(fields, field).Some? && Truthy(Get(fields, field).value)
  }

  // ---------------------------------------------------------------------
  // `_get_env_attr`

  const NetModePath: seq<string> := ["default_attributes", "eucalyptus", "network", "mode"]
  const MidoConfigPath: seq<string> := ["default_attributes", "eucalyptus", "network", "config-json", "Mido"]
  const HostMappingPath: seq<string> := ["default_attributes", "midokura", "midolman-host-mapping"]

  /** Where a walk down a path ends: at a value, or at the index of the first key that
      is missing (or whose parent is not an object). */
  datatype Walked = Found(value: Json) | Missing(at: nat)

  /** The result of a walk that started `n` keys further down the path. */
  function Shift(w: Walked, n: nat): Walked {
    match w
    case Found(v) => Found(v)
    case Missing(k) => Missing(n + k)
  }

  /** The loop of `_get_env_attr` from `context` down `path`. */
  function Walk(context: Json, path: seq<string>): (w: Walked)
    ensures w.Missing? ==> w.at < |path|
  {
    if path == [] then Found(context)
    else if context.Object? && Get(context.fields, path[0]).Some? then
      Shift(Walk(Get(context.fields, path[0]).value, path[1..]), 1)
    else Missing(0)
  }

  /** `" -> ".join(path)` */
  function Join(parts: seq<string>, sep: string): string {
    if parts == [] then "" else if |parts| == 1 then parts[0] else parts[0] + sep + Join(parts[1..], sep)
  }

  /** The message of the `KeyError` for `key` missing on `path`. */
  function MissingMessage(key: string, path: seq<string>): string {
    "Could not find config/env attribute:\"" + key + "\" in path:" + Join(path, " -> ")
  }

  /** `str(KeyError(m))`, which quotes the message. */
  function KeyErrorText(m: string): string {
    "'" + m + "'"
  }

  /** `_get_env_attr(path)` on the environment document. */
  function EnvAttr(env: Json, path: seq<string>): Result<Json, string> {
    match Walk(env, path)
    case Found(v) => Success(v)
    case Missing(k) => Failure(MissingMessage(path[k], path))
  }

  /** Walking `p + q` is walking `p`, then `q` from where `p` ended. */
  lemma {:induction false} WalkConcat(context: Json, p: seq<string>, q: seq<string>)
    ensures Walk(context, p + q) ==
      match Walk(context, p)
      case Found(v) => Shift(Walk(v, q), |p|)
      case Missing(k) => Missing(k)
  {
    if p == [] {
      assert p + q == q;
    } else {
      assert (p + q)[0] == p[0] && (p + q)[1..] == p[1..] + q;
      if context.Object? && Get(context.fields, p[0]).Some? {
        WalkConcat(Get(context.fields, p[0]).value, p[1..], q);
      }
    }
  }

  /** The walk stops at the first key it cannot follow: every key before it was found,
      and the value reached there is not an object holding that key. */
  lemma WalkMissing(context: Json, path: seq<string>)
    requires Walk(context, path).Missing?
    ensures var k := Walk(context, path).at;
      && Walk(context, path[..k]).Found?
      && var v := Walk(context, path[..k]).value;
        !(v.Object? && Get(v.fields, path[k]).Some?)
  {
    var k := Walk(context, path).at;
    assert path == path[..k] + path[k..];
    WalkConcat(context, path[..k], path[k..]);
  }

  /** A lookup succeeds iff every key of the path is found in turn: one key more
      succeeds exactly when the shorter path ends at an object holding that key. */
  lemma EnvAttrSnoc(env: Json, path: seq<string>, key: string)
    ensures EnvAttr(env, path + [key]).Success? <==>
      && EnvAttr(env, path).Success?
      && EnvAttr(env, path).value.Object?
      && Get(EnvAttr(env, path).value.fields, key).Some?
    ensures EnvAttr(env, path + [key]).Success? ==>
      EnvAttr(env, path + [key]).value == Get(EnvAttr(env, path).value.fields, key).value
  {
    WalkConcat(env, path, [key]);
  }

  /** The error names the first missing key and the whole path. */
  lemma EnvAttrMissing(env: Json, path: seq<string>)
    requires EnvAttr(env, path).Failure?
    ensures var k := Walk(env, path).at;
      && k < |path| && EnvAttr(env, path[..k]).Success?
      && EnvAttr(env, path).error == MissingMessage(path[k], path)
      && var v := EnvAttr(env, path[..k]).value;
        !(v.Object? && Get(v.fields, path[k]).Some?)
  {
    WalkMissing(env, path);
  }

  // ---------------------------------------------------------------------
  // `_check_mido_gateways`

  /** What a check reported, the gateway host names it collected, and the exception that
      stopped it, if any. */
  datatype Outcome = Outcome(reports: seq<Report>, hostnames: seq<Json>, error: Option<VpcError>)

  /** A `KeyError` that is not caught, or a value of the wrong shape (iterating it or
      calling `get` on it raises). */
  datatype VpcError = KeyError(message: string) | Malformed(what: Value)

  /** The values whose shape is checked: the `Gateways` value, which must be iterable,
      each gateway it yields, which must be a dictionary, the `midolman-host-mapping`
      value, which must be a dictionary, and each address it maps to, which must be
      hashable to be looked up in the clc set. */
  datatype Value = GatewayList | Gateway | HostMappingObject | HostAddress

  /** The report on one field of a gateway: a success iff the field is truthy. */
  function FieldReport(fields: seq<(string, Json)>, field: string, what: string): (r: Report)
    ensures r.Pass? <==> HasField(fields, field)
  {
    if HasField(fields, field) then Pass("VPC - \"" + field + "\" defined: " + Show(Get(fields, field).value))
    else Fail("VPC - \"" + field + "\" (" + what + ") for gateway missing or not defined")
  }

  /** The gateway field naming its host; also the legacy single-gateway key. */
  const GatewayHostKey := "GatewayHost"

  /** The three reports on one gateway, host first, then ip, then interface. */
  function GatewayReports(fields: seq<(string, Json)>): seq<Report> {
    [FieldReport(fields, GatewayHostKey, "hostname"),
     FieldReport(fields, "GatewayIP", "ip address"),
     FieldReport(fields, "GatewayInterface", "network interface")]
  }

  /** The host name a gateway contributes: its `GatewayHost` when that is truthy. */
  function GatewayHost(fields: seq<(string, Json)>): seq<Json> {
    if HasField(fields, GatewayHostKey) then [Get(fields, GatewayHostKey).value] else []
  }

  /** The loop over the `Gateways` list. */
  function GatewaysCheck(gws: seq<Json>): Outcome {
    if gws == [] then Outcome([], [], None)
    else
      var p := GatewaysCheck(gws[..|gws| - 1]);
      var gw := gws[|gws| - 1];
      if p.error.Some? then p
      else if !gw.Object? then Outcome(p.reports, p.hostnames, Some(Malformed(Gateway)))
      else Outcome(p.reports + GatewayReports(gw.fields), p.hostnames + GatewayHost(gw.fields), None)
  }

  /** `_check_mido_gateways`. With the legacy `GatewayHost` key, the host names go to a
      local variable only, so nothing is reported or collected. */
  function MidoGateways(env: Json): Outcome {
    match EnvAttr(env, MidoConfigPath + [GatewayHostKey])
    case Success(_) => Outcome([], [], None)
    case Failure(_) =>
      match EnvAttr(env, MidoConfigPath + ["Gateways"])
      case Failure(m) => Outcome([Fail(KeyErrorText(m))], [], None)
      case Success(g) =>
        match Elements(g)
        case Some(gws) => GatewaysCheck(gws)
        case None => Outcome([], [], Some(Malformed(GatewayList)))
  }

  /** What `for gw in g` visits: a list's items, a dictionary's keys, a string's
      characters; `None` for a value that cannot be iterated. */
  function Elements(g: Json): (r: Option<seq<Json>>)
    ensures r.None? <==> g.Scalar?
    ensures g.Array? ==> r == Some(g.items)
    ensures r.Some? && !g.Array? ==> forall i :: 0 <= i < |r.value| ==> r.value[i].Str?
  {
    match g
    case Array(xs) => Some(xs)
    case Object(fs) => Some(seq(|fs|, i requires 0 <= i < |fs| => Str(fs[i].0)))
    case Str(t) => Some(seq(|t|, i requires 0 <= i < |t| => Str([t[i]])))
    case Scalar(_, _) => None
  }

  /** The gateway loop passes iff every gateway is an object. */
  lemma {:induction false} GatewaysPass(gws: seq<Json>)
    ensures GatewaysCheck(gws).error.None? <==> forall i :: 0 <= i < |gws| ==> gws[i].Object?
  {
    if gws != [] {
      var init := gws[..|gws| - 1];
      GatewaysPass(init);
      assert forall i :: 0 <= i < |init| ==> init[i] == gws[i];
    }
  }

  /** Gateway `i`'s three reports sit at positions 3i to 3i+2. */
  predicate ReportsInOrder(rs: seq<Report>, gws: seq<Json>) {
    && |rs| == 3 * |gws|
    && forall i :: 0 <= i < |gws| ==> gws[i].Object? && rs[3 * i..3 * i + 3] == GatewayReports(gws[i].fields)
  }

  lemma ReportsInOrderSnoc(rs: seq<Report>, gws: seq<Json>, gw: Json)
    requires ReportsInOrder(rs, gws) && gw.Object?
    ensures ReportsInOrder(rs + GatewayReports(gw.fields), gws + [gw])
  {
    var o := rs + GatewayReports(gw.fields);
    var g := gws + [gw];
    forall i | 0 <= i < |g|
      ensures g[i].Object? && o[3 * i..3 * i + 3] == GatewayReports(g[i].fields)
    {
      if i < |gws| {
        assert g[i] == gws[i];
        assert o[3 * i..3 * i + 3] == rs[3 * i..3 * i + 3];
      } else {
        assert o[3 * i..3 * i + 3] == GatewayReports(gw.fields);
      }
    }
  }

  /** A gateway loop that passes reports exactly three times per gateway, in order. */
  lemma {:induction false} GatewaysReports(gws: seq<Json>)
    requires GatewaysCheck(gws).error.None?
    ensures ReportsInOrder(GatewaysCheck(gws).reports, gws)
  {
    if gws != [] {
      var init := gws[..|gws| - 1];
      GatewaysReports(init);
      assert gws == init + [gws[|gws| - 1]];
      ReportsInOrderSnoc(GatewaysCheck(init).reports, init, gws[|gws| - 1]);
    }
  }

  /** The loop collects only truthy host names, at most one per gateway, among them the
      truthy host name of every gateway. */
  lemma {:induction false} GatewaysHosts(gws: seq<Json>)
    requires GatewaysCheck(gws).error.None?
    ensures var o := GatewaysCheck(gws);
      && |o.hostnames| <= |gws|
      && (forall h :: h in o.hostnames ==> Truthy(h))
      && (forall i :: 0 <= i < |gws| && gws[i].Object? && HasField(gws[i].fields, GatewayHostKey) ==>
            Get(gws[i].fields, GatewayHostKey).value in o.hostnames)
  {
    if gws != [] {
      var init := gws[..|gws| - 1];
      GatewaysHosts(init);
      var p := GatewaysCheck(init);
      var gw := gws[|gws| - 1];
      var hs := GatewaysCheck(gws).hostnames;
      assert gw.Object? && hs == p.hostnames + GatewayHost(gw.fields);
      forall i | 0 <= i < |gws| && gws[i].Object? && HasField(gws[i].fields, GatewayHostKey)
        ensures Get(gws[i].fields, GatewayHostKey).value in hs
      {
        if i < |init| {
          assert init[i] == gws[i];
        }
      }
    }
  }

  /** One more gateway object adds its reports and its host name. */
  lemma GatewayStep(gws: seq<Json>, i: nat)
    requires i < |gws| && GatewaysCheck(gws[..i]).error.None? && gws[i].Object?
    ensures var p, q := GatewaysCheck(gws[..i]), GatewaysCheck(gws[..i + 1]);
      && q.error.None? && q.hostnames == p.hostnames + GatewayHost(gws[i].fields)
      && Passes(q.reports) == Passes(p.reports) + Passes(GatewayReports(gws[i].fields))
      && Fails(q.reports) == Fails(p.reports) + Fails(GatewayReports(gws[i].fields))
  {
    assert gws[..i + 1][..i] == gws[..i];
    CountsConcat(GatewaysCheck(gws[..i]).reports, GatewayReports(gws[i].fields));
  }

  /** Regrouping a concatenation of host name lists. */
  lemma JoinAssoc(a: seq<Json>, b: seq<Json>, c: seq<Json>)
    ensures a + b + c == a + (b + c)
  {
  }

  /** Once a gateway has failed, later ones change nothing. */
  lemma {:induction false} GatewaysStops(gws: seq<Json>, k: nat)
    requires k <= |gws| && GatewaysCheck(gws[..k]).error.Some?
    ensures GatewaysCheck(gws) == GatewaysCheck(gws[..k])
  {
    if k < |gws| {
      assert gws[..|gws| - 1][..k] == gws[..k];
      GatewaysStops(gws[..|gws| - 1], k);
    } else {
      assert gws[..k] == gws;
    }
  }

  /** The legacy key short-cuts the check; a missing `Gateways` list is exactly one
      failure, naming the missing key, and nothing more. */
  lemma GatewaysOutcomes(env: Json)
    ensures EnvAttr(env, MidoConfigPath + [GatewayHostKey]).Success? ==> MidoGateways(env) == Outcome([], [], None)
    ensures EnvAttr(env, MidoConfigPath + [GatewayHostKey]).Failure? && EnvAttr(env, MidoConfigPath + ["Gateways"]).Failure? ==>
      var o := MidoGateways(env);
      && Passes(o.reports) == 0 && Fails(o.reports) == 1 && o.hostnames == [] && o.error.None?
      && o.reports[0].message == KeyErrorText(EnvAttr(env, MidoConfigPath + ["Gateways"]).error)
  {
    match EnvAttr(env, MidoConfigPath + ["Gateways"])
    case Failure(m) =>
      assert [Fail(KeyErrorText(m))][..0] == [];
    case Success(_) =>
  }

  /** A `Gateways` value that is not a list passes only when it is an empty dictionary or
      an empty string, and then contributes nothing. */
  lemma GatewaysNotList(env: Json)
    requires EnvAttr(env, MidoConfigPath + [GatewayHostKey]).Failure?
    requires EnvAttr(env, MidoConfigPath + ["Gateways"]).Success?
    requires !EnvAttr(env, MidoConfigPath + ["Gateways"]).value.Array?
    ensures var g, o := EnvAttr(env, MidoConfigPath + ["Gateways"]).value, MidoGateways(env);
      && (o.error.None? <==> g == Object([]) || g == Str(""))
      && (o.error.None? ==> o == Outcome([], [], None))
  {
    var g := EnvAttr(env, MidoConfigPath + ["Gateways"]).value;
    var e := Elements(g);
    if e.Some? {
      GatewaysPass(e.value);
      if e.value != [] {
        assert !e.value[0].Object?;
      }
    }
  }

  // ---------------------------------------------------------------------
  // `_check_mido_host_mapping`

  /** `ip in hosts`, for a document value and a list of host strings. */
  predicate IsIn(ip: Json, hosts: seq<string>) {
    ip.Str? && ip.text in hosts
  }

  /** `ip in s` on a set raises `TypeError` for a list or a dictionary. */
  predicate Hashable(ip: Json) {
    !ip.Array? && !ip.Object?
  }

  /** The position of the first entry whose ip is not hashable, or the number of entries
      when there is none. */
  function FirstUnhashable(fields: seq<(string, Json)>): (k: nat)
    ensures k <= |fields|
    ensures forall i :: 0 <= i < k ==> Hashable(fields[i].1)
    ensures k < |fields| ==> !Hashable(fields[k].1)
  {
    if fields == [] || !Hashable(fields[0].1) then 0
    else
      var k := FirstUnhashable(fields[1..]);
      assert forall i :: 1 <= i < 1 + k ==> fields[i] == fields[1..][i - 1];
      1 + k
  }

  /** The first unhashable ip is where the loop over the entries stops. */
  lemma FirstUnhashableAt(fields: seq<(string, Json)>, i: nat)
    requires i <= |fields| && forall j :: 0 <= j < i ==> Hashable(fields[j].1)
    requires i < |fields| ==> !Hashable(fields[i].1)
    ensures FirstUnhashable(fields) == i
  {
  }

  /** A hashable ip at or before the first unhashable one lies before it. */
  lemma HashableBefore(fields: seq<(string, Json)>, i: nat)
    requires i < |fields| && i <= FirstUnhashable(fields) && Hashable(fields[i].1)
    ensures i < FirstUnhashable(fields)
  {
  }

  /** The report on one mapping entry whose ip is hashable (the loop stops before any
      other): a failure iff its ip is neither a clc nor a node controller host and its
      host name is no gateway host name. */
  function EntryReport(hostname: string, ip: Json, clc: seq<string>, nc: seq<string>, gws: seq<Json>): (r: Report)
    ensures r.Fail? <==> !IsIn(ip, clc) && !IsIn(ip, nc) && Str(hostname) !in gws
  {
    if !IsIn(ip, clc) && !IsIn(ip, nc) && Str(hostname) !in gws then
      Fail("VPC - The host " + hostname + ":" + Show(ip) + " is in the Midolman host-mapping but is not an NC, CLC, or Mido-GW")
    else
      Pass("VPC - VPC midolman check: " + hostname + ":" + Show(ip) + " is either an NCs, CLCs, or MidoGateway")
  }

  /** The loop over the mapping's entries. */
  function EntryReports(fields: seq<(string, Json)>, clc: seq<string>, nc: seq<string>, gws: seq<Json>): (rs: seq<Report>)
    ensures |rs| == |fields|
    ensures forall i :: 0 <= i < |fields| ==> rs[i] == EntryReport(fields[i].0, fields[i].1, clc, nc, gws)
  {
    if fields == [] then []
    else
      var f := fields[|fields| - 1];
      EntryReports(fields[..|fields| - 1], clc, nc, gws) + [EntryReport(f.0, f.1, clc, nc, gws)]
  }

  /** Which role's hosts are looked up in the mapping's values. */
  datatype Member = ClcHost | NcHost

  /** The report on one clc or node-controller host: a success iff it is a mapping value. */
  function MemberReport(ip: string, values: seq<Json>, kind: Member): (r: Report)
    ensures r.Pass? <==> Str(ip) in values
  {
    match kind
    case ClcHost =>
      if Str(ip) !in values then Fail("VPC - Did not find clc (" + ip + ") in Midolman host-mapping")
      else Pass("VPC - CLC " + ip + " is in the Midolman host-mapping")
    case NcHost =>
      if Str(ip) !in values then Fail("VPC - Did not find NC (" + ip + ") in Midolman host-mapping")
      else Pass("VPC - NC " + ip + " is in the midolman host-mapping")
  }

  /** The loop over the clc or the node-controller hosts. */
  function MemberReports(ips: seq<string>, values: seq<Json>, kind: Member): (rs: seq<Report>)
    ensures |rs| == |ips|
    ensures forall i :: 0 <= i < |ips| ==> rs[i] == MemberReport(ips[i], values, kind)
  {
    if ips == [] then []
    else MemberReports(ips[..|ips| - 1], values, kind) + [MemberReport(ips[|ips| - 1], values, kind)]
  }

  lemma EntryReportsStep(fields: seq<(string, Json)>, i: nat, clc: seq<string>, nc: seq<string>, gws: seq<Json>)
    requires i < |fields|
    ensures EntryReports(fields[..i + 1], clc, nc, gws) == EntryReports(fields[..i], clc, nc, gws) + [EntryReport(fields[i].0, fields[i].1, clc, nc, gws)]
  {
    assert fields[..i + 1][..i] == fields[..i];
  }

  lemma MemberReportsStep(ips: seq<string>, i: nat, values: seq<Json>, kind: Member)
    requires i < |ips|
    ensures MemberReports(ips[..i + 1], values, kind) == MemberReports(ips[..i], values, kind) + [MemberReport(ips[i], values, kind)]
  {
    assert ips[..i + 1][..i] == ips[..i];
  }

  const MappingExists := "VPC - Midolman hostmapping exists"

  /** `_check_mido_host_mapping`, against the clc and node-controller hosts in iteration
      order and the gateway host names collected so far. */
  function HostMapping(env: Json, clc: seq<string>, nc: seq<string>, gws: seq<Json>): Outcome {
    match EnvAttr(env, HostMappingPath)
    case Failure(m) => Outcome([Fail(KeyErrorText(m))], [], None)
    case Success(mapping) =>
      if !mapping.Object? then Outcome([Pass(MappingExists)], [], Some(Malformed(HostMappingObject)))
      else
        var m := EntriesOutcome(mapping.fields, clc, nc, gws);
        Outcome([Pass(MappingExists)] + m.reports, [], m.error)
  }

  /** What follows the presence report for a mapping that is a dictionary: the entry
      reports up to the first unhashable address, which raises; when there is none, all
      of them, then the clc and the node-controller lookups. */
  function EntriesOutcome(fields: seq<(string, Json)>, clc: seq<string>, nc: seq<string>, gws: seq<Json>): Outcome {
    var k := FirstUnhashable(fields);
    if k < |fields| then Outcome(EntryReports(fields[..k], clc, nc, gws), [], Some(Malformed(HostAddress)))
    else Outcome(EntryReports(fields, clc, nc, gws)
                 + MemberReports(clc, Values(fields), ClcHost) + MemberReports(nc, Values(fields), NcHost), [], None)
  }

  /** The reports on a mapping that is present: its presence, its entries, then the clc
      and the node-controller hosts. */
  function MappingChecks(fields: seq<(string, Json)>, clc: seq<string>, nc: seq<string>, gws: seq<Json>): seq<Report> {
    [Pass(MappingExists)] + EntryReports(fields, clc, nc, gws)
    + MemberReports(clc, Values(fields), ClcHost) + MemberReports(nc, Values(fields), NcHost)
  }

  /** A missing mapping is exactly one failure and nothing more. */
  lemma MissingMapping(env: Json, clc: seq<string>, nc: seq<string>, gws: seq<Json>)
    requires EnvAttr(env, HostMappingPath).Failure?
    ensures var o := HostMapping(env, clc, nc, gws);
      Passes(o.reports) == 0 && Fails(o.reports) == 1 && o.error.None?
  {
    assert [Fail(KeyErrorText(EnvAttr(env, HostMappingPath).error))][..0] == [];
  }

  /** A mapping whose addresses are all hashable gets every check. */
  lemma MappingHashable(fields: seq<(string, Json)>, clc: seq<string>, nc: seq<string>, gws: seq<Json>)
    requires forall i :: 0 <= i < |fields| ==> Hashable(fields[i].1)
    ensures var m := EntriesOutcome(fields, clc, nc, gws);
      m.error.None? && [Pass(MappingExists)] + m.reports == MappingChecks(fields, clc, nc, gws)
  {
    FirstUnhashableAt(fields, |fields|);
    PrependAssoc([Pass(MappingExists)], EntryReports(fields, clc, nc, gws),
      MemberReports(clc, Values(fields), ClcHost), MemberReports(nc, Values(fields), NcHost));
  }

  lemma PrependAssoc(a: seq<Report>, b: seq<Report>, c: seq<Report>, d: seq<Report>)
    ensures a + (b + c + d) == a + b + c + d
  {
  }

  /** Otherwise the entry reports stop before the first list or dictionary address, which
      raises, and no clc or node-controller host is looked up. */
  lemma MappingUnhashable(fields: seq<(string, Json)>, clc: seq<string>, nc: seq<string>, gws: seq<Json>, i: nat)
    requires i < |fields| && !Hashable(fields[i].1) && forall j :: 0 <= j < i ==> Hashable(fields[j].1)
    ensures var m := EntriesOutcome(fields, clc, nc, gws);
      m.error == Some(Malformed(HostAddress)) && m.reports == EntryReports(fields[..i], clc, nc, gws) && |m.reports| == i
  {
    FirstUnhashableAt(fields, i);
  }

  /** One report per mapping entry, after the presence report, failing iff the entry's ip
      is no clc or node controller host and its name no gateway host name. */
  lemma MappingEntries(fields: seq<(string, Json)>, clc: seq<string>, nc: seq<string>, gws: seq<Json>)
    ensures var rs := MappingChecks(fields, clc, nc, gws);
      && |rs| == 1 + |fields| + |clc| + |nc| && rs[0] == Pass(MappingExists)
      && forall i :: 0 <= i < |fields| ==>
           (rs[1 + i].Fail? <==> !IsIn(fields[i].1, clc) && !IsIn(fields[i].1, nc) && Str(fields[i].0) !in gws)
  {
    EntriesWithin([Pass(MappingExists)], fields, clc, nc, gws,
      MemberReports(clc, Values(fields), ClcHost), MemberReports(nc, Values(fields), NcHost));
  }

  /** A run of entry reports inside a longer sequence of reports. */
  lemma EntriesWithin(h: seq<Report>, fields: seq<(string, Json)>, clc: seq<string>, nc: seq<string>, gws: seq<Json>,
                      c: seq<Report>, d: seq<Report>)
    ensures var rs := h + EntryReports(fields, clc, nc, gws) + c + d;
      forall i :: 0 <= i < |fields| ==>
        (rs[|h| + i].Fail? <==> !IsIn(fields[i].1, clc) && !IsIn(fields[i].1, nc) && Str(fields[i].0) !in gws)
  {
    var e := EntryReports(fields, clc, nc, gws);
    forall i | 0 <= i < |fields|
      ensures (h + e + c + d)[|h| + i] == EntryReport(fields[i].0, fields[i].1, clc, nc, gws)
    {
      Pick(h, e, c, |h| + i);
    }
  }

  /** A run of member reports inside a longer sequence of reports. */
  lemma MembersWithin(h: seq<Report>, ips: seq<string>, values: seq<Json>, kind: Member, d: seq<Report>)
    ensures var rs := h + MemberReports(ips, values, kind) + d;
      forall i :: 0 <= i < |ips| ==> (rs[|h| + i].Pass? <==> Str(ips[i]) in values)
  {
    var c := MemberReports(ips, values, kind);
    forall i | 0 <= i < |ips|
      ensures (h + c + d)[|h| + i].Pass? <==> Str(ips[i]) in values
    {
      Pick(h, c, d, |h| + i);
    }
  }

  /** A run of member reports at the end of a sequence of reports. */
  lemma MembersLast(h: seq<Report>, ips: seq<string>, values: seq<Json>, kind: Member)
    ensures var rs := h + MemberReports(ips, values, kind);
      forall i :: 0 <= i < |ips| ==> (rs[|h| + i].Pass? <==> Str(ips[i]) in values)
  {
    var c := MemberReports(ips, values, kind);
    forall i | 0 <= i < |ips|
      ensures (h + c)[|h| + i].Pass? <==> Str(ips[i]) in values
    {
      assert (h + c)[|h| + i] == c[i];
    }
  }

  /** After the entries, one report per clc host, passing iff it is among the mapping's
      values. */
  lemma MappingClc(fields: seq<(string, Json)>, clc: seq<string>, nc: seq<string>, gws: seq<Json>)
    ensures var rs := MappingChecks(fields, clc, nc, gws);
      forall i :: 0 <= i < |clc| ==> (rs[1 + |fields| + i].Pass? <==> Str(clc[i]) in Values(fields))
  {
    var h := [Pass(MappingExists)] + EntryReports(fields, clc, nc, gws);
    MembersWithin(h, clc, Values(fields), ClcHost, MemberReports(nc, Values(fields), NcHost));
  }

  /** Last, one report per node controller host, passing iff it is among the mapping's
      values. */
  lemma MappingNc(fields: seq<(string, Json)>, clc: seq<string>, nc: seq<string>, gws: seq<Json>)
    ensures var rs := MappingChecks(fields, clc, nc, gws);
      forall i :: 0 <= i < |nc| ==> (rs[1 + |fields| + |clc| + i].Pass? <==> Str(nc[i]) in Values(fields))
  {
    var h := [Pass(MappingExists)] + EntryReports(fields, clc, nc, gws);
    var c := MemberReports(clc, Values(fields), ClcHost);
    MembersLast(h + c, nc, Values(fields), NcHost);
  }

  /** Indexing a three-part concatenation. */
  lemma Pick(a: seq<Report>, b: seq<Report>, c: seq<Report>, k: nat)
    requires k < |a| + |b| + |c|
    ensures (a + b + c)[k] == if k < |a| then a[k] else if k < |a| + |b| then b[k - |a|] else c[k - |a| - |b|]
  {
  }

  // ---------------------------------------------------------------------
  // `validate`

  /** `validate`, starting from the gateway host names `gw0` already collected: nothing
      unless the network mode is VPCMIDO; then the Midonet section must exist, and the
      gateway and host-mapping checks run in turn. */
  function Validation(env: Json, clc: seq<string>, nc: seq<string>, gw0: seq<Json>): Outcome {
    match EnvAttr(env, NetModePath)
    case Failure(m) => Outcome([], gw0, Some(KeyError(m)))
    case Success(mode) =>
      if mode != Str("VPCMIDO") then Outcome([], gw0, None)
      else
        match EnvAttr(env, MidoConfigPath)
        case Failure(m) => Outcome([], gw0, Some(KeyError(m)))
        case Success(_) =>
          var g := MidoGateways(env);
          if g.error.Some? then Outcome(g.reports, gw0 + g.hostnames, g.error)
          else
            var h := HostMapping(env, clc, nc, gw0 + g.hostnames);
            Outcome(g.reports + h.reports, gw0 + g.hostnames, h.error)
  }

  /** Outside VPCMIDO nothing is checked and nothing changes; a missing network mode or
      Midonet section raises before anything is reported; under VPCMIDO the host mapping
      is checked against every gateway host name collected. */
  lemma ValidationModes(env: Json, clc: seq<string>, nc: seq<string>, gw0: seq<Json>)
    ensures var v := Validation(env, clc, nc, gw0);
      && (EnvAttr(env, NetModePath).Failure? ==> v == Outcome([], gw0, Some(KeyError(EnvAttr(env, NetModePath).error))))
      && (EnvAttr(env, NetModePath).Success? && EnvAttr(env, NetModePath).value != Str("VPCMIDO") ==> v == Outcome([], gw0, None))
      && (EnvAttr(env, NetModePath) == Success(Str("VPCMIDO")) && EnvAttr(env, MidoConfigPath).Failure? ==>
            v.reports == [] && v.error.Some?)
      && (EnvAttr(env, NetModePath) == Success(Str("VPCMIDO")) && EnvAttr(env, MidoConfigPath).Success? ==>
            var g := MidoGateways(env);
            && v.hostnames == gw0 + g.hostnames
            && v.reports[..|g.reports|] == g.reports
            && (g.error.None? ==> v.reports[|g.reports|..] == HostMapping(env, clc, nc, v.hostnames).reports))
  {
  }

  /** The Midonet section lies on the path of both gateway keys: when it is missing, so
      are they. */
  lemma GatewaysNeedMido(env: Json)
    requires EnvAttr(env, MidoConfigPath).Failure?
    ensures EnvAttr(env, MidoConfigPath + [GatewayHostKey]).Failure?
    ensures EnvAttr(env, MidoConfigPath + ["Gateways"]).Failure?
  {
    EnvAttrSnoc(env, MidoConfigPath, GatewayHostKey);
    EnvAttrSnoc(env, MidoConfigPath, "Gateways");
  }

  // ---------------------------------------------------------------------
  // The validator object.

  class VpcValidator {
    const tally: Tally
    /** The environment document. */
    const environment: Json
    /** `roles['clc']` and `roles['node-controller']`, in the order they are iterated. */
    const clc: seq<string>
    const nc: seq<string>
    const netModePath: seq<string>
    const midoConfigPath: seq<string>
    var midoGwHostnames: seq<Json>

    constructor (tally: Tally, environment: Json, clc: seq<string>, nc: seq<string>)
      ensures this.tally == tally && this.environment == environment && this.clc == clc && this.nc == nc
      ensures netModePath == NetModePath && midoConfigPath == MidoConfigPath && midoGwHostnames == []
    {
      this.tally := tally;
      this.environment := environment;
      this.clc, this.nc := clc, nc;
      netModePath, midoConfigPath := NetModePath, MidoConfigPath;
      midoGwHostnames := [];
    }

    /** `_get_env_attr`: walks the document key by key. */
    method GetEnvAttr(path: seq<string>) returns (r: Result<Json, string>)
      ensures r == EnvAttr(environment, path)
    {
      var context := environment;
      var i := 0;
      while i < |path|
        invariant 0 <= i <= |path|
        invariant Walk(environment, path) == Shift(Walk(context, path[i..]), i)
      {
        var key := path[i];
        assert path[i..][0] == key && path[i..][1..] == path[i + 1..];
        if context.Object? && Get(context.fields, key).Some? {
          context := Get(context.fields, key).value;
          i := i + 1;
        } else {
          return Failure(MissingMessage(key, path));
        }
      }
      assert path[i..] == [];
      return Success(context);
    }

    /** The three field checks of one gateway; a truthy host name joins the list. */
    method CheckGateway(fields: seq<(string, Json)>)
      modifies this, tally
      ensures midoGwHostnames == old(midoGwHostnames) + GatewayHost(fields)
      ensures tally.passed == old(tally.passed) + Passes(GatewayReports(fields))
      ensures tally.failed == old(tally.failed) + Fails(GatewayReports(fields))
      ensures tally.warnings == old(tally.warnings)
    {
      var host := FieldReport(fields, GatewayHostKey, "hostname");
      var ip := FieldReport(fields, "GatewayIP", "ip address");
      var iface := FieldReport(fields, "GatewayInterface", "network interface");
      tally.Tell(host);
      if HasField(fields, GatewayHostKey) {
        midoGwHostnames := midoGwHostnames + [Get(fields, GatewayHostKey).value];
      }
      tally.Tell(ip);
      tally.Tell(iface);
      assert GatewayReports(fields) == [host] + [ip] + [iface];
      CountsConcat([host], [ip]);
      CountsConcat([host] + [ip], [iface]);
    }

    /** `_check_mido_gateways`. */
    method CheckMidoGateways() returns (err: Option<VpcError>)
      requires midoConfigPath == MidoConfigPath
      modifies this, tally
      ensures var o := MidoGateways(environment);
        && err == o.error
        && midoGwHostnames == old(midoGwHostnames) + o.hostnames
        && tally.passed == old(tally.passed) + Passes(o.reports) && tally.failed == old(tally.failed) + Fails(o.reports)
        && tally.warnings == old(tally.warnings)
    {
      var legacy := GetEnvAttr(midoConfigPath + [GatewayHostKey]);
      if legacy.Success? {
        // The legacy host name goes to a local variable only.
        return None;
      }
      var gateways := GetEnvAttr(midoConfigPath + ["Gateways"]);
      if gateways.Failure? {
        tally.Failure(KeyErrorText(gateways.error));
        assert [Fail(KeyErrorText(gateways.error))][..0] == [];
        return None;
      }
      var elements := Elements(gateways.value);
      if elements.None? {
        return Some(Malformed(GatewayList));
      }
      err := CheckGatewayList(elements.value);
    }

    /** The loop over the `Gateways` list. */
    method CheckGatewayList(gws: seq<Json>) returns (err: Option<VpcError>)
      modifies this, tally
      ensures var o := GatewaysCheck(gws);
        && err == o.error
        && midoGwHostnames == old(midoGwHostnames) + o.hostnames
        && tally.passed == old(tally.passed) + Passes(o.reports) && tally.failed == old(tally.failed) + Fails(o.reports)
        && tally.warnings == old(tally.warnings)
    {
      var i := 0;
      while i < |gws|
        invariant 0 <= i <= |gws|
        invariant GatewaysCheck(gws[..i]).error.None?
        invariant midoGwHostnames == old(midoGwHostnames) + GatewaysCheck(gws[..i]).hostnames
        invariant tally.passed == old(tally.passed) + Passes(GatewaysCheck(gws[..i]).reports)
        invariant tally.failed == old(tally.failed) + Fails(GatewaysCheck(gws[..i]).reports)
        invariant tally.warnings == old(tally.warnings)
      {
        var gw := gws[i];
        if !gw.Object? {
          assert gws[..i + 1][..i] == gws[..i];
          GatewaysStops(gws, i + 1);
          return Some(Malformed(Gateway));
        }
        GatewayStep(gws, i);
        JoinAssoc(old(midoGwHostnames), GatewaysCheck(gws[..i]).hostnames, GatewayHost(gw.fields));
        CheckGateway(gw.fields);
        i := i + 1;
      }
      assert gws[..i] == gws;
      err := None;
    }

    /** The loop over the mapping's entries, up to the first unhashable address. */
    method CheckEntries(fields: seq<(string, Json)>) returns (err: Option<VpcError>)
      modifies tally
      ensures var k := FirstUnhashable(fields);
        && err == (if k < |fields| then Some(Malformed(HostAddress)) else None)
        && tally.passed == old(tally.passed) + Passes(EntryReports(fields[..k], clc, nc, midoGwHostnames))
        && tally.failed == old(tally.failed) + Fails(EntryReports(fields[..k], clc, nc, midoGwHostnames))
      ensures tally.warnings == old(tally.warnings)
    {
      ghost var k := FirstUnhashable(fields);
      var i := 0;
      while i < |fields|
        invariant 0 <= i <= k
        invariant tally.passed == old(tally.passed) + Passes(EntryReports(fields[..i], clc, nc, midoGwHostnames))
        invariant tally.failed == old(tally.failed) + Fails(EntryReports(fields[..i], clc, nc, midoGwHostnames))
        invariant tally.warnings == old(tally.warnings)
      {
        var (hostname, ip) := fields[i];
        if !Hashable(ip) {
          assert i == k;
          return Some(Malformed(HostAddress));
        }
        HashableBefore(fields, i);
        EntryReportsStep(fields, i, clc, nc, midoGwHostnames);
        CountsConcat(EntryReports(fields[..i], clc, nc, midoGwHostnames), [EntryReport(hostname, ip, clc, nc, midoGwHostnames)]);
        tally.Tell(EntryReport(hostname, ip, clc, nc, midoGwHostnames));
        i := i + 1;
      }
      assert fields[..i] == fields;
      err := None;
    }

    /** The loop over the clc or the node-controller hosts. */
    method CheckMembers(ips: seq<string>, values: seq<Json>, kind: Member)
      modifies tally
      ensures tally.passed == old(tally.passed) + Passes(MemberReports(ips, values, kind))
      ensures tally.failed == old(tally.failed) + Fails(MemberReports(ips, values, kind))
      ensures tally.warnings == old(tally.warnings)
    {
      var i := 0;
      while i < |ips|
        invariant 0 <= i <= |ips|
        invariant tally.passed == old(tally.passed) + Passes(MemberReports(ips[..i], values, kind))
        invariant tally.failed == old(tally.failed) + Fails(MemberReports(ips[..i], values, kind))
        invariant tally.warnings == old(tally.warnings)
      {
        MemberReportsStep(ips, i, values, kind);
        CountsConcat(MemberReports(ips[..i], values, kind), [MemberReport(ips[i], values, kind)]);
        tally.Tell(MemberReport(ips[i], values, kind));
        i := i + 1;
      }
      assert ips[..i] == ips;
    }

    /** The checks of a mapping that is a dictionary, after its presence report. */
    method CheckMapping(fields: seq<(string, Json)>) returns (err: Option<VpcError>)
      modifies tally
      ensures var m := EntriesOutcome(fields, clc, nc, midoGwHostnames);
        && err == m.error
        && tally.passed == old(tally.passed) + Passes(m.reports) && tally.failed == old(tally.failed) + Fails(m.reports)
      ensures tally.warnings == old(tally.warnings)
    {
      ghost var k := FirstUnhashable(fields);
      err := CheckEntries(fields);
      if err.Some? {
        return;
      }
      assert fields[..k] == fields;
      ghost var e := EntryReports(fields, clc, nc, midoGwHostnames);
      ghost var c := MemberReports(clc, Values(fields), ClcHost);
      CountsConcat(e, c);
      CountsConcat(e + c, MemberReports(nc, Values(fields), NcHost));
      CheckMembers(clc, Values(fields), ClcHost);
      CheckMembers(nc, Values(fields), NcHost);
    }

    /** `_check_mido_host_mapping`. */
    method CheckMidoHostMapping() returns (err: Option<VpcError>)
      modifies tally
      ensures var o := HostMapping(environment, clc, nc, midoGwHostnames);
        && err == o.error
        && tally.passed == old(tally.passed) + Passes(o.reports) && tally.failed == old(tally.failed) + Fails(o.reports)
        && tally.warnings == old(tally.warnings)
    {
      var mapping := GetEnvAttr(HostMappingPath);
      if mapping.Failure? {
        tally.Failure(KeyErrorText(mapping.error));
        assert [Fail(KeyErrorText(mapping.error))][..0] == [];
        return None;
      }
      tally.Success(MappingExists);
      assert [Pass(MappingExists)][..0] == [];
      if !mapping.value.Object? {
        return Some(Malformed(HostMappingObject));
      }
      var fields := mapping.value.fields;
      CountsConcat([Pass(MappingExists)], EntriesOutcome(fields, clc, nc, midoGwHostnames).reports);
      err := CheckMapping(fields);
    }

    /** `validate`. */
    method Validate() returns (err: Option<VpcError>)
      requires netModePath == NetModePath && midoConfigPath == MidoConfigPath
      modifies this, tally
      ensures var v := Validation(environment, clc, nc, old(midoGwHostnames));
        && err == v.error
        && midoGwHostnames == v.hostnames
        && tally.passed == old(tally.passed) + Passes(v.reports) && tally.failed == old(tally.failed) + Fails(v.reports)
        && tally.warnings == old(tally.warnings)
    {
      var mode := GetEnvAttr(netModePath);
      if mode.Failure? {
        return Some(KeyError(mode.error));
      }
      if mode.value != Str("VPCMIDO") {
        return None;
      }
      var mido := GetEnvAttr(midoConfigPath);
      if mido.Failure? {
        return Some(KeyError(mido.error));
      }
      ghost var g := MidoGateways(environment);
      err := CheckMidoGateways();
      if err.Some? {
        return;
      }
      ghost var h := HostMapping(environment, clc, nc, midoGwHostnames);
      CountsConcat(g.reports, h.reports);
      err := CheckMidoHostMapping();
    }
  }
}

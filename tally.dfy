/** The pass/fail/warning tally that every check reports into
    (the `DebuggerPlugin` base class). Printing is left out; `Report`
    returns what would be printed. */
module Debugger {

  /** The two colours `report` chooses between. */
  datatype Colour = Cyan | Red

  datatype Summary = Summary(colour: Colour, name: string, passed: nat, failed: nat)

  /** One message a check reports: through `success` or through `failure`. */
  datatype Report = Pass(message: string) | Fail(message: string)

  /** How many of `rs` are successes. */
  function Passes(rs: seq<Report>): nat {
    if rs == [] then 0 else Passes(rs[..|rs| - 1]) + (if rs[|rs| - 1].Pass? then 1 else 0)
  }

  /** How many of `rs` are failures. */
  function Fails(rs: seq<Report>): nat {
    if rs == [] then 0 else Fails(rs[..|rs| - 1]) + (if rs[|rs| - 1].Fail? then 1 else 0)
  }

  /** Every report is one or the other. */
  lemma {:induction false} PassesFails(rs: seq<Report>)
    ensures Passes(rs) + Fails(rs) == |rs|
  {
    if rs != [] {
      PassesFails(rs[..|rs| - 1]);
    }
  }

  /** Counting reports distributes over concatenation. */
  lemma {:induction false} CountsConcat(a: seq<Report>, b: seq<Report>)
    ensures Passes(a + b) == Passes(a) + Passes(b)
    ensures Fails(a + b) == Fails(a) + Fails(b)
    decreases |b|
  {
    if b == [] {
      assert a + b == a;
    } else {
      var init := b[..|b| - 1];
      assert (a + b)[..|a + b| - 1] == a + init;
      CountsConcat(a, init);
    }
  }

  class Tally {
    var passed: nat
    var failed: nat
    var warnings: nat
    /** The plugin's class name. */
    const name: string
    /** Minimum memory per cloud component, in KB. */
    const minMemoryReq: int
    /** Minimum disk space per cloud component, in GB. */
    const minDiskReq: int
    /** Supported CentOS/RHEL major version. */
    const osVersion: int
    /** Allowed clock skew between components, in seconds. */
    const clockSkewSec: int

    constructor (name: string)
      ensures passed == 0 && failed == 0 && warnings == 0
      ensures minMemoryReq == 4000000 && minDiskReq == 30
      ensures osVersion == 6 && clockSkewSec == 20
      ensures this.name == name
    {
      passed, failed, warnings := 0, 0, 0;
      this.name := name;
      minMemoryReq, minDiskReq := 4000000, 30;
      osVersion, clockSkewSec := 6, 20;
    }

    method Success(message: string)
      modifies this
      ensures passed == old(passed) + 1
      ensures failed == old(failed) && warnings == old(warnings)
    {
      passed := passed + 1;
    }

    method Failure(message: string)
      modifies this
      ensures failed == old(failed) + 1
      ensures passed == old(passed) && warnings == old(warnings)
    {
      failed := failed + 1;
    }

    method Warning(message: string)
      modifies this
      ensures warnings == old(warnings) + 1
      ensures passed == old(passed) && failed == old(failed)
    {
      warnings := warnings + 1;
    }

    /** Reports `r` through `success` or `failure`. */
    method Tell(r: Report)
      modifies this
      ensures passed == old(passed) + Passes([r]) && failed == old(failed) + Fails([r])
      ensures warnings == old(warnings)
    {
      assert [r][..0] == [];
      if r.Pass? {
        Success(r.message);
      } else {
        Failure(r.message);
      }
    }

    /** Informational output only: no counter changes (the method may modify nothing). */
    method Info(message: string)
    {
    }

    /** The final report: cyan exactly when nothing failed, red otherwise. */
    method Report() returns (s: Summary)
      ensures s.name == name && s.passed == passed && s.failed == failed
      ensures s.colour == Cyan <==> failed == 0
      ensures s.colour == Red <==> failed != 0
    {
      var colour := Red;
      if failed == 0 {
        colour := Cyan;
      }
      s := Summary(colour, name, passed, failed);
    }
  }
}

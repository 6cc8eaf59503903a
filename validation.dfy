/** Form validators that answer with the message of the first check that fails, or nothing. */
module Validation {
  import opened Wrappers

  datatype Check = Check(ok: bool, message: string)

  /** The `if (...) return "..."; ... return null;` chain. */
  function FirstFailing(checks: seq<Check>): (r: Option<string>)
    ensures r.None? <==> forall i :: 0 <= i < |checks| ==> checks[i].ok
    ensures r.Some? ==> exists i :: 0 <= i < |checks| && !checks[i].ok && checks[i].message == r.value
                                    && forall j :: 0 <= j < i ==> checks[j].ok
  {
    if checks == [] then None
    else if !checks[0].ok then Some(checks[0].message)
    else
      var r := FirstFailing(checks[1..]);
      assert r.Some? ==> exists i :: 0 <= i < |checks[1..]| && !checks[1..][i].ok && checks[1..][i].message == r.value
                                    && forall j :: 0 <= j < i ==> checks[1..][j].ok;
      assert r.Some? ==> exists i :: 0 <= i < |checks| && !checks[i].ok && checks[i].message == r.value
                                    && forall j :: 0 <= j < i ==> checks[j].ok;
      r
  }

  /** The index of the first failing check, as a partner of FirstFailing. */
  lemma {:induction false} FirstFailingAt(checks: seq<Check>, i: int)
    requires 0 <= i < |checks| && !checks[i].ok
    requires forall j :: 0 <= j < i ==> checks[j].ok
    ensures FirstFailing(checks) == Some(checks[i].message)
  {
    if i > 0 {
      FirstFailingAt(checks[1..], i - 1);
    }
  }
}

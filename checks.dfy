/**
  The shape every submit handler of the account screens shares: a list of checks run in
  order, where the first one that fails puts its message in the screen's error and stops the
  handler before any request is made.
*/
module Checks {

  /** One validation step: whether the form passes it, and the message shown when it does not. */
  datatype Check = Check(ok: bool, message: string)

  /** The position of the first failing check, or `|cs|` when all pass. */
  function FirstFailing(cs: seq<Check>): (k: nat)
    ensures k <= |cs|
    ensures forall j :: 0 <= j < k ==> cs[j].ok
    ensures k < |cs| ==> !cs[k].ok
  {
    if cs == [] then 0
    else if !cs[0].ok then 0
    else 1 + FirstFailing(cs[1..])
  }

  /** The message of the first failing check, or '' when every check passes. */
  function FirstFailure(cs: seq<Check>): (r: string)
    requires forall j :: 0 <= j < |cs| && !cs[j].ok ==> cs[j].message != ""
    ensures r == "" <==> forall j :: 0 <= j < |cs| ==> cs[j].ok
  {
    var k := FirstFailing(cs);
    if k < |cs| then cs[k].message else ""
  }

  /** The checks run front to back: a failing first check decides, a passing one hands over
      to the rest. */
  lemma FirstFailureCons(c: Check, rest: seq<Check>)
    requires !c.ok ==> c.message != ""
    requires forall j :: 0 <= j < |rest| && !rest[j].ok ==> rest[j].message != ""
    ensures forall j :: 0 <= j < |[c] + rest| && !([c] + rest)[j].ok ==> ([c] + rest)[j].message != ""
    ensures FirstFailure([c] + rest) == if c.ok then FirstFailure(rest) else c.message
  {
    assert ([c] + rest)[1..] == rest;
    assert forall j :: 0 < j < |[c] + rest| ==> ([c] + rest)[j] == rest[j - 1];
  }
}

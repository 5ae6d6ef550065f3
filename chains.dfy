/**
 * Ordered fallback chains: a fixed list of strategies is tried in order and
 * the first one that does not fail ends the chain.  An attempt outcome is a
 * `bool` (true: the strategy did not raise).
 */
module Chains {

  /** Index of the first strategy that succeeds, or |s| when all of them fail. */
  function FirstSuccess(s: seq<bool>): (r: nat)
    ensures r <= |s|
    ensures forall j :: 0 <= j < r ==> !s[j]
    ensures r < |s| ==> s[r]
    ensures r < |s| <==> true in s
  {
    if s == [] then 0
    else if s[0] then 0
    else 1 + FirstSuccess(s[1..])
  }

  /** The first success is at k when everything before k fails and k succeeds (or is the end). */
  lemma FirstSuccessAt(s: seq<bool>, k: nat)
    requires k <= |s|
    requires forall j :: 0 <= j < k ==> !s[j]
    requires k < |s| ==> s[k]
    ensures FirstSuccess(s) == k
  {
  }

  /** The first failure is at k when everything before k succeeds and k fails (or is the end). */
  lemma FirstFailureAt(s: seq<bool>, k: nat)
    requires k <= |s|
    requires forall j :: 0 <= j < k ==> s[j]
    requires k < |s| ==> !s[k]
    ensures FirstFailure(s) == k
  {
  }

  /** How many strategies a chain tries: up to and including the first success, or all. */
  function Attempted(s: seq<bool>): (r: nat)
    ensures r <= |s|
    ensures true in s <==> 0 < r && s[r - 1]
    ensures forall j :: 0 <= j < r - 1 ==> !s[j]
    ensures true !in s ==> r == |s|
  {
    if true in s then FirstSuccess(s) + 1 else |s|
  }

  /** Index of the first step that fails, or |s| when all of them succeed. */
  function FirstFailure(s: seq<bool>): (r: nat)
    ensures r <= |s|
    ensures forall j :: 0 <= j < r ==> s[j]
    ensures r < |s| ==> !s[r]
    ensures r < |s| <==> false in s
  {
    if s == [] then 0
    else if !s[0] then 0
    else 1 + FirstFailure(s[1..])
  }

  /** The 1-based numbers 1, 2, ..., k. */
  function CountUp(k: nat): (r: seq<nat>)
    ensures |r| == k
    ensures forall j :: 0 <= j < k ==> r[j] == j + 1
  {
    if k == 0 then [] else CountUp(k - 1) + [k]
  }
}

/** How the exit codes of the batches are folded into the dispatcher's own
    exit code. The Go and C versions keep the last failure; the Rust version
    stops at the first one. */
module ExitCodes {

  /** The last non-zero code, or 0 when every code is 0. */
  function LastFailure(codes: seq<int>): (r: int)
    ensures r == 0 <==> forall i :: 0 <= i < |codes| ==> codes[i] == 0
    ensures r != 0 ==> exists k :: 0 <= k < |codes| && codes[k] == r
                         && forall j :: k < j < |codes| ==> codes[j] == 0
    decreases |codes|
  {
    if codes == [] then 0
    else if codes[|codes| - 1] != 0 then codes[|codes| - 1]
    else
      var init := codes[..|codes| - 1];
      var r := LastFailure(init);
      assert forall i :: 0 <= i < |init| ==> codes[i] == init[i];
      assert codes == init + [0];
      r
  }

  /** Extending the codes seen by one: a failure replaces the result, a
      success keeps it. */
  lemma LastFailureStep(codes: seq<int>, i: nat)
    requires i < |codes|
    ensures LastFailure(codes[..i + 1]) == if codes[i] != 0 then codes[i] else LastFailure(codes[..i])
  {
    var s := codes[..i + 1];
    assert s[|s| - 1] == codes[i];
    assert s[..|s| - 1] == codes[..i];
  }

  /** The first non-zero code, or 0 when every code is 0. */
  function FirstFailure(codes: seq<int>): (r: int)
    ensures r == 0 <==> forall i :: 0 <= i < |codes| ==> codes[i] == 0
    ensures r != 0 ==> exists k :: 0 <= k < |codes| && codes[k] == r
                         && forall j :: 0 <= j < k ==> codes[j] == 0
    decreases |codes|
  {
    if codes == [] then 0
    else if codes[0] != 0 then codes[0]
    else
      var r := FirstFailure(codes[1..]);
      assert forall i :: 1 <= i < |codes| ==> codes[i] == codes[1..][i - 1];
      r
  }

  /** How many codes a search that stops at the first failure looks at: all of
      them when none fails, otherwise up to and including the first failure. */
  function RunCount(codes: seq<int>): (n: nat)
    ensures n <= |codes|
    ensures forall j :: 0 <= j < n - 1 ==> codes[j] == 0
    ensures n == |codes| || (0 < n && codes[n - 1] != 0)
    decreases |codes|
  {
    if codes == [] then 0
    else if codes[0] != 0 then 1
    else
      var n := RunCount(codes[1..]);
      assert forall i :: 1 <= i < |codes| ==> codes[i] == codes[1..][i - 1];
      1 + n
  }

  /** The codes after the first failure play no part: any two code sequences
      that agree on what the search looked at give the same result. */
  lemma {:induction false} FirstFailureIgnoresLater(codes: seq<int>, other: seq<int>)
    requires |other| == |codes|
    requires other[..RunCount(codes)] == codes[..RunCount(codes)]
    ensures FirstFailure(other) == FirstFailure(codes)
    decreases |codes|
  {
    var n := RunCount(codes);
    if codes != [] && codes[0] == 0 {
      assert other[0] == codes[0];
      assert n == 1 + RunCount(codes[1..]);
      assert other[1..][..n - 1] == other[..n][1..];
      assert codes[1..][..n - 1] == codes[..n][1..];
      FirstFailureIgnoresLater(codes[1..], other[1..]);
    } else if codes != [] {
      assert other[..n][0] == other[0];
      assert codes[..n][0] == codes[0];
    }
  }
}

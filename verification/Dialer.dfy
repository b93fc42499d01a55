// Dialling a list of endpoints in order until one answers.
module Dialer {
  import opened Options

  function DialAny(endpoints: seq<string>, reachable: set<string>): Option<string>
  {
    if endpoints == [] then None
    else if endpoints[0] in reachable then Some(endpoints[0])
    else DialAny(endpoints[1..], reachable)
  }

  method DialFirst(endpoints: seq<string>, reachable: set<string>) returns (first: Option<string>)
    ensures first == DialAny(endpoints, reachable)
  {
    for i := 0 to |endpoints|
      invariant DialAny(endpoints, reachable) == DialAny(endpoints[i..], reachable)
    {
      if endpoints[i] in reachable { return Some(endpoints[i]); }
      assert endpoints[i..][1..] == endpoints[i + 1..];
    }
    return None;
  }

  // The endpoint dialled is the first that answers; there is none only when none answers.
  lemma {:induction false} DialAnyIsFirst(endpoints: seq<string>, reachable: set<string>, i: nat)
    requires i < |endpoints| && forall j :: 0 <= j < i ==> endpoints[j] !in reachable
    ensures endpoints[i] in reachable ==> DialAny(endpoints, reachable) == Some(endpoints[i])
    ensures DialAny(endpoints, reachable).None? ==> endpoints[i] !in reachable
    ensures var r := DialAny(endpoints, reachable); r.Some? ==> r.value in endpoints[i..] && r.value in reachable
    decreases |endpoints|
  {
    if i > 0 {
      DialAnyIsFirst(endpoints[1..], reachable, i - 1);
      assert endpoints[1..][i - 1..] == endpoints[i..];
    } else if endpoints[0] !in reachable && |endpoints| > 1 {
      DialAnyIsFirst(endpoints[1..], reachable, 0);
      assert endpoints[1..][0..] == endpoints[1..];
    }
  }
}

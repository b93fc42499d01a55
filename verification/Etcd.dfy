// Removing a dead control plane's etcd member by its address, through a surviving member.
module Etcd {
  import opened Options

  // Zero is what the search returns for "not found"; a member may carry it all the same.
  datatype Member = Member(id: nat, peerUrls: seq<string>)

  // The host name a peer URL parses to, if it parses.
  type HostOf = string -> Option<string>

  predicate Matches(host: HostOf, m: Member, ip: string)
  {
    exists i :: 0 <= i < |m.peerUrls| && host(m.peerUrls[i]) == Some(ip)
  }

  // A member list reply comes as one list per answering machine.
  function Flat(messages: seq<seq<Member>>): seq<Member>
    decreases |messages|
  {
    if messages == [] then [] else Flat(messages[..|messages| - 1]) + messages[|messages| - 1]
  }

  predicate NoMatch(host: HostOf, members: seq<Member>, ip: string)
  {
    forall j :: 0 <= j < |members| ==> !Matches(host, members[j], ip)
  }

  // The position of the first member with that address, or the length.
  function FirstMatch(host: HostOf, members: seq<Member>, ip: string): (i: nat)
    ensures i <= |members| && NoMatch(host, members[..i], ip)
    ensures i < |members| ==> Matches(host, members[i], ip)
  {
    if members == [] || Matches(host, members[0], ip) then 0
    else
      var i := FirstMatch(host, members[1..], ip);
      assert members[..i + 1] == [members[0]] + members[1..][..i];
      i + 1
  }

  lemma {:induction false} FirstMatchIs(host: HostOf, members: seq<Member>, ip: string, i: nat)
    requires i <= |members| && NoMatch(host, members[..i], ip)
    requires i < |members| ==> Matches(host, members[i], ip)
    ensures FirstMatch(host, members, ip) == i
    decreases |members|
  {
    hide Matches;
    if i > 0 {
      assert members[..i][0] == members[0];
      assert members[1..][..i - 1] == members[..i][1..];
      FirstMatchIs(host, members[1..], ip, i - 1);
    }
  }

  method FindEtcdMemberID(host: HostOf, messages: seq<seq<Member>>, ip: string) returns (id: nat)
    ensures var members := Flat(messages);
            var i := FirstMatch(host, members, ip);
            id == if i < |members| then members[i].id else 0
  {
    for a := 0 to |messages|
      invariant NoMatch(host, Flat(messages[..a]), ip)
    {
      var members := messages[a];
      assert messages[..a + 1][..a] == messages[..a];
      for b := 0 to |members|
        invariant NoMatch(host, members[..b], ip)
      {
        var urls := members[b].peerUrls;
        for c := 0 to |urls|
          invariant forall k :: 0 <= k < c ==> host(urls[k]) != Some(ip)
        {
          if host(urls[c]) == Some(ip) {
            FirstInFlat(host, messages, ip, a, b);
            return members[b].id;
          }
        }
      }
    }
    assert messages[..|messages|] == messages;
    assert Flat(messages)[..|Flat(messages)|] == Flat(messages);
    FirstMatchIs(host, Flat(messages), ip, |Flat(messages)|);
    id := 0;
  }

  lemma {:induction false} FlatSplits(messages: seq<seq<Member>>, a: nat)
    requires a < |messages|
    ensures Flat(messages[..a]) + messages[a] <= Flat(messages)
    decreases |messages|
  {
    var front := messages[..|messages| - 1];
    if a == |messages| - 1 {
    } else {
      FlatSplits(front, a);
      assert front[..a] == messages[..a];
    }
  }

  lemma FirstInFlat(host: HostOf, messages: seq<seq<Member>>, ip: string, a: nat, b: nat)
    requires a < |messages| && b < |messages[a]| && Matches(host, messages[a][b], ip)
    requires NoMatch(host, Flat(messages[..a]), ip) && NoMatch(host, messages[a][..b], ip)
    ensures var i := |Flat(messages[..a])| + b;
            FirstMatch(host, Flat(messages), ip) == i && i < |Flat(messages)| && Flat(messages)[i] == messages[a][b]
  {
    hide Matches, Flat, FirstMatch;
    FlatSplits(messages, a);
    var before, all := Flat(messages[..a]), Flat(messages);
    var i := |before| + b;
    assert (before + messages[a])[i] == messages[a][b];
    forall j | 0 <= j < i ensures !Matches(host, all[j], ip) {
      if j < |before| {
        assert all[j] == before[j];
      } else {
        assert all[j] == (before + messages[a])[j] == messages[a][..b][j - |before|];
      }
    }
    FirstMatchIs(host, all, ip, i);
  }

  // ----- The running cluster -----

  predicate UniqueIds(members: seq<Member>)
  {
    forall i, j :: 0 <= i < j < |members| ==> members[i].id != members[j].id
  }

  function WithoutId(members: seq<Member>, id: nat): seq<Member>
  {
    if members == [] then []
    else (if members[0].id == id then [] else [members[0]]) + WithoutId(members[1..], id)
  }

  lemma {:induction false} WithoutIdKeeps(members: seq<Member>, id: nat)
    requires forall j :: 0 <= j < |members| ==> members[j].id != id
    ensures WithoutId(members, id) == members
  {
    if members != [] {
      WithoutIdKeeps(members[1..], id);
    }
  }

  // With unique identifiers, removing by identifier takes out one member and keeps the order.
  lemma {:induction false} WithoutIdIsOne(members: seq<Member>, i: nat)
    requires UniqueIds(members) && i < |members|
    ensures WithoutId(members, members[i].id) == members[..i] + members[i + 1..]
    decreases |members|
  {
    var rest := members[1..];
    if i == 0 {
      WithoutIdKeeps(rest, members[0].id);
    } else {
      assert rest[i - 1] == members[i];
      WithoutIdIsOne(rest, i - 1);
      assert [members[0]] + (rest[..i - 1] + rest[i..]) == members[..i] + members[i + 1..];
    }
  }

  // How the removal call ends: the request may be carried out though its reply is lost.
  datatype Removal = Removed | ReplyLost | NotReached

  class Cluster {
    var members: seq<Member>

    constructor (initial: seq<Member>)
      ensures members == initial
    {
      members := initial;
    }

    // At most one member goes, one with a peer URL whose host is exactly the address: the first
    // such in the list, unless the list cannot be read or that member carries the zero identifier.
    method EtcdForceRemoveByIP(host: HostOf, ip: string, listing: Option<seq<seq<Member>>>, removal: Removal) returns (ok: bool)
      requires UniqueIds(members) && (listing.Some? ==> Flat(listing.value) == members)
      modifies this
      ensures var i := FirstMatch(host, old(members), ip);
              var found := listing.Some? && i < |old(members)| && old(members)[i].id != 0;
              && members == (if found && removal != NotReached then old(members)[..i] + old(members)[i + 1..] else old(members))
              && (ok <==> listing.Some? && (found ==> removal == Removed))
    {
      if listing.None? { return false; }
      var id := FindEtcdMemberID(host, listing.value, ip);
      if id == 0 { return true; }
      WithoutIdIsOne(members, FirstMatch(host, members, ip));
      if removal != NotReached { members := WithoutId(members, id); }
      ok := removal == Removed;
    }
  }

  // When no two members share the address, one removal leaves none with it, and all the others.
  lemma RemovedForGood(host: HostOf, members: seq<Member>, ip: string)
    requires forall i, j :: 0 <= i < j < |members| ==> !(Matches(host, members[i], ip) && Matches(host, members[j], ip))
    requires FirstMatch(host, members, ip) < |members|
    ensures var i := FirstMatch(host, members, ip);
            var left := members[..i] + members[i + 1..];
            && NoMatch(host, left, ip)
            && forall m :: m in members && !Matches(host, m, ip) ==> m in left
  {
    hide Matches, FirstMatch;
    var i := FirstMatch(host, members, ip);
    var before, after := members[..i], members[i + 1..];
    assert members == before + [members[i]] + after;
    forall j | 0 <= j < |after| ensures !Matches(host, after[j], ip) {
      assert after[j] == members[i + 1 + j];
    }
  }
}

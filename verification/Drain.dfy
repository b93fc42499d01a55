// Draining the Kubernetes node behind a TalosNode: cordon it, evict its pods round by round
// until none is left or the deadline passes, then delete the Node object.
module Drain {
  import opened Options
  import NodeTypes

  datatype PodPhase = Pending | Running | Succeeded | Failed | Unknown
  datatype Pod = Pod(name: string, ownerKinds: seq<string>, mirror: string, phase: PodPhase, terminating: bool)

  // A DaemonSet's, mirror or finished pod is left alone.
  predicate IsEvictable(pod: Pod)
  {
    "DaemonSet" !in pod.ownerKinds && pod.mirror == "" && pod.phase != Succeeded && pod.phase != Failed
  }

  predicate NeedsEviction(pod: Pod)
  {
    IsEvictable(pod) && !pod.terminating
  }

  datatype Event = Cordoned | Listed(pods: seq<Pod>) | Evicted(pod: Pod) | NodeDeleted

  // An eviction is accepted, blocked by a disruption budget, too late, or refused with an error.
  datatype Reply = Accepted | Blocked | Gone | Refused

  // One turn of the poll loop: what its calls return, how long they take (in milliseconds),
  // and whether the context is cancelled before them or while waiting for the next tick.
  datatype Round = Round(cancelled: bool, listing: Option<seq<Pod>>, replies: map<nat, Reply>, work: nat, interrupted: bool)

  const POLL_INTERVAL: nat := 5000
  const DEFAULT_TIMEOUT: int := 300000

  // ----- One round -----

  datatype Sweep = Sweep(events: seq<Event>, pending: nat, ok: bool)

  // Looks at the pods in order and stops at the first refused eviction.
  function SweepOf(pods: seq<Pod>, replies: map<nat, Reply>): Sweep
    decreases |pods|
  {
    if pods == [] then Sweep([], 0, true)
    else
      var i := |pods| - 1;
      var before := SweepOf(pods[..i], replies);
      if !before.ok || !IsEvictable(pods[i]) then before
      else if pods[i].terminating then before.(pending := before.pending + 1)
      else Sweep(before.events + [Evicted(pods[i])], before.pending + 1, i !in replies || replies[i] != Refused)
  }

  // A round evicts exactly the evictable pods that are not terminating yet, unless a refusal
  // ends it early, and nothing is pending exactly when no evictable pod is listed.
  lemma {:induction false} SweepIsExact(pods: seq<Pod>, replies: map<nat, Reply>)
    ensures var s := SweepOf(pods, replies);
            && (forall e :: e in s.events ==> e.Evicted? && e.pod in pods && NeedsEviction(e.pod))
            && (s.ok ==> forall p :: p in pods && NeedsEviction(p) ==> Evicted(p) in s.events)
            && (s.ok ==> (s.pending == 0 <==> forall p :: p in pods ==> !IsEvictable(p)))
            && (forall p :: p in pods ==> (IsEvictable(p) <==> "DaemonSet" !in p.ownerKinds && p.mirror == "" && p.phase in {Pending, Running, Unknown})
                                          && (NeedsEviction(p) <==> IsEvictable(p) && !p.terminating))
            && (s.pending == 0 ==> s.ok && s.events == [])
    decreases |pods|
  {
    if pods != [] {
      var front, last := pods[..|pods| - 1], pods[|pods| - 1];
      SweepIsExact(front, replies);
      assert pods == front + [last];
    }
  }

  // ----- The poll loop -----

  datatype Result = Drained | TimedOut | Broken
  datatype DrainEnd = DrainEnd(events: seq<Event>, result: Result, finish: int)

  function Max(a: int, b: int): int
  {
    if a >= b then a else b
  }

  // The ticker fires at every multiple of the interval and keeps one tick for a late receiver:
  // the last tick fired when a receiver that is ready at now, and last saw tick seen, gets one.
  function NextTick(now: nat, seen: nat): (k: nat)
    ensures k > seen && k >= now / POLL_INTERVAL
  {
    Max(now / POLL_INTERVAL, seen + 1)
  }

  // The loop from round i on; now counts from the start of the drain.
  function DrainFrom(rounds: nat -> Round, timeout: int, i: nat, seen: nat, now: nat): DrainEnd
    requires seen * POLL_INTERVAL <= now
    decreases if seen < timeout then timeout - seen else 0
  {
    var r := rounds(i);
    var done := now + r.work;
    if now >= timeout then DrainEnd([], TimedOut, now)
    else if r.cancelled then DrainEnd([], Broken, now)
    else if r.listing.None? then DrainEnd([], Broken, done)
    else
      var sweep := SweepOf(r.listing.value, r.replies);
      var events := [Listed(r.listing.value)] + sweep.events;
      if !sweep.ok then DrainEnd(events, Broken, done)
      else if sweep.pending == 0 then DrainEnd(events, Drained, done)
      else if r.interrupted then DrainEnd(events, Broken, done)
      else
        var tick := NextTick(done, seen);
        var rest := DrainFrom(rounds, timeout, i + 1, tick, Max(done, tick * POLL_INTERVAL));
        rest.(events := events + rest.events)
  }

  // The pods of the last listing, if any.
  function LastListing(es: seq<Event>): Option<seq<Pod>>
    decreases |es|
  {
    if es == [] then None
    else if es[|es| - 1].Listed? then Some(es[|es| - 1].pods)
    else LastListing(es[..|es| - 1])
  }

  // Every eviction is of a pod of the last listing that needs it.
  predicate Orderly(es: seq<Event>)
  {
    forall j :: 0 <= j < |es| && es[j].Evicted? ==>
                  && LastListing(es[..j]).Some?
                  && es[j].pod in LastListing(es[..j]).value
                  && NeedsEviction(es[j].pod)
  }

  lemma {:induction false} LastListingSkips(pods: seq<Pod>, evictions: seq<Event>)
    requires forall e :: e in evictions ==> e.Evicted?
    ensures LastListing([Listed(pods)] + evictions) == Some(pods)
    decreases |evictions|
  {
    var es := [Listed(pods)] + evictions;
    if evictions != [] {
      var front := evictions[..|evictions| - 1];
      assert evictions[|evictions| - 1] in evictions && es[|es| - 1] == evictions[|evictions| - 1];
      assert es[..|es| - 1] == [Listed(pods)] + front;
      LastListingSkips(pods, front);
    }
  }

  lemma RoundIsOrderly(pods: seq<Pod>, replies: map<nat, Reply>)
    ensures Orderly([Listed(pods)] + SweepOf(pods, replies).events)
  {
    hide SweepOf, LastListing;
    SweepIsExact(pods, replies);
    var evictions := SweepOf(pods, replies).events;
    var es := [Listed(pods)] + evictions;
    forall j | 0 <= j < |es| && es[j].Evicted?
      ensures LastListing(es[..j]) == Some(pods) && es[j].pod in pods && NeedsEviction(es[j].pod)
    {
      assert es[j] == evictions[j - 1] && evictions[j - 1] in evictions;
      assert es[..j] == [Listed(pods)] + evictions[..j - 1];
      LastListingSkips(pods, evictions[..j - 1]);
    }
  }

  // The last listing of a log does not depend on what came before its first listing.
  lemma {:induction false} LastListingAfter(a: seq<Event>, es: seq<Event>)
    requires LastListing(es).Some?
    ensures LastListing(a + es) == LastListing(es)
    decreases |es|
  {
    var all := a + es;
    assert all[|all| - 1] == es[|es| - 1] && all[..|all| - 1] == a + es[..|es| - 1];
    if !es[|es| - 1].Listed? {
      LastListingAfter(a, es[..|es| - 1]);
    }
  }

  lemma OrderlyAppend(a: seq<Event>, b: seq<Event>)
    requires Orderly(a) && Orderly(b)
    ensures Orderly(a + b)
  {
    hide LastListing;
    var es := a + b;
    forall j | 0 <= j < |es| && es[j].Evicted?
      ensures LastListing(es[..j]).Some? && es[j].pod in LastListing(es[..j]).value && NeedsEviction(es[j].pod)
    {
      if j < |a| {
        assert es[..j] == a[..j];
      } else {
        assert es[..j] == a + b[..j - |a|];
        LastListingAfter(a, b[..j - |a|]);
      }
    }
  }

  // No eviction is ever sent to a DaemonSet's, mirror, finished or terminating pod, and a drain
  // that succeeds has just seen a listing without evictable pods.
  lemma {:induction false} DrainIsSafe(rounds: nat -> Round, timeout: int, i: nat, seen: nat, now: nat)
    requires seen * POLL_INTERVAL <= now
    ensures var end := DrainFrom(rounds, timeout, i, seen, now);
            && Orderly(end.events)
            && (forall e :: e in end.events ==> e.Listed? || e.Evicted?)
            && (end.result == Drained ==>
                  && end.events != [] && end.events[|end.events| - 1].Listed?
                  && forall p :: p in end.events[|end.events| - 1].pods ==> !IsEvictable(p))
    decreases if seen < timeout then timeout - seen else 0
  {
    hide Orderly, SweepOf, NeedsEviction, IsEvictable;
    var r := rounds(i);
    OrderlyNothing();
    if now < timeout && !r.cancelled && r.listing.Some? {
      RoundIsOrderly(r.listing.value, r.replies);
      SweepIsExact(r.listing.value, r.replies);
      var sweep := SweepOf(r.listing.value, r.replies);
      if sweep.ok && sweep.pending > 0 && !r.interrupted {
        var tick := NextTick(now + r.work, seen);
        DrainIsSafe(rounds, timeout, i + 1, tick, Max(now + r.work, tick * POLL_INTERVAL));
        OrderlyAppend([Listed(r.listing.value)] + sweep.events,
                      DrainFrom(rounds, timeout, i + 1, tick, Max(now + r.work, tick * POLL_INTERVAL)).events);
      }
    }
  }

  lemma OrderlyNothing()
    ensures Orderly([])
  {
  }

  function Listings(es: seq<Event>): nat
    decreases |es|
  {
    if es == [] then 0 else (if es[0].Listed? then 1 else 0) + Listings(es[1..])
  }

  lemma {:induction false} ListingsAppend(a: seq<Event>, b: seq<Event>)
    ensures Listings(a + b) == Listings(a) + Listings(b)
    decreases |a|
  {
    if a == [] {
      assert a + b == b;
    } else {
      ListingsAppend(a[1..], b);
      assert (a + b)[1..] == a[1..] + b;
    }
  }

  lemma {:induction false} NoListings(es: seq<Event>)
    requires forall e :: e in es ==> !e.Listed?
    ensures Listings(es) == 0
    decreases |es|
  {
    if es != [] {
      assert es[0] in es;
      NoListings(es[1..]);
    }
  }

  // The loop ends by the deadline plus one tick, or plus the calls of one round if those take
  // longer, and polls at most once per interval.
  lemma {:induction false} DrainEndsInTime(rounds: nat -> Round, timeout: int, i: nat, seen: nat, now: nat, slowest: nat)
    requires seen * POLL_INTERVAL <= now && forall j :: rounds(j).work <= slowest
    ensures var end := DrainFrom(rounds, timeout, i, seen, now);
            && now <= end.finish <= Max(now, timeout + Max(slowest, POLL_INTERVAL))
            && seen * POLL_INTERVAL + (Listings(end.events) - 1) * POLL_INTERVAL < Max(timeout, seen * POLL_INTERVAL)
    decreases if seen < timeout then timeout - seen else 0
  {
    hide SweepOf, Listings;
    ListingsOfNothing();
    var r := rounds(i);
    if now < timeout && !r.cancelled && r.listing.Some? {
      RoundListsOnce(r);
      var sweep := SweepOf(r.listing.value, r.replies);
      if sweep.ok && sweep.pending > 0 && !r.interrupted {
        var tick := NextTick(now + r.work, seen);
        var now' := Max(now + r.work, tick * POLL_INTERVAL);
        DrainEndsInTime(rounds, timeout, i + 1, tick, now', slowest);
        ListingsAppend([Listed(r.listing.value)] + sweep.events, DrainFrom(rounds, timeout, i + 1, tick, now').events);
      }
    }
  }

  // A whole drain, from its start.
  lemma PollLoopEndsInTime(rounds: nat -> Round, timeout: int, slowest: nat)
    requires forall j :: rounds(j).work <= slowest
    ensures var end := DrainFrom(rounds, timeout, 0, 0, 0);
            && 0 <= end.finish <= Max(0, timeout + Max(slowest, POLL_INTERVAL))
            && (Listings(end.events) - 1) * POLL_INTERVAL < Max(timeout, 0)
  {
    hide DrainFrom, Listings;
    DrainEndsInTime(rounds, timeout, 0, 0, 0, slowest);
  }

  lemma ListingsOfNothing()
    ensures Listings([]) == 0
  {
  }

  lemma RoundListsOnce(r: Round)
    requires r.listing.Some?
    ensures Listings([Listed(r.listing.value)] + SweepOf(r.listing.value, r.replies).events) == 1
  {
    hide SweepOf;
    var evictions := SweepOf(r.listing.value, r.replies).events;
    SweepIsExact(r.listing.value, r.replies);
    NoListings(evictions);
    assert ([Listed(r.listing.value)] + evictions)[1..] == evictions;
  }

  // ----- When a drain succeeds -----

  predicate EmptyListing(e: Event)
  {
    e.Listed? && forall p :: p in e.pods ==> !IsEvictable(p)
  }

  lemma {:induction false} RefusalEvicts(pods: seq<Pod>, replies: map<nat, Reply>)
    ensures !SweepOf(pods, replies).ok ==> SweepOf(pods, replies).events != []
    ensures forall e :: e in SweepOf(pods, replies).events ==> e.Evicted?
    decreases |pods|
  {
    if pods != [] { RefusalEvicts(pods[..|pods| - 1], replies); }
  }

  // What a round logs ends with an empty listing exactly when the round finds nothing to wait for.
  lemma RoundEnds(pods: seq<Pod>, replies: map<nat, Reply>)
    ensures var s := SweepOf(pods, replies);
            var es := [Listed(pods)] + s.events;
            EmptyListing(es[|es| - 1]) <==> s.ok && s.pending == 0
  {
    hide SweepOf, IsEvictable;
    SweepIsExact(pods, replies);
    RefusalEvicts(pods, replies);
    var s := SweepOf(pods, replies);
    var es := [Listed(pods)] + s.events;
    if s.events != [] {
      assert es[|es| - 1] == s.events[|s.events| - 1] && s.events[|s.events| - 1] in s.events;
    }
  }

  // A drain succeeds exactly when the last thing it did was a listing without evictable pods.
  lemma {:induction false} DrainedExactly(rounds: nat -> Round, timeout: int, i: nat, seen: nat, now: nat)
    requires seen * POLL_INTERVAL <= now
    ensures var end := DrainFrom(rounds, timeout, i, seen, now);
            end.result == Drained <==> end.events != [] && EmptyListing(end.events[|end.events| - 1])
    decreases if seen < timeout then timeout - seen else 0
  {
    hide SweepOf, EmptyListing;
    var r := rounds(i);
    if now < timeout && !r.cancelled && r.listing.Some? {
      RoundEnds(r.listing.value, r.replies);
      var sweep := SweepOf(r.listing.value, r.replies);
      if sweep.ok && sweep.pending > 0 && !r.interrupted {
        var tick := NextTick(now + r.work, seen);
        var now' := Max(now + r.work, tick * POLL_INTERVAL);
        DrainedExactly(rounds, timeout, i + 1, tick, now');
        LastOf([Listed(r.listing.value)] + sweep.events, DrainFrom(rounds, timeout, i + 1, tick, now').events);
        hide DrainFrom;
      }
    }
  }

  lemma LastOf(es: seq<Event>, rest: seq<Event>)
    requires es != []
    ensures (es + rest)[|es + rest| - 1] == if rest != [] then rest[|rest| - 1] else es[|es| - 1]
  {
  }

  // No call of the round fails, and they take less than an interval.
  predicate Smooth(r: Round)
  {
    && !r.cancelled && !r.interrupted && r.listing.Some? && r.work < POLL_INTERVAL
    && forall i :: i in r.replies ==> r.replies[i] != Refused
  }

  predicate FindsNone(r: Round)
  {
    r.listing.Some? && forall p :: p in r.listing.value ==> !IsEvictable(p)
  }

  lemma {:induction false} SmoothSweep(pods: seq<Pod>, replies: map<nat, Reply>)
    requires forall i :: i in replies ==> replies[i] != Refused
    ensures SweepOf(pods, replies).ok
    decreases |pods|
  {
    if pods != [] { SmoothSweep(pods[..|pods| - 1], replies); }
  }

  lemma SmoothRound(rounds: nat -> Round, timeout: int, i: nat)
    requires Smooth(rounds(i)) && i * POLL_INTERVAL < timeout
    ensures DrainFrom(rounds, timeout, i, i, i * POLL_INTERVAL).result ==
            if FindsNone(rounds(i)) then Drained else DrainFrom(rounds, timeout, i + 1, i + 1, (i + 1) * POLL_INTERVAL).result
  {
    hide SweepOf, IsEvictable, NextTick;
    var r := rounds(i);
    SmoothSweep(r.listing.value, r.replies);
    SweepIsExact(r.listing.value, r.replies);
    NextIsNext(i, r.work);
  }

  lemma {:induction false} SmoothFrom(rounds: nat -> Round, timeout: int, i: nat)
    requires forall j: nat :: i <= j ==> Smooth(rounds(j))
    ensures DrainFrom(rounds, timeout, i, i, i * POLL_INTERVAL).result ==
            if exists k :: i <= k && k * POLL_INTERVAL < timeout && FindsNone(rounds(k)) then Drained else TimedOut
    decreases if i < timeout then timeout - i else 0
  {
    hide FindsNone, Smooth;
    if i * POLL_INTERVAL < timeout {
      SmoothRound(rounds, timeout, i);
      hide DrainFrom;
      if !FindsNone(rounds(i)) {
        SmoothFrom(rounds, timeout, i + 1);
        if k :| i <= k && k * POLL_INTERVAL < timeout && FindsNone(rounds(k)) {
          assert k != i;
        }
      }
    }
  }

  lemma NextIsNext(i: nat, work: nat)
    requires work < POLL_INTERVAL
    ensures NextTick(i * POLL_INTERVAL + work, i) == i + 1
  {
    assert (i * POLL_INTERVAL + work) / POLL_INTERVAL == i;
  }

  // Round k begins at the k-th tick: with smooth rounds a drain succeeds exactly when one that begins
  // before the deadline finds no evictable pod, and runs into the deadline otherwise.
  lemma SmoothDrain(rounds: nat -> Round, timeout: int)
    requires forall j: nat :: Smooth(rounds(j))
    ensures var end := DrainFrom(rounds, timeout, 0, 0, 0);
            end.result == if exists k: nat :: k * POLL_INTERVAL < timeout && FindsNone(rounds(k)) then Drained else TimedOut
  {
    hide DrainFrom;
    SmoothFrom(rounds, timeout, 0);
  }

  // ----- Draining and deleting the node -----

  datatype Kubeconfig = KubeAbsent | KubeUnreadable | KubeMalformed | KubeUsable
  datatype Lookup = Found | NotFound | LookupError

  datatype Outcomes = Outcomes(
    kubeconfig: Kubeconfig, hostname: bool, node: Lookup, cordon: bool, timeout: Option<int>,
    rounds: nat -> Round, deleteNode: bool)

  datatype NodeDrain = NodeDrain(events: seq<Event>, verdict: NodeTypes.Drain)

  function TimeoutOf(o: Outcomes): int
  {
    if o.timeout.Some? then o.timeout.value else DEFAULT_TIMEOUT
  }

  function DrainAndDelete(o: Outcomes): NodeDrain
  {
    if o.kubeconfig == KubeAbsent then NodeDrain([], NodeTypes.DrainDone)
    else if o.kubeconfig != KubeUsable then NodeDrain([], NodeTypes.DrainError)
    else if !o.hostname || o.node == NotFound then NodeDrain([], NodeTypes.DrainDone)
    else if o.node == LookupError || !o.cordon then NodeDrain([], NodeTypes.DrainError)
    else
      var end := DrainFrom(o.rounds, TimeoutOf(o), 0, 0, 0);
      if end.result != Drained then NodeDrain([Cordoned] + end.events, NodeTypes.DrainAgain)
      else if !o.deleteNode then NodeDrain([Cordoned] + end.events, NodeTypes.DrainError)
      else NodeDrain([Cordoned] + end.events + [NodeDeleted], NodeTypes.DrainDone)
  }

  // The node was cordoned first and nothing evictable was listed right before its deletion.
  predicate DeletedSafely(es: seq<Event>)
  {
    && |es| >= 3 && es[0] == Cordoned && es[|es| - 1] == NodeDeleted
    && es[|es| - 2].Listed? && (forall p :: p in es[|es| - 2].pods ==> !IsEvictable(p))
  }

  // Deletion of a TalosNode goes on after its drain exactly when there was nothing to drain or
  // the Node object was deleted, and that is only done to a cordoned and emptied node.
  lemma DrainedThenDeleted(o: Outcomes)
    ensures var d := DrainAndDelete(o);
            && Orderly(d.events)
            && (NodeDeleted in d.events ==> DeletedSafely(d.events) && NodeDeleted !in d.events[..|d.events| - 1])
            && (d.verdict == NodeTypes.DrainDone <==>
                  NodeDeleted in d.events || o.kubeconfig == KubeAbsent || (o.kubeconfig == KubeUsable && (!o.hostname || o.node == NotFound)))
  {
    hide DrainFrom, Orderly, IsEvictable;
    OrderlyNothing();
    var end := DrainFrom(o.rounds, TimeoutOf(o), 0, 0, 0);
    DrainIsSafe(o.rounds, TimeoutOf(o), 0, 0, 0);
    OrderlySingle(Cordoned);
    OrderlySingle(NodeDeleted);
    OrderlyAppend([Cordoned], end.events);
    OrderlyAppend([Cordoned] + end.events, [NodeDeleted]);
    assert NodeDeleted !in [Cordoned] + end.events;
    var all := [Cordoned] + end.events + [NodeDeleted];
    assert all[|all| - 1] == NodeDeleted && all[..|all| - 1] == [Cordoned] + end.events;
    assert end.events != [] ==> all[|all| - 2] == end.events[|end.events| - 1];
  }

  // How the rest of the verdict follows from what was done: the node is cordoned exactly when it
  // is found in a usable cluster, a drain that did not empty it is tried again, and anything else
  // that stops short of the deletion is an error.
  lemma VerdictExactly(o: Outcomes)
    ensures var d := DrainAndDelete(o);
            && (d.events != [] <==> o.kubeconfig == KubeUsable && o.hostname && o.node == Found && o.cordon)
            && (d.events != [] ==> d.events[0] == Cordoned)
            && (d.verdict == NodeTypes.DrainAgain <==>
                  d.events != [] && d.events[|d.events| - 1] != NodeDeleted && !EmptyListing(d.events[|d.events| - 1]))
            && (d.events != [] ==> (d.verdict == NodeTypes.DrainError <==> EmptyListing(d.events[|d.events| - 1])))
            && (d.events != [] && d.verdict != NodeTypes.DrainAgain ==> (d.verdict == NodeTypes.DrainDone <==> o.deleteNode))
  {
    hide DrainFrom, EmptyListing;
    var end := DrainFrom(o.rounds, TimeoutOf(o), 0, 0, 0);
    DrainedExactly(o.rounds, TimeoutOf(o), 0, 0, 0);
    DrainIsSafe(o.rounds, TimeoutOf(o), 0, 0, 0);
    NotEmptyListings();
    hide Orderly, IsEvictable;
    var es := [Cordoned] + end.events;
    assert end.events != [] ==> es[|es| - 1] == end.events[|end.events| - 1];
    assert (es + [NodeDeleted])[|es|] == NodeDeleted && (es + [NodeDeleted])[|es| - 1] == es[|es| - 1];
  }

  // With smooth rounds the node is drained and deleted exactly when a round that begins before the
  // deadline, five minutes unless another is set, finds no evictable pod; otherwise it is tried again.
  lemma SmoothVerdict(o: Outcomes)
    requires o.kubeconfig == KubeUsable && o.hostname && o.node == Found && o.cordon && o.deleteNode
    requires forall j: nat :: Smooth(o.rounds(j))
    ensures var deadline := if o.timeout.Some? then o.timeout.value else 300000;
            DrainAndDelete(o).verdict ==
            if exists k: nat :: k * 5000 < deadline && FindsNone(o.rounds(k)) then NodeTypes.DrainDone else NodeTypes.DrainAgain
  {
    hide DrainFrom;
    SmoothDrain(o.rounds, TimeoutOf(o));
  }

  lemma NotEmptyListings()
    ensures !EmptyListing(Cordoned) && !EmptyListing(NodeDeleted)
  {
  }

  lemma OrderlySingle(e: Event)
    requires !e.Evicted?
    ensures Orderly([e])
  {
  }

  // ----- Step by step -----

  class Drainer {
    var events: seq<Event>
    var clock: nat

    constructor ()
      ensures events == [] && clock == 0
    {
      events, clock := [], 0;
    }

    method DrainAndDeleteNode(o: Outcomes) returns (verdict: NodeTypes.Drain)
      requires clock == 0
      modifies this
      ensures events == old(events) + DrainAndDelete(o).events && verdict == DrainAndDelete(o).verdict
    {
      hide DrainFrom;
      match o.kubeconfig
      case KubeAbsent => return NodeTypes.DrainDone;
      case KubeUnreadable => return NodeTypes.DrainError;
      case KubeMalformed => return NodeTypes.DrainError;
      case KubeUsable =>
        if !o.hostname { return NodeTypes.DrainDone; }
        if o.node == NotFound { return NodeTypes.DrainDone; }
        if o.node == LookupError { return NodeTypes.DrainError; }
        var timeout := DEFAULT_TIMEOUT;
        if o.timeout.Some? { timeout := o.timeout.value; }
        if !o.cordon { return NodeTypes.DrainError; }
        events := events + [Cordoned];
        var result := DrainPods(o.rounds, timeout);
        if result != Drained { return NodeTypes.DrainAgain; }
        if !o.deleteNode { return NodeTypes.DrainError; }
        events := events + [NodeDeleted];
        verdict := NodeTypes.DrainDone;
    }

    method DrainPods(rounds: nat -> Round, timeout: int) returns (result: Result)
      requires clock == 0
      modifies this
      ensures var end := DrainFrom(rounds, timeout, 0, 0, 0);
              result == end.result && events == old(events) + end.events && clock == end.finish
    {
      hide SweepOf;
      var i, seen := 0, 0;
      ghost var whole := DrainFrom(rounds, timeout, 0, 0, 0);
      while clock < timeout
        invariant seen * POLL_INTERVAL <= clock
        invariant var rest := DrainFrom(rounds, timeout, i, seen, clock);
                  && rest.result == whole.result && rest.finish == whole.finish
                  && old(events) + whole.events == events + rest.events
        decreases timeout - seen
      {
        var r := rounds(i);
        if r.cancelled { return Broken; }
        clock := clock + r.work;
        if r.listing.None? { return Broken; }
        events := events + [Listed(r.listing.value)];
        var pending, ok := EvictPods(r.listing.value, r.replies);
        if !ok { return Broken; }
        if pending == 0 { return Drained; }
        if r.interrupted { return Broken; }
        seen := NextTick(clock, seen);
        clock := Max(clock, seen * POLL_INTERVAL);
        i := i + 1;
      }
      result := TimedOut;
    }

    method EvictPods(pods: seq<Pod>, replies: map<nat, Reply>) returns (pending: nat, ok: bool)
      modifies this`events
      ensures var s := SweepOf(pods, replies);
              ok == s.ok && events == old(events) + s.events && (ok ==> pending == s.pending)
    {
      pending := 0;
      for i := 0 to |pods|
        invariant SweepOf(pods[..i], replies) == Sweep(SweepOf(pods[..i], replies).events, pending, true)
        invariant events == old(events) + SweepOf(pods[..i], replies).events
      {
        var pod := pods[i];
        assert pods[..i + 1][..i] == pods[..i];
        if !IsEvictable(pod) { continue; }
        pending := pending + 1;
        if pod.terminating { continue; }
        events := events + [Evicted(pod)];
        if i in replies && replies[i] == Refused {
          RefusalEnds(pods, replies, i + 1);
          return pending, false;
        }
      }
      assert pods[..|pods|] == pods;
      ok := true;
    }
  }

  lemma {:induction false} RefusalEnds(pods: seq<Pod>, replies: map<nat, Reply>, n: nat)
    requires n <= |pods| && !SweepOf(pods[..n], replies).ok
    ensures SweepOf(pods, replies) == SweepOf(pods[..n], replies)
    decreases |pods| - n
  {
    if n < |pods| {
      assert pods[..n + 1][..n] == pods[..n];
      RefusalEnds(pods, replies, n + 1);
    } else {
      assert pods[..n] == pods;
    }
  }
}

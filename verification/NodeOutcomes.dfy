// Where a TalosNode ends up: how configuring, resetting, upgrading and deleting it turn out,
// whatever the calls of the pass do.
module NodeOutcomes {
  import opened Options
  import opened Conditions
  import opened Images
  import opened NodeTypes
  import opened NodePlan
  import opened NodeLife
  import C = NodeConvergence
  import V = NodeVersions

  // ----- The node a list of events leaves -----

  function LastStatus(s: NodeStatus, es: seq<Event>): NodeStatus
    decreases |es|
  {
    if es == [] then s else LastStatus(if es[0].StatusWritten? then es[0].status else s, es[1..])
  }

  function LastSaved(g: Option<int>, es: seq<Event>): Option<int>
    decreases |es|
  {
    if es == [] then g else LastSaved(if es[0].ConfigSaved? then Some(es[0].generation) else g, es[1..])
  }

  lemma LastCons(s: NodeStatus, g: Option<int>, e: Event, es: seq<Event>)
    ensures LastStatus(s, [e] + es) == LastStatus(if e.StatusWritten? then e.status else s, es)
    ensures LastSaved(g, [e] + es) == LastSaved(if e.ConfigSaved? then Some(e.generation) else g, es)
    ensures LastStatus(s, [e]) == (if e.StatusWritten? then e.status else s) && LastStatus(s, []) == s
    ensures LastSaved(g, [e]) == (if e.ConfigSaved? then Some(e.generation) else g) && LastSaved(g, []) == g
  {
    assert ([e] + es)[1..] == es && [e][1..] == [];
  }

  lemma {:induction false} ConfiguredNode(l: Life, es: seq<Event>)
    requires forall e :: e in es ==> Configures(e)
    ensures var l' := After(l, es);
            l'.node == l.node.(status := LastStatus(l.node.status, es)) && l'.saved == LastSaved(l.saved, es)
    decreases |es|
  {
    if es != [] {
      assert es[0] in es && forall e :: e in es[1..] ==> e in es;
      OneConfigures(l, es[0]);
      hide Record;
      ConfiguredNode(Record(l, es[0]), es[1..]);
    }
  }

  lemma OneConfigures(l: Life, e: Event)
    requires Configures(e)
    ensures var l' := Record(l, e);
            && l'.node == l.node.(status := if e.StatusWritten? then e.status else l.node.status)
            && l'.saved == if e.ConfigSaved? then Some(e.generation) else l.saved
  {
  }

  // ----- Applying a configuration -----

  // The connection: without TLS first when no configuration was applied yet, with mTLS as the
  // fallback if there is a talosconfig; with mTLS alone afterwards.
  function Dialling(configured: bool, a: ApplyOutcomes): Result
  {
    if configured then Ends([a.talosconfig, a.dialSecure], Done)
    else if a.dialInsecure == Done || a.talosconfig != Done then a.dialInsecure
    else a.dialSecure
  }

  // How an attempt ends: as the first of its calls that does not succeed.
  function Trouble(configured: bool, a: ApplyOutcomes): Result
  {
    Ends([a.start, a.build, Dialling(configured, a)] + [a.send, a.save, a.finish], Done)
  }

  // The configuration was sent and saved, and only the last status write is still to come.
  predicate Saves(configured: bool, a: ApplyOutcomes)
  {
    Trouble(configured, a.(finish := Done)) == Done
  }

  // The status after an attempt from status s at generation g.
  function Left(s: NodeStatus, g: int, a: ApplyOutcomes, r: Result, saved: bool): NodeStatus
  {
    var conditions := if saved then s.conditions[ConfigApplied := True] else s.conditions;
    var retries := if saved then 0 else s.retryCount;
    if r == Done then s.(phase := Ready, observedGeneration := g, conditions := s.conditions[ConfigApplied := True], retryCount := 0)
    else if r == Failed && a.errorStatus then s.(phase := Errored, observedGeneration := g, conditions := conditions, retryCount := retries + 1)
    else if a.start == Done then s.(phase := Applying, observedGeneration := g)
    else s
  }

  lemma TroubleIs(configured: bool, a: ApplyOutcomes)
    ensures Trouble(configured, a) ==
            if a.start != Done then a.start else if a.build != Done then a.build
            else if Dialling(configured, a) != Done then Dialling(configured, a)
            else if a.send != Done then a.send else if a.save != Done then a.save else a.finish
    ensures Dialling(true, a) == if a.talosconfig != Done then a.talosconfig else a.dialSecure
    ensures Dialling(configured, a.(finish := Done)) == Dialling(configured, a)
  {
    EndsAppend([a.start, a.build, Dialling(configured, a)], [a.send, a.save, a.finish], Done);
    ShortRows(a.start, a.build, Dialling(configured, a), Done, Done);
    ShortRows(a.send, a.save, a.finish, Done, Done);
    ShortRows(a.talosconfig, a.dialSecure, Done, Done, Done);
    hide Ends;
  }

  // Sending, from node n in phase Applying.
  lemma SendLeaves(n: Node, a: ApplyOutcomes, g: Option<int>)
    ensures var t := SendPlan(n, a);
            var applied := n.status.(phase := Ready, retryCount := 0, conditions := n.status.conditions[ConfigApplied := True]);
            && t.result == (if a.send != Done then a.send else if a.save != Done then a.save else a.finish)
            && LastStatus(n.status, t.events) == (if t.result == Done then applied else n.status)
            && t.status == (if a.send == Done && a.save == Done then applied else n.status)
            && LastSaved(g, t.events) == (if a.send == Done && a.save == Done then Some(n.generation) else g)
  {
    var applied := StatusWritten(AppliedStatus(n.status));
    var saved := ConfigSaved(n.generation);
    LastCons(n.status, g, ConfigSent(false), []);
    LastCons(n.status, g, ConfigSent(true), []);
    LastCons(n.status, g, ConfigSent(true), [saved]);
    LastCons(n.status, g, ConfigSent(true), [saved] + [applied]);
    LastCons(n.status, g, saved, [applied]);
    LastCons(n.status, Some(n.generation), applied, []);
    assert [ConfigSent(true)] + [saved] == [ConfigSent(true), saved];
    assert [ConfigSent(true)] + ([saved] + [applied]) == [ConfigSent(true), saved, applied];
    hide LastStatus, LastSaved;
  }

  lemma ConnectLeaves(n: Node, a: ApplyOutcomes, configured: bool, g: Option<int>)
    ensures var t, sent := ConnectPlan(!configured, n, a), SendPlan(n, a);
            if Dialling(configured, a) == Done then
              && t.result == sent.result && t.status == sent.status
              && LastStatus(n.status, t.events) == LastStatus(n.status, sent.events) && LastSaved(g, t.events) == LastSaved(g, sent.events)
            else t.result == Dialling(configured, a) && t.status == n.status && LastStatus(n.status, t.events) == n.status && LastSaved(g, t.events) == g
  {
    hide SendPlan, LastStatus, LastSaved;
    TroubleIs(configured, a);
    LastCons(n.status, g, DialedSecurely(a.dialSecure == Done), SendPlan(n, a).events);
    LastCons(n.status, g, DialedSecurely(a.dialSecure == Done), []);
    LastCons(n.status, g, DialedInsecurely(a.dialInsecure == Done), []);
    LastCons(n.status, g, DialedInsecurely(a.dialInsecure == Done), SendPlan(n, a).events);
    LastCons(n.status, g, DialedInsecurely(a.dialInsecure == Done), SecurePlan(n, a).events);
  }

  lemma AttemptLeaves(node: Node, a: ApplyOutcomes, g: Option<int>)
    ensures var es := ApplyOrErrorPlan(node, a);
            var configured := Has(node.status.conditions, ConfigApplied, True);
            && LastStatus(node.status, es) == Left(node.status, node.generation, a, Trouble(configured, a), Saves(configured, a))
            && LastSaved(g, es) == if Saves(configured, a) then Some(node.generation) else g
  {
    hide ConnectPlan, SendPlan, LastStatus, LastSaved, Trouble, Dialling;
    var configured := Has(node.status.conditions, ConfigApplied, True);
    var n := node.(status := node.status.(observedGeneration := node.generation, phase := Applying));
    var started := StatusWritten(n.status);
    var rest := ConnectPlan(!configured, n, a);
    TroubleIs(configured, a);
    TroubleIs(configured, a.(finish := Done));
    ConnectLeaves(n, a, configured, g);
    SendLeaves(n, a, g);
    var attempt := ApplyPlan(node, a);
    var tail := if attempt.result == Failed && a.errorStatus then [StatusWritten(ErrorStatus(attempt.status))] else [];
    LastCons(node.status, g, StatusWritten(ErrorStatus(attempt.status)), []);
    LastCons(n.status, g, StatusWritten(ErrorStatus(attempt.status)), []);
    LastCons(node.status, g, started, tail);
    LastCons(node.status, g, started, rest.events + tail);
    LastCat(n.status, g, rest.events, tail);
    if a.start == Done && a.build == Done {
      assert ApplyOrErrorPlan(node, a) == [started] + (rest.events + tail);
      LastCons(LastStatus(n.status, rest.events), LastSaved(g, rest.events), StatusWritten(ErrorStatus(attempt.status)), []);
    } else if a.start == Done {
      assert ApplyOrErrorPlan(node, a) == [started] + tail;
    } else {
      assert ApplyOrErrorPlan(node, a) == tail;
    }
  }

  lemma {:induction false} LastCat(s: NodeStatus, g: Option<int>, a: seq<Event>, b: seq<Event>)
    ensures LastStatus(s, a + b) == LastStatus(LastStatus(s, a), b)
    ensures LastSaved(g, a + b) == LastSaved(LastSaved(g, a), b)
    decreases |a|
  {
    if a == [] {
      assert a + b == b;
    } else {
      assert (a + b)[1..] == a[1..] + b;
      LastCat(if a[0].StatusWritten? then a[0].status else s, if a[0].ConfigSaved? then Some(a[0].generation) else g, a[1..], b);
    }
  }

  function NodeAfter(node: Node, es: seq<Event>): Node
    decreases |es|
  {
    if es == [] then node else NodeAfter(Apply(node, es[0]), es[1..])
  }

  lemma {:induction false} AfterIsNodeAfter(l: Life, es: seq<Event>)
    ensures After(l, es).node == NodeAfter(l.node, es)
    decreases |es|
  {
    hide Apply, Note;
    if es != [] { AfterIsNodeAfter(Record(l, es[0]), es[1..]); }
  }

  lemma NodeCons(node: Node, e: Event, es: seq<Event>)
    ensures NodeAfter(node, [e] + es) == NodeAfter(Apply(node, e), es)
    ensures NodeAfter(node, [e]) == Apply(node, e) && NodeAfter(node, []) == node
  {
    hide Apply;
    assert ([e] + es)[1..] == es && [e][1..] == [];
  }

  lemma {:induction false} NodeCat(node: Node, a: seq<Event>, b: seq<Event>)
    ensures NodeAfter(node, a + b) == NodeAfter(NodeAfter(node, a), b)
    decreases |a|
  {
    hide Apply;
    if a == [] {
      assert a + b == b;
    } else {
      assert (a + b)[1..] == a[1..] + b;
      NodeCat(Apply(node, a[0]), a[1..], b);
    }
  }

  // Nothing else is pending that would come first: no deletion, no upgrade, no reset.
  predicate NothingFirst(node: Node, o: Outcomes)
  {
    && !node.deleting && (node.finalizer || o.addFinalizer) && node.status.phase != Upgrading
    && (node.ann.upgrade == "" || node.ann.upgrade == node.ann.lastUpgrade)
    && (node.ann.reset == "" || node.ann.reset == node.ann.lastReset)
    && (Has(node.status.conditions, ConfigApplied, True) ==> V.Settled(node))
  }

  // The node does not have its configuration, or the machine is found to run another one.
  predicate NeedsConfig(node: Node, o: Outcomes)
  {
    || node.status.observedGeneration != node.generation || node.status.phase != Ready
    || !Has(node.status.conditions, ConfigApplied, True)
    || ((node.spec.driftDetection.None? || node.spec.driftDetection.value) && o.drift == Drifted)
  }

  lemma SettledPass(order: Order, node: Node, o: Outcomes)
    requires Has(node.status.conditions, ConfigApplied, True) ==> V.Settled(node)
    ensures VersionPlan(order, node, o) == VersionPass(false, [], node)
  {
    hide ComputeDesiredImage, NormalizeVersion, IsDowngrade, CacheHit, UpgradePlan;
    if node.spec.talosVersion != "" && ConfigIsApplied(node.status) {
      CleanIsDesired(node, o);
    }
  }

  lemma CleanIsDesired(node: Node, o: Outcomes)
    ensures !C.Dirty(node) ==> C.Wanted(node, o).Desired? && C.Wanted(node, o).newSchematic == ""
  {
    hide CanonicalExtensions, InstallerImage, NormalizeVersion;
  }

  lemma ConfigPass(order: Order, node: Node, o: Outcomes)
    requires NothingFirst(node, o)
    ensures var n := node.(finalizer := true);
            var rest := if NeedsConfig(node, o) then ApplyOrErrorPlan(n, o.apply) else [];
            Plan(order, node, o) == if node.finalizer then rest else [FinalizerAdded] + rest
  {
    hide ApplyOrErrorPlan, VersionPlan, V.Settled;
    var n := node.(finalizer := true);
    SettledStays(node);
    SettledPass(order, n, o);
    assert ActivePlan(order, n, o) == [] + ConfigPlan(n, o);
    assert node.finalizer ==> n == node;
  }

  lemma SettledStays(node: Node)
    ensures V.Settled(node.(finalizer := true)) == V.Settled(node)
  {
    hide NormalizeVersion, CacheHit;
  }

  // However the calls of a pass end that has nothing else to do first: a node that has its
  // configuration is left alone, and any other is Ready with it, in error with one retry more, or
  // still applying. The configuration saved is that of the generation read.
  lemma ConfigEndsIn(order: Order, l: Life, o: Outcomes, cut: nat)
    requires NothingFirst(l.node, o) && |Plan(order, l.node, o)| <= cut
    ensures var n, a, l' := l.node, o.apply, Next(order, l, Pass(o, cut));
            var configured := Has(n.status.conditions, ConfigApplied, True);
            && (!NeedsConfig(n, o) && n.finalizer ==> Plan(order, n, o) == [])
            && l'.node == n.(finalizer := true,
                             status := if NeedsConfig(n, o) then Left(n.status, n.generation, a, Trouble(configured, a), Saves(configured, a)) else n.status)
            && l'.saved == if NeedsConfig(n, o) && Saves(configured, a) then Some(n.generation) else l.saved
  {
    hide ApplyOrErrorPlan, Plan, NothingFirst, NeedsConfig, Trouble, Saves, Left, LastStatus, LastSaved, Record, After;
    var n := l.node.(finalizer := true);
    var rest := if NeedsConfig(l.node, o) then ApplyOrErrorPlan(n, o.apply) else [];
    ConfigPass(order, l.node, o);
    ApplyConfigures(n, o.apply);
    AttemptLeaves(n, o.apply, l.saved);
    AfterCons(l, FinalizerAdded, rest);
    LastCons(n.status, l.saved, FinalizerAdded, []);
    OnlyFinalizer(l);
    assert Cut(Plan(order, l.node, o), cut) == Plan(order, l.node, o);
    ConfiguredNode(if l.node.finalizer then l else Record(l, FinalizerAdded), rest);
    assert l.node.finalizer ==> n == l.node;
  }

  lemma OnlyFinalizer(l: Life)
    ensures Record(l, FinalizerAdded).node == l.node.(finalizer := true) && Record(l, FinalizerAdded).saved == l.saved
  {
  }

  // What else an attempt does, one event at a time: the machine is reached without TLS exactly as
  // long as no configuration was applied, and with mTLS otherwise, or when that fails and a
  // talosconfig is there; then the configuration is sent, and saved.
  predicate Does(n: Node, a: ApplyOutcomes, e: Event)
  {
    var configured := Has(n.status.conditions, ConfigApplied, True);
    a.start == Done && a.build == Done &&
    (|| (!configured && e == DialedInsecurely(a.dialInsecure == Done))
     || (a.talosconfig == Done && (configured || a.dialInsecure != Done) && e == DialedSecurely(a.dialSecure == Done))
     || (Dialling(configured, a) == Done && e == ConfigSent(a.send == Done))
     || (Dialling(configured, a) == Done && a.send == Done && a.save == Done && e == ConfigSaved(n.generation)))
  }

  lemma DialsExactly(order: Order, node: Node, o: Outcomes, e: Event)
    requires NothingFirst(node, o) && NeedsConfig(node, o) && !e.StatusWritten? && !e.FinalizerAdded?
    ensures e in Plan(order, node, o) <==> Does(node, o.apply, e)
  {
    var n := node.(finalizer := true);
    ConfigPass(order, node, o);
    AttemptDoes(n, o.apply, e);
    assert Does(n, o.apply, e) == Does(node, o.apply, e) by { hide Dialling; }
    hide Plan, ApplyOrErrorPlan, NothingFirst, NeedsConfig, Does;
    InTail(FinalizerAdded, ApplyOrErrorPlan(n, o.apply), e);
  }

  lemma InTail(first: Event, rest: seq<Event>, e: Event)
    ensures e in [first] + rest <==> e == first || e in rest
  {
  }

  lemma AttemptDoes(n: Node, a: ApplyOutcomes, e: Event)
    requires !e.StatusWritten?
    ensures e in ApplyOrErrorPlan(n, a) <==> Does(n, a, e)
  {
    var configured := Has(n.status.conditions, ConfigApplied, True);
    var m := n.(status := ApplyingStatus(n));
    SendDoes(m, a, e);
    ConnectDoes(m, a, configured, e);
    hide ConnectPlan, SendPlan, Dialling, ApplyingStatus;
    var attempt, connect := ApplyPlan(n, a), ConnectPlan(!configured, m, a).events;
    assert e in attempt.events <==> a.start == Done && a.build == Done && e in connect;
    assert e in ApplyOrErrorPlan(n, a) <==> e in attempt.events;
  }

  lemma SendDoes(m: Node, a: ApplyOutcomes, e: Event)
    requires !e.StatusWritten?
    ensures e in SendPlan(m, a).events <==>
            e == ConfigSent(a.send == Done) || (a.send == Done && a.save == Done && e == ConfigSaved(m.generation))
  {
  }

  lemma ConnectDoes(m: Node, a: ApplyOutcomes, configured: bool, e: Event)
    ensures e in ConnectPlan(!configured, m, a).events <==>
            || (!configured && e == DialedInsecurely(a.dialInsecure == Done))
            || (a.talosconfig == Done && (configured || a.dialInsecure != Done) && e == DialedSecurely(a.dialSecure == Done))
            || (Dialling(configured, a) == Done && e in SendPlan(m, a).events)
  {
    TroubleIs(configured, a);
    hide SendPlan;
    InTail(DialedSecurely(a.dialSecure == Done), SendPlan(m, a).events, e);
    InTail(DialedInsecurely(a.dialInsecure == Done), SendPlan(m, a).events, e);
    InTail(DialedInsecurely(a.dialInsecure == Done), SecurePlan(m, a).events, e);
  }

  // ----- Standalone reset -----

  lemma VersionNode(order: Order, node: Node, o: Outcomes)
    ensures var v := VersionPlan(order, node, o);
            && v.node.status == node.status && v.node.deleting == node.deleting && v.node.finalizer == node.finalizer
            && (!v.done ==> NodeAfter(node, v.events) == v.node && forall e :: e in v.events ==> e.UserEdited? || e.SchematicSet?)
  {
    hide UpgradePlan, ComputeDesiredImage, IsDowngrade, NormalizeVersion, ConfigIsApplied, Apply, NodeAfter;
    var d := C.Wanted(node, o);
    NodeCons(node, FinalizerAdded, []);
    if d.Desired? {
      var cached := SchematicSet(d.newSchematic, d.newCanonical);
      NodeCons(node, cached, []);
      assert [] + [cached] == [cached];
      if o.edit.Some? {
        NodeCons(node, UserEdited(o.edit.value), [cached]);
        NodeCons(WithEdit(node, o.edit.value), cached, []);
        assert Apply(node, UserEdited(o.edit.value)) == WithEdit(node, o.edit.value) by { EditApplies(node, o.edit.value); }
      }
    }
  }

  lemma EditApplies(node: Node, e: Edit)
    ensures Apply(node, UserEdited(e)) == WithEdit(node, e)
  {
  }

  lemma ResetLeaves(node: Node, o: Outcomes)
    requires StandaloneReset(true) in ResetPlan(node, o) && o.resetStatus
    ensures NodeAfter(node, ResetPlan(node, o)) ==
            node.(ann := node.ann.(lastReset := node.ann.reset),
                  status := node.status.(phase := Pending, conditions := node.status.conditions[ConfigApplied := False]))
  {
    var marked := node.(ann := node.ann.(lastReset := node.ann.reset));
    var s := node.status.(phase := Pending, conditions := node.status.conditions[ConfigApplied := False]);
    var mark, reset, pending := LastResetSet(node.ann.reset), StandaloneReset(true), StatusWritten(s);
    assert ResetPlan(node, o) == [mark] + ([reset] + [pending]);
    hide ResetPlan, NodeAfter;
    NodeCons(node, mark, [reset] + [pending]);
    NodeCons(marked, reset, [pending]);
    NodeCons(marked, pending, []);
    OneWrite(node, node.ann.reset, s);
    OneWrite(marked, "", s);
    hide Apply;
  }

  lemma OneWrite(node: Node, id: string, s: NodeStatus)
    ensures Apply(node, FinalizerAdded) == node.(finalizer := true)
    ensures Apply(node, LastResetSet(id)) == node.(ann := node.ann.(lastReset := id))
    ensures Apply(node, LastUpgradeSet(id)) == node.(ann := node.ann.(lastUpgrade := id))
    ensures Apply(node, StatusWritten(s)) == node.(status := s)
    ensures forall ok :: Apply(node, StandaloneReset(ok)) == node
    ensures forall origin, ok :: Apply(node, UpgradeSent(id, origin, ok)) == node
  {
  }

  // A pass that reset the machine and got to say so leaves a node that is pending and not
  // configured, with the request marked as done.
  lemma ResetUnconfigures(order: Order, l: Life, o: Outcomes, cut: nat)
    requires StandaloneReset(true) in Plan(order, l.node, o) && o.resetStatus && |Plan(order, l.node, o)| <= cut
    ensures var n := Next(order, l, Pass(o, cut)).node;
            && n.status == l.node.status.(phase := Pending, conditions := l.node.status.conditions[ConfigApplied := False])
            && n.ann.lastReset == n.ann.reset && n.finalizer && !n.deleting
            && !Has(n.status.conditions, ConfigApplied, True) && !IsNodeUpToDate(n)
  {
    hide VersionPlan, ResetPlan, ApplyOrErrorPlan, UpgradePlan, CheckUpgradePlan, DeletionPlan, NodeAfter, Apply, After;
    var e, m := StandaloneReset(true), l.node.(finalizer := true);
    var plan := Plan(order, l.node, o);
    NoResetElsewhere(order, l.node, o);
    NoResetElsewhere(order, m, o);
    var v := VersionPlan(order, m, o);
    VersionNode(order, m, o);
    ApplyConfigures(v.node, o.apply);
    assert e in ActivePlan(order, m, o) && (l.node.finalizer ==> m == l.node);
    assert e in ConfigPlan(v.node, o) && !v.done;
    var rest := ResetPlan(v.node, o);
    ResetLeaves(v.node, o);
    NodeCat(m, v.events, rest);
    NodeCons(l.node, FinalizerAdded, v.events + rest);
    OneWrite(l.node, "", l.node.status);
    assert Cut(plan, cut) == plan == (if l.node.finalizer then [] else [FinalizerAdded]) + (v.events + rest);
    assert l.node.finalizer ==> plan == v.events + rest;
    AfterIsNodeAfter(l, plan);
  }

  // Standalone resets come of the reset plan alone.
  lemma NoResetElsewhere(order: Order, node: Node, o: Outcomes)
    ensures StandaloneReset(true) !in DeletionPlan(node, o.deletion)
    ensures StandaloneReset(true) !in CheckUpgradePlan(node, o)
    ensures StandaloneReset(true) !in UpgradePlan(order, node.status, node.ann.upgrade, FromAnnotation, o)
    ensures StandaloneReset(true) !in VersionPlan(order, node, o).events
  {
    DeletionLeavesAndCleansUp(node, o.deletion);
    UpgradeUpgrades(order, node, node.ann.upgrade, FromAnnotation, o);
    hide DeletionPlan, CheckUpgradePlan, UpgradePlan, VersionPlan;
    VersionNeverResets(order, node, o);
  }

  lemma VersionNeverResets(order: Order, node: Node, o: Outcomes)
    ensures StandaloneReset(true) !in VersionPlan(order, node, o).events
  {
    var d := C.Wanted(node, o);
    if d.Desired? { UpgradeUpgrades(order, node, d.image, FromSpec, o); }
    hide UpgradePlan, ComputeDesiredImage, IsDowngrade, NormalizeVersion, ConfigIsApplied;
  }

  // All calls of a first configuration succeed.
  predicate Succeeds(a: ApplyOutcomes)
  {
    a.start == a.build == a.dialInsecure == a.send == a.save == a.finish == Done
  }

  // A node without a configuration, reset or new, that has no upgrade to do first is reached without
  // TLS, and ends up Ready with the configuration of its generation; the next pass finds nothing to do.
  lemma FirstConfiguration(order: Order, l: Life, o: Outcomes, cut: nat)
    requires NothingFirst(l.node, o) && !Has(l.node.status.conditions, ConfigApplied, True)
    requires Succeeds(o.apply) && |Plan(order, l.node, o)| <= cut
    ensures var n, es, l' := l.node, C.Events(order, l, Pass(o, cut)), Next(order, l, Pass(o, cut));
            && DialedInsecurely(true) in es && DialedSecurely(true) !in es && DialedSecurely(false) !in es
            && ConfigSent(true) in es && ConfigSaved(n.generation) in es && l'.saved == Some(n.generation)
            && l'.node == n.(finalizer := true,
                             status := n.status.(phase := Ready, observedGeneration := n.generation,
                                                 conditions := n.status.conditions[ConfigApplied := True], retryCount := 0))
            && IsNodeUpToDate(l'.node)
  {
    hide Plan, NothingFirst, Next, V.Settled;
    ConfigEndsIn(order, l, o, cut);
    DialsExactly(order, l.node, o, DialedInsecurely(true));
    DialsExactly(order, l.node, o, DialedSecurely(true));
    DialsExactly(order, l.node, o, DialedSecurely(false));
    DialsExactly(order, l.node, o, ConfigSent(true));
    DialsExactly(order, l.node, o, ConfigSaved(l.node.generation));
    TroubleIs(false, o.apply);
    TroubleIs(false, o.apply.(finish := Done));
    assert Cut(Plan(order, l.node, o), cut) == Plan(order, l.node, o);
  }

  // A reset leads back to a configured node: after a pass that reset the machine and got to say
  // so, and unless an upgrade is asked for, the next one that succeeds configures it anew.
  lemma ResetLeadsBack(order: Order, l: Life, o: Outcomes, cut: nat, o': Outcomes, cut': nat)
    requires StandaloneReset(true) in Plan(order, l.node, o) && o.resetStatus && |Plan(order, l.node, o)| <= cut
    requires var n := Next(order, l, Pass(o, cut)).node;
             && (n.ann.upgrade == "" || n.ann.upgrade == n.ann.lastUpgrade)
             && Succeeds(o'.apply) && |Plan(order, n, o')| <= cut'
    ensures var l1 := Next(order, l, Pass(o, cut));
            var es, l2 := C.Events(order, l1, Pass(o', cut')), Next(order, l1, Pass(o', cut'));
            && l1.node.status.phase == Pending && Has(l1.node.status.conditions, ConfigApplied, False) && !IsNodeUpToDate(l1.node)
            && DialedInsecurely(true) in es && ConfigSaved(l1.node.generation) in es && l2.saved == Some(l1.node.generation)
            && l2.node.status.phase == Ready && Has(l2.node.status.conditions, ConfigApplied, True) && IsNodeUpToDate(l2.node)
  {
    hide Plan, Next, IsNodeUpToDate, V.Settled;
    ResetUnconfigures(order, l, o, cut);
    FirstConfiguration(order, Next(order, l, Pass(o, cut)), o', cut');
  }
}

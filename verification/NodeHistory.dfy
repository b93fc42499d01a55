// What holds in every history of a TalosNode, however its reconciles were cut short.
module NodeHistory {
  import opened Dialer
  import opened Options
  import opened Images
  import opened NodeTypes
  import opened NodePlan
  import opened NodeLife

  lemma FreshKeepsInv(order: Order, l: Life, steps: seq<Step>)
    requires Fresh(l) && LegalRun(order, l, steps)
    ensures Inv(order, Run(order, l, steps))
  {
    RunKeepsInv(order, l, steps);
  }

  // From the moment ConfigApplied=True is persisted until a standalone reset succeeds, the
  // controller never dials the node without TLS.
  lemma NoInsecureDialOnceApplied(order: Order, l: Life, steps: seq<Step>)
    requires Fresh(l) && LegalRun(order, l, steps)
    ensures Run(order, l, steps).badDials == 0
  {
    FreshKeepsInv(order, l, steps);
  }

  // However often the controller crashes, it resets the node at most once per request.
  lemma ResetAtMostOncePerRequest(order: Order, l: Life, steps: seq<Step>)
    requires Fresh(l) && LegalRun(order, l, steps)
    ensures Run(order, l, steps).resets <= Run(order, l, steps).requests
  {
    FreshKeepsInv(order, l, steps);
  }

  // A node that counts as up to date has a saved configuration built from its current spec,
  // unless an upgrade was started from phase Applying or Error since the last successful apply.
  lemma UpToDateMeansSavedFromCurrentSpec(order: Order, l: Life, steps: seq<Step>)
    requires Fresh(l) && LegalRun(order, l, steps)
    ensures var r := Run(order, l, steps);
            IsNodeUpToDate(r.node) && !Tainted(r) ==> r.saved == Some(r.node.generation)
  {
    FreshKeepsInv(order, l, steps);
  }

  // ----- Deletion escalation -----

  // At most three etcd leave attempts fail, plus those whose count was never persisted.
  lemma FailedLeavesAreBounded(order: Order, l: Life, steps: seq<Step>)
    requires Fresh(l) && LegalRun(order, l, steps)
    ensures var r := Run(order, l, steps);
            r.failedLeaves <= ETCD_LEAVE_MAX_ATTEMPTS + r.lostLeaves + (if r.unrecorded then 1 else 0)
  {
    FreshKeepsInv(order, l, steps);
  }

  // A control plane that gets past guard and drain, with the cluster's talosconfig readable.
  predicate BeyondGuardAndDrain(node: Node, d: DeletionOutcomes)
  {
    && node.deleting && node.finalizer && node.spec.role == ControlPlane
    && (node.status.phase == Deleting || d.deletingStatus)
    && (d.guard == ClusterGone || d.guard == PeerFound)
    && (SkipDrain(node) || d.drain == DrainDone)
    && d.talosconfig != TcError
  }

  predicate EndsWith(es: seq<Event>, tail: seq<Event>)
  {
    |tail| <= |es| && es[|es| - |tail|..] == tail
  }

  // What such a pass does first.
  function Head(node: Node, d: DeletionOutcomes): seq<Event>
  {
    (if node.status.phase == Deleting then [] else [StatusWritten(DeletingStatus(node.status))]) + [GuardPassed(d.guard == ClusterGone)]
  }

  lemma BeyondPlan(order: Order, node: Node, o: Outcomes)
    requires BeyondGuardAndDrain(node, o.deletion)
    ensures Plan(order, node, o) == Head(node, o.deletion) + LeavePlan(node.(status := DeletingStatus(node.status)), o.deletion)
  {
    hide CleanupPlan, LeavePlan;
    assert node.status.phase == Deleting ==> node.(status := DeletingStatus(node.status)) == node;
  }

  lemma EndsWithItself(head: seq<Event>, tail: seq<Event>)
    ensures EndsWith(head + tail, tail)
  {
  }

  // The etcd leave of this pass fails.
  predicate LeaveFails(node: Node, d: DeletionOutcomes)
  {
    d.talosconfig == TcFound && node.status.deletionAttempts < ETCD_LEAVE_MAX_ATTEMPTS && !d.leave
  }

  lemma LeaveFailsOrCleansUp(node: Node, d: DeletionOutcomes) returns (middle: seq<Event>)
    requires d.talosconfig != TcError
    ensures EtcdLeaveTried(false) !in middle
    ensures LeaveFails(node, d) ==>
              EtcdLeaveTried(false) in LeavePlan(node, d) && CleanupStarted !in LeavePlan(node, d)
    ensures !LeaveFails(node, d) ==> LeavePlan(node, d) == middle + CleanupPlan(node, d)
  {
    hide CleanupPlan, DialAny, FilterExclude;
    middle := if d.talosconfig == TcSkip then [] else
                if node.status.deletionAttempts >= ETCD_LEAVE_MAX_ATTEMPTS then ForceRemovePlan(node, d) else [EtcdLeaveTried(true)];
    if LeaveFails(node, d) {
      assert LeavePlan(node, d)[0] == EtcdLeaveTried(false);
    }
  }

  lemma CleanupStarts(node: Node, d: DeletionOutcomes)
    ensures CleanupStarted in CleanupPlan(node, d) && EtcdLeaveTried(false) !in CleanupPlan(node, d)
  {
    CleanupIsQuiet(node, d);
    assert CleanupPlan(node, d)[0] == CleanupStarted;
  }

  lemma FailingPass(order: Order, node: Node, o: Outcomes)
    requires BeyondGuardAndDrain(node, o.deletion) && LeaveFails(node, o.deletion)
    ensures EtcdLeaveTried(false) in Plan(order, node, o) && CleanupStarted !in Plan(order, node, o)
  {
    var n := node.(status := DeletingStatus(node.status));
    BeyondPlan(order, node, o);
    var middle := LeaveFailsOrCleansUp(n, o.deletion);
    hide CleanupPlan, LeavePlan, Plan;
    InJoin(Head(node, o.deletion), LeavePlan(n, o.deletion), EtcdLeaveTried(false));
    InJoin(Head(node, o.deletion), LeavePlan(n, o.deletion), CleanupStarted);
  }

  lemma CleaningPass(order: Order, node: Node, o: Outcomes)
    requires BeyondGuardAndDrain(node, o.deletion) && !LeaveFails(node, o.deletion)
    ensures var cleanup := CleanupPlan(node.(status := DeletingStatus(node.status)), o.deletion);
            EndsWith(Plan(order, node, o), cleanup) && CleanupStarted in Plan(order, node, o) && EtcdLeaveTried(false) !in Plan(order, node, o)
  {
    var n := node.(status := DeletingStatus(node.status));
    BeyondPlan(order, node, o);
    CleanupStarts(n, o.deletion);
    var middle := LeaveFailsOrCleansUp(n, o.deletion);
    assert EtcdLeaveTried(false) !in Head(node, o.deletion);
    hide *;
    Joined(Head(node, o.deletion), middle, CleanupPlan(n, o.deletion));
  }

  lemma Joined(head: seq<Event>, middle: seq<Event>, cleanup: seq<Event>)
    requires EtcdLeaveTried(false) !in head && EtcdLeaveTried(false) !in middle && EtcdLeaveTried(false) !in cleanup
    requires CleanupStarted in cleanup
    ensures var plan := head + (middle + cleanup);
            EndsWith(plan, cleanup) && CleanupStarted in plan && EtcdLeaveTried(false) !in plan
  {
    EndsWithItself(head + middle, cleanup);
    assert head + (middle + cleanup) == (head + middle) + cleanup;
  }

  // It either fails one more etcd leave, with attempts left, or reaches the cleanup, never both.
  lemma PassFailsOrCleansUp(order: Order, node: Node, o: Outcomes)
    requires BeyondGuardAndDrain(node, o.deletion)
    ensures var n := node.(status := DeletingStatus(node.status));
            if EtcdLeaveTried(false) in Plan(order, node, o)
            then LeaveFails(node, o.deletion) && CleanupStarted !in Plan(order, node, o)
            else EndsWith(Plan(order, node, o), CleanupPlan(n, o.deletion)) && CleanupStarted in Plan(order, node, o)
  {
    hide Plan, CleanupPlan, LeaveFails, EndsWith;
    if LeaveFails(node, o.deletion) {
      FailingPass(order, node, o);
    } else {
      CleaningPass(order, node, o);
    }
  }

  lemma InJoin(a: seq<Event>, b: seq<Event>, e: Event)
    ensures e in a + b <==> e in a || e in b
  {
  }

  // A pass beyond guard and drain that is not cut short and whose status writes land.
  predicate LandsBeyond(order: Order, l: Life, step: Step)
  {
    && step.Pass? && BeyondGuardAndDrain(l.node, step.o.deletion)
    && step.o.deletion.leaveStatus && |Plan(order, l.node, step.o)| <= step.cut
  }

  // How many such passes a run holds, and how many of them reach the cleanup.
  function Beyond(order: Order, l: Life, steps: seq<Step>): nat
    decreases |steps|
  {
    if steps == [] then 0
    else (if LandsBeyond(order, l, steps[0]) then 1 else 0) + Beyond(order, Next(order, l, steps[0]), steps[1..])
  }

  function Cleanups(order: Order, l: Life, steps: seq<Step>): nat
    decreases |steps|
  {
    if steps == [] then 0
    else (if LandsBeyond(order, l, steps[0]) && CleanupStarted in Plan(order, l.node, steps[0].o) then 1 else 0)
         + Cleanups(order, Next(order, l, steps[0]), steps[1..])
  }

  lemma {:induction false} AttemptsNeverFall(l: Life, es: seq<Event>, least: nat)
    requires l.node.deleting && l.node.status.deletionAttempts >= least
    requires forall e :: e in es && e.StatusWritten? ==> e.status.deletionAttempts >= least
    ensures var l' := After(l, es); l'.node.deleting && l'.node.status.deletionAttempts >= least
    decreases |es|
  {
    if es != [] {
      assert es[0] in es;
      AttemptsNeverFall(Record(l, es[0]), es[1..], least);
    }
  }

  lemma {:induction false} AfterLast(l: Life, es: seq<Event>, s: NodeStatus)
    ensures After(l, es + [StatusWritten(s)]).node.status == s
    decreases |es|
  {
    if es == [] {
      assert [StatusWritten(s)][1..] == [] && es + [StatusWritten(s)] == [StatusWritten(s)];
    } else {
      assert (es + [StatusWritten(s)])[1..] == es[1..] + [StatusWritten(s)];
      AfterLast(Record(l, es[0]), es[1..], s);
    }
  }

  lemma DeletionCounts(node: Node, d: DeletionOutcomes)
    ensures forall e :: e in DeletionPlan(node, d) && e.StatusWritten? ==> e.status.deletionAttempts >= node.status.deletionAttempts
  {
    LeaveCounts(node, d);
    LeaveCounts(node.(status := DeletingStatus(node.status)), d);
    hide CleanupPlan, LeavePlan, SkipDrain;
  }

  lemma LeaveCounts(node: Node, d: DeletionOutcomes)
    ensures forall e :: e in LeavePlan(node, d) && e.StatusWritten? ==> e.status.deletionAttempts >= node.status.deletionAttempts
    ensures forall e :: e in CleanupPlan(node, d) ==> !e.StatusWritten?
  {
    CleanupIsQuiet(node, d);
    hide CleanupPlan, DialAny, FilterExclude;
  }

  // Passes only ever raise the persisted count, and a failed leave that lands raises it by one.
  lemma PassCounts(order: Order, l: Life, step: Step)
    requires step.Pass? && l.node.deleting
    ensures var l' := Next(order, l, step);
            && l'.node.deleting && l'.node.status.deletionAttempts >= l.node.status.deletionAttempts
            && (LandsBeyond(order, l, step) && CleanupStarted !in Plan(order, l.node, step.o) ==>
                  l'.node.status.deletionAttempts == l.node.status.deletionAttempts + 1)
  {
    var plan := Plan(order, l.node, step.o);
    assert plan == DeletionPlan(l.node, step.o.deletion);
    hide Plan, DeletionPlan, BeyondGuardAndDrain, LandsBeyond;
    DeletionCounts(l.node, step.o.deletion);
    assert forall e :: e in Cut(plan, step.cut) ==> e in plan;
    AttemptsNeverFall(l, Cut(plan, step.cut), l.node.status.deletionAttempts);
    if LandsBeyond(order, l, step) && CleanupStarted !in plan {
      FailedPassCounts(order, l, step);
    }
  }

  lemma FailedPassCounts(order: Order, l: Life, step: Step)
    requires LandsBeyond(order, l, step) && CleanupStarted !in Plan(order, l.node, step.o)
    ensures Next(order, l, step).node.status.deletionAttempts == l.node.status.deletionAttempts + 1
  {
    hide Plan, BeyondGuardAndDrain, Head;
    FailedPassEnds(order, l.node, step.o);
    var counted := DeletingStatus(l.node.status).(deletionAttempts := l.node.status.deletionAttempts + 1);
    AfterLast(l, Head(l.node, step.o.deletion) + [EtcdLeaveTried(false)], counted);
    assert Cut(Plan(order, l.node, step.o), step.cut) == Plan(order, l.node, step.o);
  }

  lemma FailedPassEnds(order: Order, node: Node, o: Outcomes)
    requires BeyondGuardAndDrain(node, o.deletion) && o.deletion.leaveStatus && CleanupStarted !in Plan(order, node, o)
    ensures var counted := DeletingStatus(node.status).(deletionAttempts := node.status.deletionAttempts + 1);
            Plan(order, node, o) == Head(node, o.deletion) + [EtcdLeaveTried(false)] + [StatusWritten(counted)]
  {
    hide CleanupPlan, DialAny, FilterExclude;
    PassFailsOrCleansUp(order, node, o);
    BeyondPlan(order, node, o);
    hide Plan;
  }

  // Whatever else happens in between, crashes included: of the passes beyond guard and drain whose
  // status writes land, at most three fail a leave. So among any four of them one reaches the cleanup.
  lemma EscalationEnds(order: Order, l: Life, steps: seq<Step>)
    requires Fresh(l) && LegalRun(order, l, steps)
    ensures Beyond(order, l, steps) <= ETCD_LEAVE_MAX_ATTEMPTS + Cleanups(order, l, steps)
  {
    EscalationPays(order, l, steps);
  }

  lemma {:induction false} EscalationPays(order: Order, l: Life, steps: seq<Step>)
    requires Inv(order, l) && LegalRun(order, l, steps)
    ensures Beyond(order, l, steps) + (if l.node.deleting then l.node.status.deletionAttempts else 0)
            <= ETCD_LEAVE_MAX_ATTEMPTS + Cleanups(order, l, steps)
    decreases |steps|
  {
    AttemptsAreBounded(order, l);
    if steps != [] {
      StepKeepsInv(order, l, steps[0]);
      StepCounts(order, l, steps[0]);
      hide Inv, Next, Legal, LandsBeyond, Plan;
      EscalationPays(order, Next(order, l, steps[0]), steps[1..]);
    }
  }

  lemma AttemptsAreBounded(order: Order, l: Life)
    requires Inv(order, l)
    ensures l.node.status.deletionAttempts <= ETCD_LEAVE_MAX_ATTEMPTS
  {
  }

  lemma StepCounts(order: Order, l: Life, step: Step)
    ensures LandsBeyond(order, l, step) ==> l.node.deleting
    ensures l.node.deleting ==>
              var l' := Next(order, l, step);
              && l'.node.deleting && l'.node.status.deletionAttempts >= l.node.status.deletionAttempts
              && (LandsBeyond(order, l, step) && CleanupStarted !in Plan(order, l.node, step.o) ==>
                    l'.node.status.deletionAttempts == l.node.status.deletionAttempts + 1)
  {
    if step.Pass? && l.node.deleting {
      hide Plan, Next;
      PassCounts(order, l, step);
    }
  }

  // Exactly when a deletion pass lets the node go: every stage passed, and nothing stuck.
  lemma NodeGoesExactly(node: Node, d: DeletionOutcomes)
    ensures FinalizerRemoved in DeletionPlan(node, d) <==>
            && node.finalizer && (node.status.phase == Deleting || d.deletingStatus)
            && (node.spec.role == ControlPlane ==>
                  && (d.guard == ClusterGone || d.guard == PeerFound)
                  && (d.talosconfig == TcSkip ||
                      (d.talosconfig == TcFound && (d.leave || node.status.deletionAttempts >= ETCD_LEAVE_MAX_ATTEMPTS))))
            && (SkipDrain(node) || d.drain == DrainDone)
            && (d.secret == SecretAbsent || d.secret == SecretPresent) && d.removeFinalizer
  {
    var n := node.(status := DeletingStatus(node.status));
    CleanupRemovesExactly(node, d);
    CleanupRemovesExactly(n, d);
    hide CleanupPlan, DialAny, FilterExclude;
    assert SkipDrain(n) == SkipDrain(node);
  }

  lemma CleanupRemovesExactly(node: Node, d: DeletionOutcomes)
    ensures FinalizerRemoved in CleanupPlan(node, d) <==>
            (d.secret == SecretAbsent || d.secret == SecretPresent) && d.removeFinalizer
  {
    hide Repaired;
    var final := FinalPlan(node, d);
    assert d.removeFinalizer ==> final[|final| - 1] == FinalizerRemoved;
  }

  lemma {:induction false} FilterKeepsOthers(items: seq<string>, exclude: string, x: string)
    ensures x in FilterExclude(items, exclude) <==> x in items && x != exclude
    decreases |items|
  {
    if items != [] {
      FilterKeepsOthers(items[..|items| - 1], exclude, x);
      assert items == items[..|items| - 1] + [items[|items| - 1]];
    }
  }

  // Force-remove names the node's own IP and goes through a different, reachable endpoint.
  lemma ForceRemoveGoesThroughAPeer(node: Node, d: DeletionOutcomes, e: Event)
    requires e in DeletionPlan(node, d) && e.ForceRemoveSent?
    ensures e.deadIP == node.spec.nodeIP
    ensures e.survivor != node.spec.nodeIP && e.survivor in d.endpoints && e.survivor in d.reachable
    ensures node.status.deletionAttempts >= ETCD_LEAVE_MAX_ATTEMPTS
  {
    hide CleanupPlan;
    var n := node.(status := DeletingStatus(node.status));
    CleanupNeverForces(n, d);
    assert node.status.phase == Deleting ==> n == node;
    assert e in LeavePlan(n, d);
    var peers := FilterExclude(d.endpoints, node.spec.nodeIP);
    if peers != [] { DialAnyIsFirst(peers, d.reachable, 0); }
    FilterKeepsOthers(d.endpoints, node.spec.nodeIP, e.survivor);
  }

  lemma CleanupNeverForces(node: Node, d: DeletionOutcomes)
    ensures forall e :: e in CleanupPlan(node, d) ==> !e.ForceRemoveSent?
  {
  }
}

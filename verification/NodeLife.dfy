// The life of one TalosNode: reconciles that may stop after any write or RPC, and user
// edits between them. The invariants below hold after every single event.
module NodeLife {
  import opened Dialer
  import opened Options
  import opened Images
  import opened NodeTypes
  import opened NodePlan

  // The stored node, the saved configuration and what has happened so far.
  datatype Life = Life(
    node: Node,
    saved: Option<int>,      // generation of the spec the saved configuration was built from
    starts: set<Phase>,      // the phases upgrades were started from since the last successful apply
    secured: bool,           // ConfigApplied=True was persisted and no standalone reset has succeeded since
    badDials: nat,           // insecure dials made while secured
    armed: bool,             // phase Upgrading was persisted and the companion annotation was not, yet
    unguarded: bool,         // an upgrade was declared complete while armed
    versions: seq<string>,   // every value CurrentTalosVersion has had
    requests: nat,           // times the user set the reset annotation to a new non-empty value
    resets: nat,             // standalone Reset RPCs sent
    failedLeaves: nat,       // etcd leave attempts that failed
    lostLeaves: nat,         // those whose count was never persisted
    unrecorded: bool)        // the last failed attempt is not persisted, yet

  function RecordStatus(l: Life, s: NodeStatus): Life
  {
    var old_ := l.node.status;
    var changed := s.currentVersion != old_.currentVersion;
    l.(node := l.node.(status := s),
       secured := l.secured || ConfigIsApplied(s),
       starts := if s.phase == Upgrading && old_.phase != Upgrading then l.starts + {old_.phase}
                 else if s.phase == Ready && old_.phase == Applying then {}
                 else l.starts,
       armed := s.phase == Upgrading && (old_.phase != Upgrading || l.armed),
       unguarded := l.unguarded || (changed && l.armed),
       versions := if changed then l.versions + [s.currentVersion] else l.versions,
       unrecorded := l.unrecorded && s.deletionAttempts == old_.deletionAttempts)
  }

  function NewRequest(node: Node, id: string): nat
  {
    if id != "" && id != node.ann.reset then 1 else 0
  }

  function Note(l: Life, e: Event): Life
  {
    match e
    case StatusWritten(s) => RecordStatus(l, s)
    case UserEdited(edit) => l.(requests := l.requests + NewRequest(l.node, edit.reset))
    case LastUpgradeSet(_) => l.(armed := false)
    case StandaloneReset(ok) => l.(resets := l.resets + 1, secured := l.secured && !ok)
    case DialedInsecurely(_) => l.(badDials := l.badDials + if l.secured then 1 else 0)
    case ConfigSaved(g) => l.(saved := Some(g))
    case ConfigSecretDeleted => l.(saved := None)
    case EtcdLeaveTried(false) =>
      l.(failedLeaves := l.failedLeaves + 1,
         lostLeaves := l.lostLeaves + (if l.unrecorded then 1 else 0),
         unrecorded := true)
    case _ => l
  }

  function Record(l: Life, e: Event): Life
  {
    Note(l, e).(node := Apply(l.node, e))
  }

  function After(l: Life, es: seq<Event>): Life
    decreases |es|
  {
    if es == [] then l else After(Record(l, es[0]), es[1..])
  }

  lemma AfterCons(l: Life, e: Event, es: seq<Event>)
    ensures After(l, [e] + es) == After(Record(l, e), es)
  {
    assert ([e] + es)[1..] == es;
  }

  lemma AfterNothing(l: Life)
    ensures After(l, []) == l
  {
  }

  // ----- Steps and runs -----

  datatype Step =
    | Pass(o: Outcomes, cut: nat)      // a reconcile that stops after cut events
    | EditSpec(spec: NodeSpec)
    | SetUpgrade(image: string)
    | SetReset(id: string)
    | SetSkipDrain(v: string)
    | Delete

  // Role, cluster and address are fixed once the node exists.
  predicate Legal(l: Life, step: Step)
  {
    match step
    case EditSpec(spec) =>
      spec.role == l.node.spec.role && spec.clusterRef == l.node.spec.clusterRef && spec.nodeIP == l.node.spec.nodeIP
    case _ => true
  }

  function Next(order: Order, l: Life, step: Step): Life
  {
    match step
    case Pass(o, cut) => After(l, Cut(Plan(order, l.node, o), cut))
    case EditSpec(spec) => l.(node := l.node.(spec := spec, generation := l.node.generation + 1))
    case SetUpgrade(image) => l.(node := l.node.(ann := l.node.ann.(upgrade := image)))
    case SetReset(id) =>
      l.(node := l.node.(ann := l.node.ann.(reset := id)),
         requests := l.requests + NewRequest(l.node, id))
    case SetSkipDrain(v) => l.(node := l.node.(ann := l.node.ann.(skipDrain := v)))
    case Delete => l.(node := l.node.(deleting := true))
  }

  function Run(order: Order, l: Life, steps: seq<Step>): Life
    decreases |steps|
  {
    if steps == [] then l else Run(order, Next(order, l, steps[0]), steps[1..])
  }

  predicate LegalRun(order: Order, l: Life, steps: seq<Step>)
    decreases |steps|
  {
    steps == [] || (Legal(l, steps[0]) && LegalRun(order, Next(order, l, steps[0]), steps[1..]))
  }

  lemma RunCons(order: Order, l: Life, step: Step, rest: seq<Step>)
    ensures Run(order, l, [step] + rest) == Run(order, Next(order, l, step), rest)
    ensures LegalRun(order, l, [step] + rest) <==> Legal(l, step) && LegalRun(order, Next(order, l, step), rest)
  {
    assert ([step] + rest)[1..] == rest;
  }

  lemma RunNothing(order: Order, l: Life)
    ensures Run(order, l, []) == l && LegalRun(order, l, [])
  {
  }

  const NO_STATUS := NodeStatus(Unset, 0, map[], "", [], 0, 0)

  // A node as the user creates it; the reset annotation may already be there.
  predicate Fresh(l: Life)
  {
    && l.node.status == NO_STATUS
    && l.node.ann.lastUpgrade == l.node.ann.lastReset == l.node.ann.schematic == l.node.ann.lastExtensions == ""
    && !l.node.finalizer && !l.node.deleting && l.node.generation >= 1
    && l.starts == {} && !l.secured && !l.armed && !l.unguarded && !l.unrecorded
    && l.badDials == l.resets == l.failedLeaves == l.lostLeaves == 0
    && l.requests == OpenRequests(l.node)
    && l.versions == [""]
  }

  // ----- The invariant -----

  // A reset request the controller has not yet marked as processed.
  function OpenRequests(node: Node): nat
  {
    if node.ann.reset != "" && node.ann.reset != node.ann.lastReset then 1 else 0
  }

  predicate DialInv(l: Life)
  {
    l.badDials == 0 && (l.secured ==> ConfigIsApplied(l.node.status))
  }

  predicate ResetInv(l: Life)
  {
    l.resets + OpenRequests(l.node) <= l.requests
  }

  // An upgrade was started while a newer spec was being applied, or had failed to be.
  predicate Tainted(l: Life)
  {
    Applying in l.starts || Errored in l.starts
  }

  predicate ConfigInv(l: Life)
  {
    var s := l.node.status;
    && (s.phase in {Ready, Upgrading} && ConfigIsApplied(s) && !Tainted(l) ==> l.saved == Some(s.observedGeneration))
    && (s.phase in {Unset, Pending} ==> !ConfigIsApplied(s))
    && (s.phase == Deleting ==> l.node.deleting)
  }

  predicate VersionInv(order: Order, l: Life)
  {
    && l.versions != []
    && l.versions[|l.versions| - 1] == l.node.status.currentVersion
    && (l.node.status.phase == Upgrading && !l.armed ==>
          var target := VersionFromImage(l.node.ann.lastUpgrade);
          target != "" && !IsDowngrade(order, l.node.status.currentVersion, target))
    && (!l.unguarded ==> forall i :: 0 < i < |l.versions| ==> !IsDowngrade(order, l.versions[i - 1], l.versions[i]))
  }

  predicate LeaveInv(l: Life)
  {
    && l.node.status.deletionAttempts <= ETCD_LEAVE_MAX_ATTEMPTS
    && l.failedLeaves == l.node.status.deletionAttempts + l.lostLeaves + (if l.unrecorded then 1 else 0)
  }

  predicate Inv(order: Order, l: Life)
  {
    DialInv(l) && ResetInv(l) && ConfigInv(l) && VersionInv(order, l) && LeaveInv(l)
  }

  // The invariant holds before, between and after the events.
  predicate Safe(order: Order, l: Life, es: seq<Event>)
    decreases |es|
  {
    Inv(order, l) && (es == [] || Safe(order, Record(l, es[0]), es[1..]))
  }

  lemma SafeCons(order: Order, l: Life, e: Event, es: seq<Event>)
    requires Inv(order, l) && Safe(order, Record(l, e), es)
    ensures Safe(order, l, [e] + es)
    ensures After(l, [e] + es) == After(Record(l, e), es)
  {
    hide Inv, Record;
    assert ([e] + es)[1..] == es;
  }

  lemma {:induction false} SafeAppend(order: Order, l: Life, es: seq<Event>, fs: seq<Event>)
    requires Safe(order, l, es) && Safe(order, After(l, es), fs)
    ensures Safe(order, l, es + fs)
    decreases |es|
  {
    hide Inv, Record;
    if es == [] {
      assert es + fs == fs;
    } else {
      SafeAppend(order, Record(l, es[0]), es[1..], fs);
      SafeCons(order, l, es[0], es[1..] + fs);
      assert es + fs == [es[0]] + (es[1..] + fs);
    }
  }

  lemma {:induction false} SafePrefix(order: Order, l: Life, es: seq<Event>, cut: nat)
    requires Safe(order, l, es)
    ensures Inv(order, After(l, Cut(es, cut)))
    decreases cut
  {
    hide Inv, Record;
    if es == [] || cut == 0 {
      assert Cut(es, cut) == [];
    } else {
      SafePrefix(order, Record(l, es[0]), es[1..], cut - 1);
      assert Cut(es, cut) == [es[0]] + Cut(es[1..], cut - 1);
      assert Cut(es, cut)[1..] == Cut(es[1..], cut - 1);
    }
  }

  // ----- Every plan is safe -----

  lemma SafeOne(order: Order, l: Life, e: Event)
    requires Inv(order, l) && Inv(order, Record(l, e))
    ensures Safe(order, l, [e])
  {
    SafeCons(order, l, e, []);
    assert [e] + [] == [e];
  }

  lemma SafeNothing(order: Order, l: Life)
    requires Inv(order, l)
    ensures Safe(order, l, [])
  {
  }

  lemma SafeOptional(order: Order, l: Life, happens: bool, e: Event)
    requires Inv(order, l) && (happens ==> Inv(order, Record(l, e)))
    ensures var es := if happens then [e] else [];
            && Safe(order, l, es)
            && After(l, es) == if happens then Record(l, e) else l
  {
    if happens {
      SafeOne(order, l, e);
      assert [e][1..] == [];
    }
  }

  // ----- Single events -----

  lemma UpgradingWritten(order: Order, l: Life)
    requires Inv(order, l) && l.node.status.phase != Upgrading && !l.node.deleting
    ensures Inv(order, RecordStatus(l, UpgradingStatus(l.node.status)))
  {
    hide VersionFromImage, IsDowngrade;
  }

  lemma UpgradeFailureWritten(order: Order, l: Life, s: NodeStatus)
    requires Inv(order, l) && l.node.status == UpgradingStatus(s)
    ensures Inv(order, RecordStatus(l, UpgradingStatus(s).(phase := Errored)))
  {
    hide VersionFromImage, IsDowngrade;
  }

  lemma LastUpgradeWritten(order: Order, l: Life, image: string)
    requires Inv(order, l)
    requires l.node.status.phase == Upgrading ==>
               VersionFromImage(image) != "" && !IsDowngrade(order, l.node.status.currentVersion, VersionFromImage(image))
    ensures Inv(order, Record(l, LastUpgradeSet(image)))
  {
    hide VersionFromImage, IsDowngrade, ConfigIsApplied;
  }

  // Events that change neither the status nor any counter of the invariant.
  predicate Quiet(e: Event)
  {
    || e.FinalizerAdded? || e.SchematicSet? || e.UpgradeSent? || e.DialedSecurely? || e.ConfigSent?
    || e.GuardPassed? || e.CleanupStarted? || e.ForceRemoveSent? || e.DeletionReset? || e.EndpointsSet?
    || e.KubeconfigPointed? || e.FinalizerRemoved? || e == EtcdLeaveTried(true)
  }

  lemma QuietKeeps(order: Order, l: Life, e: Event)
    requires Inv(order, l) && Quiet(e)
    ensures Inv(order, Record(l, e))
    ensures Record(l, e).node.status == l.node.status && Record(l, e) == l.(node := Record(l, e).node)
  {
    QuietShape(l, e);
    hide Record, Quiet;
    SameForInv(order, l, Record(l, e));
  }

  lemma QuietShape(l: Life, e: Event)
    requires Quiet(e)
    ensures var l' := Record(l, e);
            && l' == l.(node := l'.node) && l'.node.status == l.node.status && l'.node.deleting == l.node.deleting
            && l'.node.ann.reset == l.node.ann.reset && l'.node.ann.lastReset == l.node.ann.lastReset
            && l'.node.ann.lastUpgrade == l.node.ann.lastUpgrade
  {
  }

  // What the invariant looks at in a node.
  lemma SameForInv(order: Order, l: Life, l': Life)
    requires Inv(order, l) && l' == l.(node := l'.node) && l'.node.status == l.node.status && l'.node.deleting == l.node.deleting
    requires l'.node.ann.reset == l.node.ann.reset && l'.node.ann.lastReset == l.node.ann.lastReset
    requires l'.node.ann.lastUpgrade == l.node.ann.lastUpgrade
    ensures Inv(order, l')
  {
    hide VersionFromImage, IsDowngrade, ConfigIsApplied;
  }

  // A user's edit during a reconcile counts as one between reconciles.
  lemma EditKeepsInv(order: Order, l: Life, edit: Edit)
    requires Inv(order, l)
    ensures var l' := Record(l, UserEdited(edit));
            Inv(order, l') && l'.node == WithEdit(l.node, edit) && l'.node.status == l.node.status
  {
    hide VersionFromImage, IsDowngrade, ConfigIsApplied;
  }

  // ----- Every plan is safe -----

  lemma UpgradedWritten(order: Order, l: Life, tag: string)
    requires Inv(order, l) && l.node.status.phase == Upgrading && UpgradeIsComplete(l.node, tag)
    ensures Inv(order, RecordStatus(l, UpgradedStatus(l.node, tag)))
  {
    hide VersionFromImage, IsDowngrade;
    var l' := RecordStatus(l, UpgradedStatus(l.node, tag));
    assert ConfigIsApplied(l'.node.status) == ConfigIsApplied(l.node.status);
    assert VersionInv(order, l');
  }

  lemma CheckUpgradeIsSafe(order: Order, l: Life, o: Outcomes)
    requires Inv(order, l) && l.node.status.phase == Upgrading
    ensures Safe(order, l, CheckUpgradePlan(l.node, o))
  {
    hide Inv, Safe, UpgradedStatus, UpgradeIsComplete;
    var plan := CheckUpgradePlan(l.node, o);
    if plan != [] {
      UpgradedWritten(order, l, o.version.value.tag);
      SafeOne(order, l, plan[0]);
    } else {
      SafeNothing(order, l);
    }
  }

  lemma UpgradeIsSafe(order: Order, l: Life, image: string, origin: Origin, o: Outcomes)
    requires Inv(order, l) && l.node.status.phase != Upgrading && !l.node.deleting
    ensures Safe(order, l, UpgradePlan(order, l.node.status, image, origin, o))
  {
    hide Inv, Safe, VersionFromImage, IsDowngrade;
    hide UpgradingStatus, UpgradeEnd;
    var plan := UpgradePlan(order, l.node.status, image, origin, o);
    if plan == [] {
      SafeNothing(order, l);
    } else if plan[0].LastUpgradeSet? {
      LastUpgradeWritten(order, l, image);
      SafeOne(order, l, plan[0]);
    } else {
      UpgradeSentIsSafe(order, l, image, origin, o);
    }
  }

  lemma UpgradeSentIsSafe(order: Order, l: Life, image: string, origin: Origin, o: Outcomes)
    requires Inv(order, l) && l.node.status.phase != Upgrading && !l.node.deleting
    requires VersionFromImage(image) != "" && !IsDowngrade(order, l.node.status.currentVersion, VersionFromImage(image))
    ensures Safe(order, l, [StatusWritten(UpgradingStatus(l.node.status)), UpgradeSent(image, origin, o.upgrade)]
                           + UpgradeEnd(l.node.status, image, o))
  {
    hide Inv, Safe, VersionFromImage, IsDowngrade, UpgradeEnd;
    var started, sent := StatusWritten(UpgradingStatus(l.node.status)), UpgradeSent(image, origin, o.upgrade);
    var l1 := Record(l, started);
    var tail := UpgradeEnd(l.node.status, image, o);
    UpgradingWritten(order, l);
    QuietKeeps(order, l1, sent);
    LastUpgradeWritten(order, l1, image);
    UpgradeEndIsSafe(order, l1, l.node.status, image, o);
    SafeCons(order, l1, sent, tail);
    SafeCons(order, l, started, [sent] + tail);
    assert [started, sent] + tail == [started] + ([sent] + tail);
  }

  lemma UpgradeEndIsSafe(order: Order, l: Life, s: NodeStatus, image: string, o: Outcomes)
    requires Inv(order, l) && l.node.status == UpgradingStatus(s) && Inv(order, Record(l, LastUpgradeSet(image)))
    ensures Safe(order, l, UpgradeEnd(s, image, o))
  {
    hide Inv, Safe;
    var l' := if o.lastUpgradePatch then Record(l, LastUpgradeSet(image)) else l;
    SafeOptional(order, l, o.lastUpgradePatch, LastUpgradeSet(image));
    UpgradeFailureWritten(order, l', s);
    SafeOptional(order, l', !o.upgrade && o.upgradeErrorStatus, StatusWritten(UpgradingStatus(s).(phase := Errored)));
    SafeAppend(order, l, if o.lastUpgradePatch then [LastUpgradeSet(image)] else [],
               if !o.upgrade && o.upgradeErrorStatus then [StatusWritten(UpgradingStatus(s).(phase := Errored))] else []);
  }

  lemma ResetMarked(order: Order, l: Life)
    requires Inv(order, l) && OpenRequests(l.node) == 1
    ensures var marked := Record(l, LastResetSet(l.node.ann.reset));
            Inv(order, marked) && marked.resets < marked.requests && OpenRequests(marked.node) == 0
  {
    hide VersionFromImage, IsDowngrade;
  }

  lemma ResetDone(order: Order, l: Life, ok: bool)
    requires Inv(order, l) && OpenRequests(l.node) == 0 && l.resets < l.requests && l.node.status.phase != Upgrading
    ensures var sent := Record(l, StandaloneReset(ok));
            Inv(order, sent) && (ok ==> Inv(order, RecordStatus(sent, ResetStatus(l.node.status))))
  {
    hide VersionFromImage, IsDowngrade;
  }

  lemma ResetIsSafe(order: Order, l: Life, o: Outcomes)
    requires Inv(order, l) && OpenRequests(l.node) == 1 && l.node.status.phase != Upgrading
    ensures Safe(order, l, ResetPlan(l.node, o))
  {
    hide Inv, Safe, OpenRequests, ResetStatus;
    if !o.lastResetPatch {
      SafeNothing(order, l);
    } else {
      var marked := LastResetSet(l.node.ann.reset);
      var l1 := Record(l, marked);
      ResetMarked(order, l);
      if o.reset.None? {
        SafeOne(order, l, marked);
        assert ResetPlan(l.node, o) == [marked];
      } else {
        var sent := StandaloneReset(o.reset.value);
        var written := StatusWritten(ResetStatus(l.node.status));
        ResetDone(order, l1, o.reset.value);
        SafeOptional(order, Record(l1, sent), o.reset.value && o.resetStatus, written);
        var tail := if o.reset.value && o.resetStatus then [written] else [];
        SafeCons(order, l1, sent, tail);
        SafeCons(order, l, marked, [sent] + tail);
        assert ResetPlan(l.node, o) == [marked] + ([sent] + tail);
      }
    }
  }

  lemma SavedAndApplied(order: Order, l: Life)
    requires Inv(order, l) && l.node.status.phase == Applying && l.node.status.observedGeneration == l.node.generation
    ensures var saved := Record(l, ConfigSaved(l.node.generation));
            && Inv(order, saved) && Inv(order, Record(saved, StatusWritten(AppliedStatus(l.node.status))))
            && Settles(l, l.node.status) && Settles(saved, AppliedStatus(l.node.status))
            && Settles(Record(saved, StatusWritten(AppliedStatus(l.node.status))), AppliedStatus(l.node.status))
  {
    hide VersionInv;
    SavedKeepsVersions(order, l);
  }

  lemma SavedKeepsVersions(order: Order, l: Life)
    requires VersionInv(order, l) && l.node.status.phase == Applying
    ensures var saved := Record(l, ConfigSaved(l.node.generation));
            VersionInv(order, saved) && VersionInv(order, Record(saved, StatusWritten(AppliedStatus(l.node.status))))
  {
    hide VersionFromImage, IsDowngrade;
  }

  lemma SentChangesNothing(l: Life, ok: bool)
    ensures Record(l, ConfigSent(ok)) == l
  {
  }

  lemma SendIsSafe(order: Order, l: Life, a: ApplyOutcomes)
    requires Inv(order, l) && l.node.status.phase == Applying && l.node.status.observedGeneration == l.node.generation
    ensures var attempt := SendPlan(l.node, a);
            Safe(order, l, attempt.events) && Settles(After(l, attempt.events), attempt.status)
  {
    hide Inv, Safe, Settles, RecordStatus, AppliedStatus;
    var sent, saved, applied := ConfigSent(a.send == Done), ConfigSaved(l.node.generation), StatusWritten(AppliedStatus(l.node.status));
    SavedAndApplied(order, l);
    SentChangesNothing(l, a.send == Done);
    hide Record;
    if a.send != Done || a.save != Done {
      SafeOptional(order, l, true, sent);
    } else {
      var l' := Record(l, saved);
      SafeOptional(order, l', a.finish == Done, applied);
      var tail := if a.finish == Done then [applied] else [];
      SafeCons(order, l, saved, tail);
      SafeCons(order, l, sent, [saved] + tail);
      assert SendPlan(l.node, a).events == [sent] + ([saved] + tail);
    }
  }

  // The in-memory status an attempt left behind may still be written, as an error.
  predicate Settles(l: Life, s: NodeStatus)
  {
    && s.deletionAttempts == l.node.status.deletionAttempts
    && s.currentVersion == l.node.status.currentVersion
    && (l.secured ==> ConfigIsApplied(s))
  }

  lemma OneEventSettles(order: Order, l: Life, e: Event)
    requires Inv(order, l) && (Quiet(e) || e.DialedInsecurely?)
    ensures Settles(After(l, [e]), l.node.status)
  {
    hide VersionInv, ConfigInv, ResetInv, LeaveInv, ConfigIsApplied;
    if Quiet(e) { QuietShape(l, e); }
    hide Quiet;
    assert After(l, [e]) == Record(l, e) by { assert [e][1..] == []; }
  }

  lemma InsecureDial(order: Order, l: Life, ok: bool)
    requires Inv(order, l) && !ConfigIsApplied(l.node.status)
    ensures Inv(order, Record(l, DialedInsecurely(ok)))
    ensures Record(l, DialedInsecurely(ok)) == l
  {
  }

  lemma SecureIsSafe(order: Order, l: Life, a: ApplyOutcomes)
    requires Inv(order, l) && l.node.status.phase == Applying && l.node.status.observedGeneration == l.node.generation
    ensures var attempt := SecurePlan(l.node, a);
            Safe(order, l, attempt.events) && Settles(After(l, attempt.events), attempt.status)
  {
    hide Inv, SendPlan;
    var dialled := DialedSecurely(a.dialSecure == Done);
    QuietKeeps(order, l, dialled);
    if a.dialSecure == Done {
      SendIsSafe(order, Record(l, dialled), a);
      SafeCons(order, l, dialled, SendPlan(l.node, a).events);
    } else {
      SafeOne(order, l, dialled);
      OneEventSettles(order, l, dialled);
      assert [dialled] + [] == [dialled];
    }
  }

  lemma ConnectIsSafe(order: Order, l: Life, a: ApplyOutcomes)
    requires Inv(order, l) && l.node.status.phase == Applying && l.node.status.observedGeneration == l.node.generation
    ensures var attempt := ConnectPlan(!ConfigIsApplied(l.node.status), l.node, a);
            Safe(order, l, attempt.events) && Settles(After(l, attempt.events), attempt.status)
  {
    if !ConfigIsApplied(l.node.status) {
      hide Inv, SendPlan, SecurePlan;
      var dialled := DialedInsecurely(a.dialInsecure == Done);
      InsecureDial(order, l, a.dialInsecure == Done);
      if a.dialInsecure == Done {
        SendIsSafe(order, l, a);
        SafeCons(order, l, dialled, SendPlan(l.node, a).events);
      } else if a.talosconfig != Done {
        SafeOne(order, l, dialled);
        OneEventSettles(order, l, dialled);
        assert [dialled] + [] == [dialled];
      } else {
        SecureIsSafe(order, l, a);
        SafeCons(order, l, dialled, SecurePlan(l.node, a).events);
      }
    } else if a.talosconfig == Done {
      SecureIsSafe(order, l, a);
    }
  }

  lemma ApplyingWritten(order: Order, l: Life)
    requires Inv(order, l) && l.node.status.phase != Upgrading
    ensures Inv(order, RecordStatus(l, ApplyingStatus(l.node)))
    ensures Settles(l, ApplyingStatus(l.node))
  {
  }

  lemma ErrorWritten(order: Order, l: Life, s: NodeStatus)
    requires Inv(order, l) && Settles(l, s)
    ensures Inv(order, RecordStatus(l, ErrorStatus(s)))
  {
  }

  lemma ApplyIsSafe(order: Order, l: Life, a: ApplyOutcomes)
    requires Inv(order, l) && l.node.status.phase != Upgrading
    ensures var attempt := ApplyPlan(l.node, a);
            Safe(order, l, attempt.events) && Settles(After(l, attempt.events), attempt.status)
  {
    hide Inv, ConnectPlan;
    ApplyingWritten(order, l);
    var started := StatusWritten(ApplyingStatus(l.node));
    var l' := Record(l, started);
    if a.start == Done {
      if a.build != Done {
        SafeOne(order, l, started);
        assert After(l, [started]) == l' by { assert [started][1..] == []; }
        ApplyingWrittenTwice(order, l);
      } else {
        ConnectIsSafe(order, l', a);
        SafeCons(order, l, started, ConnectPlan(!ConfigIsApplied(l.node.status), l'.node, a).events);
      }
    }
  }

  lemma ApplyingWrittenTwice(order: Order, l: Life)
    requires Inv(order, l)
    ensures Settles(RecordStatus(l, ApplyingStatus(l.node)), ApplyingStatus(l.node))
  {
  }

  lemma ApplyOrErrorIsSafe(order: Order, l: Life, a: ApplyOutcomes)
    requires Inv(order, l) && l.node.status.phase != Upgrading
    ensures Safe(order, l, ApplyOrErrorPlan(l.node, a))
  {
    hide Inv, ApplyPlan;
    var attempt := ApplyPlan(l.node, a);
    ApplyIsSafe(order, l, a);
    SafeEnd(order, l, attempt.events);
    var l' := After(l, attempt.events);
    ErrorWritten(order, l', attempt.status);
    var tail := if attempt.result == Failed && a.errorStatus then [StatusWritten(ErrorStatus(attempt.status))] else [];
    if tail != [] { SafeOne(order, l', tail[0]); }
    SafeAppend(order, l, attempt.events, tail);
  }

  lemma SafeEnd(order: Order, l: Life, es: seq<Event>)
    requires Safe(order, l, es)
    ensures Inv(order, After(l, es))
  {
    SafePrefix(order, l, es, |es|);
    assert Cut(es, |es|) == es;
  }

  // ----- Deletion -----

  lemma {:induction false} QuietPlanIsSafe(order: Order, l: Life, es: seq<Event>)
    requires Inv(order, l) && l.node.status.phase == Deleting
    requires forall e :: e in es ==> Quiet(e) || e.ConfigSecretDeleted?
    ensures Safe(order, l, es)
    decreases |es|
  {
    if es != [] {
      assert es[0] in es;
      if Quiet(es[0]) { QuietKeeps(order, l, es[0]); }
      assert Inv(order, Record(l, es[0])) && Record(l, es[0]).node.status == l.node.status;
      QuietPlanIsSafe(order, Record(l, es[0]), es[1..]);
    }
  }

  lemma CleanupIsQuiet(node: Node, d: DeletionOutcomes)
    ensures forall e :: e in CleanupPlan(node, d) ==> Quiet(e) || e.ConfigSecretDeleted?
  {
    CleanupCleansUp(node, d);
    hide CleanupPlan;
  }

  lemma LeaveIsSafe(order: Order, l: Life, d: DeletionOutcomes)
    requires Inv(order, l) && l.node.status.phase == Deleting
    ensures Safe(order, l, LeavePlan(l.node, d))
  {
    hide CleanupPlan, Inv, Safe, FilterExclude, DialAny;
    CleanupIsQuiet(l.node, d);
    if d.talosconfig == TcFound && l.node.status.deletionAttempts < ETCD_LEAVE_MAX_ATTEMPTS && !d.leave {
      FailedLeaveIsSafe(order, l, d.leaveStatus);
    } else {
      QuietPlanIsSafe(order, l, LeavePlan(l.node, d));
    }
  }

  lemma FailedLeaveKeepsInv(order: Order, l: Life)
    requires Inv(order, l) && l.node.status.phase == Deleting && l.node.status.deletionAttempts < ETCD_LEAVE_MAX_ATTEMPTS
    ensures var counted := StatusWritten(l.node.status.(deletionAttempts := l.node.status.deletionAttempts + 1));
            Inv(order, Record(l, EtcdLeaveTried(false))) && Inv(order, Record(Record(l, EtcdLeaveTried(false)), counted))
  {
    hide VersionInv;
    FailedLeaveKeepsVersions(order, l);
  }

  lemma FailedLeaveKeepsVersions(order: Order, l: Life)
    requires VersionInv(order, l) && l.node.status.phase == Deleting
    ensures var counted := StatusWritten(l.node.status.(deletionAttempts := l.node.status.deletionAttempts + 1));
            && VersionInv(order, Record(l, EtcdLeaveTried(false)))
            && VersionInv(order, Record(Record(l, EtcdLeaveTried(false)), counted))
  {
    hide VersionFromImage, IsDowngrade;
  }

  lemma FailedLeaveIsSafe(order: Order, l: Life, lands: bool)
    requires Inv(order, l) && l.node.status.phase == Deleting && l.node.status.deletionAttempts < ETCD_LEAVE_MAX_ATTEMPTS
    ensures var counted := StatusWritten(l.node.status.(deletionAttempts := l.node.status.deletionAttempts + 1));
            Safe(order, l, [EtcdLeaveTried(false)] + if lands then [counted] else [])
  {
    hide Inv, Safe, Record;
    var l' := Record(l, EtcdLeaveTried(false));
    var counted := StatusWritten(l.node.status.(deletionAttempts := l.node.status.deletionAttempts + 1));
    FailedLeaveKeepsInv(order, l);
    SafeOptional(order, l', lands, counted);
    SafeCons(order, l, EtcdLeaveTried(false), if lands then [counted] else []);
  }

  lemma GuardIsSafe(order: Order, l: Life, d: DeletionOutcomes)
    requires Inv(order, l) && l.node.status.phase == Deleting
    ensures Safe(order, l, GuardPlan(l.node, d))
  {
    hide Inv, CleanupPlan, LeavePlan;
    CleanupIsQuiet(l.node, d);
    QuietPlanIsSafe(order, l, CleanupPlan(l.node, d));
    LeaveIsSafe(order, l, d);
    if l.node.spec.role == ControlPlane {
      QuietKeeps(order, l, GuardPassed(d.guard == ClusterGone));
      SafeCons(order, l, GuardPassed(d.guard == ClusterGone), DrainPlan(l.node, d));
    }
  }

  lemma DeletionIsSafe(order: Order, l: Life, d: DeletionOutcomes)
    requires Inv(order, l) && l.node.deleting
    ensures Safe(order, l, DeletionPlan(l.node, d))
  {
    if l.node.finalizer {
      if l.node.status.phase == Deleting {
        GuardIsSafe(order, l, d);
      } else if d.deletingStatus {
        var l' := RecordStatus(l, DeletingStatus(l.node.status));
        assert Inv(order, l');
        GuardIsSafe(order, l', d);
        SafeCons(order, l, StatusWritten(DeletingStatus(l.node.status)), GuardPlan(l'.node, d));
      }
    }
  }

  // ----- The whole reconcile -----

  lemma ConfigPlanIsSafe(order: Order, l: Life, o: Outcomes)
    requires Inv(order, l) && l.node.status.phase != Upgrading
    ensures Safe(order, l, ConfigPlan(l.node, o))
  {
    hide Inv, ResetPlan, ApplyOrErrorPlan;
    if OpenRequests(l.node) == 1 {
      ResetIsSafe(order, l, o);
    } else if ConfigPlan(l.node, o) != [] {
      ApplyOrErrorIsSafe(order, l, o.apply);
    }
  }

  lemma VersionIsSafe(order: Order, l: Life, o: Outcomes)
    requires Inv(order, l) && l.node.status.phase != Upgrading && !l.node.deleting
    ensures var v := VersionPlan(order, l.node, o);
            Safe(order, l, v.events) && (!v.done ==> After(l, v.events).node == v.node)
    ensures VersionPlan(order, l.node, o).node.status == l.node.status
  {
    hide Inv, Safe, UpgradePlan, ComputeDesiredImage, IsDowngrade, NormalizeVersion, ConfigIsApplied, CachePlan, Cached;
    var d := ComputeDesiredImage(l.node.spec.talosVersion, l.node.spec.extensions,
                                 l.node.ann.lastExtensions, l.node.ann.schematic, o.factory);
    SafeNothing(order, l);
    if l.node.spec.talosVersion != "" && ConfigIsApplied(l.node.status) && d.Desired? {
      var cached := if d.newSchematic != "" then CachePlan(d, o) else [];
      var l' := After(l, cached);
      CacheIsSafe(order, l, d, o);
      SafeEnd(order, l, cached);
      UpgradeIsSafe(order, l', d.image, FromSpec, o);
      SafeAppend(order, l, cached, UpgradePlan(order, l.node.status, d.image, FromSpec, o));
    }
  }

  lemma CacheIsSafe(order: Order, l: Life, d: Desired, o: Outcomes)
    requires Inv(order, l) && d.Desired?
    ensures Safe(order, l, CachePlan(d, o)) && Safe(order, l, []) && After(l, []) == l
    ensures After(l, CachePlan(d, o)).node == Cached(l.node, d, o)
  {
    hide Inv, Safe;
    var cached := SchematicSet(d.newSchematic, d.newCanonical);
    SafeNothing(order, l);
    if o.edit.Some? {
      var edited := UserEdited(o.edit.value);
      var l1 := Record(l, edited);
      EditKeepsInv(order, l, o.edit.value);
      QuietKeeps(order, l1, cached);
      hide Record;
      SafeOptional(order, l1, true, cached);
      SafeCons(order, l, edited, [cached]);
      CachedNode(l1, d);
    } else {
      QuietKeeps(order, l, cached);
      hide Record;
      SafeOptional(order, l, true, cached);
      CachedNode(l, d);
      assert CachePlan(d, o) == [cached];
    }
  }

  lemma CachedNode(l: Life, d: Desired)
    requires d.Desired?
    ensures var cached := SchematicSet(d.newSchematic, d.newCanonical);
            Record(l, cached).node == Apply(l.node, cached)
  {
  }

  lemma ActiveIsSafe(order: Order, l: Life, o: Outcomes)
    requires Inv(order, l) && !l.node.deleting
    ensures Safe(order, l, ActivePlan(order, l.node, o))
  {
    hide Inv, Safe, CheckUpgradePlan, UpgradePlan, ConfigPlan, VersionPlan;
    if l.node.status.phase == Upgrading {
      CheckUpgradeIsSafe(order, l, o);
    } else if l.node.ann.upgrade != "" && l.node.ann.upgrade != l.node.ann.lastUpgrade {
      UpgradeIsSafe(order, l, l.node.ann.upgrade, FromAnnotation, o);
    } else {
      var v := VersionPlan(order, l.node, o);
      VersionIsSafe(order, l, o);
      if !v.done {
        SafeEnd(order, l, v.events);
        ConfigPlanIsSafe(order, After(l, v.events), o);
        SafeAppend(order, l, v.events, ConfigPlan(v.node, o));
      }
    }
  }

  lemma PlanIsSafe(order: Order, l: Life, o: Outcomes)
    requires Inv(order, l)
    ensures Safe(order, l, Plan(order, l.node, o))
  {
    hide Inv, ActivePlan, DeletionPlan;
    if l.node.deleting {
      DeletionIsSafe(order, l, o.deletion);
    } else if l.node.finalizer {
      ActiveIsSafe(order, l, o);
    } else if o.addFinalizer {
      QuietKeeps(order, l, FinalizerAdded);
      ActiveIsSafe(order, Record(l, FinalizerAdded), o);
      SafeCons(order, l, FinalizerAdded, ActivePlan(order, l.node.(finalizer := true), o));
    }
  }

  lemma StepKeepsInv(order: Order, l: Life, step: Step)
    requires Inv(order, l) && Legal(l, step)
    ensures Inv(order, Next(order, l, step))
  {
    if step.Pass? {
      hide Inv, Plan;
      PlanIsSafe(order, l, step.o);
      SafePrefix(order, l, Plan(order, l.node, step.o), step.cut);
    }
  }

  // The invariant holds in every run, wherever each reconcile stops.
  lemma {:induction false} RunKeepsInv(order: Order, l: Life, steps: seq<Step>)
    requires Inv(order, l) && LegalRun(order, l, steps)
    ensures Inv(order, Run(order, l, steps))
    decreases |steps|
  {
    if steps != [] {
      StepKeepsInv(order, l, steps[0]);
      RunKeepsInv(order, Next(order, l, steps[0]), steps[1..]);
    }
  }
}

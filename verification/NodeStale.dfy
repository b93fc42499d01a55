// Exactly when a TalosNode can count as up to date with a configuration from an old spec.
module NodeStale {
  import opened Options
  import opened Images
  import opened NodeTypes
  import opened NodePlan
  import opened NodeLife
  import opened NodeHistory

  const QUIET_DELETION := DeletionOutcomes(true, PeerFound, DrainDone, TcFound, [], true, true, {}, true, None,
                                           SecretAbsent, None, true, NotRead, KubeMissing, true, true)
  const ALL_WELL := ApplyOutcomes(Done, Done, Done, Done, Done, Done, Done, Done, true)
  const NORMAL := Outcomes(true, TcFound, true, Some(Reported("v2", false)), true, true, true, true, true,
                           NoFactory, true, None, true, None, true, InSync, ALL_WELL, QUIET_DELETION)

  // A node without a configuration, and with nothing else to do, gets one.
  predicate Unconfigured(node: Node)
  {
    && !node.deleting && !ConfigIsApplied(node.status) && node.status.phase in {Unset, Ready}
    && (node.ann.upgrade == "" || node.ann.upgrade == node.ann.lastUpgrade) && node.ann.reset == ""
  }

  lemma FirstApply(order: Order, l: Life)
    requires Unconfigured(l.node)
    ensures var n := Next(order, l, Pass(NORMAL, 100));
            && n.saved == Some(l.node.generation) && n.starts == {}
            && n.node == l.node.(finalizer := true, status := AppliedStatus(ApplyingStatus(l.node)))
  {
    hide After;
    var applying := StatusWritten(ApplyingStatus(l.node));
    var applied := StatusWritten(AppliedStatus(ApplyingStatus(l.node)));
    var rest := [ConfigSent(true)] + ([ConfigSaved(l.node.generation)] + ([applied] + []));
    var all := [applying] + ([DialedInsecurely(true)] + rest);
    FirstPlan(order, l.node);
    var l1 := if l.node.finalizer then l else Record(l, FinalizerAdded);
    AfterCons(l, FinalizerAdded, all);
    var l2 := Record(l1, applying);
    AfterCons(l1, applying, [DialedInsecurely(true)] + rest);
    AfterCons(l2, DialedInsecurely(true), rest);
    LastEvents(Record(l2, DialedInsecurely(true)), l.node.generation, applied);
  }

  lemma LastEvents(l: Life, g: int, applied: Event)
    requires applied.StatusWritten?
    ensures var n := After(l, [ConfigSent(true)] + ([ConfigSaved(g)] + ([applied] + [])));
            n.saved == Some(g) && n.node == l.node.(status := applied.status)
            && (applied.status.phase == Ready && l.node.status.phase == Applying ==> n.starts == {})
  {
    hide After, ConfigIsApplied;
    AfterNothing(Record(Record(l, ConfigSaved(g)), applied));
    AfterCons(l, ConfigSent(true), [ConfigSaved(g)] + ([applied] + []));
    AfterCons(l, ConfigSaved(g), [applied] + []);
    AfterCons(Record(l, ConfigSaved(g)), applied, []);
  }

  lemma FirstPlan(order: Order, node: Node)
    requires Unconfigured(node)
    ensures var all := [StatusWritten(ApplyingStatus(node))] + ([DialedInsecurely(true)] +
                       ([ConfigSent(true)] + ([ConfigSaved(node.generation)] + ([StatusWritten(AppliedStatus(ApplyingStatus(node)))] + []))));
            Cut(Plan(order, node, NORMAL), 100) == if node.finalizer then all else [FinalizerAdded] + all
    ensures var all := ApplyOrErrorPlan(node.(finalizer := true), ALL_WELL);
            Cut(Plan(order, node, NORMAL), 100) == if node.finalizer then all else [FinalizerAdded] + all
  {
    var n := node.(finalizer := true);
    FirstAttempt(n);
    hide ApplyOrErrorPlan, AppliedStatus, ApplyingStatus;
    assert ActivePlan(order, n, NORMAL) == [] + ConfigPlan(n, NORMAL);
    assert node.finalizer ==> n == node;
  }

  lemma FirstAttempt(node: Node)
    requires !ConfigIsApplied(node.status)
    ensures ApplyOrErrorPlan(node, ALL_WELL) ==
            [StatusWritten(ApplyingStatus(node))] + ([DialedInsecurely(true)] +
            ([ConfigSent(true)] + ([ConfigSaved(node.generation)] + ([StatusWritten(AppliedStatus(ApplyingStatus(node)))] + []))))
  {
    assert ApplyPlan(node, ALL_WELL).result == Done;
  }

  // A configured node whose new patches cannot be used ends up in error, or stays in Applying
  // when the reconcile dies first.
  lemma BadApply(order: Order, l: Life, o: Outcomes, p: Phase)
    requires o == NORMAL.(apply := ALL_WELL.(build := Failed)) && p in {Applying, Errored}
    requires l.node.finalizer && !l.node.deleting && ConfigIsApplied(l.node.status)
    requires l.node.status.phase == Ready && l.node.status.observedGeneration != l.node.generation
    requires l.node.ann.upgrade == l.node.ann.reset == "" && l.node.spec.talosVersion == ""
    ensures var n := Next(order, l, Pass(o, CutFor(p)));
            && n.saved == l.saved && n.starts == l.starts
            && n.node == l.node.(status := if p == Applying then ApplyingStatus(l.node) else ErrorStatus(ApplyingStatus(l.node)))
  {
    var applying, failed := StatusWritten(ApplyingStatus(l.node)), StatusWritten(ErrorStatus(ApplyingStatus(l.node)));
    assert ApplyPlan(l.node, o.apply) == Attempt([applying], Failed, ApplyingStatus(l.node));
    assert Plan(order, l.node, o) == [applying] + ([failed] + []);
    assert Cut(Plan(order, l.node, o), CutFor(p)) == [applying] + (if p == Applying then [] else [failed] + []);
    hide Plan, ApplyPlan, After;
    AfterCons(l, applying, if p == Applying then [] else [failed] + []);
    AfterCons(Record(l, applying), failed, []);
    AfterNothing(Record(l, applying));
    AfterNothing(Record(Record(l, applying), failed));
  }

  function CutFor(p: Phase): nat
  {
    if p == Applying then 1 else 100
  }

  // An annotated upgrade is started whatever the phase.
  lemma UpgradePass(order: Order, l: Life)
    requires l.node.finalizer && !l.node.deleting && l.node.status.phase in {Applying, Errored}
    requires l.node.ann.upgrade == "i:v2" && l.node.ann.lastUpgrade == "" && l.node.status.currentVersion == ""
    requires VersionFromImage("i:v2") == "v2"
    ensures var n := Next(order, l, Pass(NORMAL, 100));
            && n.saved == l.saved && n.starts == l.starts + {l.node.status.phase}
            && n.node == l.node.(status := UpgradingStatus(l.node.status), ann := l.node.ann.(lastUpgrade := "i:v2"))
  {
    hide VersionFromImage;
    var upgrading := StatusWritten(UpgradingStatus(l.node.status));
    var sent, recorded := UpgradeSent("i:v2", FromAnnotation, true), LastUpgradeSet("i:v2");
    assert Cut(Plan(order, l.node, NORMAL), 100) == [upgrading] + ([sent] + ([recorded] + []));
    AfterCons(l, upgrading, [sent] + ([recorded] + []));
    AfterCons(Record(l, upgrading), sent, [recorded] + []);
    AfterCons(Record(Record(l, upgrading), sent), recorded, []);
  }

  lemma CompletePass(order: Order, l: Life)
    requires l.node.finalizer && !l.node.deleting && l.node.status.phase == Upgrading
    requires VersionFromImage(l.node.ann.lastUpgrade) == "v2"
    ensures var n := Next(order, l, Pass(NORMAL, 100));
            && n.saved == l.saved && n.starts == l.starts && n.node.generation == l.node.generation
            && n.node.status.phase == Ready
            && n.node.status.observedGeneration == l.node.status.observedGeneration
            && ConfigIsApplied(n.node.status) == ConfigIsApplied(l.node.status)
  {
    hide VersionFromImage;
    var upgraded := StatusWritten(UpgradedStatus(l.node, "v2"));
    assert Cut(Plan(order, l.node, NORMAL), 100) == [upgraded] + [];
    AfterCons(l, upgraded, []);
  }

  function StalePath(l: Life, p: Phase): seq<Step>
  {
    var badPatch := NORMAL.(apply := ALL_WELL.(build := Failed));
    [Pass(NORMAL, 100)] + ([EditSpec(l.node.spec)] + ([Pass(badPatch, CutFor(p))] +
    ([SetUpgrade("i:v2")] + ([Pass(NORMAL, 100)] + ([Pass(NORMAL, 100)] + [])))))
  }

  lemma StalePathRuns(order: Order, l: Life, p: Phase)
    ensures var ss := StalePath(l, p);
            && |ss| == 6
            && Run(order, l, ss) ==
               Next(order, Next(order, Next(order, Next(order, Next(order, Next(order, l, ss[0]), ss[1]), ss[2]), ss[3]), ss[4]), ss[5])
            && (LegalRun(order, l, ss) <==>
                  && Legal(l, ss[0]) && Legal(Next(order, l, ss[0]), ss[1])
                  && Legal(Next(order, Next(order, l, ss[0]), ss[1]), ss[2])
                  && Legal(Next(order, Next(order, Next(order, l, ss[0]), ss[1]), ss[2]), ss[3])
                  && Legal(Next(order, Next(order, Next(order, Next(order, l, ss[0]), ss[1]), ss[2]), ss[3]), ss[4])
                  && Legal(Next(order, Next(order, Next(order, Next(order, Next(order, l, ss[0]), ss[1]), ss[2]), ss[3]), ss[4]), ss[5]))
  {
    hide Next, Legal, Run, LegalRun;
    var ss := StalePath(l, p);
    var l1 := Next(order, l, ss[0]);
    var l2 := Next(order, l1, ss[1]);
    var l3 := Next(order, l2, ss[2]);
    var l4 := Next(order, l3, ss[3]);
    var l5 := Next(order, l4, ss[4]);
    RunCons(order, l, ss[0], [ss[1]] + ([ss[2]] + ([ss[3]] + ([ss[4]] + ([ss[5]] + [])))));
    RunCons(order, l1, ss[1], [ss[2]] + ([ss[3]] + ([ss[4]] + ([ss[5]] + []))));
    RunCons(order, l2, ss[2], [ss[3]] + ([ss[4]] + ([ss[5]] + [])));
    RunCons(order, l3, ss[3], [ss[4]] + ([ss[5]] + []));
    RunCons(order, l4, ss[4], [ss[5]] + []);
    RunCons(order, l5, ss[5], []);
    RunNothing(order, Next(order, l5, ss[5]));
  }

  // What a no-change edit and the upgrade annotation do.
  lemma UserSteps(order: Order, l: Life)
    requires !l.node.deleting
    ensures var edited := Next(order, l, EditSpec(l.node.spec));
            edited.node == l.node.(generation := l.node.generation + 1) && edited.saved == l.saved && edited.starts == l.starts
    ensures var annotated := Next(order, l, SetUpgrade("i:v2"));
            annotated.node == l.node.(ann := l.node.ann.(upgrade := "i:v2")) && annotated.saved == l.saved && annotated.starts == l.starts
  {
  }

  // The first four steps: the node is in error with an old configuration, an upgrade requested.
  lemma FirstSteps(order: Order, l: Life, p: Phase)
    requires p in {Applying, Errored} && Fresh(l) && l.node.ann.upgrade == l.node.ann.reset == "" && l.node.spec.talosVersion == ""
    ensures var ss := StalePath(l, p);
            var l4 := Next(order, Next(order, Next(order, Next(order, l, ss[0]), ss[1]), ss[2]), ss[3]);
            && l4.node.finalizer && !l4.node.deleting && l4.node.status.phase == p && ConfigIsApplied(l4.node.status) && l4.starts == {}
            && l4.node.ann.upgrade == "i:v2" && l4.node.ann.lastUpgrade == "" && l4.node.status.currentVersion == ""
            && l4.node.status.observedGeneration == l4.node.generation && l4.saved == Some(l4.node.generation - 1)
  {
    hide Next, Legal;
    var ss := StalePath(l, p);
    var l1 := Next(order, l, ss[0]);
    var l2 := Next(order, l1, ss[1]);
    FirstApply(order, l);
    UserSteps(order, l1);
    BadApply(order, l2, ss[2].o, p);
    UserSteps(order, Next(order, l2, ss[2]));
  }

  // The excluded case is real: a bad patch, then an upgrade requested while the node is in error,
  // or stuck in Applying after a crash, ends in a node that counts as up to date with a
  // configuration from the old spec.
  lemma ReadyCanBeStale(order: Order, l: Life, p: Phase)
    requires p in {Applying, Errored} && Fresh(l) && l.node.ann.upgrade == l.node.ann.reset == "" && l.node.spec.talosVersion == ""
    ensures var r := Run(order, l, StalePath(l, p));
            LegalRun(order, l, StalePath(l, p)) && IsNodeUpToDate(r.node) && r.saved == Some(r.node.generation - 1) && r.starts == {p}
  {
    hide Next, Run, LegalRun, VersionFromImage, UpgradingStatus;
    StalePathRuns(order, l, p);
    FirstSteps(order, l, p);
    var ss := StalePath(l, p);
    var l1 := Next(order, l, ss[0]);
    var l4 := Next(order, Next(order, Next(order, l1, ss[1]), ss[2]), ss[3]);
    assert Legal(l1, ss[1]) by { FirstApply(order, l); }
    assert VersionFromImage("i:v2") == "v2" by {
      assert "i:v2" == "i:v2"[..1] + ":" + "v2";
      VersionIsTextAfterLastColon("i:v2", "v2");
    }
    UpgradePass(order, l4);
    UpgradingKeeps(l4.node.status);
    CompletePass(order, Next(order, l4, ss[4]));
  }

  lemma UpgradingKeeps(s: NodeStatus)
    ensures ConfigIsApplied(UpgradingStatus(s)) == ConfigIsApplied(s)
    ensures UpgradingStatus(s).phase == Upgrading && UpgradingStatus(s).observedGeneration == s.observedGeneration
  {
  }

  // A run that ends up to date with something other than a configuration of the current spec,
  // all upgrades since the last successful apply having been started in phase p.
  ghost predicate StaleRun(order: Order, l: Life, steps: seq<Step>, p: Phase)
  {
    var r := Run(order, l, steps);
    && Fresh(l) && LegalRun(order, l, steps)
    && IsNodeUpToDate(r.node) && r.saved != Some(r.node.generation) && r.starts == {p}
  }

  const NEW_SPEC := NodeSpec("c", Worker, "10.0.0.1", "", [], None, false, false)
  const NEW_NODE := Node("n", 0, 1, NEW_SPEC, Annotations("", "", "", "", "", "", ""), NO_STATUS, false, false)
  const NEW_LIFE := Life(NEW_NODE, None, {}, false, 0, false, false, [""], 0, 0, 0, 0, false)

  // Starting an upgrade in phase p can end up to date and stale exactly when p is Applying or Error.
  lemma StaleExactly(order: Order, p: Phase)
    ensures (exists l, steps :: StaleRun(order, l, steps, p)) <==> p in {Applying, Errored}
  {
    hide Run, LegalRun, Inv;
    if l, steps :| StaleRun(order, l, steps, p) {
      UpToDateMeansSavedFromCurrentSpec(order, l, steps);
      assert Tainted(Run(order, l, steps));
    }
    if p in {Applying, Errored} {
      ReadyCanBeStale(order, NEW_LIFE, p);
      assert StaleRun(order, NEW_LIFE, StalePath(NEW_LIFE, p), p);
    }
  }
}

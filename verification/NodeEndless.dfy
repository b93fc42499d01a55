// Exactly when upgrades end: the runs in which spec and annotation never agree, and the runs in
// which crashes repeat an upgrade.
module NodeEndless {
  import opened Options
  import opened Images
  import opened NodeTypes
  import opened NodePlan
  import opened NodeLife
  import opened NodeConvergence
  import opened NodeStale
  import opened NodeVersions

  // ----- Inputs that never end -----

  // A short tag in the annotation that stands for the version the spec spells out, and a spec
  // that pins a digest.
  lemma EndlessInputs(order: Order)
    ensures order("v1.13") == order("v1.13.0") ==> Endless(order, "v1.13.0", "i:v1.13")
    ensures order("v1.13") == None ==> Endless(order, "v1.13.0", "i:v1.13")
    ensures order("v1@sha256:ab") == None ==> Endless(order, "v1@sha256:ab", "")
  {
    hide VersionFromImage;
    TagIsReadBack("i", "v1.13");
    assert "i:v1.13" == "i" + ":" + "v1.13";
    EndlessForPlainVersions(order, "v1.13.0", "i:v1.13");
    DigestIsTheTag();
  }

  lemma DigestIsTheTag()
    ensures SpecTag("v1@sha256:ab") == "ab"
  {
    hide VersionFromImage;
    TagIsReadBack(":v1@sha256", "ab");
    var pinned := "v1@sha256:ab";
    assert pinned[0] == 'v' && ":" + pinned == ":v1@sha256" + ":" + "ab";
  }

  // ----- Single passes in which everything goes well -----

  // A machine that reports v, and a factory that answers.
  function Well(v: string): Outcomes
  {
    Reporting(v).(factory := Schematic("x"))
  }

  // The node has its configuration and waits for something to do.
  predicate Idle(node: Node)
  {
    node.finalizer && !node.deleting && node.status.phase == Ready && ConfigIsApplied(node.status)
  }

  lemma FullAttempt(order: Order, l: Life, image: string, origin: Origin, v: string)
    requires VersionFromImage(image) != ""
    ensures var es := UpgradePlan(order, l.node.status, image, origin, Well(v));
            var sends := !IsDowngrade(order, l.node.status.currentVersion, VersionFromImage(image));
            && |es| <= 3 && After(l, es).node == (if sends then Upgraded(l.node, image) else Consumed(l.node, image))
            && Unfinished(es) == 0 && Sent(es, origin) == (if sends then 1 else 0)
  {
    hide VersionFromImage, IsDowngrade, Note, UpgradingStatus, After, Sent;
    var es := UpgradePlan(order, l.node.status, image, origin, Well(v));
    if IsDowngrade(order, l.node.status.currentVersion, VersionFromImage(image)) {
      assert es == [LastUpgradeSet(image)];
      OneEvent(l, es[0]);
      assert !Starts(es);
    } else {
      assert es == [StatusWritten(UpgradingStatus(l.node.status))] + ([UpgradeSent(image, origin, true)] + [LastUpgradeSet(image)]);
      SentAndRecorded(l, image, origin);
    }
  }

  lemma SentAndRecorded(l: Life, image: string, origin: Origin)
    ensures var started, sent, recorded := StatusWritten(UpgradingStatus(l.node.status)), UpgradeSent(image, origin, true), LastUpgradeSet(image);
            var es := [started] + ([sent] + [recorded]);
            After(l, es).node == Upgraded(l.node, image) && Unfinished(es) == 0 && Sent(es, origin) == 1
  {
    hide Note, UpgradingStatus, After, Sent, Starts, Finishes;
    var started, sent, recorded := StatusWritten(UpgradingStatus(l.node.status)), UpgradeSent(image, origin, true), LastUpgradeSet(image);
    AfterCons(l, started, [sent] + [recorded]);
    AfterCons(Record(l, started), sent, [recorded]);
    OneEvent(Record(Record(l, started), sent), recorded);
    SentCons(started, [sent] + [recorded], origin);
    SentCons(sent, [recorded], origin);
    PhaseIsUpgrading(l.node.status);
    StartsAndFinishes(started, sent, [recorded]);
    assert recorded in [recorded];
  }

  // The annotation's turn.
  lemma AnnotationPass(order: Order, l: Life, v: string)
    requires !l.node.deleting && l.node.status.phase != Upgrading && AnnotationPending(l.node) && Tag(l.node) != ""
    ensures var p := Pass(Well(v), 100);
            var sends := !IsDowngrade(order, l.node.status.currentVersion, Tag(l.node));
            var n := l.node.(finalizer := true);
            && Next(order, l, p).node == (if sends then Upgraded(n, l.node.ann.upgrade) else Consumed(n, l.node.ann.upgrade))
            && Unfinished(Events(order, l, p)) == 0 && Sent(Events(order, l, p), FromAnnotation) == (if sends then 1 else 0)
  {
    hide UpgradePlan, IsDowngrade, VersionFromImage, After, Note, Sent, Unfinished;
    var p, l1 := Pass(Well(v), 100), Record(l, FinalizerAdded);
    var es := UpgradePlan(order, l.node.status, l.node.ann.upgrade, FromAnnotation, Well(v));
    FullAttempt(order, l, l.node.ann.upgrade, FromAnnotation, v);
    FullAttempt(order, l1, l.node.ann.upgrade, FromAnnotation, v);
    if l.node.finalizer {
      assert Events(order, l, p) == es;
    } else {
      assert Events(order, l, p) == [FinalizerAdded] + es;
      AfterCons(l, FinalizerAdded, es);
      BystandersSendNothing([FinalizerAdded], es);
    }
  }

  // The spec's turn.
  lemma SpecPass(order: Order, l: Life, v: string)
    requires Idle(l.node) && !AnnotationPending(l.node) && l.node.spec.talosVersion != "" && SpecTag(l.node.spec.talosVersion) != ""
    requires Asks(order, l.node.spec.talosVersion, l.node.status.currentVersion)
    ensures var p := Pass(Well(v), 100);
            var n := Next(order, l, p).node;
            var sends := !IsDowngrade(order, l.node.status.currentVersion, SpecTag(l.node.spec.talosVersion));
            && Unfinished(Events(order, l, p)) == 0 && Sent(Events(order, l, p), FromSpec) == (if sends then 1 else 0)
            && VersionFromImage(n.ann.lastUpgrade) == SpecTag(l.node.spec.talosVersion)
            && n.status == (if sends then UpgradingStatus(l.node.status) else l.node.status)
            && Stays(l.node, n)
  {
    hide UpgradePlan, IsDowngrade, VersionFromImage, NormalizeVersion, ComputeDesiredImage, SpecTag, UpgradingStatus,
         ConfigIsApplied, After, Sent, Unfinished, SpecLeft, AnnotationLeft, Bystander;
    var o, head := Well(v), CacheWrites(l.node, Well(v));
    WellWanted(l.node, v);
    FrozenVersionPlan(order, l.node, o);
    var image := Wanted(l.node, o).image;
    var es := UpgradePlan(order, l.node.status, image, FromSpec, o);
    ImageTag(l.node.spec.talosVersion, l.node.spec.extensions, l.node.ann.lastExtensions, l.node.ann.schematic, o.factory);
    HeadPays(order, l, o);
    FullAttempt(order, After(l, head), image, FromSpec, v);
    assert Events(order, l, Pass(o, 100)) == head + es;
    AfterAppend(l, head, es);
    BystandersSendNothing(head, es);
  }

  lemma WellWanted(node: Node, v: string)
    ensures Wanted(node, Well(v)).Desired?
  {
    hide CanonicalExtensions, InstallerImage, NormalizeVersion;
  }

  // What neither a turn nor a completion touches.
  predicate Stays(n: Node, n': Node)
  {
    && n'.spec == n.spec && n'.finalizer && !n'.deleting
    && n'.ann.upgrade == n.ann.upgrade && n'.ann.reset == n.ann.reset
  }

  // The machine comes back with the version it was sent.
  lemma CompletionPass(order: Order, l: Life, v: string)
    requires l.node.finalizer && !l.node.deleting && l.node.status.phase == Upgrading && VersionFromImage(l.node.ann.lastUpgrade) in {"", v}
    ensures var p := Pass(Reporting(v), 100);
            && Next(order, l, p).node == l.node.(status := UpgradedStatus(l.node, v))
            && Unfinished(Events(order, l, p)) == 0
  {
    hide VersionFromImage, UpgradedStatus;
    Completes(order, l.node, v);
    hide Plan;
    OneEvent(l, StatusWritten(UpgradedStatus(l.node, v)));
    assert UpgradedStatus(l.node, v).phase == Ready;
    OnlyBystanders([StatusWritten(UpgradedStatus(l.node, v))]);
  }

  lemma UpgradeKeepsConfig(node: Node, v: string)
    ensures ConfigIsApplied(UpgradingStatus(node.status)) == ConfigIsApplied(node.status)
    ensures ConfigIsApplied(UpgradedStatus(node, v)) == ConfigIsApplied(node.status)
    ensures UpgradedStatus(node, v).phase == Ready && UpgradedStatus(node, v).currentVersion == v
  {
  }

  // ----- Runs as long as one likes -----

  // From here, some run without an unfinished attempt sends k RPCs or more.
  ghost predicate Can(order: Order, l: Life, k: nat)
  {
    exists steps :: LegalRun(order, l, steps) && FrozenRun(order, l, steps) && UnfinishedAttempts(order, l, steps) == 0
                    && Rpcs(order, l, steps, FromSpec) + Rpcs(order, l, steps, FromAnnotation) >= k
  }

  lemma StepCons(order: Order, l: Life, p: Step, rest: seq<Step>)
    ensures FrozenRun(order, l, [p] + rest) <==> Freezes(l.node, p) && FrozenRun(order, Next(order, l, p), rest)
    ensures UnfinishedAttempts(order, l, [p] + rest) == Unfinished(Events(order, l, p)) + UnfinishedAttempts(order, Next(order, l, p), rest)
    ensures forall origin :: Rpcs(order, l, [p] + rest, origin) ==
                             Sent(Events(order, l, p), origin) + Rpcs(order, Next(order, l, p), rest, origin)
  {
    hide Next, Events, Freezes, Sent, Unfinished;
    assert ([p] + rest)[1..] == rest;
  }

  lemma CanStep(order: Order, l: Life, v: string, o: Outcomes, j: nat, k: nat)
    requires o == Well(v) || o == Reporting(v)
    requires var p := Pass(o, 100);
             && Unfinished(Events(order, l, p)) == 0 && Can(order, Next(order, l, p), k)
             && Sent(Events(order, l, p), FromSpec) + Sent(Events(order, l, p), FromAnnotation) >= j
    ensures Can(order, l, j + k)
  {
    hide Next, Events, Sent, Unfinished, Rpcs, FrozenRun, LegalRun, UnfinishedAttempts;
    var p := Pass(o, 100);
    var rest :| LegalRun(order, Next(order, l, p), rest) && FrozenRun(order, Next(order, l, p), rest)
                && UnfinishedAttempts(order, Next(order, l, p), rest) == 0
                && Rpcs(order, Next(order, l, p), rest, FromSpec) + Rpcs(order, Next(order, l, p), rest, FromAnnotation) >= k;
    RunCons(order, l, p, rest);
    StepCons(order, l, p, rest);
    assert Freezes(l.node, p) && LegalRun(order, l, [p] + rest);
  }

  lemma CanNothing(order: Order, l: Life)
    ensures Can(order, l, 0)
  {
    assert LegalRun(order, l, []) && FrozenRun(order, l, []) && UnfinishedAttempts(order, l, []) == 0;
  }

  // The annotation's turn and, if it was no downgrade, its completion.
  lemma AnnotationRound(order: Order, l: Life) returns (l': Life)
    requires !l.node.deleting && l.node.status.phase != Upgrading && AnnotationPending(l.node) && Tag(l.node) != ""
    requires l.node.finalizer || !IsDowngrade(order, l.node.status.currentVersion, Tag(l.node))
    ensures Stays(l.node, l'.node) && l'.node.ann.lastUpgrade == l.node.ann.upgrade
    ensures ConfigIsApplied(l'.node.status) == ConfigIsApplied(l.node.status)
    ensures var sends := !IsDowngrade(order, l.node.status.currentVersion, Tag(l.node));
            && l'.node.status.phase == (if sends then Ready else l.node.status.phase)
            && l'.node.status.currentVersion == (if sends then Tag(l.node) else l.node.status.currentVersion)
            && forall k: nat :: Can(order, l', k) ==> Can(order, l, (if sends then 1 else 0) + k)
  {
    hide Next, Events, Sent, Unfinished, Can, VersionFromImage, IsDowngrade,
         ConfigIsApplied, UpgradedStatus, UpgradingStatus;
    var a := Tag(l.node);
    var sends := !IsDowngrade(order, l.node.status.currentVersion, a);
    AnnotationPass(order, l, a);
    l' := Next(order, l, Pass(Well(a), 100));
    if sends {
      var l1 := l';
      PhaseIsUpgrading(l.node.status);
      CompletionPass(order, l1, a);
      UpgradeKeepsConfig(l.node, a);
      UpgradeKeepsConfig(l1.node, a);
      l' := Next(order, l1, Pass(Reporting(a), 100));
      forall k: nat | Can(order, l', k) ensures Can(order, l, 1 + k) {
        CanStep(order, l1, a, Reporting(a), 0, k);
        CanStep(order, l, a, Well(a), 1, k);
      }
    } else {
      forall k: nat | Can(order, l', k) ensures Can(order, l, k) {
        CanStep(order, l, a, Well(a), 0, k);
      }
    }
  }

  // The spec's turn and, if it was no downgrade, its completion.
  lemma SpecRound(order: Order, l: Life) returns (l': Life)
    requires Idle(l.node) && !AnnotationPending(l.node) && l.node.spec.talosVersion != "" && SpecTag(l.node.spec.talosVersion) != ""
    requires Asks(order, l.node.spec.talosVersion, l.node.status.currentVersion)
    ensures Stays(l.node, l'.node) && Idle(l'.node) && VersionFromImage(l'.node.ann.lastUpgrade) == SpecTag(l.node.spec.talosVersion)
    ensures var s := SpecTag(l.node.spec.talosVersion);
            var sends := !IsDowngrade(order, l.node.status.currentVersion, s);
            && l'.node.status.currentVersion == (if sends then s else l.node.status.currentVersion)
            && forall k: nat :: Can(order, l', k) ==> Can(order, l, (if sends then 1 else 0) + k)
  {
    hide Next, Events, Sent, Unfinished, Can, VersionFromImage, IsDowngrade,
         ConfigIsApplied, UpgradedStatus, UpgradingStatus, SpecTag, Asks;
    var s := SpecTag(l.node.spec.talosVersion);
    var sends := !IsDowngrade(order, l.node.status.currentVersion, s);
    SpecPass(order, l, s);
    l' := Next(order, l, Pass(Well(s), 100));
    if sends {
      var l1 := l';
      PhaseIsUpgrading(l.node.status);
      CompletionPass(order, l1, s);
      UpgradeKeepsConfig(l.node, s);
      UpgradeKeepsConfig(l1.node, s);
      l' := Next(order, l1, Pass(Reporting(s), 100));
      forall k: nat | Can(order, l', k) ensures Can(order, l, 1 + k) {
        CanStep(order, l1, s, Reporting(s), 0, k);
        CanStep(order, l, s, Well(s), 1, k);
      }
    } else {
      forall k: nat | Can(order, l', k) ensures Can(order, l, k) {
        CanStep(order, l, s, Well(s), 0, k);
      }
    }
  }

  lemma FirstApplySendsNothing(order: Order, l: Life)
    requires Unconfigured(l.node)
    ensures var es := Events(order, l, Pass(NORMAL, 100));
            Sent(es, FromSpec) == Sent(es, FromAnnotation) == Unfinished(es) == 0
  {
    var n := l.node.(finalizer := true);
    FirstPlan(order, l.node);
    ApplyIsCalm(n, ALL_WELL);
    hide Plan, Sent, Unfinished, Unconfigured, ApplyOrErrorPlan;
    var es := Events(order, l, Pass(NORMAL, 100));
    assert forall e :: e in es ==> e == FinalizerAdded || e in ApplyOrErrorPlan(n, ALL_WELL);
    OnlyBystanders(es);
  }

  lemma AppliedIs(s: NodeStatus)
    ensures var t := AppliedStatus(s); t.phase == Ready && ConfigIsApplied(t) && t.currentVersion == s.currentVersion
  {
  }

  // The first configuration.
  lemma ConfigRound(order: Order, l: Life) returns (l': Life)
    requires Unconfigured(l.node)
    ensures Stays(l.node, l'.node) && Idle(l'.node) && l'.node.ann == l.node.ann
    ensures l'.node.status.currentVersion == l.node.status.currentVersion
    ensures forall k: nat :: Can(order, l', k) ==> Can(order, l, k)
  {
    hide Next, Events, Sent, Unfinished, Can, AppliedStatus, ConfigIsApplied;
    FirstApply(order, l);
    FirstApplySendsNothing(order, l);
    AppliedIs(ApplyingStatus(l.node));
    l' := Next(order, l, Pass(NORMAL, 100));
    assert NORMAL == Reporting("v2");
    forall k: nat | Can(order, l', k) ensures Can(order, l, k) {
      CanStep(order, l, "v2", NORMAL, 0, k);
    }
  }

  // Both have had their turn, and the spec asks again.
  predicate Resting(order: Order, node: Node)
  {
    && Idle(node) && !AnnotationPending(node)
    && node.status.currentVersion == Outcome(order, node.spec.talosVersion, node.ann.upgrade)
  }

  lemma {:induction false} Forever(order: Order, l: Life, k: nat)
    requires Resting(order, l.node) && Endless(order, l.node.spec.talosVersion, l.node.ann.upgrade)
    ensures Can(order, l, k)
    decreases k
  {
    CanNothing(order, l);
    if k > 0 {
      var l' := Cycle(order, l);
      Forever(order, l', k - 1);
    }
  }

  // From rest to rest again, with an RPC on the way.
  lemma Cycle(order: Order, l: Life) returns (l': Life)
    requires Resting(order, l.node) && Endless(order, l.node.spec.talosVersion, l.node.ann.upgrade)
    ensures Resting(order, l'.node) && Stays(l.node, l'.node)
    ensures forall k: nat :: Can(order, l', k) ==> Can(order, l, 1 + k)
  {
    hide VersionFromImage, SpecTag, Asks, Can, ConfigIsApplied;
    var s, a := SpecTag(l.node.spec.talosVersion), Tag(l.node);
    l' := SpecRound(order, l);
    if AnnotationPending(l'.node) {
      var l1 := l';
      l' := AnnotationRound(order, l1);
      forall k: nat | Can(order, l', k) ensures Can(order, l, 1 + k) {
        if !IsDowngrade(order, l1.node.status.currentVersion, a) {
          assert Can(order, l1, 1 + k);
          if !IsDowngrade(order, l.node.status.currentVersion, s) { CanLess(order, l, 1 + (1 + k), 1 + k); }
        }
      }
    }
  }

  lemma CanLess(order: Order, l: Life, more: nat, less: nat)
    requires Can(order, l, more) && less <= more
    ensures Can(order, l, less)
  {
  }

  // A new node gets there.
  lemma NewNodeForever(order: Order, l: Life, k: nat)
    requires Fresh(l) && l.node.ann.reset == "" && Endless(order, l.node.spec.talosVersion, l.node.ann.upgrade)
    ensures Can(order, l, k)
  {
    hide VersionFromImage, SpecTag, Can, Run, LegalRun;
    var s, a := SpecTag(l.node.spec.talosVersion), Tag(l.node);
    if l.node.ann.upgrade == "" {
      var l1 := ConfigRound(order, l);
      var l2 := SpecRound(order, l1);
      Forever(order, l2, k);
      CanLess(order, l1, 1 + k, k);
    } else {
      var l1 := AnnotationRound(order, l);
      var l2 := ConfigRound(order, l1);
      if IsDowngrade(order, s, a) {
        AsksBefore(order, l.node.spec.talosVersion, l.node.ann.upgrade);
        var l3 := SpecRound(order, l2);
        var l4 := AnnotationRound(order, l3);
        Forever(order, l4, k);
        CanLess(order, l2, 1 + k, k);
      } else {
        Forever(order, l2, k);
      }
      CanLess(order, l, 1 + k, k);
    }
  }

  // If the spec asks again for a version newer than the annotation's, it asks at that one, too.
  lemma AsksBefore(order: Order, talosVersion: string, upgrade: string)
    requires Asks(order, talosVersion, SpecTag(talosVersion)) && IsDowngrade(order, SpecTag(talosVersion), VersionFromImage(upgrade))
    ensures Asks(order, talosVersion, VersionFromImage(upgrade))
  {
    if ':' !in talosVersion { PlainSpecTag(talosVersion); }
    hide SpecTag;
    var a := VersionFromImage(upgrade);
    assert ':' !in NormalizeVersion(a);
    assert ':' in NormalizeVersion(talosVersion);
  }

  // ----- The theorem -----

  // No new node with this spec and annotation is ever sent more than n Upgrade RPCs, however many
  // reconciles run, as long as none of its attempts is cut off or fails.
  ghost predicate AtMost(order: Order, spec: NodeSpec, upgrade: string, n: nat)
  {
    forall l, steps :: Fresh(l) && l.node.spec == spec && l.node.ann.upgrade == upgrade && LegalRun(order, l, steps)
                       && FrozenRun(order, l, steps) && UnfinishedAttempts(order, l, steps) == 0 ==>
                         Rpcs(order, l, steps, FromSpec) + Rpcs(order, l, steps, FromAnnotation) <= n
  }

  // Upgrades come to an end exactly when spec and annotation are not endless; then three RPCs
  // are the most.
  lemma UpgradesEndExactly(order: Order, spec: NodeSpec, upgrade: string)
    ensures (exists n: nat :: AtMost(order, spec, upgrade, n)) <==> !Endless(order, spec.talosVersion, upgrade)
    ensures !Endless(order, spec.talosVersion, upgrade) ==> AtMost(order, spec, upgrade, 3)
  {
    hide Endless, Rpcs, UnfinishedAttempts, FrozenRun, LegalRun, SpecLeft, AnnotationLeft;
    if Endless(order, spec.talosVersion, upgrade) {
      var l := NEW_LIFE.(node := NEW_NODE.(spec := spec, ann := NEW_NODE.ann.(upgrade := upgrade)));
      forall n: nat ensures !AtMost(order, spec, upgrade, n) {
        NewNodeForever(order, l, n + 1);
      }
    } else {
      forall l, steps | Fresh(l) && l.node.spec == spec && l.node.ann.upgrade == upgrade && FrozenRun(order, l, steps)
                        && UnfinishedAttempts(order, l, steps) == 0
        ensures Rpcs(order, l, steps, FromSpec) + Rpcs(order, l, steps, FromAnnotation) <= 3
      {
        UpgradesAreBounded(order, l, steps);
      }
      assert AtMost(order, spec, upgrade, 3);
    }
  }

  // ----- Crashes that repeat an upgrade -----

  // From here, some run with k unfinished attempts sends k + 1 annotation-driven RPCs.
  ghost predicate Repeats(order: Order, l: Life, k: nat)
  {
    exists steps :: LegalRun(order, l, steps) && FrozenRun(order, l, steps)
                    && UnfinishedAttempts(order, l, steps) == k && Rpcs(order, l, steps, FromAnnotation) == k + 1
  }

  lemma RepeatsStep(order: Order, l: Life, p: Step, k: nat, j: nat)
    requires p.Pass? && Freezes(l.node, p) && Repeats(order, Next(order, l, p), k)
    requires Unfinished(Events(order, l, p)) == Sent(Events(order, l, p), FromAnnotation) == j
    ensures Repeats(order, l, k + j)
  {
    hide Next, Events, Sent, Unfinished, Rpcs, FrozenRun, LegalRun, UnfinishedAttempts, Freezes;
    var rest :| LegalRun(order, Next(order, l, p), rest) && FrozenRun(order, Next(order, l, p), rest)
                && UnfinishedAttempts(order, Next(order, l, p), rest) == k && Rpcs(order, Next(order, l, p), rest, FromAnnotation) == k + 1;
    RunCons(order, l, p, rest);
    StepCons(order, l, p, rest);
    assert LegalRun(order, l, [p] + rest) && FrozenRun(order, l, [p] + rest);
  }

  // Waiting for the annotated upgrade, which no companion annotation has recorded yet.
  predicate Waiting(order: Order, node: Node)
  {
    && !node.deleting && node.status.phase in {Unset, Ready} && node.ann.lastUpgrade == "" && Tag(node) != ""
    && !IsDowngrade(order, node.status.currentVersion, Tag(node))
  }

  // The reconcile dies between the Upgrade RPC and the companion annotation.
  lemma CutPass(order: Order, l: Life)
    requires Waiting(order, l.node)
    ensures var p := Pass(Well(Tag(l.node)), if l.node.finalizer then 2 else 3);
            && Next(order, l, p).node == l.node.(finalizer := true, status := UpgradingStatus(l.node.status))
            && Unfinished(Events(order, l, p)) == Sent(Events(order, l, p), FromAnnotation) == 1
  {
    hide VersionFromImage, After, Note, Sent, Unfinished, UpgradingStatus, IsDowngrade;
    var a, cut := Tag(l.node), if l.node.finalizer then 2 else 3;
    var started, sent := StatusWritten(UpgradingStatus(l.node.status)), UpgradeSent(l.node.ann.upgrade, FromAnnotation, true);
    var es := [started] + [sent];
    var l0 := if l.node.finalizer then l else Record(l, FinalizerAdded);
    TaggedIsPending(l.node);
    assert Events(order, l, Pass(Well(a), cut)) == if l.node.finalizer then es else [FinalizerAdded] + es;
    AfterCons(l, FinalizerAdded, es);
    AfterCons(l0, started, [sent]);
    OneEvent(Record(l0, started), sent);
    CutCounts(l.node.status, l.node.ann.upgrade);
  }

  // And the machine comes back with the new version.
  lemma CutRound(order: Order, l: Life) returns (l': Life)
    requires Waiting(order, l.node)
    ensures Waiting(order, l'.node) && l'.node.ann == l.node.ann
    ensures forall k: nat :: Repeats(order, l', k) ==> Repeats(order, l, k + 1)
  {
    hide VersionFromImage, Repeats, Next, Events, Sent, Unfinished, UpgradingStatus, UpgradedStatus;
    var a := Tag(l.node);
    var p, q := Pass(Well(a), if l.node.finalizer then 2 else 3), Pass(Reporting(a), 100);
    assert VersionFromImage("") == "" by { NoTag(); }
    PhaseIsUpgrading(l.node.status);
    CutPass(order, l);
    var l1 := Next(order, l, p);
    CompletionPass(order, l1, a);
    CompletionSendsNothing(order, l1, a);
    UpgradeKeepsConfig(l1.node, a);
    l' := Next(order, l1, q);
    forall k: nat | Repeats(order, l', k) ensures Repeats(order, l, k + 1) {
      RepeatsStep(order, l1, q, k, 0);
      RepeatsStep(order, l, p, k, 1);
    }
  }

  lemma NoTag()
    ensures VersionFromImage("") == ""
  {
  }

  lemma CutCounts(s: NodeStatus, image: string)
    ensures var es := [StatusWritten(UpgradingStatus(s))] + [UpgradeSent(image, FromAnnotation, true)];
            && Unfinished(es) == Sent(es, FromAnnotation) == 1
            && Unfinished([FinalizerAdded] + es) == Sent([FinalizerAdded] + es, FromAnnotation) == 1
  {
    var started, sent := StatusWritten(UpgradingStatus(s)), UpgradeSent(image, FromAnnotation, true);
    SentCons(started, [sent], FromAnnotation);
    assert started in [started] + [sent];
    BystandersSendNothing([FinalizerAdded], [started] + [sent]);
  }

  lemma CompletionSendsNothing(order: Order, l: Life, v: string)
    requires l.node.finalizer && !l.node.deleting && l.node.status.phase == Upgrading && VersionFromImage(l.node.ann.lastUpgrade) in {"", v}
    ensures Sent(Events(order, l, Pass(Reporting(v), 100)), FromAnnotation) == 0
  {
    hide VersionFromImage, UpgradedStatus;
    Completes(order, l.node, v);
    hide Plan;
    OneEvent(l, StatusWritten(UpgradedStatus(l.node, v)));
  }

  lemma {:induction false} KeepsRepeating(order: Order, l: Life, k: nat)
    requires Waiting(order, l.node)
    ensures Repeats(order, l, k)
    decreases k
  {
    if k > 0 {
      var l' := CutRound(order, l);
      KeepsRepeating(order, l', k - 1);
    } else {
      hide VersionFromImage, IsDowngrade, Events;
      TaggedIsPending(l.node);
      AnnotationPass(order, l, "");
      var p := Pass(Well(""), 100);
      StepCons(order, l, p, []);
      RunCons(order, l, p, []);
      assert LegalRun(order, l, [p] + []) && FrozenRun(order, l, [p] + []);
    }
  }

  lemma TaggedIsPending(node: Node)
    requires node.ann.lastUpgrade == "" && Tag(node) != ""
    ensures AnnotationPending(node)
  {
  }

  // The bound is reached: k crashes between RPC and companion annotation repeat an upgrade k times.
  lemma CrashesRepeatUpgrades(order: Order, l: Life, k: nat)
    requires Fresh(l) && Tag(l.node) != "" && l.node.spec.talosVersion == ""
    ensures AnnotationLeft(order, l.node) == 1 && !Endless(order, l.node.spec.talosVersion, l.node.ann.upgrade)
    ensures exists steps :: LegalRun(order, l, steps) && FrozenRun(order, l, steps) && UnfinishedAttempts(order, l, steps) == k
                            && Rpcs(order, l, steps, FromAnnotation) == AnnotationLeft(order, l.node) + k
  {
    TaggedIsPending(l.node);
    KeepsRepeating(order, l, k);
    hide Rpcs, FrozenRun, LegalRun, UnfinishedAttempts, VersionFromImage;
  }
}

// Upgrades settle: with the version, the extensions and the upgrade annotation left alone, how
// many Upgrade RPCs a node can be sent over any number of reconciles, wherever they stop.
module NodeConvergence {
  import opened Images
  import opened NodeTypes
  import opened NodePlan
  import opened NodeLife

  // ----- Counting -----

  // The Upgrade RPCs of one kind among the events of a reconcile.
  function Sent(es: seq<Event>, origin: Origin): nat
    decreases |es|
  {
    if es == [] then 0
    else (if es[0].UpgradeSent? && es[0].origin == origin then 1 else 0) + Sent(es[1..], origin)
  }

  // The reconcile gets as far as persisting phase Upgrading.
  predicate Starts(es: seq<Event>)
  {
    exists e :: e in es && e.StatusWritten? && e.status.phase == Upgrading
  }

  // Its RPC succeeds and its companion annotation lands.
  predicate Finishes(es: seq<Event>)
  {
    (exists e :: e in es && e.UpgradeSent? && e.ok) && (exists e :: e in es && e.LastUpgradeSet?)
  }

  function Unfinished(es: seq<Event>): nat
  {
    if Starts(es) && !Finishes(es) then 1 else 0
  }

  function Events(order: Order, l: Life, step: Step): seq<Event>
  {
    if step.Pass? then Cut(Plan(order, l.node, step.o), step.cut) else []
  }

  // Over a whole run: the RPCs of one kind, and the attempts that were cut off or failed.
  function Rpcs(order: Order, l: Life, steps: seq<Step>, origin: Origin): nat
    decreases |steps|
  {
    if steps == [] then 0
    else Sent(Events(order, l, steps[0]), origin) + Rpcs(order, Next(order, l, steps[0]), steps[1..], origin)
  }

  function UnfinishedAttempts(order: Order, l: Life, steps: seq<Step>): nat
    decreases |steps|
  {
    if steps == [] then 0
    else Unfinished(Events(order, l, steps[0])) + UnfinishedAttempts(order, Next(order, l, steps[0]), steps[1..])
  }

  // The step leaves version, extensions and upgrade annotation alone. A schematic is never empty:
  // the factory client turns an empty one into an error.
  predicate Freezes(node: Node, step: Step)
  {
    match step
    case Pass(o, _) => (o.factory.Schematic? ==> o.factory.id != "") && o.edit.None?
    case EditSpec(spec) => spec.talosVersion == node.spec.talosVersion && spec.extensions == node.spec.extensions
    case SetUpgrade(image) => image == node.ann.upgrade
    case _ => true
  }

  predicate FrozenRun(order: Order, l: Life, steps: seq<Step>)
    decreases |steps|
  {
    steps != [] ==> Freezes(l.node, steps[0]) && FrozenRun(order, Next(order, l, steps[0]), steps[1..])
  }

  // ----- When spec and annotation never agree -----

  // With version v on record, the spec still asks for an upgrade.
  predicate Asks(order: Order, talosVersion: string, v: string)
  {
    var wanted := NormalizeVersion(talosVersion);
    wanted != NormalizeVersion(v) && !IsDowngrade(order, v, wanted)
  }

  // The version on record once spec and annotation have both had their turn: the annotation's
  // unless there is none or it would be a downgrade from what the spec's image is tagged with.
  function Outcome(order: Order, talosVersion: string, upgrade: string): string
  {
    var s, a := SpecTag(talosVersion), VersionFromImage(upgrade);
    if upgrade == "" || IsDowngrade(order, s, a) then s else a
  }

  // Both name a version, and the spec asks again for another one after that.
  predicate Endless(order: Order, talosVersion: string, upgrade: string)
  {
    && talosVersion != "" && SpecTag(talosVersion) != ""
    && (upgrade != "" ==> VersionFromImage(upgrade) != "")
    && Asks(order, talosVersion, Outcome(order, talosVersion, upgrade))
  }

  // For a version without a colon that is a matter of two versions the order does not tell
  // apart, or not at all, and that are not the same text either.
  lemma EndlessForPlainVersions(order: Order, talosVersion: string, upgrade: string)
    requires ':' !in talosVersion
    ensures var w, a := NormalizeVersion(talosVersion), VersionFromImage(upgrade);
            Endless(order, talosVersion, upgrade) <==>
            w != "" && upgrade != "" && a != "" && w != NormalizeVersion(a) && !IsDowngrade(order, a, w) && !IsDowngrade(order, w, a)
  {
    PlainSpecTag(talosVersion);
    hide VersionFromImage, IsDowngrade, SpecTag;
  }

  // ----- What is left to do -----

  // The version the node runs, or will run once the upgrade under way is complete.
  function Effective(node: Node): string
  {
    if node.status.phase == Upgrading then VersionFromImage(node.ann.lastUpgrade) else node.status.currentVersion
  }

  // An upgrade under way that any reported version will complete.
  predicate Unknown(node: Node)
  {
    node.status.phase == Upgrading && VersionFromImage(node.ann.lastUpgrade) == ""
  }

  predicate Dirty(node: Node)
  {
    node.spec.extensions != [] && !CacheHit(node.spec.extensions, node.ann.lastExtensions, node.ann.schematic)
  }

  predicate AnnotationPending(node: Node)
  {
    node.ann.upgrade != "" && node.ann.upgrade != node.ann.lastUpgrade
  }

  function Tag(node: Node): string
  {
    VersionFromImage(node.ann.upgrade)
  }

  // The annotation's turn is next, and will send an RPC.
  predicate WillUpgrade(order: Order, node: Node)
  {
    AnnotationPending(node) && Tag(node) != "" && !IsDowngrade(order, Effective(node), Tag(node))
  }

  // Nothing can come of the spec: no version, no tag to wait for, or an untagged image before it.
  predicate SpecSilent(node: Node)
  {
    || node.spec.talosVersion == "" || SpecTag(node.spec.talosVersion) == ""
    || (AnnotationPending(node) && Tag(node) == "")
  }

  // The spec asks for nothing more, now or after the annotation's turn.
  predicate SpecSettled(order: Order, node: Node)
  {
    || SpecSilent(node)
    || (!Unknown(node) && !Dirty(node)
        && !Asks(order, node.spec.talosVersion, if WillUpgrade(order, node) then Tag(node) else Effective(node)))
  }

  // Upgrade RPCs the spec can still lead to.
  function SpecLeft(order: Order, node: Node): nat
  {
    if node.deleting || SpecSettled(order, node) then 0 else 1
  }

  // And the annotation: its turn now, and once more after one of the spec's.
  function AnnotationLeft(order: Order, node: Node): nat
  {
    if node.deleting then 0
    else if !WillUpgrade(order, node) then SpecLeft(order, node)
    else if SpecSilent(node) || (!Dirty(node) && !Asks(order, node.spec.talosVersion, Tag(node))) then 1
    else 2
  }

  // The events from n to n' are paid for out of what was left, or belong to an unfinished attempt.
  predicate Pays(order: Order, n: Node, n': Node, es: seq<Event>)
  {
    && Sent(es, FromSpec) + SpecLeft(order, n') <= SpecLeft(order, n) + Unfinished(es)
    && Sent(es, FromAnnotation) + AnnotationLeft(order, n') <= AnnotationLeft(order, n) + Unfinished(es)
    && Frozen(n, n')
  }

  predicate Frozen(n: Node, n': Node)
  {
    n'.spec.talosVersion == n.spec.talosVersion && n'.spec.extensions == n.spec.extensions && n'.ann.upgrade == n.ann.upgrade
  }

  // All that the measure looks at.
  predicate Same(n: Node, n': Node)
  {
    && Frozen(n, n') && n'.ann.lastUpgrade == n.ann.lastUpgrade
    && n'.ann.schematic == n.ann.schematic && n'.ann.lastExtensions == n.ann.lastExtensions
    && n'.status.currentVersion == n.status.currentVersion && n'.deleting == n.deleting
    && (n'.status.phase == Upgrading <==> n.status.phase == Upgrading)
  }

  lemma SameIsLeft(order: Order, n: Node, n': Node)
    requires Same(n, n')
    ensures SpecLeft(order, n') == SpecLeft(order, n) && AnnotationLeft(order, n') == AnnotationLeft(order, n)
  {
    hide VersionFromImage, Asks, IsDowngrade, SpecTag, CacheHit;
  }

  // ----- Event lists -----

  lemma {:induction false} AfterAppend(l: Life, a: seq<Event>, b: seq<Event>)
    ensures After(l, a + b) == After(After(l, a), b)
    decreases |a|
  {
    hide Record;
    if a == [] {
      assert a + b == b;
    } else {
      assert (a + b)[1..] == a[1..] + b;
      AfterAppend(Record(l, a[0]), a[1..], b);
    }
  }

  lemma CutAppend(a: seq<Event>, b: seq<Event>, cut: nat)
    ensures Cut(a + b, cut) == if cut <= |a| then Cut(a, cut) else a + Cut(b, cut - |a|)
  {
  }

  lemma SentCons(e: Event, es: seq<Event>, origin: Origin)
    ensures Sent([e] + es, origin) == (if e.UpgradeSent? && e.origin == origin then 1 else 0) + Sent(es, origin)
  {
    assert ([e] + es)[1..] == es;
  }

  // Events that are no part of an upgrade attempt.
  predicate Bystander(e: Event)
  {
    !e.UpgradeSent? && !e.LastUpgradeSet? && (e.StatusWritten? ==> e.status.phase != Upgrading)
  }

  lemma {:induction false} BystandersSendNothing(es: seq<Event>, rest: seq<Event>)
    requires forall e :: e in es ==> Bystander(e)
    ensures Sent(es + rest, FromSpec) == Sent(rest, FromSpec) && Sent(es + rest, FromAnnotation) == Sent(rest, FromAnnotation)
    ensures Unfinished(es + rest) == Unfinished(rest)
    decreases |es|
  {
    BystandersStartNothing(es, rest);
    if es == [] {
      assert es + rest == rest;
    } else {
      assert es[0] in es && es + rest == [es[0]] + (es[1..] + rest);
      SentCons(es[0], es[1..] + rest, FromSpec);
      SentCons(es[0], es[1..] + rest, FromAnnotation);
      BystandersSendNothing(es[1..], rest);
    }
  }

  lemma BystandersStartNothing(es: seq<Event>, rest: seq<Event>)
    requires forall e :: e in es ==> Bystander(e)
    ensures Starts(es + rest) == Starts(rest) && Finishes(es + rest) == Finishes(rest)
  {
    assert forall e :: e in rest ==> e in es + rest;
    assert forall e :: e in es + rest ==> e in es || e in rest;
  }

  lemma OnlyBystanders(es: seq<Event>)
    requires forall e :: e in es ==> Bystander(e)
    ensures Sent(es, FromSpec) == Sent(es, FromAnnotation) == Unfinished(es) == 0
  {
    BystandersSendNothing(es, []);
    assert es + [] == es;
  }

  // Events of an active node that have nothing to do with upgrades.
  predicate Calm(e: Event, version: string)
  {
    match e
    case StatusWritten(s) => s.phase != Upgrading && s.currentVersion == version
    case LastUpgradeSet(_) => false
    case SchematicSet(_, _) => false
    case UserEdited(_) => false
    case UpgradeSent(_, _, _) => false
    case _ => true
  }

  lemma {:induction false} CalmStays(l: Life, es: seq<Event>)
    requires l.node.status.phase != Upgrading
    requires forall e :: e in es ==> Calm(e, l.node.status.currentVersion)
    ensures Same(l.node, After(l, es).node)
    decreases |es|
  {
    if es != [] {
      assert es[0] in es && forall e :: e in es[1..] ==> e in es;
      hide Note;
      CalmStays(Record(l, es[0]), es[1..]);
    }
  }

  lemma CalmPays(order: Order, l: Life, es: seq<Event>)
    requires l.node.status.phase != Upgrading
    requires forall e :: e in es ==> Calm(e, l.node.status.currentVersion)
    ensures Pays(order, l.node, After(l, es).node, es)
  {
    CalmStays(l, es);
    OnlyBystanders(es);
    SameIsLeft(order, l.node, After(l, es).node);
    hide SpecLeft, AnnotationLeft, Sent, Unfinished;
  }

  lemma ConfigPlanIsCalm(node: Node, o: Outcomes)
    requires node.status.phase != Upgrading
    ensures forall e :: e in ConfigPlan(node, o) ==> Calm(e, node.status.currentVersion)
  {
    if OpenRequests(node) == 0 {
      ApplyIsCalm(node, o.apply);
    }
  }

  lemma ApplyIsCalm(node: Node, a: ApplyOutcomes)
    ensures forall e :: e in ApplyOrErrorPlan(node, a) ==> Calm(e, node.status.currentVersion)
  {
    var n := node.(status := ApplyingStatus(node));
    assert forall e :: e in SendPlan(n, a).events ==> Calm(e, node.status.currentVersion);
    assert SendPlan(n, a).status.currentVersion == node.status.currentVersion;
    hide SendPlan;
    assert forall e :: e in SecurePlan(n, a).events ==> Calm(e, node.status.currentVersion);
    assert SecurePlan(n, a).status.currentVersion == node.status.currentVersion;
    hide SecurePlan;
    assert forall e :: e in ConnectPlan(!ConfigIsApplied(node.status), n, a).events ==> Calm(e, node.status.currentVersion);
  }

  // ----- One upgrade attempt -----

  function Upgraded(node: Node, image: string): Node
  {
    node.(status := UpgradingStatus(node.status), ann := node.ann.(lastUpgrade := image))
  }

  function Consumed(node: Node, image: string): Node
  {
    node.(ann := node.ann.(lastUpgrade := image))
  }

  // What the events of an attempt, cut off anywhere, make of n: nothing; a downgrade consumed; an
  // upgrade with its image recorded; or an unfinished one, whose image may be recorded.
  predicate Attempted(order: Order, n: Node, n': Node, image: string, origin: Origin, es: seq<Event>)
  {
    var tag, other := VersionFromImage(image), if origin == FromSpec then FromAnnotation else FromSpec;
    && Sent(es, other) == 0
    && (if !Starts(es) then
          Sent(es, origin) == 0 && (n' == n || (n' == Consumed(n, image) && tag != "" && IsDowngrade(order, n.status.currentVersion, tag)))
        else
          && Sent(es, origin) <= 1 && tag != "" && !IsDowngrade(order, n.status.currentVersion, tag)
          && (if Finishes(es) then n' == Upgraded(n, image)
              else (n'.ann == n.ann || n'.ann == Consumed(n, image).ann) && n' == n.(ann := n'.ann, status := n'.status)))
  }

  lemma UpgradeCut(order: Order, l: Life, image: string, origin: Origin, o: Outcomes, cut: nat)
    ensures var es := Cut(UpgradePlan(order, l.node.status, image, origin, o), cut);
            Attempted(order, l.node, After(l, es).node, image, origin, es)
  {
    hide VersionFromImage, IsDowngrade, UpgradingStatus, Note, After, Sent, UpgradeEnd;
    var plan := UpgradePlan(order, l.node.status, image, origin, o);
    var es := Cut(plan, cut);
    AfterNothing(l);
    OnlyBystanders([]);
    if es != [] && es[0].LastUpgradeSet? {
      assert es == [es[0]];
      OneEvent(l, es[0]);
      assert !Starts(es);
    } else if es != [] {
      var end := UpgradeEnd(l.node.status, image, o);
      var started, sent := StatusWritten(UpgradingStatus(l.node.status)), UpgradeSent(image, origin, o.upgrade);
      CutAppend([started, sent], end, cut);
      if cut == 1 {
        assert es == [started];
        OneEvent(l, started);
        assert UpgradingStatus(l.node.status).phase == Upgrading && started in es by { hide *; PhaseIsUpgrading(l.node.status); }
      } else {
        assert es == [started] + ([sent] + Cut(end, cut - 2));
        SentCut(order, l, image, origin, o, cut - 2);
      }
    }
  }

  lemma PhaseIsUpgrading(s: NodeStatus)
    ensures UpgradingStatus(s).phase == Upgrading
  {
  }

  lemma OneEvent(l: Life, e: Event)
    ensures After(l, [e]) == Record(l, e)
    ensures Sent([e], FromSpec) == (if e.UpgradeSent? && e.origin == FromSpec then 1 else 0)
    ensures Sent([e], FromAnnotation) == (if e.UpgradeSent? && e.origin == FromAnnotation then 1 else 0)
  {
    hide Record;
    assert [e] == [e] + [];
    AfterCons(l, e, []);
    AfterNothing(Record(l, e));
    SentCons(e, [], FromSpec);
    SentCons(e, [], FromAnnotation);
  }

  // The events of an attempt that got as far as its RPC.
  lemma SentCut(order: Order, l: Life, image: string, origin: Origin, o: Outcomes, cut: nat)
    requires VersionFromImage(image) != "" && !IsDowngrade(order, l.node.status.currentVersion, VersionFromImage(image))
    ensures var started, sent := StatusWritten(UpgradingStatus(l.node.status)), UpgradeSent(image, origin, o.upgrade);
            var es := [started] + ([sent] + Cut(UpgradeEnd(l.node.status, image, o), cut));
            Attempted(order, l.node, After(l, es).node, image, origin, es)
  {
    hide VersionFromImage, IsDowngrade, Note, UpgradingStatus, UpgradeEnd, Starts, Finishes, Sent;
    var started, sent := StatusWritten(UpgradingStatus(l.node.status)), UpgradeSent(image, origin, o.upgrade);
    var tail := Cut(UpgradeEnd(l.node.status, image, o), cut);
    PhaseIsUpgrading(l.node.status);
    var l1 := Record(l, started);
    AfterCons(l, started, [sent] + tail);
    AfterCons(l1, sent, tail);
    hide After;
    SentCons(started, [sent] + tail, FromSpec);
    SentCons(started, [sent] + tail, FromAnnotation);
    SentCons(sent, tail, FromSpec);
    SentCons(sent, tail, FromAnnotation);
    EndCut(Record(l1, sent), l.node.status, image, o, cut);
    StartsAndFinishes(started, sent, tail);
  }

  lemma StartsAndFinishes(started: Event, sent: Event, tail: seq<Event>)
    requires started.StatusWritten? && started.status.phase == Upgrading && sent.UpgradeSent?
    requires forall e :: e in tail ==> !e.UpgradeSent?
    ensures var es := [started] + ([sent] + tail);
            Starts(es) && (Finishes(es) <==> sent.ok && exists e :: e in tail && e.LastUpgradeSet?)
  {
    var es := [started] + ([sent] + tail);
    assert started in es && sent in es && forall e :: e in tail ==> e in es;
    assert forall e :: e in es ==> e == started || e == sent || e in tail;
  }

  // From the sent RPC on.
  lemma EndCut(l: Life, s: NodeStatus, image: string, o: Outcomes, cut: nat)
    ensures var tail := Cut(UpgradeEnd(s, image, o), cut);
            var n' := After(l, tail).node;
            && (forall e :: e in tail ==> !e.UpgradeSent?) && Sent(tail, FromSpec) == Sent(tail, FromAnnotation) == 0
            && (if exists e :: e in tail && e.LastUpgradeSet? then n'.ann == Consumed(l.node, image).ann else n'.ann == l.node.ann)
            && n' == l.node.(ann := n'.ann, status := n'.status) && (o.upgrade ==> n'.status == l.node.status)
  {
    hide Note, UpgradingStatus;
    var recorded, failed := LastUpgradeSet(image), StatusWritten(UpgradingStatus(s).(phase := Errored));
    var end, tail := UpgradeEnd(s, image, o), Cut(UpgradeEnd(s, image, o), cut);
    AfterNothing(l);
    OneEvent(l, recorded);
    OneEvent(l, failed);
    OneEvent(Record(l, recorded), failed);
    AfterCons(l, recorded, [failed]);
    SentCons(recorded, [failed], FromSpec);
    SentCons(recorded, [failed], FromAnnotation);
    assert tail == [] || tail == [recorded] || tail == [failed] || tail == [recorded] + [failed];
    assert recorded in [recorded] + [failed] && recorded in [recorded];
  }

  // ----- Attempts pay -----

  lemma LeftIsBounded(order: Order, n: Node)
    ensures SpecLeft(order, n) <= 1 && SpecLeft(order, n) <= AnnotationLeft(order, n) + 1 && AnnotationLeft(order, n) <= 2
    ensures !AnnotationPending(n) ==> AnnotationLeft(order, n) == SpecLeft(order, n)
  {
    hide SpecSettled, SpecSilent, Asks, Dirty, VersionFromImage, IsDowngrade;
  }

  // The annotation's turn uses it up, and leaves the spec where it was.
  lemma AnnotationTurn(order: Order, n: Node, n': Node)
    requires !n.deleting && n.status.phase != Upgrading && AnnotationPending(n) && Tag(n) != ""
    requires n' == if IsDowngrade(order, n.status.currentVersion, Tag(n)) then Consumed(n, n.ann.upgrade) else Upgraded(n, n.ann.upgrade)
    ensures SpecLeft(order, n') == SpecLeft(order, n)
    ensures AnnotationLeft(order, n') + (if WillUpgrade(order, n) then 1 else 0) == AnnotationLeft(order, n)
  {
    hide VersionFromImage, IsDowngrade, Asks, SpecTag, CacheHit;
    PhaseIsUpgrading(n.status);
  }

  // An unfinished one leaves the annotation pending or not, and anything else as bad as can be.
  lemma AnnotationUnfinished(order: Order, n: Node, n': Node)
    requires !n.deleting && n.status.phase != Upgrading && WillUpgrade(order, n)
    requires n'.ann == n.ann || n'.ann == Consumed(n, n.ann.upgrade).ann
    requires n' == n.(ann := n'.ann, status := n'.status)
    ensures AnnotationLeft(order, n') <= AnnotationLeft(order, n)
  {
    hide VersionFromImage, IsDowngrade, Asks, SpecTag, CacheHit;
    LeftIsBounded(order, n');
  }

  lemma AnnotationPays(order: Order, n: Node, n': Node, es: seq<Event>)
    requires !n.deleting && n.status.phase != Upgrading && AnnotationPending(n)
    requires Attempted(order, n, n', n.ann.upgrade, FromAnnotation, es)
    ensures Pays(order, n, n', es)
  {
    hide VersionFromImage, IsDowngrade, SpecLeft, AnnotationLeft, Sent, Starts, Finishes;
    LeftIsBounded(order, n');
    if Starts(es) && !Finishes(es) {
      AnnotationUnfinished(order, n, n');
    } else if n' != n || Starts(es) {
      AnnotationTurn(order, n, n');
    }
  }

  // The spec's turn settles it for good, unless it is endless: what it leaves is at most one more
  // turn of the annotation.
  lemma SpecTurn(order: Order, n: Node, n': Node, image: string)
    requires !n.deleting && n.status.phase != Upgrading && !AnnotationPending(n) && !Dirty(n)
    requires n.spec.talosVersion != "" && !Endless(order, n.spec.talosVersion, n.ann.upgrade)
    requires VersionFromImage(image) == SpecTag(n.spec.talosVersion) != ""
    requires n' == if IsDowngrade(order, n.status.currentVersion, SpecTag(n.spec.talosVersion)) then Consumed(n, image) else Upgraded(n, image)
    ensures AnnotationLeft(order, n') <= 1
    ensures !IsDowngrade(order, n.status.currentVersion, SpecTag(n.spec.talosVersion)) ==> SpecLeft(order, n') == 0
  {
    hide VersionFromImage, Asks, SpecTag, CacheHit;
    PhaseIsUpgrading(n.status);
    assert Dirty(n') == Dirty(n);
  }

  lemma SpecPays(order: Order, n: Node, n': Node, image: string, es: seq<Event>)
    requires !n.deleting && n.status.phase != Upgrading && !AnnotationPending(n) && !Dirty(n)
    requires n.spec.talosVersion != "" && !Endless(order, n.spec.talosVersion, n.ann.upgrade)
    requires VersionFromImage(image) == SpecTag(n.spec.talosVersion)
    requires Attempted(order, n, n', image, FromSpec, es)
    ensures n' == n || (Frozen(n, n') && SpecTag(n.spec.talosVersion) != "")
    ensures n' == n ==> Sent(es, FromSpec) <= Unfinished(es)
    ensures Sent(es, FromAnnotation) == 0 && Sent(es, FromSpec) + SpecLeft(order, n') <= 1 + Unfinished(es)
    ensures n' != n ==> AnnotationLeft(order, n') <= 1 + Unfinished(es)
  {
    hide VersionFromImage, IsDowngrade, SpecLeft, AnnotationLeft, Sent, Starts, Finishes, Endless, Dirty, SpecTag;
    LeftIsBounded(order, n');
    if n' != n && (!Starts(es) || Finishes(es)) {
      SpecTurn(order, n, n', image);
    } else if Starts(es) && Finishes(es) {
      SpecTurn(order, n, n', image);
    }
  }

  // ----- One reconcile -----

  // Completion makes the version the node runs the one it was going to run.
  lemma CheckPays(order: Order, l: Life, o: Outcomes, cut: nat)
    requires l.node.status.phase == Upgrading
    ensures var es := Cut(CheckUpgradePlan(l.node, o), cut);
            Pays(order, l.node, After(l, es).node, es)
  {
    var es := Cut(CheckUpgradePlan(l.node, o), cut);
    AfterNothing(l);
    OnlyBystanders(es) by { hide UpgradeIsComplete; }
    if es != [] {
      assert es == [es[0]];
      OneEvent(l, es[0]);
      CompletionPays(order, l.node, Record(l, es[0]).node, o.version.value.tag);
    }
  }

  lemma CompletionPays(order: Order, n: Node, n': Node, tag: string)
    requires n.status.phase == Upgrading && UpgradeIsComplete(n, tag) && n' == n.(status := UpgradedStatus(n, tag))
    ensures SpecLeft(order, n') <= SpecLeft(order, n) && AnnotationLeft(order, n') <= AnnotationLeft(order, n)
  {
    hide VersionFromImage, Asks, SpecTag, CacheHit;
  }

  // What the spec asks for now.
  function Wanted(node: Node, o: Outcomes): Desired
  {
    ComputeDesiredImage(node.spec.talosVersion, node.spec.extensions, node.ann.lastExtensions, node.ann.schematic, o.factory)
  }

  predicate Considers(node: Node, o: Outcomes)
  {
    var d := Wanted(node, o);
    node.spec.talosVersion != "" && ConfigIsApplied(node.status) && d.Desired? && (d.newSchematic == "" || o.schematicPatch)
  }

  predicate Attempts(order: Order, node: Node, o: Outcomes)
  {
    && Considers(node, o)
    && (Wanted(node, o).newSchematic != "" || NormalizeVersion(node.spec.talosVersion) != NormalizeVersion(node.status.currentVersion))
    && !IsDowngrade(order, node.status.currentVersion, NormalizeVersion(node.spec.talosVersion))
  }

  function CacheWrites(node: Node, o: Outcomes): seq<Event>
  {
    var d := Wanted(node, o);
    if Considers(node, o) && d.newSchematic != "" then [SchematicSet(d.newSchematic, d.newCanonical)] else []
  }

  // The version pass with the spec left alone: at most one cache write, then perhaps an upgrade.
  lemma FrozenVersionPlan(order: Order, node: Node, o: Outcomes)
    requires o.edit.None?
    ensures var v := VersionPlan(order, node, o);
            && v.events == CacheWrites(node, o) +
               (if Attempts(order, node, o) then UpgradePlan(order, node.status, Wanted(node, o).image, FromSpec, o) else [])
            && (!v.done ==> !Attempts(order, node, o)
                            && v.node == if CacheWrites(node, o) == [] then node else Apply(node, CacheWrites(node, o)[0]))
  {
    hide UpgradePlan, ComputeDesiredImage, IsDowngrade, NormalizeVersion, ConfigIsApplied;
  }

  lemma NewSchematicIsCanonical(node: Node, o: Outcomes)
    requires Wanted(node, o).Desired? && Wanted(node, o).newSchematic != ""
    ensures Wanted(node, o).newCanonical == CanonicalExtensions(node.spec.extensions)
    ensures Dirty(node) && o.factory.Schematic? && Wanted(node, o).newSchematic == o.factory.id
  {
    hide CanonicalExtensions, InstallerImage, NormalizeVersion;
  }

  lemma CleanWants(node: Node, o: Outcomes)
    requires Wanted(node, o).Desired?
    ensures !Dirty(node) ==> Wanted(node, o).newSchematic == ""
    ensures Dirty(node) && (o.factory.Schematic? ==> o.factory.id != "") ==> Wanted(node, o).newSchematic != ""
  {
    hide CanonicalExtensions, InstallerImage, NormalizeVersion;
  }

  // Recording a schematic first only ever settles more.
  lemma HeadPays(order: Order, l: Life, o: Outcomes)
    requires o.factory.Schematic? ==> o.factory.id != ""
    ensures var head := CacheWrites(l.node, o);
            var n := After(l, head).node;
            && |head| <= 1 && (forall e :: e in head ==> Bystander(e))
            && n == (if head == [] then l.node else Apply(l.node, head[0]))
            && n == l.node.(ann := l.node.ann.(schematic := n.ann.schematic, lastExtensions := n.ann.lastExtensions))
            && SpecLeft(order, n) <= SpecLeft(order, l.node) && AnnotationLeft(order, n) <= AnnotationLeft(order, l.node)
            && (Considers(l.node, o) ==> !Dirty(n))
  {
    hide ComputeDesiredImage, CanonicalExtensions, Asks, SpecTag, IsDowngrade, VersionFromImage, Wanted, ConfigIsApplied, Note;
    var head := CacheWrites(l.node, o);
    AfterNothing(l);
    if Considers(l.node, o) { CleanWants(l.node, o); }
    if head != [] {
      NewSchematicIsCanonical(l.node, o);
      OneEvent(l, head[0]);
      assert head == [head[0]];
    }
  }

  // The spec-driven upgrade is only attempted while the spec is not settled.
  lemma AttemptMeansUnsettled(order: Order, n: Node, o: Outcomes)
    requires Attempts(order, n, o) && !n.deleting && n.status.phase != Upgrading && !AnnotationPending(n)
    requires SpecTag(n.spec.talosVersion) != ""
    ensures SpecLeft(order, n) == AnnotationLeft(order, n) == 1
  {
    hide VersionFromImage, CacheHit, SpecTag, ComputeDesiredImage, IsDowngrade, ConfigIsApplied;
    CleanWants(n, o);
  }

  lemma AttemptPays(order: Order, l: Life, o: Outcomes, cut: nat)
    requires !l.node.deleting && l.node.status.phase != Upgrading && !AnnotationPending(l.node) && Attempts(order, l.node, o)
    requires (o.factory.Schematic? ==> o.factory.id != "") && !Endless(order, l.node.spec.talosVersion, l.node.ann.upgrade)
    ensures var es := CacheWrites(l.node, o) + Cut(UpgradePlan(order, l.node.status, Wanted(l.node, o).image, FromSpec, o), cut);
            Pays(order, l.node, After(l, es).node, es)
  {
    hide ComputeDesiredImage, SpecTag, IsDowngrade, VersionFromImage, UpgradePlan, Attempted, SpecLeft, AnnotationLeft,
         Endless, Dirty, CacheWrites, Sent, Unfinished, Bystander, AnnotationPending;
    var head, image := CacheWrites(l.node, o), Wanted(l.node, o).image;
    var upgrade := Cut(UpgradePlan(order, l.node.status, image, FromSpec, o), cut);
    var l1 := After(l, head);
    HeadPays(order, l, o);
    AfterAppend(l, head, upgrade);
    BystandersSendNothing(head, upgrade);
    UpgradeCut(order, l1, image, FromSpec, o, cut);
    ImageTag(l.node.spec.talosVersion, l.node.spec.extensions, l.node.ann.lastExtensions, l.node.ann.schematic, o.factory);
    StillNotPending(l.node, l1.node);
    SpecPays(order, l1.node, After(l1, upgrade).node, image, upgrade);
    if SpecTag(l.node.spec.talosVersion) != "" { AttemptMeansUnsettled(order, l.node, o); }
  }

  lemma StillNotPending(n: Node, n': Node)
    requires n'.ann.upgrade == n.ann.upgrade && n'.ann.lastUpgrade == n.ann.lastUpgrade
    ensures AnnotationPending(n') == AnnotationPending(n)
  {
  }

  // A cut that ends within the cache write, or an untouched configuration after it.
  lemma NoAttemptPays(order: Order, l: Life, o: Outcomes, rest: seq<Event>)
    requires !l.node.deleting && l.node.status.phase != Upgrading
    requires o.factory.Schematic? ==> o.factory.id != ""
    requires forall e :: e in rest ==> Calm(e, l.node.status.currentVersion)
    ensures var es := CacheWrites(l.node, o) + rest;
            Pays(order, l.node, After(l, es).node, es)
    ensures Pays(order, l.node, After(l, []).node, [])
  {
    hide CacheWrites, SpecLeft, AnnotationLeft, Sent, Unfinished, Bystander, Considers, Dirty, Calm;
    var head := CacheWrites(l.node, o);
    HeadPays(order, l, o);
    AfterAppend(l, head, rest);
    BystandersSendNothing(head, rest);
    CalmPays(order, After(l, head), rest);
    CalmPays(order, l, []);
  }

  lemma VersionPays(order: Order, l: Life, o: Outcomes, cut: nat)
    requires !l.node.deleting && l.node.status.phase != Upgrading && !AnnotationPending(l.node)
    requires (o.factory.Schematic? ==> o.factory.id != "") && o.edit.None?
    requires !Endless(order, l.node.spec.talosVersion, l.node.ann.upgrade)
    ensures var v := VersionPlan(order, l.node, o);
            var es := Cut(if v.done then v.events else v.events + ConfigPlan(v.node, o), cut);
            Pays(order, l.node, After(l, es).node, es)
  {
    hide VersionPlan, UpgradePlan, ConfigPlan, Pays, Endless, AnnotationPending, After, Wanted, CacheWrites, Calm;
    var v, head := VersionPlan(order, l.node, o), CacheWrites(l.node, o);
    FrozenVersionPlan(order, l.node, o);
    HeadIsShort(l.node, o);
    var rest := if Attempts(order, l.node, o) then UpgradePlan(order, l.node.status, Wanted(l.node, o).image, FromSpec, o)
                else if v.done then [] else ConfigPlan(v.node, o);
    CutAppend(head, rest, cut);
    assert (if v.done then v.events else v.events + ConfigPlan(v.node, o)) == head + rest;
    assert head + [] == head;
    NoAttemptPays(order, l, o, []);
    if cut > |head| {
      if Attempts(order, l.node, o) {
        AttemptPays(order, l, o, cut - |head|);
      } else {
        if !v.done { ConfigPlanIsCalm(v.node, o); }
        var cutRest := Cut(rest, cut - |head|);
        assert forall e :: e in cutRest ==> e in rest;
        NoAttemptPays(order, l, o, cutRest);
      }
    } else {
      assert Cut(head, cut) == [] || Cut(head, cut) == head;
    }
  }

  lemma HeadIsShort(node: Node, o: Outcomes)
    ensures |CacheWrites(node, o)| <= 1
    ensures CacheWrites(node, o) != [] ==> Apply(node, CacheWrites(node, o)[0]).status == node.status
  {
  }

  lemma ActivePays(order: Order, l: Life, o: Outcomes, cut: nat)
    requires !l.node.deleting && (o.factory.Schematic? ==> o.factory.id != "") && o.edit.None?
    requires !Endless(order, l.node.spec.talosVersion, l.node.ann.upgrade)
    ensures var es := Cut(ActivePlan(order, l.node, o), cut);
            Pays(order, l.node, After(l, es).node, es)
  {
    hide CheckUpgradePlan, UpgradePlan, VersionPlan, ConfigPlan, Pays, After, Endless, Attempted;
    if l.node.status.phase == Upgrading {
      CheckPays(order, l, o, cut);
    } else if AnnotationPending(l.node) {
      var es := Cut(UpgradePlan(order, l.node.status, l.node.ann.upgrade, FromAnnotation, o), cut);
      UpgradeCut(order, l, l.node.ann.upgrade, FromAnnotation, o, cut);
      AnnotationPays(order, l.node, After(l, es).node, es);
    } else {
      VersionPays(order, l, o, cut);
    }
  }

  // A node under deletion is past all upgrades.
  lemma {:induction false} DeletingStays(l: Life, es: seq<Event>)
    requires l.node.deleting && forall e :: e in es ==> Leaves(e) || CleansUp(e)
    ensures After(l, es).node.deleting && Frozen(l.node, After(l, es).node)
    ensures Sent(es, FromSpec) == Sent(es, FromAnnotation) == 0
    decreases |es|
  {
    if es != [] {
      hide Note;
      assert es[0] in es;
      DeletingStays(Record(l, es[0]), es[1..]);
    }
  }

  lemma NothingPays(order: Order, n: Node, n': Node)
    requires Same(n, n')
    ensures Pays(order, n, n', [])
  {
    SameIsLeft(order, n, n');
    OnlyBystanders([]);
    hide Same, SpecLeft, AnnotationLeft;
  }

  // Adding the finalizer first makes no difference.
  lemma FinalizerFirst(order: Order, l: Life, rest: seq<Event>)
    requires var l1 := Record(l, FinalizerAdded); Pays(order, l1.node, After(l1, rest).node, rest)
    ensures Pays(order, l.node, After(l, [FinalizerAdded] + rest).node, [FinalizerAdded] + rest)
  {
    hide After, SpecLeft, AnnotationLeft, Sent, Unfinished;
    AfterCons(l, FinalizerAdded, rest);
    BystandersSendNothing([FinalizerAdded], rest);
    SameIsLeft(order, l.node, Record(l, FinalizerAdded).node);
  }

  lemma PassPays(order: Order, l: Life, step: Step)
    requires step.Pass? && Freezes(l.node, step) && !Endless(order, l.node.spec.talosVersion, l.node.ann.upgrade)
    ensures Pays(order, l.node, Next(order, l, step).node, Events(order, l, step))
  {
    hide ActivePlan, DeletionPlan, Endless, After, Sent, Starts, Finishes, SpecSettled, WillUpgrade, SpecSilent;
    var es := Events(order, l, step);
    if l.node.deleting {
      DeletionLeavesAndCleansUp(l.node, step.o.deletion);
      assert forall e :: e in es ==> e in DeletionPlan(l.node, step.o.deletion);
      DeletingStays(l, es);
    } else if l.node.finalizer {
      ActivePays(order, l, step.o, step.cut);
    } else if step.o.addFinalizer && step.cut > 0 {
      var l1 := Record(l, FinalizerAdded);
      var rest := Cut(ActivePlan(order, l1.node, step.o), step.cut - 1);
      ActivePays(order, l1, step.o, step.cut - 1);
      FinalizerFirst(order, l, rest);
      CutAppend([FinalizerAdded], ActivePlan(order, l1.node, step.o), step.cut);
      assert es == [FinalizerAdded] + rest;
    } else {
      assert es == [];
      AfterNothing(l);
      NothingPays(order, l.node, l.node);
    }
  }

  lemma StepPays(order: Order, l: Life, step: Step)
    requires Freezes(l.node, step) && !Endless(order, l.node.spec.talosVersion, l.node.ann.upgrade)
    ensures Pays(order, l.node, Next(order, l, step).node, Events(order, l, step))
  {
    hide Plan, Endless, After, SpecSettled, WillUpgrade, SpecSilent;
    match step
    case Pass(_, _) => PassPays(order, l, step);
    case Delete =>
      OnlyBystanders([]);
      LeftIsBounded(order, l.node);
    case _ => NothingPays(order, l.node, Next(order, l, step).node);
  }

  // RPCs sent plus RPCs left never grow, but for the unfinished attempts.
  lemma {:induction false} RunPays(order: Order, l: Life, steps: seq<Step>)
    requires FrozenRun(order, l, steps) && !Endless(order, l.node.spec.talosVersion, l.node.ann.upgrade)
    ensures var r, u := Run(order, l, steps).node, UnfinishedAttempts(order, l, steps);
            && Rpcs(order, l, steps, FromSpec) + SpecLeft(order, r) <= SpecLeft(order, l.node) + u
            && Rpcs(order, l, steps, FromAnnotation) + AnnotationLeft(order, r) <= AnnotationLeft(order, l.node) + u
    decreases |steps|
  {
    hide Next, Events, Freezes, Endless, SpecLeft, AnnotationLeft, Sent, Unfinished;
    if steps != [] {
      StepPays(order, l, steps[0]);
      RunPays(order, Next(order, l, steps[0]), steps[1..]);
    }
  }

  // Over every run, deletion included, that leaves version, extensions and upgrade annotation
  // alone, unless the two are endless: at most one spec-driven and two annotation-driven Upgrade
  // RPCs, none once nothing is left, and one more of either for every attempt that was cut off
  // between its phase write and its companion annotation, or whose RPC failed.
  lemma UpgradesAreBounded(order: Order, l: Life, steps: seq<Step>)
    requires FrozenRun(order, l, steps) && !Endless(order, l.node.spec.talosVersion, l.node.ann.upgrade)
    ensures var u := UnfinishedAttempts(order, l, steps);
            && Rpcs(order, l, steps, FromSpec) <= SpecLeft(order, l.node) + u
            && Rpcs(order, l, steps, FromAnnotation) <= AnnotationLeft(order, l.node) + u
            && SpecLeft(order, l.node) <= 1 && AnnotationLeft(order, l.node) <= 2
  {
    RunPays(order, l, steps);
    LeftIsBounded(order, l.node);
  }
}

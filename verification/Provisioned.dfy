// What a provisioning pass leaves behind, however its calls end, and how long it lasts.
module Provisioned {
  import opened Options
  import opened Conditions
  import opened Provision

  // How the pass ends: as the first of its calls that does not succeed, in the order of the code.
  // A cluster without endpoints and a bundle that cannot be had count as failed calls.
  function Trouble(w: World, o: Outcomes): Result
    requires w.cluster.Some?
  {
    var bundle := o.generator.Some? || (o.bundleRead && BundleSecret in w.store && w.store[BundleSecret].BundleContent?);
    Ends([o.start, Must(w.cluster.value.spec.endpoints != []), Must(bundle)]
         + ([Creation(o, 0), Must(o.generateConfigs)] + [Creation(o, 1), Creation(o, 2), Creation(o, 3), o.finish]), Done)
  }

  function Must(ok: bool): Result
  {
    if ok then Done else Failed
  }

  function Creation(o: Outcomes, i: nat): Result
  {
    if i < |o.creates| then o.creates[i] else Done
  }

  // The same without the last status write.
  predicate Stored(w: World, o: Outcomes)
    requires w.cluster.Some?
  {
    Trouble(w, o.(finish := Done)) == Done
  }

  // ----- The status a list of events leaves -----

  function LastStatus(s: ClusterStatus, es: seq<Event>): ClusterStatus
    decreases |es|
  {
    if es == [] then s else LastStatus(if es[0].StatusWritten? then es[0].status else s, es[1..])
  }

  lemma {:induction false} ClusterAfter(w: World, es: seq<Event>)
    requires w.cluster.Some? && w.cluster.value.finalizer && FinalizerRemoved !in es
    ensures After(w, es).cluster == Some(w.cluster.value.(status := LastStatus(w.cluster.value.status, es)))
    decreases |es|
  {
    if es != [] {
      assert es[0] in es && forall e :: e in es[1..] ==> e in es;
      ClusterAfter(Apply(w, es[0]), es[1..]);
    }
  }

  lemma {:induction false} SecretsKeepStatus(s: ClusterStatus, es: seq<Event>, tail: seq<Event>)
    requires forall e :: e in es ==> !e.StatusWritten?
    ensures LastStatus(s, es + tail) == LastStatus(s, tail)
    decreases |es|
  {
    if es == [] {
      assert es + tail == tail;
    } else {
      assert es[0] in es && (es + tail)[1..] == es[1..] + tail;
      SecretsKeepStatus(s, es[1..], tail);
    }
  }

  lemma OneStatus(s: ClusterStatus, t: ClusterStatus)
    ensures LastStatus(s, [StatusWritten(t)]) == t && LastStatus(s, []) == s
  {
    assert [StatusWritten(t)][1..] == [];
  }

  // A pass that writes a first status, creates secrets and perhaps writes a last status.
  lemma StartedThen(s: ClusterStatus, started: ClusterStatus, secrets: seq<Event>, last: Option<ClusterStatus>)
    requires forall e :: e in secrets ==> !e.StatusWritten?
    ensures var tail := if last.None? then [] else [StatusWritten(last.value)];
            LastStatus(s, [StatusWritten(started)] + (secrets + tail)) == if last.None? then started else last.value
  {
    var tail := if last.None? then [] else [StatusWritten(last.value)];
    assert ([StatusWritten(started)] + (secrets + tail))[1..] == secrets + tail;
    SecretsKeepStatus(started, secrets, tail);
    OneStatus(started, if last.None? then started else last.value);
  }

  // ----- One pass -----

  // The status after a pass of a cluster with status s and generation g whose calls end as r:
  // stored says that all secrets were.
  function Left(s: ClusterStatus, g: int, o: Outcomes, r: Result, stored: bool): ClusterStatus
  {
    var verdict := if stored then True else False;
    var conditions := s.conditions[SecretsGenerated := verdict][ConfigsGenerated := verdict];
    var retries := if stored then 0 else s.retryCount;
    if r == Done then ClusterStatus(Ready, g, conditions, 0)
    else if r == Failed && o.errorStatus then ClusterStatus(Errored, g, conditions, retries + 1)
    else if o.start == Done then ClusterStatus(Provisioning, g, s.conditions[SecretsGenerated := False][ConfigsGenerated := False], s.retryCount)
    else s
  }

  lemma CallsUpTo(w: World, o: Outcomes)
    requires w.cluster.Some?
    ensures var stop := FirstFailure(o.creates, 0);
            var bundle := LoadOrGenBundle(w.store, o);
            Trouble(w, o) ==
            if o.start != Done then o.start
            else if w.cluster.value.spec.endpoints == [] || bundle.None? then Failed
            else if stop == 0 then o.creates[0]
            else if !o.generateConfigs then Failed
            else if stop < 4 then o.creates[stop]
            else o.finish
  {
    var ends, loaded := Must(w.cluster.value.spec.endpoints != []), Must(LoadOrGenBundle(w.store, o).Some?);
    var a, b := [o.start, ends, loaded], [Creation(o, 0), Must(o.generateConfigs)];
    var c := [Creation(o, 1), Creation(o, 2), Creation(o, 3), o.finish];
    EndsAppend(a, b + c, Done);
    EndsAppend(b, c, Done);
    ShortRows(o.start, ends, loaded, Done, Done);
    ShortRows(Creation(o, 0), Must(o.generateConfigs), Done, Done, Done);
    ShortRows(Creation(o, 1), Creation(o, 2), Creation(o, 3), o.finish, Done);
    hide Ends;
  }

  // The events of an attempt: a first status, no status in between, and a last one on success.
  lemma AttemptShape(c: Cluster, store: Store, o: Outcomes)
    ensures var a := ProvisionPlan(c, store, o);
            var started, finished := StartedStatus(c), FinishedStatus(StartedStatus(c));
            && (a.events == [] <==> o.start != Done)
            && (a.events != [] ==> a.events[0] == StatusWritten(started))
            && (a.result == Done ==> |a.events| >= 2 && a.events[|a.events| - 1] == StatusWritten(finished) && a.status == finished)
            && (forall i :: 0 < i < (if a.result == Done then |a.events| - 1 else |a.events|) ==> !a.events[i].StatusWritten?)
  {
    hide FirstFailure, LoadOrGenBundle, StartedStatus, FinishedStatus;
  }

  lemma AttemptResult(w: World, o: Outcomes)
    requires w.cluster.Some?
    ensures var a := ProvisionPlan(w.cluster.value, w.store, o);
            && a.result == Trouble(w, o)
            && (a.result != Done ==> a.status == if Stored(w, o) then FinishedStatus(StartedStatus(w.cluster.value)) else StartedStatus(w.cluster.value))
            && (Stored(w, o) ==> o.start == Done) && (a.result == Done ==> Stored(w, o))
  {
    CallsUpTo(w, o);
    CallsUpTo(w, o.(finish := Done));
    assert LoadOrGenBundle(w.store, o.(finish := Done)) == LoadOrGenBundle(w.store, o);
    hide Trouble, LoadOrGenBundle, FirstFailure, StartedStatus, FinishedStatus, Wanted;
  }

  lemma AttemptLeaves(w: World, o: Outcomes)
    requires w.cluster.Some?
    ensures var c := w.cluster.value;
            LastStatus(c.status, ProvisionOrErrorPlan(c, w.store, o)) == Left(c.status, c.generation, o, Trouble(w, o), Stored(w, o))
  {
    var c := w.cluster.value;
    AttemptShape(c, w.store, o);
    AttemptResult(w, o);
    hide Trouble, Stored, ProvisionPlan, LastStatus;
    var attempt := ProvisionPlan(c, w.store, o);
    var r, started, finished := attempt.result, StartedStatus(c), FinishedStatus(StartedStatus(c));
    var last := if r == Done then Some(finished) else if r == Failed && o.errorStatus then Some(ErrorStatus(attempt.status)) else None;
    var tail := if last.None? then [] else [StatusWritten(last.value)];
    if attempt.events == [] {
      OneStatus(c.status, ErrorStatus(attempt.status));
      assert ProvisionOrErrorPlan(c, w.store, o) == tail;
    } else {
      var secrets := if r == Done then attempt.events[1..|attempt.events| - 1] else attempt.events[1..];
      assert ProvisionOrErrorPlan(c, w.store, o) == [StatusWritten(started)] + (secrets + tail);
      assert forall e :: e in secrets ==> !e.StatusWritten?;
      hide *;
      StartedThen(c.status, started, secrets, last);
    }
    StatusIsLeft(w, o, attempt.status);
  }

  // The status such an attempt ends with, spelled out.
  lemma StatusIsLeft(w: World, o: Outcomes, status: ClusterStatus)
    requires w.cluster.Some? && (Stored(w, o) ==> o.start == Done) && (Trouble(w, o) == Done ==> Stored(w, o))
    requires var started := StartedStatus(w.cluster.value);
             Trouble(w, o) != Done ==> status == if Stored(w, o) then FinishedStatus(started) else started
    ensures var c, r := w.cluster.value, Trouble(w, o);
            var started := StartedStatus(c);
            Left(c.status, c.generation, o, r, Stored(w, o)) ==
            if r == Done then FinishedStatus(started)
            else if r == Failed && o.errorStatus then ErrorStatus(status)
            else if o.start == Done then started
            else c.status
  {
    hide Trouble, Stored;
    var c := w.cluster.value.status.conditions;
    assert c[SecretsGenerated := False][ConfigsGenerated := False][SecretsGenerated := True][ConfigsGenerated := True] ==
           c[SecretsGenerated := True][ConfigsGenerated := True];
  }

  // However the calls of a pass over a live cluster that is not up to date end: Ready at its
  // generation with both conditions true, in error with one retry more, or still provisioning.
  lemma PassEndsIn(w: World, o: Outcomes, cut: nat)
    requires w.cluster.Some? && !w.cluster.value.deleting && (w.cluster.value.finalizer || o.addFinalizer)
    requires var s := w.cluster.value.status;
             s.phase != Ready || s.observedGeneration != w.cluster.value.generation || !Has(s.conditions, ConfigsGenerated, True)
    requires |Plan(w.cluster.value, w.store, o)| <= cut
    ensures var c := w.cluster.value;
            Next(w, Pass(o, cut)).cluster ==
            Some(c.(finalizer := true, status := Left(c.status, c.generation, o, Trouble(w, o), Stored(w, o))))
  {
    hide ProvisionOrErrorPlan, Trouble, Left;
    var c := w.cluster.value;
    var plan := Plan(c, w.store, o);
    var rest := ProvisionOrErrorPlan(c, w.store, o);
    var w1 := if c.finalizer then w else Apply(w, FinalizerAdded);
    assert plan[..|plan|] == plan;
    AfterCons(w, FinalizerAdded, rest);
    assert plan == if c.finalizer then rest else [FinalizerAdded] + rest;
    AttemptLeaves(w, o);
    AttemptKeepsFinalizer(c, w.store, o);
    ClusterAfter(w1, rest);
  }

  lemma AttemptKeepsFinalizer(c: Cluster, store: Store, o: Outcomes)
    ensures FinalizerRemoved !in ProvisionOrErrorPlan(c, store, o)
  {
    hide LoadOrGenBundle, FirstFailure;
  }

  // ----- Ready, and for how long -----

  predicate OnlyPasses(steps: seq<Step>)
  {
    forall s :: s in steps ==> s.Pass?
  }

  // A ready cluster at its generation is left alone, and one behind it is not.
  lemma ReadyIsQuietExactly(c: Cluster, store: Store)
    requires c.finalizer && !c.deleting && c.status.phase == Ready && Has(c.status.conditions, ConfigsGenerated, True)
    ensures (forall o :: Plan(c, store, o) == []) <==> c.status.observedGeneration == c.generation
    ensures c.status.observedGeneration != c.generation ==>
              forall o: Outcomes :: o.start == Done ==>
                            var plan := Plan(c, store, o);
                            plan != [] && plan[0].StatusWritten? && plan[0].status.phase == Provisioning
  {
    if c.status.observedGeneration == c.generation {
      forall o ensures Plan(c, store, o) == [] {}
    } else {
      var o := Outcomes(true, Done, true, None, true, [], Done, true, None, true, {}, true);
      assert Plan(c, store, o) != [];
    }
  }

  lemma {:induction false} QuietRun(w: World, steps: seq<Step>)
    requires w.cluster.Some? && OnlyPasses(steps)
    requires var c := w.cluster.value;
             && c.finalizer && !c.deleting && c.status.phase == Ready && c.status.observedGeneration == c.generation
             && Has(c.status.conditions, ConfigsGenerated, True)
    ensures Run(w, steps) == w
    decreases |steps|
  {
    if steps != [] {
      assert steps[0] in steps;
      assert Plan(w.cluster.value, w.store, steps[0].o) == [];
      QuietRun(w, steps[1..]);
    }
  }

  // A pass whose calls all succeed ends in a ready cluster at its generation, both conditions true
  // and no retries counted; all its secrets are stored, and no number of passes, however they go,
  // changes anything after that, until the spec is edited: then the next one provisions again.
  lemma ProvisioningSettles(w: World, o: Outcomes, cut: nat, steps: seq<Step>, spec: ClusterSpec, o': Outcomes)
    requires w.cluster.Some? && Undisturbed(w.cluster.value, o) && |Plan(w.cluster.value, w.store, o)| <= cut && OnlyPasses(steps)
    ensures var c, w' := w.cluster.value, Next(w, Pass(o, cut));
            && w'.cluster == Some(c.(status := ClusterStatus(Ready, c.generation,
                                                            c.status.conditions[SecretsGenerated := True][ConfigsGenerated := True], 0)))
            && (forall n: SecretName :: n in w'.store)
            && Run(w', steps) == w'
            && (o'.start == Done ==>
                  var plan := Plan(Next(w', Edit(spec)).cluster.value, w'.store, o');
                  plan != [] && plan[0].StatusWritten? && plan[0].status.phase == Provisioning)
  {
    hide Plan, Next, Undisturbed;
    var c, w' := w.cluster.value, Next(w, Pass(o, cut));
    UndisturbedEnds(w, o);
    assert c.finalizer && !c.deleting && !IsUpToDate(c) by { hide *; UndisturbedMeans(c, o); }
    PassEndsIn(w, o, cut);
    UndisturbedStore(w, o);
    WholePass(w, o, cut);
    AllFilled(w.store, LoadOrGenBundle(w.store, o).value, c.spec);
    assert w'.cluster.Some? && w'.cluster.value.finalizer;
    QuietRun(w', steps);
    EditedIsBehind(w', spec);
    ReadyIsQuietExactly(Next(w', Edit(spec)).cluster.value, w'.store);
  }

  lemma UndisturbedMeans(c: Cluster, o: Outcomes)
    requires Undisturbed(c, o)
    ensures c.finalizer && !c.deleting && !IsUpToDate(c)
  {
  }

  lemma UndisturbedEnds(w: World, o: Outcomes)
    requires w.cluster.Some? && Undisturbed(w.cluster.value, o)
    ensures Trouble(w, o) == Done && Stored(w, o) && LoadOrGenBundle(w.store, o).Some?
  {
    CallsUpTo(w, o);
    CallsUpTo(w, o.(finish := Done));
    hide Trouble;
    assert FirstFailure(o.creates, 0) == 4;
  }

  lemma WholePass(w: World, o: Outcomes, cut: nat)
    requires w.cluster.Some? && |Plan(w.cluster.value, w.store, o)| <= cut
    ensures Next(w, Pass(o, cut)) == After(w, Plan(w.cluster.value, w.store, o))
  {
    var plan := Plan(w.cluster.value, w.store, o);
    assert plan[..|plan|] == plan;
  }

  lemma AllFilled(store: Store, b: Bundle, spec: ClusterSpec)
    ensures forall n: SecretName ::
              n in Filled(Filled(Filled(Filled(store, BundleSecret, BundleContent(b)),
                                        ControlPlaneSecret, ConfigContent(ControlPlaneSecret, b, spec)),
                                 WorkerSecret, ConfigContent(WorkerSecret, b, spec)),
                          TalosconfigSecret, ConfigContent(TalosconfigSecret, b, spec))
  {
    forall n: SecretName
      ensures n in Filled(Filled(Filled(Filled(store, BundleSecret, BundleContent(b)),
                                        ControlPlaneSecret, ConfigContent(ControlPlaneSecret, b, spec)),
                                 WorkerSecret, ConfigContent(WorkerSecret, b, spec)),
                          TalosconfigSecret, ConfigContent(TalosconfigSecret, b, spec))
    {
      FourSecrets(n);
    }
  }

  lemma EditedIsBehind(w: World, spec: ClusterSpec)
    requires w.cluster.Some?
    ensures var c := w.cluster.value;
            Next(w, Edit(spec)).cluster == Some(c.(spec := spec, generation := c.generation + 1))
  {
  }

  // ----- Ready is never shown too early -----

  predicate ShowsDone(s: ClusterStatus)
  {
    s.phase == Ready || Has(s.conditions, SecretsGenerated, True) || Has(s.conditions, ConfigsGenerated, True)
  }

  // A live cluster that shows itself done has all four secrets stored.
  predicate Honest(w: World)
  {
    w.cluster.Some? && !w.cluster.value.deleting && ShowsDone(w.cluster.value.status) ==> forall n: SecretName :: n in w.store
  }

  predicate AllFour(have: set<SecretName>)
  {
    forall n: SecretName :: n in have
  }

  // Nothing is shown done before all four secrets were created; have are those that are there.
  predicate Careful(es: seq<Event>, have: set<SecretName>)
    decreases |es|
  {
    es == [] || (MayCome(es[0], have) && Careful(es[1..], if es[0].CreatedIfAbsent? then have + {es[0].name} else have))
  }

  predicate MayCome(e: Event, have: set<SecretName>)
  {
    || e.FinalizerAdded? || e.CreatedIfAbsent? || (e.StatusWritten? && (ShowsDone(e.status) ==> AllFour(have)))
  }

  lemma {:induction false} CarefulIsHonest(w: World, es: seq<Event>, have: set<SecretName>, cut: nat)
    requires Honest(w) && w.cluster.Some? && Careful(es, have) && have <= w.store.Keys && cut <= |es|
    ensures Honest(After(w, es[..cut]))
    decreases |es|
  {
    if cut > 0 {
      hide ShowsDone;
      assert es[..cut][1..] == es[1..][..cut - 1];
      CarefulIsHonest(Apply(w, es[0]), es[1..], if es[0].CreatedIfAbsent? then have + {es[0].name} else have, cut - 1);
    }
  }

  lemma CarefulCons(e: Event, rest: seq<Event>, have: set<SecretName>)
    requires MayCome(e, have) && Careful(rest, if e.CreatedIfAbsent? then have + {e.name} else have)
    ensures Careful([e] + rest, have)
  {
    assert ([e] + rest)[1..] == rest;
  }

  // Some of the wanted secrets, or all, and a last status that shows itself done only after all.
  lemma SecretsAreCareful(b: Bundle, spec: ClusterSpec, stop: nat, last: Option<ClusterStatus>, have: set<SecretName>)
    requires stop <= 4 && (last.Some? && ShowsDone(last.value) ==> stop == 4)
    ensures Careful(Wanted(b, spec)[..stop] + (if last.None? then [] else [StatusWritten(last.value)]), have)
  {
    var w, tail := Wanted(b, spec), if last.None? then [] else [StatusWritten(last.value)];
    var h1 := have + {BundleSecret};
    var h2 := h1 + {ControlPlaneSecret};
    var h3 := h2 + {WorkerSecret};
    var h4 := h3 + {TalosconfigSecret};
    var h := match stop case 0 => have case 1 => h1 case 2 => h2 case 3 => h3 case _ => h4;
    TailIsCareful(last, stop, h);
    hide Careful;
    var es4 := if stop == 4 then [w[3]] + tail else tail;
    var es3 := if stop >= 3 then [w[2]] + es4 else tail;
    var es2 := if stop >= 2 then [w[1]] + es3 else tail;
    var es1 := if stop >= 1 then [w[0]] + es2 else tail;
    if stop == 4 { CarefulCons(w[3], tail, h3); }
    if stop >= 3 { CarefulCons(w[2], es4, h2); }
    if stop >= 2 { CarefulCons(w[1], es3, h1); }
    if stop >= 1 { CarefulCons(w[0], es2, have); }
    assert w[..stop] + tail == es1;
  }

  lemma TailIsCareful(last: Option<ClusterStatus>, stop: nat, h: set<SecretName>)
    requires last.Some? && ShowsDone(last.value) ==> stop == 4
    requires stop == 4 ==> BundleSecret in h && ControlPlaneSecret in h && WorkerSecret in h && TalosconfigSecret in h
    ensures Careful(if last.None? then [] else [StatusWritten(last.value)], h)
  {
    if last.Some? {
      assert [StatusWritten(last.value)][1..] == [];
      if stop == 4 {
        forall n: SecretName ensures n in h {
          assert n.BundleSecret? || n.ControlPlaneSecret? || n.WorkerSecret? || n.TalosconfigSecret?;
        }
      }
    }
  }

  lemma AttemptIsCareful(c: Cluster, store: Store, o: Outcomes, have: set<SecretName>)
    ensures Careful(ProvisionOrErrorPlan(c, store, o), have)
  {
    var loaded := LoadOrGenBundle(store, o);
    var b := if loaded.Some? then loaded.value else Bundle(0);
    var begun, stop, last := AttemptParts(c, store, o, b);
    SecretsAreCareful(b, c.spec, stop, last, have);
    var rest := Wanted(b, c.spec)[..stop] + (if last.None? then [] else [StatusWritten(last.value)]);
    var started := StartedStatus(c);
    assert !ShowsDone(started);
    CarefulCons(StatusWritten(started), rest, have);
    assert [] + rest == rest;
  }

  lemma AttemptParts(c: Cluster, store: Store, o: Outcomes, b: Bundle) returns (begun: bool, stop: nat, last: Option<ClusterStatus>)
    requires LoadOrGenBundle(store, o) == Some(b) || LoadOrGenBundle(store, o).None?
    ensures stop <= 4 && (last.Some? && ShowsDone(last.value) ==> stop == 4)
    ensures ProvisionOrErrorPlan(c, store, o) ==
            (if begun then [StatusWritten(StartedStatus(c))] else []) +
            (Wanted(b, c.spec)[..stop] + (if last.None? then [] else [StatusWritten(last.value)]))
  {
    var attempt := ProvisionPlan(c, store, o);
    NotDoneYet(c);
    hide FirstFailure, LoadOrGenBundle, StartedStatus, FinishedStatus, ErrorStatus, ShowsDone;
    begun := attempt.events != [];
    stop := if !begun then 0 else if attempt.result == Done then 4 else |attempt.events| - 1;
    last := if attempt.result == Failed && o.errorStatus then Some(ErrorStatus(attempt.status))
            else if attempt.result == Done then Some(FinishedStatus(StartedStatus(c))) else None;
  }

  lemma NotDoneYet(c: Cluster)
    ensures !ShowsDone(ErrorStatus(StartedStatus(c)))
  {
  }

  lemma StepIsHonest(w: World, step: Step)
    requires Honest(w)
    ensures Honest(Next(w, step))
  {
    if step.Pass? && w.cluster.Some? {
      hide ProvisionOrErrorPlan, DeletionPlan, ShowsDone;
      var c := w.cluster.value;
      var plan := Plan(c, w.store, step.o);
      var n := if step.cut <= |plan| then step.cut else |plan|;
      if c.deleting {
        DeletingStays(w, plan[..n]);
      } else {
        AttemptIsCareful(c, w.store, step.o, {});
        Prefixed(ProvisionOrErrorPlan(c, w.store, step.o));
        assert Careful(plan, {});
        CarefulIsHonest(w, plan, {}, n);
      }
      assert plan[..|plan|] == plan;
    }
  }

  lemma Prefixed(es: seq<Event>)
    requires Careful(es, {})
    ensures Careful([FinalizerAdded] + es, {}) && Careful([FinalizerAdded] + [], {}) && Careful([] + es, {}) && Careful([] + [], {})
  {
    CarefulCons(FinalizerAdded, es, {});
    CarefulCons(FinalizerAdded, [], {});
    assert [] + es == es;
  }

  lemma {:induction false} DeletingStays(w: World, es: seq<Event>)
    requires w.cluster.Some? ==> w.cluster.value.deleting
    ensures var w' := After(w, es); w'.cluster.Some? ==> w'.cluster.value.deleting
    decreases |es|
  {
    if es != [] { DeletingStays(Apply(w, es[0]), es[1..]); }
  }

  // In every run, wherever its passes are cut off and whatever is read or fails: a live cluster
  // that is Ready, or has either condition true, has all four secrets stored.
  lemma {:induction false} ReadyMeansStored(w: World, steps: seq<Step>)
    requires Honest(w)
    ensures var w' := Run(w, steps);
            w'.cluster.Some? && !w'.cluster.value.deleting ==>
              var s := w'.cluster.value.status;
              s.phase == Ready || Has(s.conditions, SecretsGenerated, True) || Has(s.conditions, ConfigsGenerated, True) ==>
                forall n: SecretName :: n in w'.store
    decreases |steps|
  {
    hide Next;
    if steps != [] {
      StepIsHonest(w, steps[0]);
      ReadyMeansStored(Next(w, steps[0]), steps[1..]);
    }
  }
}

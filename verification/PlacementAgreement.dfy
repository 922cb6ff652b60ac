/** Exactly when routes and reservations stay in agreement.  Every step has a guard on the store as
    it is when the step happens; a run keeps the agreement all along if and only if each of its
    steps meets its guard.  The discipline of module PlacementDiscipline is one way to meet them. */
module PlacementAgreement {
  import opened Store
  import opened Placement
  import opened PlacementDiscipline

  /** Deleting this reservation does not take it from the pod the stream is routed to. */
  predicate Spares(st: State, p: Pod, s: StreamId) {
    s in st.routes ==> st.routes[s] != p
  }

  /** The guard of an attempt's act. */
  ghost predicate HarmlessAct(cfg: Config, st: State, o: Owner, act: Act)
    requires o in st.attempts && CanAct(st, act, st.attempts[o].phase)
  {
    var a := st.attempts[o];
    if act.Reserve? then
      TryReserve(st.spec, a.phase.candidates[act.choice], a.stream, cfg.threshold).0 == Granted ==>
        !ReservedSomewhere(st.spec, a.stream)
    else if act.Commit? then Reserved(st.spec, a.phase.pod, a.stream)
    else Deletes(act) ==> Spares(st, Target(st, o, act), a.stream)
  }

  ghost predicate Harmless(cfg: Config, st: State, step: Step)
    requires Enabled(st, step)
  {
    match step
    case By(o, act) => HarmlessAct(cfg, st, o, act)
    case DropEntry(p, s) => Spares(st, p, s)
    case _ => true
  }

  // ---------------------------------------------------------------- one step

  lemma ReserveAgreesIff(cfg: Config, st: State, p: Pod, s: StreamId)
    requires RoutesReserved(st.spec, st.routes)
    ensures var (r, spec') := TryReserve(st.spec, p, s, cfg.threshold);
            RoutesReserved(spec', st.routes) <==> (r == Granted ==> !ReservedSomewhere(st.spec, s))
  {
    var (r, spec') := TryReserve(st.spec, p, s, cfg.threshold);
    forall q, t ensures Reserved(spec', q, t) <==> Reserved(st.spec, q, t) || (r == Granted && q == p && t == s) {
      ReserveAddsOneEntry(st.spec, p, s, cfg.threshold, q, t);
    }
    if r == Granted && ReservedSomewhere(st.spec, s) {
      var q :| Reserved(st.spec, q, s);
      assert Reserved(spec', q, s) && Reserved(spec', p, s) && q != p;
    }
  }

  lemma DeleteAgreesIff(st: State, p: Pod, s: StreamId)
    requires RoutesReserved(st.spec, st.routes)
    ensures RoutesReserved(DeleteEntry(st.spec, p, s), st.routes) <==> Spares(st, p, s)
  {
    forall q, t ensures Reserved(DeleteEntry(st.spec, p, s), q, t) <==> Reserved(st.spec, q, t) && !(q == p && t == s) {
      DeleteRemovesOneEntry(st.spec, p, s, q, t);
    }
  }

  lemma CommitAgreesIff(spec: WorkloadSpec, routes: Routes, p: Pod, s: StreamId)
    requires RoutesReserved(spec, routes)
    ensures RoutesReserved(spec, routes[s := p]) <==> Reserved(spec, p, s)
  {
    assert s in routes[s := p] && routes[s := p][s] == p;
  }

  lemma ActAgreesIff(cfg: Config, st: State, o: Owner, act: Act)
    requires o in st.attempts && CanAct(st, act, st.attempts[o].phase) && RoutesReserved(st.spec, st.routes)
    ensures var st' := ApplyAct(cfg, st, o, act);
            RoutesReserved(st'.spec, st'.routes) <==> HarmlessAct(cfg, st, o, act)
  {
    var a := st.attempts[o];
    if act.Reserve? {
      ReserveAgreesIff(cfg, st, a.phase.candidates[act.choice], a.stream);
    } else if act.Commit? {
      CommitAgreesIff(st.spec, st.routes, a.phase.pod, a.stream);
    } else if Deletes(act) {
      DeleteHasShape(cfg, st, o, act);
      DeleteAgreesIff(st, Target(st, o, act), a.stream);
    } else {
      QuietActPhases(cfg, st, o, act);
    }
  }

  lemma DeprovisionAgrees(cfg: Config, st: State, s: StreamId)
    requires RoutesReserved(st.spec, st.routes) && s in st.routes
    ensures var st' := Apply(cfg, st, Deprovision(s)); RoutesReserved(st'.spec, st'.routes)
  {
    forall q, t ensures Reserved(DeleteEntry(st.spec, st.routes[s], s), q, t) <==>
                          Reserved(st.spec, q, t) && !(q == st.routes[s] && t == s)
    {
      DeleteRemovesOneEntry(st.spec, st.routes[s], s, q, t);
    }
  }

  /** From agreement, a step leaves agreement if and only if it meets its guard. */
  lemma StepAgreesIff(cfg: Config, st: State, step: Step)
    requires Enabled(st, step) && RoutesReserved(st.spec, st.routes)
    ensures var st' := Apply(cfg, st, step); RoutesReserved(st'.spec, st'.routes) <==> Harmless(cfg, st, step)
  {
    match step
    case By(o, act) => ActAgreesIff(cfg, st, o, act);
    case Deprovision(s) => DeprovisionAgrees(cfg, st, s);
    case DropEntry(p, s) => DeleteAgreesIff(st, p, s);
    case _ =>
  }

  // ---------------------------------------------------------------- whole runs

  ghost predicate HarmlessRun(cfg: Config, st: State, steps: seq<Step>)
    requires Valid(cfg, st, steps)
    decreases steps
  {
    steps == [] || (Harmless(cfg, st, steps[0]) && HarmlessRun(cfg, Apply(cfg, st, steps[0]), steps[1..]))
  }

  /** Routes and reservations agree now and after every step. */
  ghost predicate AgreesThroughout(cfg: Config, st: State, steps: seq<Step>)
    requires Valid(cfg, st, steps)
    decreases steps
  {
    && RoutesReserved(st.spec, st.routes)
    && (steps == [] || AgreesThroughout(cfg, Apply(cfg, st, steps[0]), steps[1..]))
  }

  /** The exact condition, for every interleaving of any number of replicas: each routed stream
      stays reserved on its pod and on no other, all along the run, if and only if every step meets
      its guard. */
  lemma {:induction false} AgreesIffHarmless(cfg: Config, st: State, steps: seq<Step>)
    requires Valid(cfg, st, steps) && RoutesReserved(st.spec, st.routes)
    ensures AgreesThroughout(cfg, st, steps) <==> HarmlessRun(cfg, st, steps)
    decreases steps
  {
    if steps != [] {
      var st' := Apply(cfg, st, steps[0]);
      StepAgreesIff(cfg, st, steps[0]);
      if RoutesReserved(st'.spec, st'.routes) {
        AgreesIffHarmless(cfg, st', steps[1..]);
      } else {
        assert !AgreesThroughout(cfg, st', steps[1..]);
      }
    }
  }

  lemma {:induction false} ThroughoutMeansEnd(cfg: Config, st: State, steps: seq<Step>)
    requires Valid(cfg, st, steps) && AgreesThroughout(cfg, st, steps)
    ensures RoutesReserved(Run(cfg, st, steps).spec, Run(cfg, st, steps).routes)
    decreases steps
  {
    if steps != [] {
      ThroughoutMeansEnd(cfg, Apply(cfg, st, steps[0]), steps[1..]);
    }
  }

  /** In a harmless run each routed stream ends reserved exactly on the pod it is routed to. */
  lemma HarmlessRoutedExactlyOnce(cfg: Config, steps: seq<Step>, s: StreamId, p: Pod)
    requires Valid(cfg, INIT, steps) && HarmlessRun(cfg, INIT, steps)
    ensures var st := Run(cfg, INIT, steps);
            && (s in st.routes ==> (Reserved(st.spec, p, s) <==> p == st.routes[s]))
            && (forall q :: Reserved(st.spec, p, s) && Reserved(st.spec, q, s) ==> p == q)
  {
    AgreesIffHarmless(cfg, INIT, steps);
    ThroughoutMeansEnd(cfg, INIT, steps);
  }

  /** The discipline is enough: it meets every guard. */
  lemma {:induction false} DisciplinedIsHarmless(cfg: Config, st: State, steps: seq<Step>)
    requires DisciplineInv(st) && Valid(cfg, st, steps) && DisciplinedRun(cfg, st, steps)
    ensures HarmlessRun(cfg, st, steps)
    decreases steps
  {
    if steps != [] {
      StepKeepsDiscipline(cfg, st, steps[0]);
      StepAgreesIff(cfg, st, steps[0]);
      DisciplinedIsHarmless(cfg, Apply(cfg, st, steps[0]), steps[1..]);
    }
  }

  // ---------------------------------------------------------------- the deletes that come late

  /** The abort's cleanup and the rollback after an early release spare a replacement exactly when
      the stream is not routed to the pod of the attempt that deletes, whoever holds the lease. */
  lemma LateDeleteSparesIff(cfg: Config, st: State, o: Owner, act: Act)
    requires o in st.attempts && CanAct(st, act, st.attempts[o].phase) && RoutesReserved(st.spec, st.routes)
    requires act == CleanDelete || act == LateRollback
    ensures var (st', a) := (ApplyAct(cfg, st, o, act), st.attempts[o]);
            && (RoutesReserved(st'.spec, st'.routes) <==> a.stream !in st.routes || st.routes[a.stream] != a.phase.pod)
            && (forall q, t :: Reserved(st.spec, q, t) && !Reserved(st'.spec, q, t) ==>
                  t == a.stream && q == a.phase.pod)
  {
    ActAgreesIff(cfg, st, o, act);
    var a := st.attempts[o];
    forall q, t ensures Reserved(DeleteEntry(st.spec, a.phase.pod, a.stream), q, t) <==>
                          Reserved(st.spec, q, t) && !(q == a.phase.pod && t == a.stream)
    {
      DeleteRemovesOneEntry(st.spec, a.phase.pod, a.stream, q, t);
    }
  }
}

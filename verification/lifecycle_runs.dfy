/** Whole runs of the base loop: users applying, touching and deleting the object, resources
    vanishing from the cloud and appearing in it, and passes whose calls fail, lose their
    answers, or die before the status is stored. */
module LifecycleRuns {
  import opened Prelude
  import opened Lifecycle

  datatype Event =
    | Applied
    | Touched
    | Removed
    | Vanished(id: nat)
    | Appeared(res: Res)
    | Passed(sc: Script)

  ghost function Step(w: World, e: Event): World {
    match e
    case Applied => if w.obj.None? then w.(obj := Some(Obj(false, false, 1, 0, 0))) else w
    case Touched => w.(obj := Meddled(w.obj, Touch))
    case Removed => w.(obj := Meddled(w.obj, MarkDeleted))
    case Vanished(id) => w.(rows := w.rows - {id})
    case Appeared(res) =>
      if Uses(w.rows, res.name) then w
      else w.(rows := w.rows[w.nextID := res], nextID := w.nextID + 1)
    case Passed(sc) => Pass(w, sc).w
  }

  ghost function Run(w: World, es: seq<Event>): World
    decreases |es|
  {
    if |es| == 0 then w else Run(Step(w, es[0]), es[1..])
  }

  /** Nobody creates the object's resource behind a pass's back, unless the cloud refuses the
      second one. */
  predicate Honest(strict: bool, e: Event) { e.Passed? && e.sc.intrude ==> strict }

  ghost predicate HonestRun(strict: bool, es: seq<Event>) { forall e :: e in es ==> Honest(strict, e) }

  ghost predicate AtMostOne(rows: map<nat, Res>, name: string) {
    forall i, j :: i in rows && j in rows && rows[i].name == name && rows[j].name == name ==> i == j
  }

  ghost predicate SameSetting(w: World, w': World) {
    w'.kind == w.kind && w'.name == w.name && w'.strict == w.strict
  }

  // ---------- no duplicates ----------

  lemma CreateKeepsValid(w: World, sc: Script)
    requires Valid(w) && (sc.intrude ==> w.strict) && !Uses(w.rows, w.name)
    ensures var c := Create(if sc.intrude then Intruded(w) else w, sc.target, sc.create);
            && Valid(c.w) && SameSetting(w, c.w) && c.w.obj == w.obj
            && (c.reply.Got? ==> c.reply.value in c.w.rows && c.w.rows[c.reply.value].name == w.name)
  {
  }

  lemma LookupKeepsValid(w: World, o: Obj, sc: Script)
    requires Valid(w) && w.obj.Some? && o.id == w.obj.value.id && (sc.intrude ==> w.strict)
    ensures var f := LookupOrCreate(w, o, sc);
            && Valid(f.w) && SameSetting(w, f.w) && f.w.obj == w.obj
            && (f.reply.Got? ==> f.w.rows[f.reply.value].name == w.name)
  {
    if !Uses(w.rows, w.name) { CreateKeepsValid(w, sc); }
  }

  lemma ConvergeKeepsValid(w: World, o: Obj, id: nat, created: bool, sc: Script)
    requires Valid(w) && w.obj.Some? && o.id == w.obj.value.id && w.obj.value.finalizer
    requires id in w.rows && w.rows[id].name == w.name
    ensures Valid(Converge(w, o, id, created, sc).w)
  {
    var w' := Converge(w, o, id, created, sc).w;
    assert forall i :: i in w'.rows ==> i in w.rows && w'.rows[i].name == w.rows[i].name;
  }

  lemma ReconcileKeepsValid(w: World, sc: Script)
    requires Valid(w) && w.obj.Some? && w.obj.value.finalizer && (sc.intrude ==> w.strict)
    ensures var w' := ReconcilePass(w, w.obj.value, sc).w; Valid(w') && SameSetting(w, w')
  {
    var o := w.obj.value;
    var u := w.(obj := Meddled(w.obj, sc.early));
    if sc.refs.Ready? {
      LookupKeepsValid(u, o, sc);
      var f := LookupOrCreate(u, o, sc);
      if f.reply.Got? { ConvergeKeepsValid(f.w, o, f.reply.value, f.created, sc); }
    }
  }

  lemma CleanedFacts(w: World, o: Obj, sc: Script)
    ensures var c := Cleaned(w, o, sc);
            && SameSetting(w, c.w) && c.w.obj == w.obj && c.w.nextID == w.nextID
            && c.w.rows.Keys <= w.rows.Keys
            && (forall i :: i in c.w.rows ==> c.w.rows[i].name == w.rows[i].name)
            && (forall i :: i in w.rows && i != o.id ==> i in c.w.rows && c.w.rows[i] == w.rows[i])
            && (c.reply.Got? && o.id != 0 ==> o.id !in c.w.rows)
  {
  }

  lemma DeleteKeepsValid(w: World, sc: Script)
    requires Valid(w) && w.obj.Some? && w.obj.value.deleting
    ensures var w' := DeletePass(w, w.obj.value, sc).w; Valid(w') && SameSetting(w, w')
  {
    CleanedFacts(w, w.obj.value, sc);
  }

  lemma StepKeepsValid(w: World, e: Event)
    requires Valid(w) && Honest(w.strict, e)
    ensures Valid(Step(w, e)) && SameSetting(w, Step(w, e))
  {
    if e.Passed? && w.obj.Some? && e.sc.read.Works? {
      var o := w.obj.value;
      if o.deleting { DeleteKeepsValid(w, e.sc); }
      else if o.finalizer { ReconcileKeepsValid(w, e.sc); }
    }
  }

  /** No duplicates, ever: over every run, whatever fails and wherever a pass dies, at most one
      cloud resource carries the object's name, and a recorded ID that is live names it.  With
      `strict` off the cloud would accept duplicates, so it is the lookup that prevents them. */
  lemma {:induction false} NoDuplicates(w: World, es: seq<Event>)
    requires Valid(w) && HonestRun(w.strict, es)
    ensures var w' := Run(w, es);
            && Valid(w') && SameSetting(w, w')
            && AtMostOne(w'.rows, w.name)
            && (w'.obj.Some? && w'.obj.value.id in w'.rows ==> w'.rows[w'.obj.value.id].name == w.name)
    decreases |es|
  {
    if |es| > 0 {
      assert Honest(w.strict, es[0]);
      StepKeepsValid(w, es[0]);
      NoDuplicates(Step(w, es[0]), es[1..]);
    }
  }

  /** The pass gets to its create call. */
  ghost predicate ReachesCreate(w: World, sc: Script) {
    && w.obj.Some? && sc.read.Works? && sc.refs.Ready?
    && var o := w.obj.value;
    && o.finalizer && !o.deleting
    && (o.id != 0 ==> sc.byID.Works? && o.id !in w.rows)
    && sc.byName.Works? && !Uses(w.rows, w.name)
  }

  /** The cloud's "already exists" answer is seen exactly when someone else created the
      resource between the lookup and the create; the reconciler alone never provokes it. */
  lemma AlreadyExistsIff(w: World, sc: Script)
    requires Valid(w)
    ensures Pass(w, sc).end == Errored(AlreadyExists)
            <==> ReachesCreate(w, sc) && w.strict && sc.intrude && !sc.create.Refused?
  {
    if w.obj.Some? && sc.read.Works? && w.obj.value.finalizer && !w.obj.value.deleting && sc.refs.Ready? {
      var u := w.(obj := Meddled(w.obj, sc.early));
      if !Uses(w.rows, w.name) {
        var v := Intruded(u);
        assert v.rows[u.nextID].name == w.name;
        assert Uses(v.rows, w.name);
      }
    }
  }

  /** Without the lookup's help a permissive cloud does end up with two: the one case left. */
  lemma IntrusionDuplicates(w: World, sc: Script)
    requires Valid(w) && ReachesCreate(w, sc) && !w.strict && sc.intrude && !sc.create.Refused?
    ensures !UniqueNames(Pass(w, sc).w.rows)
  {
    var u := w.(obj := Meddled(w.obj, sc.early));
    var v := Intruded(u);
    var x := Create(v, sc.target, sc.create).w;
    assert x.rows[u.nextID].name == w.name && x.rows[v.nextID].name == w.name;
    var y := Pass(w, sc).w;
    assert u.nextID in y.rows && v.nextID in y.rows;
    assert y.rows[u.nextID].name == y.rows[v.nextID].name;
  }

  // ---------- the finalizer protocol ----------

  ghost predicate Guarded(trail: seq<Mark>) {
    forall k :: 0 <= k < |trail| && trail[k].Created? ==> trail[k].stored.Some? && trail[k].stored.value.finalizer
  }

  lemma LookupFacts(w: World, o: Obj, sc: Script)
    ensures var f := LookupOrCreate(w, o, sc);
            && f.w.obj == w.obj
            && (f.w.trail == w.trail || (exists id :: f.w.trail == w.trail + [Created(id, w.obj)]))
  {
  }

  lemma ReconcileFacts(w: World, sc: Script)
    requires w.obj.Some? && w.obj.value.finalizer
    ensures var w' := ReconcilePass(w, w.obj.value, sc).w;
            && w'.obj.Some? && w'.obj.value.finalizer
            && (Guarded(w.trail) ==> Guarded(w'.trail))
  {
    var u := w.(obj := Meddled(w.obj, sc.early));
    LookupFacts(u, w.obj.value, sc);
  }

  lemma StepKeepsGuarded(w: World, e: Event)
    requires Guarded(w.trail)
    ensures Guarded(Step(w, e).trail)
  {
    if e.Passed? && w.obj.Some? && e.sc.read.Works? {
      var o := w.obj.value;
      if !o.deleting && o.finalizer { ReconcileFacts(w, e.sc); }
    }
  }

  /** No resource is ever created while the stored object lacks the finalizer. */
  lemma {:induction false} CreatedBehindFinalizer(w: World, es: seq<Event>)
    requires Guarded(w.trail)
    ensures Guarded(Run(w, es).trail)
    decreases |es|
  {
    if |es| > 0 {
      StepKeepsGuarded(w, es[0]);
      CreatedBehindFinalizer(Step(w, es[0]), es[1..]);
    }
  }

  /** A pass that lets the object go has deleted the resource of its recorded ID and touched no
      other, and a resource of the object's name survives exactly if there was one under
      another ID: the recorded ID was zero or no longer in the cloud. */
  lemma VanishingCleansUp(w: World, sc: Script)
    requires Valid(w) && w.obj.Some? && w.obj.value.finalizer
    requires var w' := Pass(w, sc).w; w'.obj.None? || !w'.obj.value.finalizer
    ensures var o, w' := w.obj.value, Pass(w, sc).w;
            && o.deleting && w'.obj.None?
            && (o.id != 0 ==> o.id !in w'.rows)
            && w'.rows == w.rows - {o.id}
            && (Uses(w'.rows, w.name) <==> Uses(w.rows, w.name) && o.id !in w.rows)
  {
    var o, w' := w.obj.value, Pass(w, sc).w;
    if o.deleting {
      CleanedFacts(w, o, sc);
      assert w'.rows == w.rows - {o.id};
      if Uses(w.rows, w.name) {
        var i :| i in w.rows && w.rows[i].name == w.name;
        if o.id !in w.rows { assert i in w'.rows && w'.rows[i].name == w.name; }
      }
    } else {
      ReconcileFacts(w, sc);
    }
  }

  // ---------- deletion that can be retried ----------

  /** A deletion can still finish: nothing is recorded, or the kind deletes directly, or the
      resource is still there, or it is a volume with no recorded attachment. */
  predicate CanFinish(kind: Kind, o: Obj, rows: map<nat, Res>) {
    || o.id == 0 || kind.cleanup.Direct? || o.id in rows
    || (kind.cleanup.DetachFirst? && o.attached == 0)
  }

  predicate CleanDelete(sc: Script) {
    sc.read.Works? && sc.look.Works? && sc.detach.Works? && sc.delete.Works? && sc.update.Works? && sc.late.Leave?
  }

  /** A delete pass in which nothing fails lets the object go exactly when `CanFinish`. */
  lemma DeletePassFinishesIff(w: World, sc: Script)
    requires Valid(w) && w.obj.Some? && w.obj.value.deleting && CleanDelete(sc)
    ensures Pass(w, sc).w.obj.None? <==> CanFinish(w.kind, w.obj.value, w.rows)
  {
    CleanedFacts(w, w.obj.value, sc);
  }

  ghost predicate Stranded(w: World) {
    Valid(w) && w.obj.Some? && w.obj.value.deleting && !CanFinish(w.kind, w.obj.value, w.rows)
  }

  lemma StrandedStays(w: World, e: Event)
    requires Stranded(w) && Honest(w.strict, e)
    ensures Stranded(Step(w, e))
  {
    StepKeepsValid(w, e);
  }

  /** Otherwise no run ever finishes it: IDs are not reused, so the resource the cleanup asks
      for does not come back. */
  lemma {:induction false} StrandedForever(w: World, es: seq<Event>)
    requires Stranded(w) && HonestRun(w.strict, es)
    ensures Stranded(Run(w, es))
    decreases |es|
  {
    if |es| > 0 {
      assert Honest(w.strict, es[0]);
      StrandedStays(w, es[0]);
      StrandedForever(Step(w, es[0]), es[1..]);
    }
  }

  /** A pass that deleted the resource and died before the finalizer was removed can be retried
      for the kinds that delete directly, and for a volume whose status shows no attachment;
      an IP, and a volume recorded as attached, are stranded. */
  lemma CrashAfterDeleteIff(w: World, sc: Script)
    requires Valid(w) && w.obj.Some? && w.obj.value.deleting
    requires w.obj.value.id in w.rows
    requires var w' := Pass(w, sc).w; w'.obj.Some? && w.obj.value.id !in w'.rows
    ensures var w' := Pass(w, sc).w;
            && Valid(w') && w'.obj.value.deleting
            && (CanFinish(w'.kind, w'.obj.value, w'.rows) <==>
                  w.kind.cleanup.Direct? || (w.kind.cleanup.DetachFirst? && w.obj.value.attached == 0))
            && (Stranded(w') <==>
                  w.kind.cleanup.UnassignFirst? || (w.kind.cleanup.DetachFirst? && w.obj.value.attached != 0))
  {
    DeleteKeepsValid(w, sc);
    CleanedFacts(w, w.obj.value, sc);
  }

  // ---------- orphans ----------

  /** A resource of the object's name is the recorded one of a guarded object. */
  ghost predicate Recorded(w: World) {
    Uses(w.rows, w.name) ==> w.obj.Some? && w.obj.value.finalizer && w.obj.value.id in w.rows
  }

  /** A created resource gets recorded: the answer to the create arrives, the rest of the pass
      succeeds or the kind records early, and the status write lands. */
  predicate RecordsCreation(kind: Kind, sc: Script) {
    !sc.create.Lost? && (sc.converged || kind.recordsCreated) && sc.landed
  }

  /** The event leaves no creation unrecorded: a pass that creates records it, and nobody else
      creates a resource of the object's name. */
  ghost predicate Faithful(w: World, e: Event) {
    && (e.Passed? ==> !e.sc.intrude)
    && (e.Passed? && Creates(w, e.sc) ==> RecordsCreation(w.kind, e.sc))
    && (e.Appeared? ==> e.res.name != w.name)
  }

  /** The pass gets to its create call and the call takes effect. */
  ghost predicate Creates(w: World, sc: Script) { ReachesCreate(w, sc) && !sc.create.Refused? }

  ghost predicate FaithfulRun(w: World, es: seq<Event>)
    decreases |es|
  {
    |es| == 0 || (Faithful(w, es[0]) && FaithfulRun(Step(w, es[0]), es[1..]))
  }

  lemma ReconcileKeepsRecorded(w: World, sc: Script)
    requires Valid(w) && Recorded(w) && w.obj.Some? && w.obj.value.finalizer
    requires !w.obj.value.deleting && sc.read.Works?
    requires !sc.intrude && (Creates(w, sc) ==> RecordsCreation(w.kind, sc))
    ensures Recorded(ReconcilePass(w, w.obj.value, sc).w)
  {
    var o := w.obj.value;
    var u := w.(obj := Meddled(w.obj, sc.early));
    if sc.refs.Ready? {
      LookupKeepsValid(u, o, sc);
      var f := LookupOrCreate(u, o, sc);
      if Uses(w.rows, w.name) {
        assert o.id in w.rows;
      } else if f.reply.Failed? {
        assert f.w.rows == w.rows;
      }
    }
  }

  lemma DeleteKeepsRecorded(w: World, sc: Script)
    requires Valid(w) && Recorded(w) && w.obj.Some? && w.obj.value.deleting
    ensures Recorded(DeletePass(w, w.obj.value, sc).w)
  {
    var o := w.obj.value;
    CleanedFacts(w, o, sc);
    var w' := DeletePass(w, o, sc).w;
    if Uses(w'.rows, w.name) {
      var i :| i in w'.rows && w'.rows[i].name == w.name;
      assert w.rows[i].name == w.name && i == o.id;
    }
  }

  lemma StepKeepsRecorded(w: World, e: Event)
    requires Valid(w) && Recorded(w) && Faithful(w, e)
    ensures Valid(Step(w, e)) && Recorded(Step(w, e)) && SameSetting(w, Step(w, e))
  {
    StepKeepsValid(w, e);
    if e.Passed? && w.obj.Some? && e.sc.read.Works? {
      if w.obj.value.deleting { DeleteKeepsRecorded(w, e.sc); }
      else if w.obj.value.finalizer { ReconcileKeepsRecorded(w, e.sc); }
    } else if e.Vanished? && Uses(Step(w, e).rows, w.name) {
      var i :| i in Step(w, e).rows && Step(w, e).rows[i].name == w.name;
      assert i in w.rows && i == w.obj.value.id;
    } else if e.Appeared? && Uses(Step(w, e).rows, w.name) {
      var i :| i in Step(w, e).rows && Step(w, e).rows[i].name == w.name;
      assert i in w.rows;
    }
  }

  /** While every creation is recorded, an object never leaves a resource behind; passes that
      create nothing may fail anywhere and lose any status. */
  lemma {:induction false} FaithfulRunsLeaveNothing(w: World, es: seq<Event>)
    requires Valid(w) && Recorded(w) && FaithfulRun(w, es)
    ensures var w' := Run(w, es); Valid(w') && Recorded(w') && (w'.obj.None? ==> !Uses(w'.rows, w.name))
    decreases |es|
  {
    if |es| > 0 {
      StepKeepsRecorded(w, es[0]);
      FaithfulRunsLeaveNothing(Step(w, es[0]), es[1..]);
    }
  }

  // ---------- recovery ----------

  /** The pass gets past the lookup by ID and finds a resource of the object's name. */
  ghost predicate FindsByName(w: World, sc: Script) {
    && w.obj.Some? && sc.read.Works? && sc.refs.Ready?
    && var o := w.obj.value;
    && o.finalizer && !o.deleting
    && (o.id != 0 ==> sc.byID.Works? && o.id !in w.rows)
    && sc.byName.Works? && Uses(w.rows, w.name)
  }

  /** What becomes of a found resource is recorded: its status write lands, after a pass that
      succeeded or for a kind that records what it finds at once. */
  predicate RecordsAdoption(kind: Kind, sc: Script) { (sc.converged || kind.recordsAdopted) && sc.landed }

  lemma AdoptionRecordedIff(w: World, sc: Script)
    requires Valid(w) && FindsByName(w, sc)
    ensures var w' := Step(w, Passed(sc));
            && w'.rows.Keys == w.rows.Keys && w'.trail == w.trail
            && (Recorded(w') <==> RecordsAdoption(w.kind, sc))
            && (RecordsAdoption(w.kind, sc) ==> w'.obj.Some? && Some(w'.obj.value.id) == Named(w.rows, w.name))
            && (Pass(w, sc).end == Done <==> sc.converged)
            && w'.rows == w.rows[Named(w.rows, w.name).value := Res(w.name, sc.server)]
  {
    var w' := Step(w, Passed(sc));
    var id := Named(w.rows, w.name).value;
    assert id in w'.rows && w'.rows[id].name == w.name;
    assert Uses(w'.rows, w.name);
  }

  /** A pass that neither creates nor adopts leaves things recorded or not as they were. */
  lemma OtherPassesKeep(w: World, sc: Script)
    requires Valid(w) && !sc.intrude && !Creates(w, sc) && !FindsByName(w, sc)
    ensures Recorded(Step(w, Passed(sc))) <==> Recorded(w)
  {
    var w' := Step(w, Passed(sc));
    if Recorded(w) {
      StepKeepsRecorded(w, Passed(sc));
    } else {
      var i :| i in w.rows && w.rows[i].name == w.name;
      if w.obj.Some? && w.obj.value.deleting && sc.read.Works? { CleanedFacts(w, w.obj.value, sc); }
      assert i in w'.rows && w'.rows[i].name == w.name;
    }
  }

  /** From every state whatever, exactly when a pass leaves every resource of the object's name
      recorded: if it creates, the creation must be recorded; if it adopts, the adoption; and
      otherwise it must have been so before. */
  lemma RecordedAfterIff(w: World, sc: Script)
    requires Valid(w) && !sc.intrude
    ensures Recorded(Step(w, Passed(sc))) <==>
              if Creates(w, sc) then RecordsCreation(w.kind, sc)
              else if FindsByName(w, sc) then RecordsAdoption(w.kind, sc)
              else Recorded(w)
  {
    if Creates(w, sc) {
      CreatedRow(w, sc);
      if RecordsCreation(w.kind, sc) { RecordedIff(w, sc); }
    } else if FindsByName(w, sc) {
      AdoptionRecordedIff(w, sc);
    } else {
      OtherPassesKeep(w, sc);
    }
  }

  /** Every call of the reconcile is answered, it succeeds, and its status lands. */
  predicate CleanReconcile(sc: Script) {
    && sc.read.Works? && sc.refs.Ready? && sc.byID.Works? && sc.byName.Works? && sc.create.Works? && !sc.intrude
    && sc.converged && sc.landed
  }

  /** Crash recovery.  After any run whatever, one pass in which nothing fails over an object
      that is not being deleted leaves exactly one resource of its name, and its ID recorded. */
  lemma OnePassRecovers(w: World, es: seq<Event>, sc: Script)
    requires Valid(w) && HonestRun(w.strict, es) && CleanReconcile(sc)
    requires var o := Run(w, es).obj; o.Some? && o.value.finalizer && !o.value.deleting
    ensures var v := Run(w, es);
            var end := Pass(v, sc);
            && end.end == Done && Recorded(end.w) && Uses(end.w.rows, w.name) && AtMostOne(end.w.rows, w.name)
            && end.w.obj.Some? && end.w.obj.value.id in end.w.rows && end.w.obj.value.attached == sc.recorded
  {
    NoDuplicates(w, es);
    var v := Run(w, es);
    StepKeepsValid(v, Passed(sc));
    CleanReconcileRecords(v, sc);
  }

  lemma CleanReconcileRecords(w: World, sc: Script)
    requires Valid(w) && CleanReconcile(sc) && w.obj.Some? && w.obj.value.finalizer && !w.obj.value.deleting
    ensures var end := Pass(w, sc);
            && end.end == Done && Recorded(end.w) && Uses(end.w.rows, w.name)
            && end.w.obj.Some? && end.w.obj.value.id in end.w.rows && end.w.obj.value.attached == sc.recorded
  {
    var u := w.(obj := Meddled(w.obj, sc.early));
    LookupKeepsValid(u, w.obj.value, sc);
    var f := LookupOrCreate(u, w.obj.value, sc);
    ConvergeRecords(f.w, w.obj.value, f.reply.value, f.created, sc);
  }

  lemma ConvergeRecords(w: World, o: Obj, id: nat, created: bool, sc: Script)
    requires id in w.rows && w.rows[id].name == w.name && sc.converged && sc.landed
    requires w.obj.Some? && w.obj.value.finalizer
    ensures var end := Converge(w, o, id, created, sc);
            && end.end == Done && Recorded(end.w) && Uses(end.w.rows, w.name)
            && end.w.obj.Some? && end.w.obj.value.id == id && id in end.w.rows
            && end.w.obj.value.attached == sc.recorded
  {
    assert Converge(w, o, id, created, sc).w.rows[id].name == w.name;
  }

  // ---------- the object in the store ----------

  /** Optimistic concurrency: a write goes through exactly on the version it was read at, and
      what goes through, like every write of others and every status write, makes all that was
      read before it stale. */
  lemma StaleWritesRefused(was: Obj, o: Obj, m: Meddle, fate: Fate, later: Obj)
    requires later.version <= was.version
    ensures var u := Update(Some(was), o, fate);
            var goes := !fate.Refused? && o.version == was.version;
            && (u.ok <==> goes && fate.Works?)
            && (if goes then !Update(u.obj, later, Works).ok else u.obj == Some(was))
            && (goes ==> (u.obj.None? <==> o.deleting && !o.finalizer))
            && (goes && u.obj.Some? ==> u.obj == Some(o.(version := u.obj.value.version)))
    ensures m != Leave ==> !Update(Meddled(Some(was), m), later, Works).ok
    ensures !Update(RecordStatus(Some(was), o, true), later, Works).ok
  {
  }

  /** A recorded ID that is live is all a reconcile needs: the name is not looked up, and nothing
      is created. */
  lemma LiveIDNeedsNoName(w: World, sc: Script)
    requires w.obj.Some? && w.obj.value.id != 0 && w.obj.value.id in w.rows && sc.byID.Works?
    ensures LookupOrCreate(w, w.obj.value, sc) == Found(w, Got(w.obj.value.id), false)
  {
  }

  /** The trail tells every create and delete of a pass: a resource is new exactly if its create
      is there, with the object stored at that moment, and gone exactly if its delete is. */
  lemma TrailTells(w: World, sc: Script)
    requires Valid(w) && !sc.intrude
    ensures var w' := Step(w, Passed(sc));
            && (Creates(w, sc) ==>
                  && w'.trail == w.trail + [Created(w.nextID, Meddled(w.obj, sc.early))]
                  && w'.rows.Keys == w.rows.Keys + {w.nextID} && w'.nextID == w.nextID + 1)
            && (!Creates(w, sc) ==> w'.rows.Keys <= w.rows.Keys && w'.nextID == w.nextID)
            && (forall i :: i in w.rows && i !in w'.rows ==> w'.trail == w.trail + [Deleted(i)])
            && (w'.trail == w.trail ==> w'.rows.Keys == w.rows.Keys)
  {
    if w.obj.Some? && w.obj.value.deleting && sc.read.Works? {
      CleanedFacts(w, w.obj.value, sc);
      DeletesAreTrailed(w, w.obj.value, sc);
    }
  }

  /** The cloud deletes what is there, or is not; only an attached volume it refuses. */
  lemma DeleteRowIs(w: World, id: nat)
    ensures var d := DeleteRow(w, id, Works);
            && (d.reply == Failed(StillAttached) <==>
                  id in w.rows && w.kind.cleanup.DetachFirst? && w.rows[id].server > 0)
            && (if d.reply.Failed? then d.w == w && d.reply == Failed(StillAttached)
                else d.reply == Got(id) && d.w == w.(rows := w.rows - {id}, trail := w.trail + [Deleted(id)]))
  {
  }

  lemma DeletesAreTrailed(w: World, o: Obj, sc: Script)
    ensures var c := Cleaned(w, o, sc).w;
            && c.nextID == w.nextID
            && (forall i :: i in w.rows && i !in c.rows ==> c.trail == w.trail + [Deleted(i)])
            && (c.trail == w.trail ==> c.rows.Keys == w.rows.Keys)
  {
  }

  /** The create itself puts the resource on its target for the kinds that create attached; a
      pass that hears nothing of it leaves it so. */
  lemma LostCreateLeaves(w: World, sc: Script)
    requires Valid(w) && Creates(w, sc) && !sc.intrude && sc.create.Lost?
    ensures Step(w, Passed(sc)).rows
            == w.rows[w.nextID := Res(w.name, if w.kind.createsAttached then sc.target else 0)]
  {
  }

  /** A pass that cannot read the object does nothing and fails; one without an object, or with
      one that is being deleted and has no finalizer, does nothing. */
  lemma NothingToDo(w: World, sc: Script)
    ensures !sc.read.Works? ==> Pass(w, sc) == Outcome(w, Errored(Transport))
    ensures sc.read.Works? && (w.obj.None? || (w.obj.value.deleting && !w.obj.value.finalizer)) ==>
              Pass(w, sc) == Outcome(w, Idle)
  {
  }

  /** A pass over an object without the finalizer touches nothing in the cloud, and stores the
      finalizer exactly if its write goes through and nobody wrote in between. */
  lemma FinalizerStoredIff(w: World, sc: Script)
    requires Valid(w) && w.obj.Some? && !w.obj.value.finalizer && sc.read.Works?
    ensures var w' := Step(w, Passed(sc));
            && w'.rows == w.rows && w'.trail == w.trail
            && ((w'.obj.Some? && w'.obj.value.finalizer) <==> !sc.update.Refused? && sc.late.Leave?)
            && (Pass(w, sc).end == Done <==> sc.update.Works? && sc.late.Leave?)
  {
  }

  /** A cleanup that meets a failed call has failed, and deletes only by the call that is lost. */
  lemma FailedCleanupIs(w: World, o: Obj, sc: Script)
    requires o.id != 0
    ensures var c := Cleaned(w, o, sc);
            && (!sc.delete.Works? ==> c.reply.Failed?)
            && (w.kind.cleanup.UnassignFirst? && !sc.detach.Works? ==> c.reply.Failed? && c.w.trail == w.trail)
            && (w.kind.cleanup.DetachFirst? && !sc.look.Works? ==> c.reply.Failed? && c.w == w)
            && (sc.delete.Refused? ==> c.w.trail == w.trail && c.w.rows.Keys == w.rows.Keys)
            && (sc.detach.Refused? && c.w.trail == w.trail ==> c.w == w)
            && (c.reply.Got? ==> c.w.trail == w.trail + [Deleted(o.id)] && o.id !in c.w.rows)
  {
  }

  /** A delete pass reports success exactly if the cleanup did, the finalizer could be taken off,
      and nobody wrote in between; the object is then gone. */
  lemma DeletePassDoneIff(w: World, sc: Script)
    requires Valid(w) && w.obj.Some? && w.obj.value.deleting && sc.read.Works?
    ensures var p := Pass(w, sc);
            && (p.end == Done <==> Cleaned(w, w.obj.value, sc).reply.Got? && sc.update.Works? && sc.late.Leave?)
            && (p.end == Done ==> p.w.obj == None)
  {
    CleanedFacts(w, w.obj.value, sc);
  }

  /** When others write the object during a finalizer or a delete pass, what they wrote stays. */
  lemma ConflictKeepsOthers(w: World, sc: Script)
    requires Valid(w) && w.obj.Some? && sc.read.Works? && !sc.late.Leave?
    requires !w.obj.value.finalizer || w.obj.value.deleting
    ensures Step(w, Passed(sc)).obj == Meddled(w.obj, sc.late) || Step(w, Passed(sc)).obj == w.obj
    ensures Pass(w, sc).end.Errored?
  {
    if w.obj.value.deleting { CleanedFacts(w, w.obj.value, sc); }
  }

  /** A reconcile changes the stored object's status at most: finalizer and deletion mark are as
      the other writers leave them. */
  lemma ReconcileKeepsMarks(w: World, sc: Script)
    requires Valid(w) && w.obj.Some? && w.obj.value.finalizer && !w.obj.value.deleting && sc.read.Works?
    ensures var o := Step(w, Passed(sc)).obj;
            && o.Some? && o.value.finalizer
            && (o.value.deleting <==> sc.early.MarkDeleted? || sc.late.MarkDeleted?)
            && (!sc.landed ==> o.value.id == w.obj.value.id && o.value.attached == w.obj.value.attached)
  {
    var o := ReconcileStores(w, w.obj.value, sc);
    MarksStay(w.obj.value, o, sc);
  }

  /** What a reconcile leaves in the store is a status write on top of the other writers. */
  lemma ReconcileStores(w: World, o: Obj, sc: Script) returns (o': Obj)
    requires w.obj.Some?
    ensures ReconcilePass(w, o, sc).w.obj
            == RecordStatus(Meddled(Meddled(w.obj, sc.early), sc.late), o', sc.landed)
  {
    o' := o;
    if sc.refs.Ready? {
      var u := w.(obj := Meddled(w.obj, sc.early));
      var f := LookupOrCreate(u, o, sc);
      if f.reply.Got? { o' := Learnt(f.w.kind, o, f.reply.value, f.created, sc); }
    }
  }

  lemma MarksStay(was: Obj, o: Obj, sc: Script)
    requires was.finalizer && !was.deleting
    ensures var now := RecordStatus(Meddled(Meddled(Some(was), sc.early), sc.late), o, sc.landed);
            && now.Some? && now.value.finalizer
            && (now.value.deleting <==> sc.early.MarkDeleted? || sc.late.MarkDeleted?)
            && (!sc.landed ==> now.value.id == was.id && now.value.attached == was.attached)
  {
  }

  /** A reference that is not ready ends the pass before any cloud call, and only one that cannot
      be read is an error. */
  lemma UnreadyTouchesNothing(w: World, sc: Script)
    requires w.obj.Some? && w.obj.value.finalizer && !w.obj.value.deleting && sc.read.Works? && !sc.refs.Ready?
    ensures var p := Pass(w, sc);
            && p.w.rows == w.rows && p.w.trail == w.trail && p.w.nextID == w.nextID
            && (p.end == Done <==> sc.refs.Pending?) && (p.end == Errored(Unresolved) <==> sc.refs.Broken?)
  {
  }

  lemma RunThree(w: World, x: Event, y: Event, z: Event)
    ensures Run(w, [x, y, z]) == Step(Step(Step(w, x), y), z)
  {
    var u := Step(w, x);
    var v := Step(u, y);
    assert [x, y, z][1..] == [y, z] && [y, z][1..] == [z] && [z][1..] == [];
    assert Run(v, [z]) == Run(Step(v, z), []);
    assert Run(u, [y, z]) == Run(v, [z]);
  }

  lemma RemovedThenDeleted(a: World, del: Script)
    requires Valid(a) && a.obj.Some? && a.obj.value.finalizer && Uses(a.rows, a.name) && CleanDelete(del)
    ensures var c := Step(Step(a, Removed), Passed(del));
            && (c.obj.None? <==> CanFinish(a.kind, a.obj.value, a.rows))
            && (Uses(c.rows, a.name) <==> a.obj.value.id !in a.rows)
  {
    var b := Step(a, Removed);
    StepKeepsValid(a, Removed);
    assert b.rows == a.rows && b.obj.value.deleting && b.obj.value.id == a.obj.value.id;
    DeletePassFinishesIff(b, del);
    if CanFinish(a.kind, a.obj.value, a.rows) {
      VanishingCleansUp(b, del);
    } else {
      CleanedFacts(b, b.obj.value, del);
      var i :| i in a.rows && a.rows[i].name == a.name;
      assert i in Pass(b, del).w.rows;
    }
  }

  /** And that condition is exact: create a resource, let the user delete the object, and let
      the delete pass be answered; the resource is left behind precisely if its creation was not
      recorded, and with the object gone unless the stale ID it still records strands it. */
  lemma OrphanedIff(w: World, sc: Script, del: Script)
    requires Valid(w) && Creates(w, sc) && !sc.intrude && CleanDelete(del)
    ensures var end := Run(w, [Passed(sc), Removed, Passed(del)]);
            && (Uses(end.rows, w.name) <==> !RecordsCreation(w.kind, sc))
            && (w.obj.value.id == 0 || RecordsCreation(w.kind, sc) ==> end.obj.None?)
  {
    RunThree(w, Passed(sc), Removed, Passed(del));
    StepKeepsValid(w, Passed(sc));
    CreatedRow(w, sc);
    RemovedThenDeleted(Pass(w, sc).w, del);
  }

  /** One pass, exactly: it leaves every resource of the object's name recorded if and only if
      it creates none or records the one it creates. */
  lemma RecordedIff(w: World, sc: Script)
    requires Valid(w) && Recorded(w) && !sc.intrude
    ensures Recorded(Step(w, Passed(sc))) <==> (Creates(w, sc) ==> RecordsCreation(w.kind, sc))
  {
    if Creates(w, sc) ==> RecordsCreation(w.kind, sc) {
      StepKeepsRecorded(w, Passed(sc));
    } else {
      CreatedRow(w, sc);
    }
  }

  lemma CreatedRow(w: World, sc: Script)
    requires Valid(w) && ReachesCreate(w, sc)
    requires !sc.intrude && !sc.create.Refused?
    ensures var a := Pass(w, sc).w;
            && w.nextID in a.rows && a.rows[w.nextID].name == w.name && Uses(a.rows, w.name)
            && a.obj.Some? && a.obj.value.finalizer
            && (RecordsCreation(w.kind, sc) ==> a.obj.value.id == w.nextID)
            && (!RecordsCreation(w.kind, sc) ==> a.obj.value.id == w.obj.value.id && a.obj.value.id !in a.rows)
  {
    var a := Pass(w, sc).w;
    assert w.nextID in a.rows && a.rows[w.nextID].name == w.name;
  }
}

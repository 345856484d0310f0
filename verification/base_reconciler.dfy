/** The base loop in place: a store holding one object, a cloud holding the resources of its
    kind, and the passes that move both (internal/reconcile/base.go:92-148,
    internal/hcloud/fake_client.go:73-143 and its counterparts).  Every pass is proved to be
    `Lifecycle.Pass`, so every theorem about runs is about these methods. */
module BaseLoop {
  import opened Prelude
  import opened Lifecycle
  import LifecycleRuns

  class BaseReconciler {
    const kind: Kind
    const name: string
    const strict: bool
    var obj: Option<Obj>
    var rows: map<nat, Res>
    var nextID: nat
    var trail: seq<Mark>

    constructor (kind: Kind, name: string, strict: bool)
      ensures View() == World(kind, name, strict, None, map[], 1, [])
    {
      this.kind, this.name, this.strict := kind, name, strict;
      obj, rows, nextID, trail := None, map[], 1, [];
    }

    function View(): World
      reads this
    {
      World(kind, name, strict, obj, rows, nextID, trail)
    }

    /** Scan the resources in whatever order the map yields them. */
    method GetByName() returns (found: Option<nat>)
      requires UniqueNames(rows)
      ensures found == Named(rows, name)
    {
      var left := rows.Keys;
      while left != {}
        invariant left <= rows.Keys
        invariant forall i :: i in rows && i !in left ==> rows[i].name != name
        decreases |left|
      {
        var i :| i in left;
        if rows[i].name == name {
          NamedUnique(rows, name, i);
          return Some(i);
        }
        left := left - {i};
      }
      found := None;
      assert !Uses(rows, name);
    }

    method CreateResource(target: nat, fate: Fate) returns (r: Reply<nat>)
      modifies this
      ensures Made(View(), r) == Create(old(View()), target, fate)
    {
      if fate.Refused? { return Failed(Transport); }
      if strict && exists i :: i in rows && rows[i].name == name { return Failed(AlreadyExists); }
      var id := nextID;
      nextID := nextID + 1;
      rows := rows[id := Res(name, if kind.createsAttached then target else 0)];
      trail := trail + [Created(id, obj)];
      r := Answer(fate, id);
    }

    method DeleteResource(id: nat, fate: Fate) returns (r: Reply<nat>)
      modifies this
      ensures Made(View(), r) == DeleteRow(old(View()), id, fate)
    {
      if fate.Refused? { return Failed(Transport); }
      if id in rows && kind.cleanup.DetachFirst? && rows[id].server > 0 { return Failed(StillAttached); }
      rows := rows - {id};
      trail := trail + [Deleted(id)];
      r := Answer(fate, id);
    }

    method ReleaseResource(id: nat, fate: Fate) returns (r: Reply<nat>)
      modifies this
      ensures Made(View(), r) == Release(old(View()), id, fate)
    {
      if fate.Refused? { return Failed(Transport); }
      if id !in rows { return Failed(NotFound); }
      rows := rows[id := rows[id].(server := 0)];
      r := Answer(fate, id);
    }

    /** External cleanup before the finalizer goes. */
    method Delete(o: Obj, sc: Script) returns (r: Reply<nat>)
      modifies this
      ensures Made(View(), r) == Cleaned(old(View()), o, sc)
    {
      if o.id == 0 { return Got(0); }
      match kind.cleanup {
        case Direct =>
        case UnassignFirst =>
          r := ReleaseResource(o.id, sc.detach);
          if r.Failed? { return; }
        case DetachFirst =>
          if !sc.look.Works? { return Failed(Transport); }
          var attached := o.attached;
          if o.id in rows && rows[o.id].server != 0 { attached := rows[o.id].server; }
          if attached != 0 {
            r := ReleaseResource(o.id, sc.detach);
            if r.Failed? { return; }
          }
      }
      r := DeleteResource(o.id, sc.delete);
    }

    /** Write the object as read, unless the store has moved on. */
    method UpdateObject(o: Obj, fate: Fate) returns (ok: bool)
      modifies this`obj
      ensures Written(obj, ok) == Update(old(obj), o, fate)
    {
      if fate.Refused? || obj.None? || obj.value.version != o.version { return false; }
      obj := if o.deleting && !o.finalizer then None else Some(o.(version := o.version + 1));
      ok := fate.Works?;
    }

    method EnsureResource(o: Obj, sc: Script) returns (r: Reply<nat>, created: bool)
      requires Valid(View())
      modifies this
      ensures Found(View(), r, created) == LookupOrCreate(old(View()), o, sc)
    {
      created := false;
      if o.id != 0 {
        if !sc.byID.Works? { return Failed(Transport), false; }
        if o.id in rows { return Got(o.id), false; }
      }
      if !sc.byName.Works? { return Failed(Transport), false; }
      var found := GetByName();
      if found.Some? { return Got(found.value), false; }
      if sc.intrude {
        rows, nextID := rows[nextID := Res(name, 0)], nextID + 1;
      }
      r := CreateResource(sc.target, sc.create);
      created := true;
    }

    /** The domain part of a pass over an object that holds the finalizer. */
    method ReconcileResource(o: Obj, sc: Script) returns (end: End)
      requires Valid(View()) && obj == Some(o) && o.finalizer
      modifies this
      ensures Outcome(View(), end) == ReconcilePass(old(View()), o, sc)
    {
      obj := Meddled(obj, sc.early);
      if !sc.refs.Ready? {
        obj := RecordStatus(Meddled(obj, sc.late), o, sc.landed);
        return if sc.refs.Pending? then Done else Errored(Unresolved);
      }
      var r, created := EnsureResource(o, sc);
      if r.Failed? {
        obj := RecordStatus(Meddled(obj, sc.late), o, sc.landed);
        return Errored(r.fault);
      }
      var id := r.value;
      var status := o;
      if if created then kind.recordsCreated else kind.recordsAdopted { status := status.(id := id); }
      rows := rows[id := rows[id].(server := sc.server)];
      if sc.converged { status := status.(id := id, attached := sc.recorded); }
      obj := RecordStatus(Meddled(obj, sc.late), status, sc.landed);
      end := if sc.converged then Done else Errored(Transport);
    }

    /** One pass of the base loop. */
    method Reconcile(sc: Script) returns (end: End)
      requires Valid(View())
      modifies this
      ensures Outcome(View(), end) == Pass(old(View()), sc)
      ensures (sc.intrude ==> strict) ==> Valid(View())
    {
      if sc.intrude ==> strict { LifecycleRuns.StepKeepsValid(View(), LifecycleRuns.Passed(sc)); }
      if !sc.read.Works? { return Errored(Transport); }
      if obj.None? { return Idle; }
      var o := obj.value;
      if o.deleting {
        if !o.finalizer { return Idle; }
        var cleaned := Delete(o, sc);
        if cleaned.Failed? { return Errored(cleaned.fault); }
        obj := Meddled(obj, sc.late);
        var removed := UpdateObject(o.(finalizer := false), sc.update);
        return if removed then Done else Errored(Transport);
      }
      if !o.finalizer {
        obj := Meddled(obj, sc.late);
        var added := UpdateObject(o.(finalizer := true), sc.update);
        return if added then Done else Errored(Transport);
      }
      end := ReconcileResource(o, sc);
    }
  }
}

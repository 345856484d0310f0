/** The life of one object and its cloud resource: the generic base loop
    (internal/reconcile/base.go:92-148) around the lookup, creation and deletion that every
    kind shares.  What a kind does to an existing resource is reduced to whether it succeeds
    and which attachment it leaves; the kinds differ in when they record the ID and in how
    they delete. */
module Lifecycle {
  import opened Prelude

  /** How `Delete` prepares the resource.  Servers, networks, load balancers, firewalls,
      placement groups and certificates are deleted directly; floating and primary IPs are
      unassigned first; volumes are detached first. */
  datatype Cleanup = Direct | UnassignFirst | DetachFirst

  /** `recordsCreated`, `recordsAdopted`: the ID of a created or adopted resource enters the
      status before the resource is converged, not only after.  `createsAttached`: the create
      itself puts the resource on its target server, as for volumes and floating IPs. */
  datatype Kind = Kind(cleanup: Cleanup, recordsCreated: bool, recordsAdopted: bool, createsAttached: bool)

  /** A cloud resource: its name and the server it is attached to, zero if none. */
  datatype Res = Res(name: string, server: nat)

  /** The stored object: what the base loop and the deletion read of it. */
  datatype Obj = Obj(finalizer: bool, deleting: bool, version: nat, id: nat, attached: nat)

  /** Cloud mutations, each create with the object stored at that moment. */
  datatype Mark = Created(id: nat, stored: Option<Obj>) | Deleted(id: nat)

  /** `strict`: the cloud itself refuses a second resource of the same name, as the fake does. */
  datatype World = World(
    kind: Kind, name: string, strict: bool,
    obj: Option<Obj>, rows: map<nat, Res>, nextID: nat, trail: seq<Mark>)

  /** What other writers do to the object while a pass runs. */
  datatype Meddle = Leave | Touch | MarkDeleted

  /** The references of the spec: all resolved, one whose target is not ready yet, which ends the
      pass without an error, or one that cannot be read. */
  datatype References = Ready | Pending | Broken

  /** How the calls of one pass fare.  `intrude`: someone else creates a resource of the same
      name between the lookup and the create.  `target`: the server the spec refers to, zero if
      none; `server`, `recorded`: where the pass leaves the resource and what it records of it.
      `landed`: the final status reaches the store. */
  datatype Script = Script(
    read: Fate, refs: References, byID: Fate, byName: Fate, intrude: bool, create: Fate,
    target: nat, converged: bool, server: nat, recorded: nat, landed: bool,
    look: Fate, detach: Fate, delete: Fate, update: Fate,
    early: Meddle, late: Meddle)

  datatype End = Idle | Done | Errored(fault: Fault)

  datatype Outcome = Outcome(w: World, end: End)

  // ---------- the API server ----------

  /** The store after another writer; an object without finalizers disappears when deleted. */
  function Meddled(obj: Option<Obj>, m: Meddle): Option<Obj> {
    if obj.None? then None
    else
      match m
      case Leave => obj
      case Touch => Some(obj.value.(version := obj.value.version + 1))
      case MarkDeleted =>
        if obj.value.finalizer
        then Some(obj.value.(deleting := true, version := obj.value.version + 1))
        else None
  }

  /** A write of `o` as read at `o.version`: a conflict if the store has moved on. */
  datatype Written = Written(obj: Option<Obj>, ok: bool)

  function Update(stored: Option<Obj>, o: Obj, fate: Fate): Written {
    if fate.Refused? || stored.None? || stored.value.version != o.version then Written(stored, false)
    else
      Written(if o.deleting && !o.finalizer then None else Some(o.(version := o.version + 1)), fate.Works?)
  }

  /** The status write of a pass, retried over conflicts: it changes nothing but the status. */
  function RecordStatus(stored: Option<Obj>, o: Obj, landed: bool): Option<Obj> {
    if landed && stored.Some?
    then Some(stored.value.(id := o.id, attached := o.attached, version := stored.value.version + 1))
    else stored
  }

  // ---------- the cloud ----------

  ghost predicate UniqueNames(rows: map<nat, Res>) {
    forall i, j :: i in rows && j in rows && rows[i].name == rows[j].name ==> i == j
  }

  predicate Uses(rows: map<nat, Res>, name: string) { exists i :: i in rows && rows[i].name == name }

  ghost function Named(rows: map<nat, Res>, name: string): (r: Option<nat>)
    ensures r.Some? ==> r.value in rows && rows[r.value].name == name
    ensures r.None? <==> !Uses(rows, name)
  {
    if Uses(rows, name) then var i :| i in rows && rows[i].name == name; Some(i) else None
  }

  /** A name the cloud has not used appears, made by someone else. */
  function Intruded(w: World): World {
    if Uses(w.rows, w.name) then w
    else w.(rows := w.rows[w.nextID := Res(w.name, 0)], nextID := w.nextID + 1)
  }

  /** The world after a cloud call, and its answer. */
  datatype Made = Made(w: World, reply: Reply<nat>)

  function Create(w: World, target: nat, fate: Fate): Made {
    if fate.Refused? then Made(w, Failed(Transport))
    else if w.strict && Uses(w.rows, w.name) then Made(w, Failed(AlreadyExists))
    else
      Made(w.(rows := w.rows[w.nextID := Res(w.name, if w.kind.createsAttached then target else 0)],
              nextID := w.nextID + 1, trail := w.trail + [Created(w.nextID, w.obj)]),
          Answer(fate, w.nextID))
  }

  function DeleteRow(w: World, id: nat, fate: Fate): Made {
    if fate.Refused? then Made(w, Failed(Transport))
    else if id in w.rows && w.kind.cleanup.DetachFirst? && w.rows[id].server > 0 then Made(w, Failed(StillAttached))
    else Made(w.(rows := w.rows - {id}, trail := w.trail + [Deleted(id)]), Answer(fate, id))
  }

  /** Unassign or detach: an error when the resource is gone. */
  function Release(w: World, id: nat, fate: Fate): Made {
    if fate.Refused? then Made(w, Failed(Transport))
    else if id !in w.rows then Made(w, Failed(NotFound))
    else Made(w.(rows := w.rows[id := w.rows[id].(server := 0)]), Answer(fate, id))
  }

  // ---------- deletion ----------

  /** External cleanup of object `o` (hcloudserver_controller.go:406-412,
      hcloudfloatingip_controller.go:110-118, hcloudvolume_controller.go:130-161). */
  function Cleaned(w: World, o: Obj, sc: Script): Made {
    if o.id == 0 then Made(w, Got(0))
    else
      match w.kind.cleanup
      case Direct => DeleteRow(w, o.id, sc.delete)
      case UnassignFirst =>
        var r := Release(w, o.id, sc.detach);
        if r.reply.Failed? then r else DeleteRow(r.w, o.id, sc.delete)
      case DetachFirst =>
        if !sc.look.Works? then Made(w, Failed(Transport))
        else
          var seen := if o.id in w.rows then w.rows[o.id].server else 0;
          var attached := if seen != 0 then seen else o.attached;
          if attached == 0 then DeleteRow(w, o.id, sc.delete)
          else
            var r := Release(w, o.id, sc.detach);
            if r.reply.Failed? then r else DeleteRow(r.w, o.id, sc.delete)
  }

  function DeletePass(w: World, o: Obj, sc: Script): Outcome {
    var c := Cleaned(w, o, sc);
    match c.reply
    case Failed(f) => Outcome(c.w, Errored(f))
    case Got(_) =>
      var u := Update(Meddled(c.w.obj, sc.late), o.(finalizer := false), sc.update);
      Outcome(c.w.(obj := u.obj), if u.ok then Done else Errored(Transport))
  }

  function FinalizerPass(w: World, o: Obj, sc: Script): Outcome {
    var u := Update(Meddled(w.obj, sc.late), o.(finalizer := true), sc.update);
    Outcome(w.(obj := u.obj), if u.ok then Done else Errored(Transport))
  }

  // ---------- lookup or create ----------

  datatype Found = Found(w: World, reply: Reply<nat>, created: bool)

  /** By recorded ID, else by name, else create (hcloudserver_controller.go:105-149 and its
      counterparts in the other controllers). */
  ghost function LookupOrCreate(w: World, o: Obj, sc: Script): (f: Found)
    ensures f.reply.Got? ==> f.reply.value in f.w.rows
  {
    if o.id != 0 && !sc.byID.Works? then Found(w, Failed(Transport), false)
    else if o.id != 0 && o.id in w.rows then Found(w, Got(o.id), false)
    else if !sc.byName.Works? then Found(w, Failed(Transport), false)
    else if Named(w.rows, w.name).Some? then Found(w, Got(Named(w.rows, w.name).value), false)
    else
      var c := Create(if sc.intrude then Intruded(w) else w, sc.target, sc.create);
      Found(c.w, c.reply, true)
  }

  /** The object in memory once the kind has worked on the resource `id`. */
  function Learnt(kind: Kind, o: Obj, id: nat, created: bool, sc: Script): Obj {
    var early := if created then kind.recordsCreated else kind.recordsAdopted;
    if sc.converged then o.(id := id, attached := sc.recorded) else if early then o.(id := id) else o
  }

  /** What the kind does to the resource it found. */
  function Converge(w: World, o: Obj, id: nat, created: bool, sc: Script): Outcome
    requires id in w.rows
  {
    var rows := w.rows[id := w.rows[id].(server := sc.server)];
    var o' := Learnt(w.kind, o, id, created, sc);
    Outcome(w.(rows := rows, obj := RecordStatus(Meddled(w.obj, sc.late), o', sc.landed)),
            if sc.converged then Done else Errored(Transport))
  }

  ghost function ReconcilePass(w0: World, o: Obj, sc: Script): Outcome {
    var w := w0.(obj := Meddled(w0.obj, sc.early));
    if !sc.refs.Ready? then
      Outcome(w.(obj := RecordStatus(Meddled(w.obj, sc.late), o, sc.landed)),
              if sc.refs.Pending? then Done else Errored(Unresolved))
    else
      var f := LookupOrCreate(w, o, sc);
      match f.reply
      case Failed(e) =>
        Outcome(f.w.(obj := RecordStatus(Meddled(f.w.obj, sc.late), o, sc.landed)), Errored(e))
      case Got(id) => Converge(f.w, o, id, f.created, sc)
  }

  /** One pass of the base loop. */
  ghost function Pass(w: World, sc: Script): Outcome {
    if !sc.read.Works? then Outcome(w, Errored(Transport))
    else if w.obj.None? then Outcome(w, Idle)
    else
      var o := w.obj.value;
      if o.deleting then
        if o.finalizer then DeletePass(w, o, sc) else Outcome(w, Idle)
      else if !o.finalizer then FinalizerPass(w, o, sc)
      else ReconcilePass(w, o, sc)
  }

  // ---------- what every world keeps ----------

  ghost predicate Valid(w: World) {
    && w.nextID > 0 && 0 !in w.rows && (forall i :: i in w.rows ==> i < w.nextID)
    && UniqueNames(w.rows)
    && (w.obj.Some? ==>
          && var o := w.obj.value;
          && o.id < w.nextID
          && (o.id in w.rows ==> w.rows[o.id].name == w.name)
          && (o.deleting ==> o.finalizer)
          && (!o.finalizer ==> o.id == 0))
  }

  lemma NamedUnique(rows: map<nat, Res>, name: string, i: nat)
    requires UniqueNames(rows) && i in rows && rows[i].name == name
    ensures Named(rows, name) == Some(i)
  {
  }
}

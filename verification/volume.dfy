/** Volumes: create, grow, detach, attach, and delete
    (internal/controller/hcloudvolume_controller.go:130-250,
    internal/hcloud/fake_client.go:291-385).  Other parties may attach, detach or
    delete the volume before any call. */
module Volumes {
  import opened Prelude

  datatype Vol = Vol(size: nat, server: nat)

  datatype Status = Status(known: bool, attached: nat, appliedSize: nat)

  datatype Site = AtCreate | AtResize | AfterResize | AtDetach | AtAttach | AtLook | AtRelease | AtDelete

  /** What somebody else does to the volume just before a call. */
  datatype Meddle = Untouched | Moves(server: nat) | Deletes

  datatype Beat = Beat(meddle: Meddle, fate: Fate)

  type Script = Site -> Beat

  datatype End = Finished | Errored(fault: Fault)

  /** The cloud's slot for the volume. */
  type Slot = Option<Vol>

  datatype Did = Did(slot: Slot, reply: Reply<Slot>)

  // ---------- the cloud ----------

  function Meddled(v: Slot, b: Beat): Slot {
    match b.meddle
    case Untouched => v
    case Moves(server) => if v.Some? then Some(v.value.(server := server)) else None
    case Deletes => None
  }

  function Create(v0: Slot, size: nat, server: nat, b: Beat): Did {
    var v := Meddled(v0, b);
    if b.fate.Refused? then Did(v, Failed(Transport))
    else if v.Some? then Did(v, Failed(AlreadyExists))
    else Did(Some(Vol(size, server)), Answer(b.fate, Some(Vol(size, server))))
  }

  function Look(v0: Slot, b: Beat): Did {
    var v := Meddled(v0, b);
    Did(v, if b.fate.Works? then Got(v) else Failed(Transport))
  }

  function Resize(v0: Slot, size: nat, b: Beat): Did {
    var v := Meddled(v0, b);
    if b.fate.Refused? then Did(v, Failed(Transport))
    else if v.None? then Did(v, Failed(NotFound))
    else if size < v.value.size then Did(v, Failed(WouldShrink))
    else
      var v' := Some(v.value.(size := size));
      Did(v', Answer(b.fate, v'))
  }

  function Detach(v0: Slot, b: Beat): Did {
    var v := Meddled(v0, b);
    if b.fate.Refused? then Did(v, Failed(Transport))
    else if v.None? then Did(v, Failed(NotFound))
    else
      var v' := Some(v.value.(server := 0));
      Did(v', Answer(b.fate, v'))
  }

  function Attach(v0: Slot, server: nat, b: Beat): Did {
    var v := Meddled(v0, b);
    if b.fate.Refused? then Did(v, Failed(Transport))
    else if v.None? then Did(v, Failed(NotFound))
    else if v.value.server > 0 then Did(v, Failed(AlreadyAttached))
    else
      var v' := Some(v.value.(server := server));
      Did(v', Answer(b.fate, v'))
  }

  function Delete(v0: Slot, b: Beat): Did {
    var v := Meddled(v0, b);
    if b.fate.Refused? then Did(v, Failed(Transport))
    else if v.Some? && v.value.server > 0 then Did(v, Failed(StillAttached))
    else Did(None, Answer(b.fate, None))
  }

  /** What the cloud refuses: a second volume of the name, shrinking, attaching an attached volume,
      deleting an attached one. */
  lemma CloudRefusesIff(v: Vol, size: nat, server: nat)
    ensures var b := Beat(Untouched, Works);
            && Create(Some(v), size, server, b) == Did(Some(v), Failed(AlreadyExists))
            && Resize(Some(v), size, b) == (if size < v.size then Did(Some(v), Failed(WouldShrink))
                                            else Did(Some(Vol(size, v.server)), Got(Some(Vol(size, v.server)))))
            && Attach(Some(v), server, b) == (if v.server > 0 then Did(Some(v), Failed(AlreadyAttached))
                                              else Did(Some(Vol(v.size, server)), Got(Some(Vol(v.size, server)))))
            && Delete(Some(v), b) == (if v.server > 0 then Did(Some(v), Failed(StillAttached))
                                      else Did(None, Got(None)))
            && Detach(Some(v), b) == Did(Some(Vol(v.size, 0)), Got(Some(Vol(v.size, 0))))
  {
  }

  /** A call whose answer is lost has happened, a refused one has not. */
  lemma CallsFare(v: Slot, size: nat, server: nat, m: Meddle)
    ensures var lost, works, refused := Beat(m, Lost), Beat(m, Works), Beat(m, Refused);
            && Create(v, size, server, lost).slot == Create(v, size, server, works).slot
            && Resize(v, size, lost).slot == Resize(v, size, works).slot
            && Attach(v, server, lost).slot == Attach(v, server, works).slot
            && Detach(v, lost).slot == Detach(v, works).slot && Delete(v, lost).slot == Delete(v, works).slot
            && Create(v, size, server, refused) == Resize(v, size, refused) == Did(Meddled(v, works), Failed(Transport))
            && Attach(v, server, refused) == Detach(v, refused) == Did(Meddled(v, works), Failed(Transport))
            && Delete(v, refused) == Did(Meddled(v, works), Failed(Transport))
            && Look(v, lost) == Look(v, refused) == Did(Meddled(v, works), Failed(Transport))
  {
  }

  // ---------- one pass ----------

  datatype Outcome = Outcome(slot: Slot, status: Status, end: End)

  /** The volume to work on: the one found, or a new one on the target. */
  function FoundOrCreated(v: Slot, size: nat, target: nat, sc: Script): Did {
    if v.Some? then Did(v, Got(v)) else Create(v, size, target, sc(AtCreate))
  }

  /** Grow it if it is too small; a volume that is too big is an error. */
  function Grown(v: Slot, existing: Vol, size: nat, sc: Script): Did {
    if existing.size < size then
      var r := Resize(v, size, sc(AtResize));
      if r.reply.Failed? then r
      else
        var g := Look(r.slot, sc(AfterResize));
        if g.reply == Got(None) then Did(g.slot, Failed(Disappeared)) else g
    else if existing.size > size then Did(v, Failed(WouldShrink))
    else Did(v, Got(Some(existing)))
  }

  /** Move it to the target; the reply is the volume as the pass now believes it to be. */
  function Placed(v: Slot, existing: Vol, target: nat, sc: Script): Did {
    if existing.server == target then Did(v, Got(Some(existing)))
    else
      var d := if existing.server != 0 then Detach(v, sc(AtDetach)) else Did(v, Got(v));
      if d.reply.Failed? then d
      else if target == 0 then Did(d.slot, Got(Some(existing)))
      else
        var a := Attach(d.slot, target, sc(AtAttach));
        if a.reply.Failed? then a else Did(a.slot, Got(Some(existing.(server := target))))
  }

  function Pass(v: Slot, st: Status, size: nat, target: nat, sc: Script): Outcome {
    var f := FoundOrCreated(v, size, target, sc);
    match f.reply
    case Failed(e) => Outcome(f.slot, st, Errored(e))
    case Got(None) => Outcome(f.slot, st, Errored(NotFound))
    case Got(Some(found)) =>
      var g := Grown(f.slot, found, size, sc);
      match g.reply
      case Failed(e) => Outcome(g.slot, st, Errored(e))
      case Got(None) => Outcome(g.slot, st, Errored(Disappeared))
      case Got(Some(existing)) =>
        var p := Placed(g.slot, existing, target, sc);
        match p.reply
        case Failed(e) => Outcome(p.slot, st, Errored(e))
        case Got(None) => Outcome(p.slot, st, Errored(NotFound))
        case Got(Some(last)) => Outcome(p.slot, Status(true, last.server, last.size), Finished)
  }

  function DeletePass(v: Slot, st: Status, sc: Script): Did {
    if !st.known then Did(v, Got(v))
    else
      var l := Look(v, sc(AtLook));
      if l.reply.Failed? then l
      else
        var attached := if l.slot.Some? && l.slot.value.server != 0 then l.slot.value.server else st.attached;
        var d := if attached == 0 then Did(l.slot, Got(l.slot)) else Detach(l.slot, sc(AtRelease));
        if d.reply.Failed? then d else Delete(d.slot, sc(AtDelete))
  }

  // ---------- safety of every run ----------

  /** Passes with any spec, delete passes aside, interleaved with what others do. */
  datatype Event = Passed(size: nat, target: nat, sc: Script, landed: bool) | Meddling(m: Meddle)

  datatype World = World(slot: Slot, status: Status)

  function Step(w: World, e: Event): World {
    match e
    case Meddling(m) => w.(slot := Meddled(w.slot, Beat(m, Works)))
    case Passed(size, target, sc, landed) =>
      var o := Pass(w.slot, w.status, size, target, sc);
      World(o.slot, if landed then o.status else w.status)
  }

  function Run(w: World, es: seq<Event>): World
    decreases |es|
  {
    if |es| == 0 then w else Run(Step(w, es[0]), es[1..])
  }

  /** A pass never shrinks a volume, and never puts a new one in the place of one that others
      delete under it. */
  lemma PassNeverShrinks(v: Slot, st: Status, size: nat, target: nat, sc: Script)
    requires v.Some?
    ensures var o := Pass(v, st, size, target, sc);
            && (o.slot.Some? ==> v.value.size <= o.slot.value.size)
            && (NoDelete(sc) ==> o.slot.Some?)
  {
    GrownNeverShrinks(v, size, sc);
    var g := Grown(v, v.value, size, sc);
    if g.reply.Got? && g.reply.value.Some? { PlacedKeepsSize(g.slot, g.reply.value.value, target, sc); }
  }

  ghost predicate NoDelete(sc: Script) { forall site :: !sc(site).meddle.Deletes? }

  lemma GrownNeverShrinks(v: Slot, size: nat, sc: Script)
    requires v.Some?
    ensures var g := Grown(v, v.value, size, sc);
            && (g.slot.Some? ==> v.value.size <= g.slot.value.size)
            && (NoDelete(sc) ==> g.slot.Some?)
  {
    assert NoDelete(sc) ==> !sc(AtResize).meddle.Deletes? && !sc(AfterResize).meddle.Deletes?;
  }

  lemma PlacedKeepsSize(v: Slot, existing: Vol, target: nat, sc: Script)
    ensures var p := Placed(v, existing, target, sc);
            && (p.slot.Some? ==> v.Some? && p.slot.value.size == v.value.size)
            && (NoDelete(sc) && v.Some? ==> p.slot.Some?)
  {
    assert NoDelete(sc) ==> !sc(AtDetach).meddle.Deletes? && !sc(AtAttach).meddle.Deletes?;
  }

  /** The volume is there at every point of the run; one created later in its place is another. */
  ghost predicate Lives(w: World, es: seq<Event>)
    decreases |es|
  {
    w.slot.Some? && (|es| == 0 || Lives(Step(w, es[0]), es[1..]))
  }

  ghost predicate Spares(e: Event) { if e.Passed? then NoDelete(e.sc) else !e.m.Deletes? }

  /** Over every run a volume's size only grows, for as long as it is there; and it stays there
      unless others delete it. */
  lemma {:induction false} SizeNeverShrinks(w: World, es: seq<Event>)
    requires w.slot.Some?
    ensures Lives(w, es) ==> Run(w, es).slot.Some? && w.slot.value.size <= Run(w, es).slot.value.size
    ensures (forall e :: e in es ==> Spares(e)) ==> Lives(w, es)
    decreases |es|
  {
    if |es| > 0 {
      assert es[0] in es;
      if es[0].Passed? { PassNeverShrinks(w.slot, w.status, es[0].size, es[0].target, es[0].sc); }
      var v := Step(w, es[0]);
      if v.slot.Some? { SizeNeverShrinks(v, es[1..]); } else { assert !Lives(v, es[1..]); }
    }
  }

  // ---------- what a successful pass leaves ----------

  /** Nobody touches the volume during the pass. */
  ghost predicate Alone(sc: Script) { forall site :: sc(site).meddle.Untouched? }

  ghost predicate Answered(sc: Script) { forall site :: sc(site).fate.Works? }

  /** A pass that succeeds leaves the size and the attachment of the spec. */
  lemma SuccessMatchesSpec(v: Slot, st: Status, size: nat, target: nat, sc: Script)
    requires Alone(sc) && Pass(v, st, size, target, sc).end.Finished?
    ensures var o := Pass(v, st, size, target, sc);
            && o.slot == Some(Vol(size, target))
            && o.status.known && o.status.appliedSize == size
            && o.status.attached == (if target != 0 || v.None? then target else v.value.server)
  {
    assert sc(AtResize).meddle.Untouched? && sc(AfterResize).meddle.Untouched?;
    assert sc(AtDetach).meddle.Untouched? && sc(AtAttach).meddle.Untouched? && sc(AtCreate).meddle.Untouched?;
  }

  /** A pass in which nothing fails and nobody interferes finishes exactly if the volume need
      not shrink. */
  lemma CleanPassFinishesIff(v: Slot, st: Status, size: nat, target: nat, sc: Script)
    requires Alone(sc) && Answered(sc)
    ensures Pass(v, st, size, target, sc).end.Finished? <==> (v.Some? ==> v.value.size <= size)
  {
    assert sc(AtResize).meddle.Untouched? && sc(AfterResize).meddle.Untouched? && sc(AtCreate).meddle.Untouched?;
    assert sc(AtDetach).meddle.Untouched? && sc(AtAttach).meddle.Untouched?;
    assert sc(AtResize).fate.Works? && sc(AfterResize).fate.Works? && sc(AtCreate).fate.Works?;
    assert sc(AtDetach).fate.Works? && sc(AtAttach).fate.Works?;
  }

  /** A new volume is made on its target, with no call after the create. */
  lemma NewVolumeIsOnTarget(st: Status, size: nat, target: nat, sc: Script)
    requires sc(AtCreate).fate.Works?
    ensures Pass(None, st, size, target, sc) == Outcome(Some(Vol(size, target)), Status(true, target, size), Finished)
  {
  }

  /** A volume that is too big is an error, and no call is made about it. */
  lemma TooBigIsAnError(v: Slot, st: Status, size: nat, target: nat, sc: Script)
    requires v.Some? && size < v.value.size
    ensures Pass(v, st, size, target, sc) == Outcome(v, st, Errored(WouldShrink))
  {
  }

  /** A pass that fails leaves the status alone. */
  lemma FailureRecordsNothing(v: Slot, st: Status, size: nat, target: nat, sc: Script)
    requires Pass(v, st, size, target, sc).end.Errored?
    ensures Pass(v, st, size, target, sc).status == st
  {
  }

  /** The status agrees with the cloud after one successful pass, except when that pass took
      the volume off a server without putting it on another; then it agrees after the next. */
  lemma StatusAgreesIff(v: Slot, st: Status, size: nat, target: nat, sc: Script, sc2: Script)
    requires Alone(sc) && Alone(sc2) && Pass(v, st, size, target, sc).end.Finished?
    ensures var o := Pass(v, st, size, target, sc);
            && o.slot.Some?
            && (o.status.attached == o.slot.value.server
                <==> !(target == 0 && v.Some? && v.value.server != 0))
            && var o2 := Pass(o.slot, o.status, size, target, sc2);
               o2.end.Finished? && o2.slot == o.slot && o2.status.attached == o2.slot.value.server
  {
    SuccessMatchesSpec(v, st, size, target, sc);
  }

  /** After any run whatever, two passes that are left alone, answered and stored bring cloud and
      status to the spec, if the volume need not shrink. */
  lemma TwoPassesRecover(w: World, es: seq<Event>, size: nat, target: nat, sc: Script, sc2: Script)
    requires Alone(sc) && Answered(sc) && Alone(sc2) && Answered(sc2)
    requires var v := Run(w, es).slot; v.Some? ==> v.value.size <= size
    ensures Run(Run(w, es), [Passed(size, target, sc, true), Passed(size, target, sc2, true)])
            == World(Some(Vol(size, target)), Status(true, target, size))
  {
    var u := Run(w, es);
    var x, y := Passed(size, target, sc, true), Passed(size, target, sc2, true);
    var v := Step(u, x);
    CleanPassFinishesIff(u.slot, u.status, size, target, sc);
    StatusAgreesIff(u.slot, u.status, size, target, sc, sc2);
    SuccessMatchesSpec(u.slot, u.status, size, target, sc);
    SuccessMatchesSpec(v.slot, v.status, size, target, sc2);
    assert [x, y][1..] == [y] && [y][1..] == [];
    assert Run(v, [y]) == Run(Step(v, y), []);
  }

  /** Others act on the volume alone, and a pass whose status does not land leaves the stored one. */
  lemma OthersActOnTheVolume(w: World, m: Meddle, server: nat, size: nat, target: nat, sc: Script)
    ensures Step(w, Meddling(m)).status == Step(w, Passed(size, target, sc, false)).status == w.status
    ensures Step(w, Meddling(Deletes)).slot == None
    ensures w.slot.Some? ==> Step(w, Meddling(Moves(server))).slot == Some(Vol(w.slot.value.size, server))
  {
  }

  // ---------- errors that need a meddler ----------

  /** The server the pass sees the volume on, if it sees the volume: one that had to grow is
      read again. */
  function SeenServer(v: Vol, size: nat, sc: Script): Option<nat> {
    if v.size == size then Some(v.server)
    else
      var early := sc(AtResize).meddle;
      match sc(AfterResize).meddle
      case Deletes => None
      case Moves(server) => if early.Deletes? then None else Some(server)
      case Untouched =>
        match early
        case Deletes => None
        case Moves(server) => Some(server)
        case Untouched => Some(v.server)
  }

  /** Somebody leaves the volume on a server just before the attach. */
  predicate SlipsIn(sc: Script) { sc(AtAttach).meddle.Moves? && sc(AtAttach).meddle.server > 0 }

  /** The cloud's "already attached" is provoked exactly by someone who attaches the volume
      between the read of the pass and its own attach. */
  lemma AlreadyAttachedIff(v: Slot, st: Status, size: nat, target: nat, sc: Script)
    requires v.Some? && Answered(sc)
    ensures var seen := SeenServer(v.value, size, sc);
            Pass(v, st, size, target, sc).end == Errored(AlreadyAttached)
            <==> && v.value.size <= size && target != 0 && seen.Some? && seen.value != target
                 && (seen.value != 0 ==> !sc(AtDetach).meddle.Deletes?)
                 && SlipsIn(sc)
  {
    assert sc(AtResize).fate.Works? && sc(AfterResize).fate.Works?;
    assert sc(AtDetach).fate.Works? && sc(AtAttach).fate.Works?;
    var g, seen := Grown(v, v.value, size, sc), SeenServer(v.value, size, sc);
    if v.value.size <= size && seen.Some? {
      assert g.reply == Got(Some(Vol(size, seen.value))) && g.slot == g.reply.value;
    }
  }

  /** And however its calls fare and whatever it starts from, the pass hears that answer only
      if somebody attached the volume just before its attach. */
  lemma AlreadyAttachedNeedsSomeone(v: Slot, st: Status, size: nat, target: nat, sc: Script)
    requires Pass(v, st, size, target, sc).end == Errored(AlreadyAttached)
    ensures SlipsIn(sc) && !sc(AtAttach).fate.Refused? && target != 0
  {
    var f := FoundOrCreated(v, size, target, sc);
    var g := Grown(f.slot, f.reply.value.value, size, sc);
    PlacedHearsAttached(g.slot, g.reply.value.value, target, sc);
  }

  lemma PlacedHearsAttached(v: Slot, existing: Vol, target: nat, sc: Script)
    requires v == Some(existing) && Placed(v, existing, target, sc).reply == Failed(AlreadyAttached)
    ensures SlipsIn(sc) && !sc(AtAttach).fate.Refused? && target != 0
  {
  }

  /** Neither error is reachable, whatever calls fail, unless someone interferes. */
  lemma NoAttachmentErrors(v: Slot, st: Status, size: nat, target: nat, sc: Script)
    requires Alone(sc)
    ensures Pass(v, st, size, target, sc).end != Errored(AlreadyAttached)
    ensures DeletePass(v, st, sc).reply != Failed(StillAttached)
  {
    assert sc(AtResize).meddle.Untouched? && sc(AfterResize).meddle.Untouched? && sc(AtCreate).meddle.Untouched?;
    assert sc(AtDetach).meddle.Untouched? && sc(AtAttach).meddle.Untouched?;
    assert sc(AtLook).meddle.Untouched? && sc(AtRelease).meddle.Untouched? && sc(AtDelete).meddle.Untouched?;
    var f := FoundOrCreated(v, size, target, sc);
    if f.reply.Got? && f.reply.value.Some? {
      var g := Grown(f.slot, f.reply.value.value, size, sc);
      assert g.slot.Some? && g.slot.value.server == f.reply.value.value.server;
    }
  }

  /** A delete pass that is answered and not interfered with removes the volume, or leaves it
      only because the recorded attachment points at a volume that is gone. */
  lemma DeletePassIff(v: Slot, st: Status, sc: Script)
    requires Alone(sc) && Answered(sc) && st.known
    ensures var d := DeletePass(v, st, sc);
            && d.slot.None?
            && (d.reply.Got? <==> v.Some? || st.attached == 0)
  {
    assert sc(AtLook).meddle.Untouched? && sc(AtRelease).meddle.Untouched? && sc(AtDelete).meddle.Untouched?;
    assert sc(AtLook).fate.Works? && sc(AtRelease).fate.Works? && sc(AtDelete).fate.Works?;
  }

  /** And whatever calls fail: left alone, a delete pass succeeds exactly if the look and the
      delete are answered and so is the detach, where one is due, of a volume that is there. */
  lemma DeletePassWorksIff(v: Slot, st: Status, sc: Script)
    requires Alone(sc) && st.known
    ensures var due := st.attached != 0 || (v.Some? && v.value.server != 0);
            DeletePass(v, st, sc).reply.Got? <==>
              && sc(AtLook).fate.Works? && sc(AtDelete).fate.Works?
              && (due ==> v.Some? && sc(AtRelease).fate.Works?)
    ensures !sc(AtLook).fate.Works? ==> DeletePass(v, st, sc) == Did(v, Failed(Transport))
  {
    assert sc(AtLook).meddle.Untouched? && sc(AtRelease).meddle.Untouched? && sc(AtDelete).meddle.Untouched?;
  }

  /** With no recorded volume there is nothing to delete. */
  lemma NothingRecordedNothingDeleted(v: Slot, st: Status, sc: Script)
    requires !st.known
    ensures DeletePass(v, st, sc) == Did(v, Got(v))
  {
  }

  // ---------- the same reconciler, in place ----------

  class HCloudVolume {
    var size: nat
    var status: Status

    constructor (size: nat, status: Status)
      ensures this.size == size && this.status == status
    {
      this.size, this.status := size, status;
    }
  }

  class FakeVolume {
    var slot: Slot

    constructor ()
      ensures slot == None
    {
      slot := None;
    }

    method CreateVolume(size: nat, server: nat, b: Beat) returns (r: Reply<Slot>)
      modifies this
      ensures Did(slot, r) == Create(old(slot), size, server, b)
    {
      slot := Meddled(slot, b);
      if b.fate.Refused? { return Failed(Transport); }
      if slot.Some? { return Failed(AlreadyExists); }
      slot := Some(Vol(size, server));
      r := Answer(b.fate, slot);
    }

    method GetVolume(b: Beat) returns (r: Reply<Slot>)
      modifies this
      ensures Did(slot, r) == Look(old(slot), b)
    {
      slot := Meddled(slot, b);
      r := if b.fate.Works? then Got(slot) else Failed(Transport);
    }

    method ResizeVolume(size: nat, b: Beat) returns (r: Reply<Slot>)
      modifies this
      ensures Did(slot, r) == Resize(old(slot), size, b)
    {
      slot := Meddled(slot, b);
      if b.fate.Refused? { return Failed(Transport); }
      if slot.None? { return Failed(NotFound); }
      if size < slot.value.size { return Failed(WouldShrink); }
      slot := Some(slot.value.(size := size));
      r := Answer(b.fate, slot);
    }

    method DetachVolume(b: Beat) returns (r: Reply<Slot>)
      modifies this
      ensures Did(slot, r) == Detach(old(slot), b)
    {
      slot := Meddled(slot, b);
      if b.fate.Refused? { return Failed(Transport); }
      if slot.None? { return Failed(NotFound); }
      slot := Some(slot.value.(server := 0));
      r := Answer(b.fate, slot);
    }

    method AttachVolume(server: nat, b: Beat) returns (r: Reply<Slot>)
      modifies this
      ensures Did(slot, r) == Attach(old(slot), server, b)
    {
      slot := Meddled(slot, b);
      if b.fate.Refused? { return Failed(Transport); }
      if slot.None? { return Failed(NotFound); }
      if slot.value.server > 0 { return Failed(AlreadyAttached); }
      slot := Some(slot.value.(server := server));
      r := Answer(b.fate, slot);
    }

    method DeleteVolume(b: Beat) returns (r: Reply<Slot>)
      modifies this
      ensures Did(slot, r) == Delete(old(slot), b)
    {
      slot := Meddled(slot, b);
      if b.fate.Refused? { return Failed(Transport); }
      if slot.Some? && slot.value.server > 0 { return Failed(StillAttached); }
      slot := None;
      r := Answer(b.fate, None);
    }
  }

  class VolumeReconciler {
    const cloud: FakeVolume

    constructor (cloud: FakeVolume)
      ensures this.cloud == cloud
    {
      this.cloud := cloud;
    }

    method ReconcileHCloudVolume(obj: HCloudVolume, target: nat, sc: Script) returns (end: End)
      modifies obj`status, cloud
      ensures Outcome(cloud.slot, obj.status, end)
           == Pass(old(cloud.slot), old(obj.status), obj.size, target, sc)
    {
      var found := Got(cloud.slot);
      if found.value.None? { found := cloud.CreateVolume(obj.size, target, sc(AtCreate)); }
      if found.Failed? { return Errored(found.fault); }
      if found.value.None? { return Errored(NotFound); }
      var existing := found.value.value;

      if existing.size < obj.size {
        var r := cloud.ResizeVolume(obj.size, sc(AtResize));
        if r.Failed? { return Errored(r.fault); }
        var refreshed := cloud.GetVolume(sc(AfterResize));
        if refreshed.Failed? { return Errored(refreshed.fault); }
        if refreshed.value.None? { return Errored(Disappeared); }
        existing := refreshed.value.value;
      } else if existing.size > obj.size {
        return Errored(WouldShrink);
      }

      if existing.server != target {
        if existing.server != 0 {
          var r := cloud.DetachVolume(sc(AtDetach));
          if r.Failed? { return Errored(r.fault); }
        }
        if target != 0 {
          var r := cloud.AttachVolume(target, sc(AtAttach));
          if r.Failed? { return Errored(r.fault); }
          existing := existing.(server := target);
        }
      }
      obj.status := Status(true, existing.server, existing.size);
      end := Finished;
    }

    method DeleteHCloudVolume(obj: HCloudVolume, sc: Script) returns (r: Reply<Slot>)
      modifies cloud
      ensures Did(cloud.slot, r) == DeletePass(old(cloud.slot), obj.status, sc)
    {
      if !obj.status.known { return Got(cloud.slot); }
      var attached := obj.status.attached;
      r := cloud.GetVolume(sc(AtLook));
      if r.Failed? { return; }
      if r.value.Some? && r.value.value.server != 0 { attached := r.value.value.server; }
      if attached != 0 {
        r := cloud.DetachVolume(sc(AtRelease));
        if r.Failed? { return; }
      }
      r := cloud.DeleteVolume(sc(AtDelete));
    }
  }
}

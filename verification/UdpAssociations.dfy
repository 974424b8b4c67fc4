/** The Core's UDP service: its table of associations, each with a replay window,
    and what it delivers and answers over whole runs. */
module UdpAssociations {
  import opened Wrappers
  import opened Words
  import opened Bytes
  import Sets
  import opened UdpFrame
  import opened ReplayWindow

  const MAX_ASSOCIATIONS: nat := 1024
  const IDLE: nat := 90_000_000_000

  type Source = nat

  // ----- What the service promises -------------------------------------------

  datatype Association = Association(keyId: Id, source: Source, accepted: set<Word>, lastSeen: int)

  type Table = map<Id, Association>

  function Swept(t: Table, now: int): Table {
    map id | id in t && t[id].lastSeen >= now - IDLE :: t[id]
  }

  /** The table once there is room for a new association, if there can be. */
  function MakeRoom(t: Table, id: Id, now: int): Table {
    if id in t || |t| < MAX_ASSOCIATIONS then t else Swept(t, now)
  }

  /** Only its own key and source may go on using an association. */
  function Use(t: Table, d: Datagram, source: Source, now: int): (Table, bool)
    requires d.association in t
  {
    var a := t[d.association];
    if a.keyId != d.keyId || a.source != source || !Acceptable(a.accepted, d.sequence) then (t, false)
    else (t[d.association := a.(accepted := a.accepted + {d.sequence}, lastSeen := now)], true)
  }

  /** An authenticated datagram meets its association; the first one creates it. */
  function Admit(t: Table, d: Datagram, source: Source, now: int): (Table, bool) {
    var room := MakeRoom(t, d.association, now);
    if d.association in room then Use(room, d, source, now)
    else if |room| >= MAX_ASSOCIATIONS then (room, false)
    else Use(room[d.association := Association(d.keyId, source, {}, 0)], d, source, now)
  }

  /** `slot` says whether one of the in-flight packet slots was free. */
  ghost function Handle(service: Service, t: Table, frame: seq<Byte>, source: Source, now: int, slot: bool): (Table, Option<Datagram>) {
    match ParseOutbound(service, frame)
    case None => (t, None)
    case Some(d) =>
      var (t', admitted) := Admit(t, d, source, now);
      (t', if admitted && slot then Some(d) else None)
  }

  // ----- Whole runs ----------------------------------------------------------

  datatype Step = Frame(frame: seq<Byte>, source: Source, now: int, slot: bool) | Sweep(at: int)

  ghost function Next(service: Service, t: Table, step: Step): (Table, Option<Datagram>) {
    match step
    case Frame(frame, source, now, slot) => Handle(service, t, frame, source, now, slot)
    case Sweep(at) => (Swept(t, at), None)
  }

  ghost function After(service: Service, t: Table, steps: seq<Step>): Table
    decreases |steps|
  {
    if steps == [] then t else After(service, Next(service, t, steps[0]).0, steps[1..])
  }

  /** The association is in the table at every point of the run. */
  ghost predicate StaysListed(service: Service, t: Table, steps: seq<Step>, id: Id)
    decreases |steps|
  {
    id in t && (steps != [] ==> StaysListed(service, Next(service, t, steps[0]).0, steps[1..], id))
  }

  predicate Inherits(a: Association, b: Association) {
    b.keyId == a.keyId && b.source == a.source && a.accepted <= b.accepted
  }

  lemma StepInherits(service: Service, t: Table, step: Step, id: Id)
    requires id in t && id in Next(service, t, step).0
    ensures Inherits(t[id], Next(service, t, step).0[id])
  {
  }

  lemma {:induction false} RunInherits(service: Service, t: Table, steps: seq<Step>, id: Id)
    requires StaysListed(service, t, steps, id)
    ensures id in After(service, t, steps) && Inherits(t[id], After(service, t, steps)[id])
    decreases |steps|
  {
    if steps != [] {
      StepInherits(service, t, steps[0], id);
      RunInherits(service, Next(service, t, steps[0]).0, steps[1..], id);
    }
  }

  lemma DeliveryIsRecorded(service: Service, t: Table, step: Step)
    requires Next(service, t, step).1.Some?
    ensures
      var d := Next(service, t, step).1.value;
      var t' := Next(service, t, step).0;
      && d.association in t' && d.sequence in t'[d.association].accepted
      && (d.association in t ==> d.sequence !in t[d.association].accepted)
      && t'[d.association].keyId == d.keyId && step.Frame? && t'[d.association].source == step.source
  {
  }

  /** While an association lives, no sequence number of it is delivered twice, and
      only the key and the source that opened it are ever delivered from. */
  lemma DeliveredOnce(service: Service, t: Table, first: Step, between: seq<Step>, second: Step)
    requires Next(service, t, first).1.Some?
    requires StaysListed(service, Next(service, t, first).0, between, Next(service, t, first).1.value.association)
    requires Next(service, After(service, Next(service, t, first).0, between), second).1.Some?
    ensures
      var d := Next(service, t, first).1.value;
      var e := Next(service, After(service, Next(service, t, first).0, between), second).1.value;
      d.association == e.association ==>
        && d.sequence != e.sequence && d.keyId == e.keyId
        && first.Frame? && second.Frame? && first.source == second.source
  {
    var t1 := Next(service, t, first).0;
    var t2 := After(service, t1, between);
    var d := Next(service, t, first).1.value;
    var e := Next(service, t2, second).1.value;
    DeliveryIsRecorded(service, t, first);
    RunInherits(service, t1, between, d.association);
    DeliveryIsRecorded(service, t2, second);
    if d.association == e.association {
      StepInherits(service, t2, second, d.association);
    }
  }

  lemma SweepShrinks(t: Table, now: int)
    ensures |Swept(t, now)| <= |t|
  {
    Sets.SubsetSize(Swept(t, now).Keys, t.Keys);
  }

  /** The table never holds more associations than it may. */
  lemma TableIsBounded(service: Service, t: Table, step: Step)
    requires |t| <= MAX_ASSOCIATIONS
    ensures |Next(service, t, step).0| <= MAX_ASSOCIATIONS
  {
    match step
    case Sweep(at) => SweepShrinks(t, at);
    case Frame(frame, source, now, slot) =>
      if ParseOutbound(service, frame).Some? {
        var d := ParseOutbound(service, frame).value;
        SweepShrinks(t, now);
        if d.association in t {
          var t' := Next(service, t, step).0;
          assert t'.Keys == t.Keys;
          assert |t'| == |t'.Keys| && |t| == |t.Keys|;
        }
      }
  }
}

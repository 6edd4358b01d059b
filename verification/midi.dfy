/** The event switch of sampler_midi_thread: what one ALSA sequencer event
    does to the engine. Opening the sequencer, reading events and the error
    paths around them are not modelled; events arrive as values. */
module Midi {
  import opened Global
  import opened SampleStore
  import Controls
  import opened Sampler

  /** The sequencer events the thread reacts to; everything else is Other. */
  datatype Event =
    | NoteOnEvent(note: int, velocity: int)
    | NoteOffEvent(note: int)
    | ControllerEvent(param: int, value: int)
    | PitchBendEvent(value: int)
    | Other

  /** The key and velocity a note event plays, before transposition. */
  function NoteOf(ev: Event): (kv: (int, real))
    requires ev.NoteOnEvent? || ev.NoteOffEvent?
    ensures ev.NoteOffEvent? ==> kv.1 == 0.0
    ensures ev.NoteOnEvent? ==> kv.1 * 127.0 == ev.velocity as real
    ensures kv.0 == ev.note
  {
    if ev.NoteOnEvent? then (ev.note, ev.velocity as real / 127.0) else (ev.note, 0.0)
  }

  /** What the source demands before a note reaches the engine: the
      transposed key indexes the key tables, and the store can serve it
      with slots that hold data. */
  ghost predicate Servable(e: Engine, m: Math, ev: Event)
    requires Inv(e)
  {
    (ev.NoteOnEvent? || ev.NoteOffEvent?) && e.state == Running ==>
      var kv := NoteOf(ev);
      && 0 <= Transposed(e.ctrls, kv.0) < Keys
      && (kv.1 != 0.0 ==> CanSelect(e.store, e.ctrls, m, Transposed(e.ctrls, kv.0), kv.1)
                          && SelectsLoaded(e.store, e.ctrls, m, Transposed(e.ctrls, kv.0), kv.1))
  }

  /** A controller event: the value out of 127 goes to every control bound
      to that controller number, and to no other. */
  function Controller(e: Engine, m: Math, param: int, value: int): (r: Engine)
    requires Inv(e)
    ensures Inv(r) && r == e.(ctrls := r.ctrls) && Pool(r) == Pool(e)
    ensures Controls.OnlyPendingChanged(e.ctrls, r.ctrls)
    ensures r.ctrls.pendingVelocity == e.ctrls.pendingVelocity
    ensures forall i :: 0 <= i < Controls.CtrlCount && e.ctrls.midi[i] == param ==>
      r.ctrls.pending[i] == Controls.Stored(m, i, Controls.Scaled(e.ctrls, i, value as real / 127.0))
    ensures forall i :: 0 <= i < Controls.CtrlCount && e.ctrls.midi[i] != param ==>
      r.ctrls.pending[i] == e.ctrls.pending[i]
  {
    var c := Controls.MidiUpdate(e.ctrls, m, param, value as real / 127.0);
    CtrlsKeepInv(e, c);
    e.(ctrls := c)
  }

  /** A pitch-bend event: the value out of 8192 becomes the pending pitch
      bend, and no other control changes. */
  function Bend(e: Engine, m: Math, value: int): (r: Engine)
    requires Inv(e)
    ensures Inv(r) && r == e.(ctrls := r.ctrls) && Pool(r) == Pool(e)
    ensures Controls.OnlyPendingChanged(e.ctrls, r.ctrls)
    ensures r.ctrls.pendingVelocity == e.ctrls.pendingVelocity
    ensures r.ctrls.pending[Controls.PitchBend] ==
      Controls.Stored(m, Controls.PitchBend, Controls.Scaled(e.ctrls, Controls.PitchBend, value as real / 8192.0))
    ensures forall i :: 0 <= i < Controls.CtrlCount && i != Controls.PitchBend ==>
      r.ctrls.pending[i] == e.ctrls.pending[i]
  {
    var c := Controls.Update(e.ctrls, m, Controls.PitchBend, value as real / 8192.0);
    CtrlsKeepInv(e, c);
    e.(ctrls := c)
  }

  /** One event: ignored unless the engine is running; notes go to the
      note handler (a note-off as velocity 0); controller and pitch-bend
      events change pending controls only and never schedule a voice. */
  function OnEvent(e: Engine, m: Math, ev: Event): (r: (Engine, Push))
    requires Inv(e) && Servable(e, m, ev)
    ensures Inv(r.0) && r.0.state == e.state && Pool(r.0) == Pool(e)
    ensures Controls.OnlyPendingChanged(e.ctrls, r.0.ctrls)
    ensures e.state != Running || ev.Other? ==> r == (e, NoPush)
    ensures ev.ControllerEvent? || ev.PitchBendEvent? ==> r.0 == e.(ctrls := r.0.ctrls) && r.1 == NoPush
    ensures ev.ControllerEvent? && e.state == Running ==> r.0 == Controller(e, m, ev.param, ev.value)
    ensures ev.PitchBendEvent? && e.state == Running ==> r.0 == Bend(e, m, ev.value)
    ensures (ev.NoteOnEvent? || ev.NoteOffEvent?) && e.state == Running ==>
      r == NoteOn(e, m, NoteOf(ev).0, NoteOf(ev).1)
  {
    if e.state != Running then (e, NoPush)
    else
      match ev
      case NoteOnEvent(_, _) => NoteOn(e, m, NoteOf(ev).0, NoteOf(ev).1)
      case NoteOffEvent(_) => NoteOn(e, m, NoteOf(ev).0, NoteOf(ev).1)
      case ControllerEvent(p, v) => (Controller(e, m, p, v), NoPush)
      case PitchBendEvent(v) => (Bend(e, m, v), NoPush)
      case Other => (e, NoPush)
  }

  /** A note-off schedules nothing and only records the released key. */
  lemma NoteOffReleases(e: Engine, m: Math, note: int)
    requires Inv(e) && e.state == Running && Servable(e, m, NoteOffEvent(note))
    ensures var r := OnEvent(e, m, NoteOffEvent(note));
      && r.1 == NoPush && r.0 == e.(ctrls := r.0.ctrls)
      && r.0.ctrls.pendingVelocity[Transposed(e.ctrls, note)] == 0.0
  {
  }
}

/** What the extractor guarantees: how presses and releases change the key
    states, the shape of the notes a release emits (including loop expansion),
    and how tracks share channels and tempo but nothing else. */
module ExtractionFacts {
  import opened MidiTypes
  import opened Progression
  import opened Extraction

  /** A note-on on a released key opens it, whatever its velocity (zero
      included): it records the press time, the velocity and the channel's
      current program, and changes no other key, channel or note. */
  lemma PressOpensKey(st: State, delta: nat, ch: Chan, key: Key, velocity: Data7, tpb: Resolution, env: Env)
    requires st.Shaped() && env.Valid() && !st.keys[key].on
    ensures var r := Step(st, Message(delta, NoteOn(ch, key, velocity)), tpb, env);
      && r.keys[key] == KeyState(true, st.time + TicksToMs(delta, tpb, st.tempo), velocity, st.channels[ch].program)
      && (forall k :: 0 <= k < 128 && k != key ==> r.keys[k] == st.keys[k])
      && r.channels == st.channels && r.tempo == st.tempo && r.notes == st.notes
  {
  }

  /** A note-on with a positive velocity on a key that is already held is ignored. */
  lemma RepressIgnored(st: State, delta: nat, ch: Chan, key: Key, velocity: Data7, tpb: Resolution, env: Env)
    requires st.Shaped() && env.Valid() && st.keys[key].on && velocity > 0
    ensures var r := Step(st, Message(delta, NoteOn(ch, key, velocity)), tpb, env);
      r == st.(time := st.time + TicksToMs(delta, tpb, st.tempo))
  {
  }

  /** A note-off, or a note-on of velocity zero, on a held key releases it and
      appends the notes of the release (at least one), taking the channel and
      pan of the releasing event; a note-off on a released key changes nothing
      but the clock. */
  lemma ReleaseClosesKey(st: State, msg: Message, tpb: Resolution, env: Env)
    requires st.Shaped() && env.Valid()
    requires msg.event.NoteOff? || (msg.event.NoteOn? && msg.event.velocity == 0)
    ensures var key := msg.event.note;
      var ch := msg.event.channel;
      var now := st.time + TicksToMs(msg.delta, tpb, st.tempo);
      var r := Step(st, msg, tpb, env);
      if st.keys[key].on then
        && r.keys == st.keys[key := st.keys[key].(on := false)]
        && r.notes == st.notes + CloseNotes(st.keys[key], key, ch, st.channels[ch].pan, now, env)
        && |r.notes| > |st.notes|
        && r.channels == st.channels && r.tempo == st.tempo
      else
        msg.event.NoteOff? ==> r == st.(time := now)
  {
    var key := msg.event.note;
    var ch := msg.event.channel;
    var now := st.time + TicksToMs(msg.delta, tpb, st.tempo);
    if st.keys[key].on {
      CloseNotesShape(st.keys[key], key, ch, st.channels[ch].pan, now, env);
    }
  }

  /** Program change, tempo change and the pan controller update the shared
      state and nothing else: a program change sets its channel's program, a
      tempo change the tempo, and the pan controller its channel's pan to
      (value - 64) / 64, which lies in [-1, 1); any other controller changes
      nothing but the clock. */
  lemma ControlUpdates(st: State, msg: Message, tpb: Resolution, env: Env)
    requires st.Shaped() && env.Valid()
    requires msg.event.ProgramChange? || msg.event.SetTempo? || msg.event.ControlChange?
    ensures var r := Step(st, msg, tpb, env);
      && r.time == st.time + TicksToMs(msg.delta, tpb, st.tempo)
      && r.keys == st.keys && r.notes == st.notes
      && (!msg.event.SetTempo? ==> r.tempo == st.tempo)
      && (msg.event.ProgramChange? ==>
            r.channels == st.channels[msg.event.channel := st.channels[msg.event.channel].(program := msg.event.program)])
      && (msg.event.SetTempo? ==> r.tempo == msg.event.tempo && r.channels == st.channels)
      && (msg.event.ControlChange? && msg.event.control == PanController ==>
            var pan := (msg.event.value - 64) as real / 64.0;
            && r.channels == st.channels[msg.event.channel := st.channels[msg.event.channel].(pan := pan)]
            && -1.0 <= pan < 1.0)
      && (msg.event.ControlChange? && msg.event.control != PanController ==> r.channels == st.channels)
  {
  }

  /** The notes of one release all carry the key, the captured program and
      velocity, and the releasing channel and pan. A percussion note or a
      non-looping program gives exactly one note at the press time. A looping
      program gives the `frange` progression from the press time with step l
      and bound max(start + l, release - l): at least one note, the first at
      the press time, each next one l later, all below the bound, and the last
      within l of it. */
  lemma CloseNotesShape(k: KeyState, key: Key, ch: Chan, pan: real, now: real, env: Env)
    requires env.Valid()
    ensures var r := CloseNotes(k, key, ch, pan, now, env);
      && |r| >= 1 && r[0].start == k.start
      && (forall i :: 0 <= i < |r| ==>
            r[i] == Note(key, k.program, ch, k.velocity, pan, r[i].start) && r[i].start >= k.start)
      && (ch == PercussionChannel || !env.programs[k.program].loop ==> |r| == 1)
      && (ch != PercussionChannel && env.programs[k.program].loop ==>
            var l := LoopLength(env, k.program, key);
            var bound := LoopBound(k.start, now, l);
            && (forall i :: 0 <= i < |r| ==> r[i].start < bound)
            && (forall i :: 0 <= i < |r| - 1 ==> r[i + 1].start == r[i].start + l)
            && bound <= r[|r| - 1].start + l)
  {
    if ch != PercussionChannel && env.programs[k.program].loop {
      var l := LoopLength(env, k.program, key);
      FRangeShape(k.start, LoopBound(k.start, now, l), l);
    }
  }

  /** A looping note released less than two loop lengths after its press
      emits a single note, exactly as a non-looping one would. */
  lemma ShortLoopEmitsOnce(k: KeyState, key: Key, ch: Chan, pan: real, now: real, env: Env)
    requires env.Valid() && ch != PercussionChannel && env.programs[k.program].loop
    requires now - k.start <= 2.0 * LoopLength(env, k.program, key)
    ensures CloseNotes(k, key, ch, pan, now, env) == [Note(key, k.program, ch, k.velocity, pan, k.start)]
  {
    var l := LoopLength(env, k.program, key);
    assert LoopBound(k.start, now, l) == k.start + l;
    FRangeShape(k.start, k.start + l, l);
  }

  /** A loop of 100 ms at the program's reference key held from 60 ms to
      260 ms: the bound is max(160, 160) = 160, so one note at 60 ms. */
  lemma LoopScenario(env: Env, key: Key, ch: Chan, pan: real, velocity: Data7, program: Data7)
    requires env.Valid() && ch != PercussionChannel
    requires env.programs[program].loop && env.programs[program].length == 100.0
    requires env.programs[program].refNote == key
    ensures CloseNotes(KeyState(true, 60.0, velocity, program), key, ch, pan, 260.0, env)
         == [Note(key, program, ch, velocity, pan, 60.0)]
  {
    assert LoopLength(env, program, key) == 100.0;
    assert FRange(160.0, 160.0, 100.0) == [];
    assert FRange(60.0, 160.0, 100.0) == [60.0] + FRange(160.0, 160.0, 100.0);
  }

  /** A track only appends notes: running it from any state gives that
      state's notes followed by what it gives from the same state with no
      notes, and the rest of the final state does not depend on the notes. */
  lemma {:induction false} TrackAppendsNotes(st: State, msgs: seq<Message>, tpb: Resolution, env: Env)
    requires st.Shaped() && env.Valid()
    ensures var r := RunTrack(st, msgs, tpb, env);
      var r0 := RunTrack(st.(notes := []), msgs, tpb, env);
      r == r0.(notes := st.notes + r0.notes)
  {
    if |msgs| > 0 {
      var init := msgs[..|msgs| - 1];
      TrackAppendsNotes(st, init, tpb, env);
      var p0 := RunTrack(st.(notes := []), init, tpb, env);
      StepAppendsNotes(p0, msgs[|msgs| - 1], st.notes, tpb, env);
    }
  }

  /** One message treats the notes collected so far as an opaque prefix. */
  lemma StepAppendsNotes(st: State, msg: Message, prefix: seq<Note>, tpb: Resolution, env: Env)
    requires st.Shaped() && env.Valid()
    ensures var r := Step(st, msg, tpb, env);
      Step(st.(notes := prefix + st.notes), msg, tpb, env) == r.(notes := prefix + r.notes)
  {
  }

  /** Key states and the clock start afresh for every track, so the notes a
      track adds depend only on the channels and the tempo it inherits: keys
      still held at the end of the previous track emit nothing. */
  lemma TrackIndependence(s1: State, s2: State, msgs: seq<Message>, tpb: Resolution, env: Env)
    requires s1.Shaped() && s2.Shaped() && env.Valid()
    requires s1.channels == s2.channels && s1.tempo == s2.tempo
    ensures var r1 := RunTrack(StartTrack(s1), msgs, tpb, env);
      var r2 := RunTrack(StartTrack(s2), msgs, tpb, env);
      && |s1.notes| <= |r1.notes| && |s2.notes| <= |r2.notes|
      && r1.notes[|s1.notes|..] == r2.notes[|s2.notes|..]
      && r1.channels == r2.channels && r1.tempo == r2.tempo
  {
    TrackAppendsNotes(StartTrack(s1), msgs, tpb, env);
    TrackAppendsNotes(StartTrack(s2), msgs, tpb, env);
    assert StartTrack(s1).(notes := []) == StartTrack(s2).(notes := []);
  }

  /** The notes collected from the first n tracks are a prefix of those
      collected from all of them: later tracks never retract a note. */
  lemma {:induction false} TracksOnlyAppend(st: State, tracks: seq<seq<Message>>, n: nat, tpb: Resolution, env: Env)
    requires st.Shaped() && env.Valid() && n <= |tracks|
    ensures RunTracks(st, tracks[..n], tpb, env).notes <= RunTracks(st, tracks, tpb, env).notes
    decreases |tracks|
  {
    if n < |tracks| {
      var init := tracks[..|tracks| - 1];
      assert init[..n] == tracks[..n];
      TracksOnlyAppend(st, init, n, tpb, env);
      var p := RunTracks(st, init, tpb, env);
      TrackAppendsNotes(StartTrack(p), tracks[|tracks| - 1], tpb, env);
    } else {
      assert tracks[..n] == tracks;
    }
  }
}

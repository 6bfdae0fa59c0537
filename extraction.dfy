/** `midi_to_note_list`: walks every track of a MIDI file, keeps per-key and
    per-channel state, and collects one note per key press (several for a
    looping program), sorted by start time. */
module Extraction {
  import opened MidiTypes
  import opened Progression
  import opened StableSort

  /** The program and pan last set on a channel. */
  datatype ChannelState = ChannelState(program: Data7, pan: real)

  /** What a key remembers while it is held: the time, velocity and program of the press. */
  datatype KeyState = KeyState(on: bool, start: real, velocity: Data7, program: Data7)

  const InitialChannel := ChannelState(0, 0.0)
  const InitialKey := KeyState(false, 0.0, 64, 0)
  /** 120 beats per minute, in microseconds per quarter note. */
  const DefaultTempo: nat := 500000
  /** Controller 10 is pan. */
  const PanController: Data7 := 10

  /** Everything the extractor keeps: channels and tempo live across tracks,
      keys and the clock are per track, notes are collected over the whole file. */
  datatype State = State(channels: seq<ChannelState>, tempo: nat, keys: seq<KeyState>, time: real, notes: seq<Note>)
  {
    predicate Shaped() {
      |channels| == 16 && |keys| == 128
    }
  }

  function InitialKeys(): (ks: seq<KeyState>)
    ensures |ks| == 128 && forall k :: 0 <= k < 128 ==> ks[k] == InitialKey
  {
    seq(128, _ => InitialKey)
  }

  /** Every channel at program 0 and centre pan, the default tempo, nothing collected. */
  function InitialState(): (st: State)
    ensures st.Shaped()
  {
    State(seq(16, _ => InitialChannel), DefaultTempo, InitialKeys(), 0.0, [])
  }

  /** Delta ticks to milliseconds at a tempo given in microseconds per quarter note. */
  function TicksToMs(ticks: nat, tpb: Resolution, tempo: nat): (ms: real)
    ensures ms >= 0.0
    ensures ticks == 0 ==> ms == 0.0
  {
    (ticks as real) * (tempo as real) / (1000.0 * tpb as real)
  }

  /** The length of one loop of a looping program, shortened for higher keys
      by the pitch ratio of the key against the program's reference key. */
  function LoopLength(env: Env, program: Data7, key: Key): (l: real)
    requires env.Valid() && env.programs[program].loop
    ensures l > 0.0
  {
    env.programs[program].length / env.ratio(key - env.programs[program].refNote)
  }

  /** One copy of proto per time, in order. */
  function Copies(proto: Note, times: seq<real>): (r: seq<Note>)
    ensures |r| == |times|
    ensures forall i :: 0 <= i < |times| ==> r[i] == proto.(start := times[i])
  {
    if |times| == 0 then [] else Copies(proto, times[..|times| - 1]) + [proto.(start := times[|times| - 1])]
  }

  /** The upper bound handed to `frange` for a looping note. */
  function LoopBound(start: real, now: real, l: real): real {
    Max(start + l, now - l)
  }

  /** The notes emitted when key `key`, in state k, is closed at time `now`
      by an event on channel ch whose pan is `pan`. */
  function CloseNotes(k: KeyState, key: Key, ch: Chan, pan: real, now: real, env: Env): seq<Note>
    requires env.Valid()
  {
    var proto := Note(key, k.program, ch, k.velocity, pan, k.start);
    if ch != PercussionChannel && env.programs[k.program].loop then
      var l := LoopLength(env, k.program, key);
      Copies(proto, FRange(k.start, LoopBound(k.start, now, l), l))
    else
      [proto]
  }

  /** Closes a held key: marks it released and emits its notes. */
  function Close(st: State, ch: Chan, key: Key, env: Env): (r: State)
    requires st.Shaped() && env.Valid()
  {
    st.(keys := st.keys[key := st.keys[key].(on := false)],
        notes := st.notes + CloseNotes(st.keys[key], key, ch, st.channels[ch].pan, st.time, env))
  }

  /** One event: advance the clock at the current tempo, then act on the event. */
  function Step(st: State, msg: Message, tpb: Resolution, env: Env): (r: State)
    requires st.Shaped() && env.Valid()
    ensures r.Shaped()
  {
    var st := st.(time := st.time + TicksToMs(msg.delta, tpb, st.tempo));
    match msg.event
    case NoteOn(ch, key, velocity) =>
      if !st.keys[key].on then
        st.(keys := st.keys[key := KeyState(true, st.time, velocity, st.channels[ch].program)])
      else if velocity == 0 then
        Close(st, ch, key, env)
      else
        st
    case NoteOff(ch, key, _) =>
      if st.keys[key].on then Close(st, ch, key, env) else st
    case ProgramChange(ch, program) =>
      st.(channels := st.channels[ch := st.channels[ch].(program := program)])
    case SetTempo(tempo) =>
      st.(tempo := tempo)
    case ControlChange(ch, control, value) =>
      if control == PanController then
        st.(channels := st.channels[ch := st.channels[ch].(pan := (value - 64) as real / 64.0)])
      else
        st
    case Other =>
      st
  }

  /** The state after the first |msgs| events of a track. */
  function RunTrack(st: State, msgs: seq<Message>, tpb: Resolution, env: Env): (r: State)
    requires st.Shaped() && env.Valid()
    ensures r.Shaped()
  {
    if |msgs| == 0 then st
    else Step(RunTrack(st, msgs[..|msgs| - 1], tpb, env), msgs[|msgs| - 1], tpb, env)
  }

  /** A new track starts with every key released and the clock at zero. */
  function StartTrack(st: State): State {
    st.(keys := InitialKeys(), time := 0.0)
  }

  function RunTracks(st: State, tracks: seq<seq<Message>>, tpb: Resolution, env: Env): (r: State)
    requires st.Shaped() && env.Valid()
    ensures r.Shaped()
  {
    if |tracks| == 0 then st
    else RunTrack(StartTrack(RunTracks(st, tracks[..|tracks| - 1], tpb, env)), tracks[|tracks| - 1], tpb, env)
  }

  /** The notes collected from a file, in collection order. */
  function CollectNotes(file: MidiFile, env: Env): seq<Note>
    requires env.Valid()
  {
    RunTracks(InitialState(), file.tracks, file.ticksPerBeat, env).notes
  }

  /** The note list handed to the scheduler. */
  function NoteList(file: MidiFile, env: Env): seq<Note>
    requires env.Valid()
  {
    SortByStart(CollectNotes(file, env))
  }

  // ---------------------------------------------------------------------
  // The imperative extractor

  /** Emits the notes of a closed key: one per `frange` value for a looping
      melodic program, otherwise one at the press time. */
  method EmitClosed(k: KeyState, key: Key, ch: Chan, pan: real, now: real, env: Env, notes: seq<Note>)
    returns (notes': seq<Note>)
    requires env.Valid()
    ensures notes' == notes + CloseNotes(k, key, ch, pan, now, env)
  {
    var proto := Note(key, k.program, ch, k.velocity, pan, k.start);
    if ch != PercussionChannel && env.programs[k.program].loop {
      var l := LoopLength(env, k.program, key);
      var times := FRangeLoop(k.start, LoopBound(k.start, now, l), l);
      notes' := notes;
      for m := 0 to |times|
        invariant notes' == notes + Copies(proto, times[..m])
      {
        assert times[..m + 1][..m] == times[..m];
        notes' := notes' + [proto.(start := times[m])];
      }
      assert times[..|times|] == times;
    } else {
      notes' := notes + [proto];
    }
  }

  /** One event of a track, acting in place on the channel and key arrays. */
  method ProcessMessage(channels: array<ChannelState>, keys: array<KeyState>, tempo: nat, time: real,
                        notes: seq<Note>, msg: Message, tpb: Resolution, env: Env)
    returns (tempo': nat, time': real, notes': seq<Note>)
    requires channels.Length == 16 && keys.Length == 128 && env.Valid()
    modifies channels, keys
    ensures State(channels[..], tempo', keys[..], time', notes')
         == Step(State(old(channels[..]), tempo, old(keys[..]), time, notes), msg, tpb, env)
  {
    tempo', time', notes' := tempo, time + TicksToMs(msg.delta, tpb, tempo), notes;
    match msg.event
    case NoteOn(ch, key, velocity) =>
      if !keys[key].on {
        keys[key] := KeyState(true, time', velocity, channels[ch].program);
      } else if velocity == 0 {
        var k := keys[key];
        keys[key] := k.(on := false);
        notes' := EmitClosed(k, key, ch, channels[ch].pan, time', env, notes');
      }
    case NoteOff(ch, key, _) =>
      if keys[key].on {
        var k := keys[key];
        keys[key] := k.(on := false);
        notes' := EmitClosed(k, key, ch, channels[ch].pan, time', env, notes');
      }
    case ProgramChange(ch, program) =>
      channels[ch] := channels[ch].(program := program);
    case SetTempo(tempo) =>
      tempo' := tempo;
    case ControlChange(ch, control, value) =>
      if control == PanController {
        channels[ch] := channels[ch].(pan := (value - 64) as real / 64.0);
      }
    case Other =>
  }

  /** The extractor: every track in turn, then a stable sort by start time. */
  method MidiToNoteList(file: MidiFile, env: Env) returns (notes: seq<Note>)
    requires env.Valid()
    ensures notes == NoteList(file, env)
    ensures SortedByStart(notes)
    ensures multiset(notes) == multiset(CollectNotes(file, env))
  {
    var channels := new ChannelState[16](_ => InitialChannel);
    var tempo := DefaultTempo;
    var collected: seq<Note> := [];
    var tracks := file.tracks;
    var tpb := file.ticksPerBeat;
    assert channels[..] == InitialState().channels;
    for i := 0 to |tracks|
      invariant var s := RunTracks(InitialState(), tracks[..i], tpb, env);
        channels[..] == s.channels && tempo == s.tempo && collected == s.notes
    {
      ghost var before := StartTrack(RunTracks(InitialState(), tracks[..i], tpb, env));
      assert tracks[..i + 1][..i] == tracks[..i];
      var keys := new KeyState[128](_ => InitialKey);
      var time := 0.0;
      assert keys[..] == InitialKeys();
      var track := tracks[i];
      for j := 0 to |track|
        invariant State(channels[..], tempo, keys[..], time, collected) == RunTrack(before, track[..j], tpb, env)
      {
        assert track[..j + 1][..j] == track[..j];
        tempo, time, collected := ProcessMessage(channels, keys, tempo, time, collected, track[j], tpb, env);
      }
      assert track[..|track|] == track;
    }
    assert tracks[..|tracks|] == tracks;
    notes := SortByStart(collected);
    SortByStartCorrect(collected);
  }
}

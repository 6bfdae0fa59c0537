/** The values the note compiler works on: MIDI events as the parser delivers
    them, the notes extracted from them, the instrument tables and the
    emission configuration. */
module MidiTypes {

  /** A MIDI key number (7 bits). */
  type Key = k: int | 0 <= k < 128
  /** A MIDI channel number (4 bits). */
  type Chan = c: int | 0 <= c < 16
  /** Any other 7-bit data byte: velocity, program number, controller number or value. */
  type Data7 = v: int | 0 <= v < 128
  /** Ticks per quarter note of a file. */
  type Resolution = t: int | 0 < t witness 1

  /** Channel 10 in MIDI's one-based numbering selects percussion sounds by key. */
  const PercussionChannel: Chan := 9

  /** The events of a track that the compiler looks at; every other event is `Other`. */
  datatype Event =
    | NoteOn(channel: Chan, note: Key, velocity: Data7)
    | NoteOff(channel: Chan, note: Key, velocity: Data7)
    | ProgramChange(channel: Chan, program: Data7)
    | SetTempo(tempo: nat)
    | ControlChange(channel: Chan, control: Data7, value: Data7)
    | Other

  /** An event with its delta time in ticks since the previous event of the track. */
  datatype Message = Message(delta: nat, event: Event)

  /** A parsed MIDI file: its resolution and its tracks. */
  datatype MidiFile = MidiFile(ticksPerBeat: Resolution, tracks: seq<seq<Message>>)

  /** One extracted note: the key, the program captured when the key opened,
      the channel and pan of the closing event, the opening velocity and
      the start time in milliseconds. */
  datatype Note = Note(key: Key, program: Data7, channel: Chan, velocity: Data7, pan: real, start: real)
  {
    predicate IsDrum() {
      channel == PercussionChannel
    }
  }

  /** A melodic instrument: sound, the key the sample is recorded at, volume
      multiplier, whether it loops and the length of one loop in ms. */
  datatype Program = Program(sound: string, refNote: int, volume: real, loop: bool, length: real)

  /** A percussion sound: sound, fixed pitch multiplier and volume multiplier. */
  datatype Drum = Drum(sound: string, pitch: real, volume: real)

  /** The resolved instrument tables together with two values the runtime
      computes in floating point: `ratio(d)` for 2 ** (d / 12) (d semitones
      as a frequency ratio), and `loudness(v, m)` for (v / 127) * 2 * m (the
      volume of velocity v on an instrument of volume multiplier m). */
  datatype Env = Env(programs: seq<Program>, drums: seq<Drum>, ratio: int -> real,
                     loudness: (Data7, real) -> real)
  {
    ghost predicate Valid() {
      && |programs| == 128
      && |drums| == 128
      && (forall p :: 0 <= p < 128 && programs[p].loop ==> programs[p].length > 0.0)
      && (forall d :: ratio(d) > 0.0)
      && ratio(0) == 1.0 && ratio(12) == 2.0 && ratio(-12) == 0.5
    }

    /** Pitch multiplier of a melodic note: its distance in semitones from the program's reference key. */
    function PitchRatio(note: Note): (r: real)
      requires Valid()
      ensures r > 0.0
    {
      ratio(note.key - programs[note.program].refNote)
    }
  }

  /** Emission switches: visual effects, positional playback and its target, overlap limiting. */
  datatype Config = Config(vfx: bool, positional: bool, posX: string, posY: string, limit: bool)


  function Max(a: real, b: real): (m: real)
    ensures m >= a && m >= b && (m == a || m == b)
  {
    if b > a then b else a
  }
}

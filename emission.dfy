/** The instructions appended for one note (`append_note_proc` and the six
    `try_add_code_*` functions), as structured lines, and their text. */
module Emission {
  import opened MidiTypes

  /** One line of processor code. */
  datatype Line =
    | Raw(text: string)
      /** op add wait_time start_time {time} */
    | WaitUntil(time: real)
      /** Label{id}: */
    | LabelDef(id: nat)
      /** jump Label{id} lessThan @time wait_time */
    | JumpBack(id: nat)
      /** effect wave {x} {y} 1.5 {colour of hueKey / 127} */
    | EffectWave(x: string, y: string, hueKey: Key)
      /** effect placeBlock {x} {y} 1 */
    | EffectPlaceBlock(x: string, y: string)
      /** playsound {positional} {sound} {volume} {pitch} {pan} {x} {y} {limit} */
    | PlaySound(positional: bool, sound: string, volume: real, pitch: real, pan: real,
                x: string, y: string, limit: nat)

  /** `int(args.limit)` */
  function LimitFlag(cfg: Config): (n: nat)
    ensures n <= 1 && (n == 1 <==> cfg.limit)
  {
    if cfg.limit then 1 else 0
  }

  // The six conditional appends, in the order append_note_proc applies them.

  function TryAddEffectNote(code: seq<Line>, note: Note, cfg: Config): (r: seq<Line>)
    ensures code <= r && |r| <= |code| + 1
  {
    if cfg.vfx && !note.IsDrum() then code + [EffectWave(cfg.posX, cfg.posY, note.key)] else code
  }

  function TryAddEffectDrum(code: seq<Line>, note: Note, cfg: Config): (r: seq<Line>)
    ensures code <= r && |r| <= |code| + 1
  {
    if cfg.vfx && note.IsDrum() then code + [EffectPlaceBlock(cfg.posX, cfg.posY)] else code
  }

  function TryAddSoundNoteGlobal(code: seq<Line>, note: Note, env: Env, cfg: Config): (r: seq<Line>)
    requires env.Valid()
    ensures code <= r && |r| <= |code| + 1
  {
    if !note.IsDrum() && !cfg.positional then
      var p := env.programs[note.program];
      code + [PlaySound(false, p.sound, env.loudness(note.velocity, p.volume), env.PitchRatio(note), note.pan,
                        "0", "0", LimitFlag(cfg))]
    else code
  }

  function TryAddSoundDrumGlobal(code: seq<Line>, note: Note, env: Env, cfg: Config): (r: seq<Line>)
    requires env.Valid()
    ensures code <= r && |r| <= |code| + 1
  {
    if note.IsDrum() && !cfg.positional then
      var d := env.drums[note.key];
      code + [PlaySound(false, d.sound, env.loudness(note.velocity, d.volume), d.pitch, note.pan,
                        "0", "0", LimitFlag(cfg))]
    else code
  }

  function TryAddSoundNotePositional(code: seq<Line>, note: Note, env: Env, cfg: Config): (r: seq<Line>)
    requires env.Valid()
    ensures code <= r && |r| <= |code| + 1
  {
    if !note.IsDrum() && cfg.positional then
      var p := env.programs[note.program];
      code + [PlaySound(true, p.sound, env.loudness(note.velocity, p.volume), env.PitchRatio(note), 0.0,
                        cfg.posX, cfg.posY, LimitFlag(cfg))]
    else code
  }

  function TryAddSoundDrumPositional(code: seq<Line>, note: Note, env: Env, cfg: Config): (r: seq<Line>)
    requires env.Valid()
    ensures code <= r && |r| <= |code| + 1
  {
    if note.IsDrum() && cfg.positional then
      var d := env.drums[note.key];
      code + [PlaySound(true, d.sound, env.loudness(note.velocity, d.volume), d.pitch, 0.0,
                        cfg.posX, cfg.posY, LimitFlag(cfg))]
    else code
  }

  /** The busy-wait: compute the target time, then loop on the label until
      the processor clock reaches it. */
  function WaitLines(note: Note, increment: nat): seq<Line> {
    [WaitUntil(note.start), LabelDef(increment), JumpBack(increment)]
  }

  /** The code update of append_note_proc: the wait lines, then the six conditional appends. */
  function EmitNote(code: seq<Line>, note: Note, increment: nat, env: Env, cfg: Config): seq<Line>
    requires env.Valid()
  {
    var c := code + WaitLines(note, increment);
    var c := TryAddEffectNote(c, note, cfg);
    var c := TryAddEffectDrum(c, note, cfg);
    var c := TryAddSoundNoteGlobal(c, note, env, cfg);
    var c := TryAddSoundDrumGlobal(c, note, env, cfg);
    var c := TryAddSoundNotePositional(c, note, env, cfg);
    TryAddSoundDrumPositional(c, note, env, cfg)
  }

  // A reference description of the same fragment, case by case.

  /** The effect line: none without effects, a coloured wave for a melodic
      note, a block placement for a percussion note. */
  function EffectLines(note: Note, cfg: Config): seq<Line> {
    if !cfg.vfx then []
    else if note.IsDrum() then [EffectPlaceBlock(cfg.posX, cfg.posY)]
    else [EffectWave(cfg.posX, cfg.posY, note.key)]
  }

  /** The sound to play: a melodic note uses its program's sound, volume and
      pitch ratio; a percussion note uses its key's drum sound, volume and
      fixed pitch. */
  function Instrument(note: Note, env: Env): (string, real, real)
    requires env.Valid()
  {
    if note.IsDrum() then
      var d := env.drums[note.key];
      (d.sound, env.loudness(note.velocity, d.volume), d.pitch)
    else
      var p := env.programs[note.program];
      (p.sound, env.loudness(note.velocity, p.volume), env.PitchRatio(note))
  }

  /** Global playback passes the note's pan and no position; positional
      playback passes pan 0 and the configured position. */
  function SoundLine(note: Note, env: Env, cfg: Config): Line
    requires env.Valid()
  {
    var (sound, volume, pitch) := Instrument(note, env);
    if cfg.positional then PlaySound(true, sound, volume, pitch, 0.0, cfg.posX, cfg.posY, LimitFlag(cfg))
    else PlaySound(false, sound, volume, pitch, note.pan, "0", "0", LimitFlag(cfg))
  }

  function Fragment(note: Note, increment: nat, env: Env, cfg: Config): seq<Line>
    requires env.Valid()
  {
    WaitLines(note, increment) + EffectLines(note, cfg) + [SoundLine(note, env, cfg)]
  }

  /** The six conditional appends add exactly the reference fragment: of the
      four sound conditions exactly one holds, of the two effect conditions at
      most one, and both effect conditions fail without effects. */
  lemma EmitNoteIsFragment(code: seq<Line>, note: Note, increment: nat, env: Env, cfg: Config)
    requires env.Valid()
    ensures EmitNote(code, note, increment, env, cfg) == code + Fragment(note, increment, env, cfg)
  {
  }

  // Counting lines of each kind.

  function CountSounds(code: seq<Line>): nat {
    if |code| == 0 then 0 else (if code[0].PlaySound? then 1 else 0) + CountSounds(code[1..])
  }

  function CountEffects(code: seq<Line>): nat {
    if |code| == 0 then 0
    else (if code[0].EffectWave? || code[0].EffectPlaceBlock? then 1 else 0) + CountEffects(code[1..])
  }

  /** The numbers of the labels a piece of code defines, in order. */
  function LabelNumbers(code: seq<Line>): seq<nat> {
    if |code| == 0 then [] else (if code[0].LabelDef? then [code[0].id] else []) + LabelNumbers(code[1..])
  }

  /** The numbers of the labels a piece of code jumps to, in order. */
  function JumpNumbers(code: seq<Line>): seq<nat> {
    if |code| == 0 then [] else (if code[0].JumpBack? then [code[0].id] else []) + JumpNumbers(code[1..])
  }

  /** The wait targets of a piece of code, in order. */
  function WaitTimes(code: seq<Line>): seq<real> {
    if |code| == 0 then [] else (if code[0].WaitUntil? then [code[0].time] else []) + WaitTimes(code[1..])
  }

  lemma {:induction false} SoundsDistribute(a: seq<Line>, b: seq<Line>)
    ensures CountSounds(a + b) == CountSounds(a) + CountSounds(b)
  {
    if |a| > 0 {
      SoundsDistribute(a[1..], b);
      assert (a + b)[1..] == a[1..] + b;
    } else {
      assert a + b == b;
    }
  }

  lemma {:induction false} EffectsDistribute(a: seq<Line>, b: seq<Line>)
    ensures CountEffects(a + b) == CountEffects(a) + CountEffects(b)
  {
    if |a| > 0 {
      EffectsDistribute(a[1..], b);
      assert (a + b)[1..] == a[1..] + b;
    } else {
      assert a + b == b;
    }
  }

  lemma {:induction false} LabelsDistribute(a: seq<Line>, b: seq<Line>)
    ensures LabelNumbers(a + b) == LabelNumbers(a) + LabelNumbers(b)
  {
    if |a| > 0 {
      LabelsDistribute(a[1..], b);
      assert (a + b)[1..] == a[1..] + b;
    } else {
      assert a + b == b;
    }
  }

  lemma {:induction false} JumpsDistribute(a: seq<Line>, b: seq<Line>)
    ensures JumpNumbers(a + b) == JumpNumbers(a) + JumpNumbers(b)
  {
    if |a| > 0 {
      JumpsDistribute(a[1..], b);
      assert (a + b)[1..] == a[1..] + b;
    } else {
      assert a + b == b;
    }
  }

  lemma {:induction false} WaitsDistribute(a: seq<Line>, b: seq<Line>)
    ensures WaitTimes(a + b) == WaitTimes(a) + WaitTimes(b)
  {
    if |a| > 0 {
      WaitsDistribute(a[1..], b);
      assert (a + b)[1..] == a[1..] + b;
    } else {
      assert a + b == b;
    }
  }

  /** Every count of a concatenation is the sum, or concatenation, of the counts of its parts. */
  lemma CountsDistribute(a: seq<Line>, b: seq<Line>)
    ensures CountSounds(a + b) == CountSounds(a) + CountSounds(b)
    ensures CountEffects(a + b) == CountEffects(a) + CountEffects(b)
    ensures LabelNumbers(a + b) == LabelNumbers(a) + LabelNumbers(b)
    ensures JumpNumbers(a + b) == JumpNumbers(a) + JumpNumbers(b)
    ensures WaitTimes(a + b) == WaitTimes(a) + WaitTimes(b)
  {
    SoundsDistribute(a, b);
    EffectsDistribute(a, b);
    LabelsDistribute(a, b);
    JumpsDistribute(a, b);
    WaitsDistribute(a, b);
  }

  lemma SingleLineCounts(line: Line)
    ensures CountSounds([line]) == (if line.PlaySound? then 1 else 0)
    ensures CountEffects([line]) == (if line.EffectWave? || line.EffectPlaceBlock? then 1 else 0)
    ensures LabelNumbers([line]) == (if line.LabelDef? then [line.id] else [])
    ensures JumpNumbers([line]) == (if line.JumpBack? then [line.id] else [])
    ensures WaitTimes([line]) == (if line.WaitUntil? then [line.time] else [])
  {
  }

  lemma WaitLinesCounts(note: Note, increment: nat)
    ensures var w := WaitLines(note, increment);
      && CountSounds(w) == 0 && CountEffects(w) == 0
      && LabelNumbers(w) == [increment] && JumpNumbers(w) == [increment]
      && WaitTimes(w) == [note.start]
  {
    var w := WaitLines(note, increment);
    assert w == [w[0]] + ([w[1]] + [w[2]]);
    CountsDistribute([w[0]], [w[1]] + [w[2]]);
    CountsDistribute([w[1]], [w[2]]);
    SingleLineCounts(w[0]);
    SingleLineCounts(w[1]);
    SingleLineCounts(w[2]);
  }

  lemma EffectLinesCounts(note: Note, cfg: Config)
    ensures var e := EffectLines(note, cfg);
      && CountSounds(e) == 0 && CountEffects(e) == (if cfg.vfx then 1 else 0)
      && LabelNumbers(e) == [] && JumpNumbers(e) == [] && WaitTimes(e) == []
  {
  }

  /** One note's fragment holds one wait, one label, one jump, at most one
      effect line and exactly one playsound line. */
  lemma FragmentCounts(note: Note, increment: nat, env: Env, cfg: Config)
    requires env.Valid()
    ensures var f := Fragment(note, increment, env, cfg);
      && CountSounds(f) == 1
      && CountEffects(f) == (if cfg.vfx then 1 else 0)
      && LabelNumbers(f) == [increment]
      && JumpNumbers(f) == [increment]
      && WaitTimes(f) == [note.start]
  {
    var w := WaitLines(note, increment);
    var e := EffectLines(note, cfg);
    var line := SoundLine(note, env, cfg);
    assert line.PlaySound?;
    assert Fragment(note, increment, env, cfg) == w + e + [line];
    CountsDistribute(w + e, [line]);
    CountsDistribute(w, e);
    WaitLinesCounts(note, increment);
    EffectLinesCounts(note, cfg);
    SingleLineCounts(line);
  }

  /** Appending one note's fragment only appends: the old code stays a
      prefix, the new part starts with the wait lines, and it adds exactly one
      playsound line, positional exactly when playback is positional and
      with pan 0 then (the note's pan otherwise); one effect line when effects
      are on and none when off; one label and one jump, both numbered with the
      note's label; and one wait for the note's start time. */
  lemma AppendFragmentCounts(code: seq<Line>, note: Note, increment: nat, env: Env, cfg: Config)
    requires env.Valid()
    ensures var r := code + Fragment(note, increment, env, cfg);
      && r[|code|..|code| + 3] == WaitLines(note, increment)
      && CountSounds(r) == CountSounds(code) + 1
      && r[|r| - 1].PlaySound?
      && r[|r| - 1].positional == cfg.positional
      && r[|r| - 1].pan == (if cfg.positional then 0.0 else note.pan)
      && CountEffects(r) == CountEffects(code) + (if cfg.vfx then 1 else 0)
      && LabelNumbers(r) == LabelNumbers(code) + [increment]
      && JumpNumbers(r) == JumpNumbers(code) + [increment]
      && WaitTimes(r) == WaitTimes(code) + [note.start]
  {
    var f := Fragment(note, increment, env, cfg);
    CountsDistribute(code, f);
    FragmentCounts(note, increment, env, cfg);
    assert (code + f)[|code|..|code| + 3] == WaitLines(note, increment);
  }

  /** The same for the six conditional appends themselves. */
  lemma EmitNoteCounts(code: seq<Line>, note: Note, increment: nat, env: Env, cfg: Config)
    requires env.Valid()
    ensures var r := EmitNote(code, note, increment, env, cfg);
      && code <= r
      && r[|code|..|code| + 3] == WaitLines(note, increment)
      && CountSounds(r) == CountSounds(code) + 1
      && r[|r| - 1].PlaySound?
      && r[|r| - 1].positional == cfg.positional
      && r[|r| - 1].pan == (if cfg.positional then 0.0 else note.pan)
      && CountEffects(r) == CountEffects(code) + (if cfg.vfx then 1 else 0)
      && LabelNumbers(r) == LabelNumbers(code) + [increment]
      && JumpNumbers(r) == JumpNumbers(code) + [increment]
      && WaitTimes(r) == WaitTimes(code) + [note.start]
  {
    EmitNoteIsFragment(code, note, increment, env, cfg);
    AppendFragmentCounts(code, note, increment, env, cfg);
  }

  /** The percussion cases never use a program and the melodic cases never
      use a drum; the pitch of a melodic note one octave above its program's
      reference key is 2 and one octave below is 0.5. */
  lemma PitchScenario(note: Note, env: Env, cfg: Config)
    requires env.Valid() && !note.IsDrum()
    ensures note.key - env.programs[note.program].refNote == 12 ==> SoundLine(note, env, cfg).pitch == 2.0
    ensures note.key - env.programs[note.program].refNote == -12 ==> SoundLine(note, env, cfg).pitch == 0.5
    ensures note.key == env.programs[note.program].refNote ==> SoundLine(note, env, cfg).pitch == 1.0
  {
  }

  // ---------------------------------------------------------------------
  // Text

  /** The two renderings the model leaves open: how the runtime prints a
      number, and the hex colour of a hue (`hsv2rgb(key / 127, 1, 1)`). */
  datatype Format = Format(number: real -> string, colour: Key -> string)

  function DigitChar(d: nat): char
    requires d < 10
  {
    "0123456789"[d]
  }

  /** Decimal text of a natural number. */
  function NatToString(n: nat): (s: string)
    ensures |s| >= 1 && (|s| == 1 <==> n < 10)
    ensures forall i :: 0 <= i < |s| ==> '0' <= s[i] <= '9'
  {
    if n < 10 then [DigitChar(n)] else NatToString(n / 10) + [DigitChar(n % 10)]
  }

  lemma {:induction false} NatToStringInjective(a: nat, b: nat)
    requires NatToString(a) == NatToString(b)
    ensures a == b
  {
    if a >= 10 && b >= 10 {
      var sa, sb := NatToString(a), NatToString(b);
      assert sa[..|sa| - 1] == NatToString(a / 10);
      assert sb[..|sb| - 1] == NatToString(b / 10);
      NatToStringInjective(a / 10, b / 10);
      assert DigitChar(a % 10) == sa[|sa| - 1] == DigitChar(b % 10);
    }
  }

  function RenderLine(line: Line, fmt: Format): string {
    match line
    case Raw(text) => text
    case WaitUntil(t) => "op add wait_time start_time " + fmt.number(t)
    case LabelDef(k) => "Label" + NatToString(k) + ":"
    case JumpBack(k) => "jump Label" + NatToString(k) + " lessThan @time wait_time"
    case EffectWave(x, y, key) => "effect wave " + x + " " + y + " 1.5 " + fmt.colour(key)
    case EffectPlaceBlock(x, y) => "effect placeBlock " + x + " " + y + " 1"
    case PlaySound(positional, sound, volume, pitch, pan, x, y, limit) =>
      "playsound " + (if positional then "true" else "false") + " " + sound + " " + fmt.number(volume)
      + " " + fmt.number(pitch) + " " + (if positional then "0" else fmt.number(pan))
      + " " + x + " " + y + " " + NatToString(limit)
  }

  /** The code text: every line followed by a newline. */
  function Render(code: seq<Line>, fmt: Format): string {
    if |code| == 0 then "" else RenderLine(code[0], fmt) + "\n" + Render(code[1..], fmt)
  }

  /** Appending lines appends their text: the structured code and the
      string the source builds with `+=` agree at every step. */
  lemma {:induction false} RenderAppend(a: seq<Line>, b: seq<Line>, fmt: Format)
    ensures Render(a + b, fmt) == Render(a, fmt) + Render(b, fmt)
  {
    if |a| == 0 {
      assert a + b == b;
    } else {
      assert (a + b)[1..] == a[1..] + b;
      RenderAppend(a[1..], b, fmt);
    }
  }

  /** Different label numbers give different label lines and different jump
      lines, so no jump can reach another note's label. */
  lemma LabelTextsDistinct(a: nat, b: nat, fmt: Format)
    requires a != b
    ensures RenderLine(LabelDef(a), fmt) != RenderLine(LabelDef(b), fmt)
    ensures RenderLine(JumpBack(a), fmt) != RenderLine(JumpBack(b), fmt)
  {
    var sa, sb := NatToString(a), NatToString(b);
    assert sa != sb by {
      if sa == sb {
        NatToStringInjective(a, b);
      }
    }
    var la, lb := RenderLine(LabelDef(a), fmt), RenderLine(LabelDef(b), fmt);
    assert la[5..|la| - 1] == sa && lb[5..|lb| - 1] == sb;
    var tail := " lessThan @time wait_time";
    var ja, jb := RenderLine(JumpBack(a), fmt), RenderLine(JumpBack(b), fmt);
    assert ja[10..|ja| - |tail|] == sa && jb[10..|jb| - |tail|] == sb;
  }
}

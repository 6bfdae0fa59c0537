# midi-to-mlog core, modelled in Dafny

`mid2mlog.py` compiles a MIDI file into a Mindustry schematic. A switch sits at
the origin, surrounded by world processors. Each processor waits for the switch
and then plays its share of the song's notes with `playsound` instructions,
busy-waiting on `@time` between them. This project models the compiler's core
and proves what it guarantees:

- **Extraction** (`midi_to_note_list`). Every track is walked with a running
  clock, one key state per key and one channel state per channel. Notes come
  from matched on/off pairs. A looping program held for a long time is
  expanded into repeated notes with `frange`. The result is sorted by start
  time with a stable sort. Channel programs, pans and the tempo carry over
  from one track to the next. Key states and the clock restart for each track.
- **Emission** (`append_note_proc` and the six `try_add_code_*` functions).
  These are the lines appended for one note. The wait is a label and a
  jump-back loop. The effect line is a wave for a melodic note, a block
  placement for a percussion note, or nothing without effects. The
  `playsound` line is global (the note's pan, position 0 0) or positional
  (pan 0, the configured position). Code is modelled as structured lines, and
  `Render` gives their text, with `+=` on the text matching `+` on the lines.
  Numbers are printed by an opaque formatter, and the text is exact only
  within the limits listed under "Left out".
- **Scheduling** (`note_list_to_proc_list`, `init_default_proc`). The notes,
  in time order, are packed first-fit onto processors. A processor takes a
  note when the note starts after the processor's busy time and it holds
  fewer than 230 notes with effects, 320 without. If no processor takes the
  note, a new one is appended. Labels are numbered by a counter over all
  notes. Each processor's code is the header followed by the fragments of
  exactly the notes whose labels it defines, and no label is defined on two
  processors.
- **Layout** (`proc_list_to_schem`). Processor i goes to cell i + 1 of an
  s-by-s grid, where s = ceil(sqrt(n + 1)) for n processors. Its link points
  back to the switch at (0, 0).

Where the source updates state in place, the model does too. `MidiToNoteList`
updates the channel array and a fresh 128-entry key array per track, through
`ProcessMessage`. `Processor` is a class whose `AppendNote` updates its code,
busy time and note count. `NoteListToProcList` mutates the processors it has
already created. Every method is proved equal to a pure specification
function (`NoteList`, `Appended`, `Schedule`), and the properties are proved
as lemmas about those functions.

Two places follow the code rather than the natural reading of MIDI:

- A note-on with velocity 0 on a key that is not held *opens* the key, because
  the first branch of the event test comes before the velocity-0 test.
  `ExtractionFacts.PressOpensKey` states this for every velocity.
- The loop bound is max(start + l, release - l) with an exclusive end. So a
  loop of 100 ms held from 60 ms to 260 ms gives a single note at 60 ms, not
  two (`ExtractionFacts.LoopScenario`). More generally, any hold of at most
  two loop lengths gives one note (`ExtractionFacts.ShortLoopEmitsOnce`).

Modules, in dependency order: `MidiTypes` (types.dfy), `Progression`
(progression.dfy, `frange`), `StableSort` (stablesort.dfy, `sorted`),
`Extraction` and `ExtractionFacts`, `Emission`, `Scheduler` and
`SchedulerFacts`, `Layout`.

## Model

| member | source | states |
|---|---|---|
| MidiTypes.PitchRatio | mid2mlog.py:351 | the pitch multiplier of a melodic note is the frequency ratio of its distance in semitones from the program's reference key, and is positive |
| Progression.FRangeLoop | mid2mlog.py:387-390 | the generator's while loop yields exactly the `FRange(x, y, jump)` progression |
| Progression.FRangeShape | mid2mlog.py:387-390 | the progression is empty iff x >= y; otherwise it starts at x, element k is x + k * jump, successive elements differ by jump, all lie in [x, y), and the last one is within jump of y |
| StableSort.SortByStartCorrect | mid2mlog.py:298 | the result is sorted by start time, is a permutation of the input, and keeps the input order of notes with equal start times |
| Extraction.TicksToMs | mid2mlog.py:262 | a delta time in milliseconds is never negative, and zero ticks take no time |
| Extraction.LoopLength | mid2mlog.py:271 | one loop of a looping program lasts a positive time |
| Extraction.Copies | mid2mlog.py:272-280 | one copy of the note per progression value, in order, each differing only in its start time |
| Extraction.EmitClosed | mid2mlog.py:268-289 | the notes appended on a release are exactly `CloseNotes`: the progression copies for a looping melodic program, otherwise one note at the press time |
| Extraction.ProcessMessage | mid2mlog.py:261-296 | one event updates the channel array, key array, tempo, clock and note list exactly as the state-machine step `Step` |
| Extraction.MidiToNoteList | mid2mlog.py:246-298 | the result is the note list of the file (`NoteList`): sorted by start time and a permutation of the notes collected track by track |
| ExtractionFacts.PressOpensKey | mid2mlog.py:263-267 | a note-on on a released key, of any velocity, opens the key with the press time, velocity and the channel's program, and changes nothing else |
| ExtractionFacts.RepressIgnored | mid2mlog.py:263-268 | a note-on with positive velocity on a held key changes only the clock |
| ExtractionFacts.ReleaseClosesKey | mid2mlog.py:268-289 | a note-off or a velocity-0 note-on on a held key releases it and appends at least one note, taking the releasing channel and its pan; a note-off on a released key changes only the clock |
| ExtractionFacts.ControlUpdates | mid2mlog.py:290-296 | program change sets the channel's program, set-tempo sets the tempo, controller 10 sets that channel's pan to (value - 64) / 64 in [-1, 1), other controllers change nothing; keys, notes and the other channels are kept, the tempo is kept unless set, and only the clock advances |
| ExtractionFacts.CloseNotesShape | mid2mlog.py:270-289 | the notes of one release share key, program, velocity, channel and pan; the first starts at the press time; a percussion or non-looping note gives one note; a looping one gives start times l apart, below max(start + l, release - l), the last within l of that bound |
| ExtractionFacts.ShortLoopEmitsOnce | mid2mlog.py:270-272 | a looping note released within two loop lengths of its press gives exactly one note |
| ExtractionFacts.LoopScenario | mid2mlog.py:270-272 | a 100 ms loop at its reference key held from 60 ms to 260 ms gives one note, at 60 ms |
| ExtractionFacts.TrackAppendsNotes | mid2mlog.py:261-296 | a track only appends notes: its final state is independent of the notes already collected, which stay as a prefix |
| ExtractionFacts.StepAppendsNotes | mid2mlog.py:263-296 | one event only appends notes, whatever notes were collected before |
| ExtractionFacts.TrackIndependence | mid2mlog.py:256-260 | the notes a track adds and the channels and tempo it leaves depend only on the channels and tempo it inherits, never on keys held at the end of the previous track |
| ExtractionFacts.TracksOnlyAppend | mid2mlog.py:253-256 | the notes of the first n tracks are a prefix of the notes of all tracks |
| Emission.LimitFlag | mid2mlog.py:351 | the limit argument is 1 exactly when limiting is on, otherwise 0 |
| Emission.TryAddEffectNote | mid2mlog.py:337-341 | the code is only ever extended, by at most one line |
| Emission.TryAddEffectDrum | mid2mlog.py:343-347 | the code is only ever extended, by at most one line |
| Emission.TryAddSoundNoteGlobal | mid2mlog.py:349-353 | the code is only ever extended, by at most one line |
| Emission.TryAddSoundDrumGlobal | mid2mlog.py:355-359 | the code is only ever extended, by at most one line |
| Emission.TryAddSoundNotePositional | mid2mlog.py:361-365 | the code is only ever extended, by at most one line |
| Emission.TryAddSoundDrumPositional | mid2mlog.py:367-371 | the code is only ever extended, by at most one line |
| Emission.EmitNoteIsFragment | mid2mlog.py:320-331 | the wait lines followed by the six conditional appends add exactly the reference fragment: wait lines, the effect line if any, and one sound line |
| Emission.FragmentCounts | mid2mlog.py:321-331 | one note's fragment has one playsound, one effect line iff effects are on, one label and one jump with the note's number, and one wait at the note's start |
| Emission.AppendFragmentCounts | mid2mlog.py:320-331 | appending a note's fragment keeps the old code, starts with the wait lines, and adds exactly one playsound (last, positional iff configured, pan 0 when positional and the note's pan otherwise), one effect line iff effects are on, the note's label and jump, and its wait |
| Emission.EmitNoteCounts | mid2mlog.py:320-331 | the six conditional appends keep the old code as a prefix, start with the wait lines, and add exactly one playsound (last, positional iff configured, pan 0 when positional and the note's pan otherwise), one effect line iff effects are on, the note's label and jump, and its wait |
| Emission.PitchScenario | mid2mlog.py:363 | a melodic note one octave above its reference key plays at pitch 2, one octave below at 0.5, at the reference key at 1 |
| Emission.NatToStringInjective | mid2mlog.py:322 | different numbers have different decimal texts |
| Emission.RenderAppend | mid2mlog.py:321-331 | the text of appended lines is the old text followed by theirs, as with `+=` on the code string |
| Emission.LabelTextsDistinct | mid2mlog.py:322-323 | different label numbers give different label lines and different jump lines |
| Scheduler.Capacity | mid2mlog.py:307 | a processor holds at most 230 notes with effects and 320 without |
| Scheduler.FirstFit | mid2mlog.py:306-311 | the chosen position accepts the note and every earlier processor rejects it; the number of processors means none accepts |
| Scheduler.Processor.constructor | mid2mlog.py:317-318 | a new processor has the header code, busy time -1 and no notes |
| Scheduler.Processor.AppendNote | mid2mlog.py:320-335 | the processor's code gains exactly the note's fragment, its busy time becomes the note's start + 50, and its count goes up by one |
| Scheduler.FindProcessor | mid2mlog.py:306-311 | the scan stops at the first processor that accepts the note, or runs to the end |
| Scheduler.AppendAt | mid2mlog.py:307-310 | the chosen processor takes the note; no other processor changes |
| Scheduler.AppendNew | mid2mlog.py:311-313 | a new, distinct processor holding just the note is appended; the others are unchanged |
| Scheduler.PlaceNote | mid2mlog.py:305-313 | one outer iteration turns the processors' values into `Assign` of their old values, and keeps them distinct objects |
| Scheduler.NoteListToProcList | mid2mlog.py:300-315 | the processors built are distinct new objects whose values are exactly `Schedule(notes)` |
| SchedulerFacts.EmptyWellFormed | mid2mlog.py:317-318 | a fresh processor holds no note, no label, no wait, and is free at once |
| SchedulerFacts.AppendedWellFormed | mid2mlog.py:320-335 | a note appended within capacity and after the busy time keeps a processor well formed and adds the note's label last |
| SchedulerFacts.AssignFirstFit | mid2mlog.py:305-313 | each note goes to the first accepting processor and nothing else changes; a processor is added only when none accepts, and then it holds just that note |
| SchedulerFacts.AssignKeepsInvariant | mid2mlog.py:305-313 | placing a note keeps every processor well formed, every earlier label on exactly one processor, and the new label on exactly one |
| SchedulerFacts.ScheduleInvariant | mid2mlog.py:300-315 | after any number of notes the schedule satisfies the invariant, starting from the single default processor |
| SchedulerFacts.ScheduleStep | mid2mlog.py:305-313 | placing the next note of the list keeps the invariant of the outer loop |
| SchedulerFacts.ScheduleStart | mid2mlog.py:300-315 | there is always at least one processor, exactly the default one for no notes, and every processor after the first holds a note |
| SchedulerFacts.ProcessorBounds | mid2mlog.py:305-335 | each processor keeps its header, holds at most its capacity, has one wait and one playsound per note (and one effect line each with effects), waits more than 50 ms apart, and is busy until 50 ms after its last note or -1 |
| SchedulerFacts.CodeForWaits | mid2mlog.py:321 | code built from the fragments of some notes waits, in order, for exactly those notes' start times |
| SchedulerFacts.AppendedCarries | mid2mlog.py:320-335 | giving note n to a processor whose code is the header and its notes' fragments adds note n's fragment under label n |
| SchedulerFacts.AssignCarries | mid2mlog.py:305-313 | placing note n keeps every processor's code equal to the header followed by its notes' fragments |
| SchedulerFacts.ScheduleCarries | mid2mlog.py:300-315 | after any number of notes every processor's code is the header followed by the fragments of the notes it holds |
| SchedulerFacts.ProcessorsHoldTheirNotes | mid2mlog.py:300-335 | every processor's code is exactly the header followed by the fragments of the notes whose labels it defines, note m under label m, in label order, and its waits are those notes' start times |
| SchedulerFacts.LabelsUnique | mid2mlog.py:303-323 | every note's label is defined on exactly one processor and once there; a processor's labels increase, stay below the number of notes, and match its jumps |
| Layout.BaseName | mid2mlog.py:375 | the name is the suffix of the path after its last '/', the whole path when it has none |
| Layout.SquareSize | mid2mlog.py:379 | the grid side s is the smallest with s * s >= n + 1 |
| Layout.ProcessorBlock | mid2mlog.py:382 | a processor's link offset brings it back to the switch at the origin |
| Layout.ProcListToSchem | mid2mlog.py:373-385 | the schematic holds, in order, one processor block per processor at its grid cell with its code text and its link to the switch, followed by the switch block at (0, 0) switched off, under the file's base name |
| Layout.CellInSquare | mid2mlog.py:379-381 | a processor's cell lies inside the square, right of and below the switch, and is not the switch's cell |
| Layout.CellsDistinct | mid2mlog.py:379-381 | different processors get different cells |
| Layout.GridPositionsSound | mid2mlog.py:378-382 | for n processors, all cells lie in the s-by-s square, none is (0, 0), and no two coincide |

## Left out

- `Arguments`, the help text and the error exit (mid2mlog.py:9-194) are command-line handling. Their result is the `Config` value (effects, positional target, limit) and the path.
- `get_programs` and `get_drums` (mid2mlog.py:196-244) build the instrument tables from the defaults and the overrides. The tables are the given `Env` input, with 128 entries each.
- Reading the file with mido, and the exit on a missing or bad file (mid2mlog.py:248-251), are left out. The file arrives already parsed, as tracks of delta-timed events. Events other than note, program, tempo and controller messages become `Other`.
- mido's `tick2second` is exact real arithmetic, ticks * tempo / (1000 * ticks per beat) in milliseconds. Floating-point rounding of times is not modelled.
- A file with zero ticks per beat, where the source divides by zero, is excluded by the `Resolution` type.
- 2 ** (d / 12) is the input function `Env.ratio`, required to be positive and exact at 0 and plus or minus 12. Other values of the power are not computed.
- The volume (velocity / 127) * 2 * volume multiplier (mid2mlog.py:351, 357, 363, 369) is computed in floating point, rounding at each step, so two notes whose exact volumes agree can print differently. It is the input function `Env.loudness`, whose value is the float the runtime computes, so its arithmetic is not modelled.
- Looping programs must have a positive length (`Env.Valid`), also programs that no note uses. The source goes wrong with a non-positive length only when a melodic-channel note of that program is released. With a negative length the bound lies above the press time, and `frange` (mid2mlog.py:387-390) never terminates. With length 0 it never terminates once the key was held for a positive time, and a release at the press time gives no note at all. The model does not cover these tables.
- Before a key's first press, its state holds program 0. The source has no program entry then, but it never reads one until the key has been pressed.
- `hsv2rgb` and the text Python prints for a float are the opaque `Format` parameter. Labels and the limit flag are rendered exactly.
- Python prints an integer without a decimal point and a float with one. A channel's pan starts as the integer 0 (mid2mlog.py:253) and prints `0`, while a pan set to 0.0 by the controller, or the volume of a velocity-0 note, prints `0.0`; the default drum pitches 1, 2, 3 and 4 (mid2mlog.py:218-236) are integers too. The model keeps every number as a real and prints it with `Format.number`, so it does not tell these apart. For lines with such numbers, and for wait times (whose floating-point rounding is not modelled, see above), `Render` does not give the source's exact text.
- `math.ceil(math.sqrt(n + 1))` is the exact integer ceiling of the square root (`Layout.SquareSize`). Floating-point error for very large n is not modelled.
- The pymsch `Schematic` and `Block` objects are plain values. Their compression, the clipboard and the output file (mid2mlog.py:373-385, 406-409) are left out.
- Emission.TryAddEffectNote: the contract only says the code is extended by at most one line. The exact line it adds, if any, is stated for the six functions together by `Emission.EmitNoteIsFragment` and `Emission.EmitNoteCounts`.
- Emission.TryAddEffectDrum: as for TryAddEffectNote.
- Emission.TryAddSoundNoteGlobal: as for TryAddEffectNote.
- Emission.TryAddSoundDrumGlobal: as for TryAddEffectNote.
- Emission.TryAddSoundNotePositional: as for TryAddEffectNote.
- Emission.TryAddSoundDrumPositional: as for TryAddEffectNote.

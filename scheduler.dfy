/** `note_list_to_proc_list`, `init_default_proc` and `append_note_proc`:
    first-fit packing of the time-ordered notes onto a growing list of
    processors, each appending the code of the notes it receives. */
module Scheduler {
  import opened MidiTypes
  import opened Emission

  /** The code every processor starts with: run at 1000 instructions per
      second, wait for the shared switch, then note the start time. */
  const Header: seq<Line> := [Raw("setrate 1000"), Raw("sensor enable switch1 @enabled"),
                              Raw(" jump 1 notEqual enable true"), Raw("set start_time @time")]

  /** A processor accepts a note only more than this many ms after its last one. */
  const Cooldown: real := 50.0

  /** A processor's value: its code, the time before which it is busy, and
      how many notes it holds. */
  datatype Proc = Proc(code: seq<Line>, endTime: real, noteCount: nat)

  /** `init_default_proc()` */
  const EmptyProc := Proc(Header, -1.0, 0)

  /** Notes per processor: fewer when every note also emits an effect line. */
  function Capacity(cfg: Config): (cap: nat)
    ensures cap == 230 || cap == 320
    ensures cap == 230 <==> cfg.vfx
  {
    if cfg.vfx then 230 else 320
  }

  /** The availability test of the scan. */
  predicate Accepts(p: Proc, note: Note, cap: nat) {
    note.start > p.endTime && p.noteCount < cap
  }

  /** The position of the first processor that accepts the note, or the
      number of processors when none does. */
  function FirstFit(procs: seq<Proc>, note: Note, cap: nat): (k: nat)
    ensures k <= |procs|
    ensures k < |procs| ==> Accepts(procs[k], note, cap)
    ensures forall i :: 0 <= i < k ==> !Accepts(procs[i], note, cap)
  {
    if |procs| == 0 || Accepts(procs[0], note, cap) then 0
    else 1 + FirstFit(procs[1..], note, cap)
  }

  /** The value of append_note_proc: the note's fragment appended, busy
      until 50 ms after the note, one more note. */
  function Appended(p: Proc, note: Note, increment: nat, env: Env, cfg: Config): Proc
    requires env.Valid()
  {
    Proc(p.code + Fragment(note, increment, env, cfg), note.start + Cooldown, p.noteCount + 1)
  }

  /** One iteration of the outer loop: the note goes to the first processor
      that accepts it, or to a new processor appended at the end. */
  function Assign(procs: seq<Proc>, note: Note, increment: nat, env: Env, cfg: Config): seq<Proc>
    requires env.Valid()
  {
    var k := FirstFit(procs, note, Capacity(cfg));
    if k < |procs| then procs[k := Appended(procs[k], note, increment, env, cfg)]
    else procs + [Appended(EmptyProc, note, increment, env, cfg)]
  }

  /** The processors after the first n notes; the label counter for note m is m. */
  function ScheduleUpTo(notes: seq<Note>, n: nat, env: Env, cfg: Config): seq<Proc>
    requires n <= |notes| && env.Valid()
  {
    if n == 0 then [EmptyProc]
    else Assign(ScheduleUpTo(notes, n - 1, env, cfg), notes[n - 1], n - 1, env, cfg)
  }

  function Schedule(notes: seq<Note>, env: Env, cfg: Config): seq<Proc>
    requires env.Valid()
  {
    ScheduleUpTo(notes, |notes|, env, cfg)
  }

  // ---------------------------------------------------------------------
  // The imperative scheduler

  /** A processor under construction, updated in place. */
  class Processor {
    var code: seq<Line>
    var endTime: real
    var noteCount: nat

    function Value(): Proc
      reads this
    {
      Proc(code, endTime, noteCount)
    }

    /** `init_default_proc()` */
    constructor ()
      ensures Value() == EmptyProc
    {
      code := Header;
      endTime := -1.0;
      noteCount := 0;
    }

    /** `append_note_proc`: the wait lines, the six conditional appends,
        then the busy time and the count. */
    method AppendNote(note: Note, increment: nat, env: Env, cfg: Config)
      requires env.Valid()
      modifies this
      ensures Value() == Appended(old(Value()), note, increment, env, cfg)
      ensures code == old(code) + Fragment(note, increment, env, cfg)
    {
      ghost var was := code;
      code := code + [WaitUntil(note.start)];
      code := code + [LabelDef(increment)];
      code := code + [JumpBack(increment)];
      assert code == was + WaitLines(note, increment);
      code := TryAddEffectNote(code, note, cfg);
      code := TryAddEffectDrum(code, note, cfg);
      code := TryAddSoundNoteGlobal(code, note, env, cfg);
      code := TryAddSoundDrumGlobal(code, note, env, cfg);
      code := TryAddSoundNotePositional(code, note, env, cfg);
      code := TryAddSoundDrumPositional(code, note, env, cfg);
      EmitNoteIsFragment(was, note, increment, env, cfg);
      endTime := note.start + Cooldown;
      noteCount := noteCount + 1;
    }
  }

  /** The values of a list of processors. */
  function Values(procs: seq<Processor>): (vs: seq<Proc>)
    reads set p | p in procs
    ensures |vs| == |procs|
    ensures forall i :: 0 <= i < |procs| ==> vs[i] == procs[i].Value()
  {
    if |procs| == 0 then [] else Values(procs[..|procs| - 1]) + [procs[|procs| - 1].Value()]
  }

  /** No processor appears twice in the list. */
  predicate Distinct(procs: seq<Processor>) {
    forall i, j :: 0 <= i < j < |procs| ==> procs[i] != procs[j]
  }

  /** The scan of the inner loop: the first processor that accepts the note,
      or the number of processors when the loop runs out (its `else` branch). */
  method FindProcessor(procs: seq<Processor>, note: Note, cap: nat) returns (k: nat)
    ensures k == FirstFit(Values(procs), note, cap)
  {
    ghost var vals := Values(procs);
    k := 0;
    while k < |procs|
      invariant 0 <= k <= |procs|
      invariant forall i :: 0 <= i < k ==> !Accepts(vals[i], note, cap)
    {
      if note.start > procs[k].endTime && procs[k].noteCount < cap {
        break;
      }
      k := k + 1;
    }
  }

  /** The note goes to processor k of the list. */
  method AppendAt(procs: seq<Processor>, k: nat, note: Note, increment: nat, env: Env, cfg: Config)
    requires env.Valid() && Distinct(procs) && k < |procs|
    modifies procs[k]
    ensures Values(procs) == old(Values(procs))[k := Appended(old(procs[k].Value()), note, increment, env, cfg)]
  {
    ghost var before := Values(procs);
    ghost var after := Appended(before[k], note, increment, env, cfg);
    procs[k].AppendNote(note, increment, env, cfg);
    forall i | 0 <= i < |procs|
      ensures procs[i].Value() == before[k := after][i]
    {
      if i != k {
        assert procs[i] != procs[k];
      }
    }
  }

  /** The note goes to a new processor appended to the list. */
  method AppendNew(procs: seq<Processor>, note: Note, increment: nat, env: Env, cfg: Config)
    returns (procs': seq<Processor>)
    requires env.Valid() && Distinct(procs)
    ensures Distinct(procs') && |procs'| == |procs| + 1 && procs'[..|procs|] == procs && fresh(procs'[|procs|])
    ensures Values(procs') == Values(procs) + [Appended(EmptyProc, note, increment, env, cfg)]
  {
    var p := new Processor();
    p.AppendNote(note, increment, env, cfg);
    procs' := procs + [p];
  }

  /** One iteration of the outer loop: the note goes to the processor the
      scan finds, or to a new one when the scan finds none. */
  method PlaceNote(procs: seq<Processor>, note: Note, increment: nat, env: Env, cfg: Config)
    returns (procs': seq<Processor>)
    requires env.Valid() && Distinct(procs)
    modifies set p | p in procs
    ensures Distinct(procs')
    ensures Values(procs') == Assign(old(Values(procs)), note, increment, env, cfg)
    ensures forall i :: 0 <= i < |procs'| ==> procs'[i] in procs || fresh(procs'[i])
  {
    var k := FindProcessor(procs, note, Capacity(cfg));
    if k < |procs| {
      AppendAt(procs, k, note, increment, env, cfg);
      procs' := procs;
    } else {
      procs' := AppendNew(procs, note, increment, env, cfg);
    }
  }

  /** `note_list_to_proc_list`: for each note, scan the processors in
      creation order and give the note to the first that accepts it; if the
      scan finds none, append a new processor holding the note. */
  method NoteListToProcList(notes: seq<Note>, env: Env, cfg: Config) returns (procs: seq<Processor>)
    requires env.Valid()
    ensures Values(procs) == Schedule(notes, env, cfg)
    ensures Distinct(procs)
    ensures forall i :: 0 <= i < |procs| ==> fresh(procs[i])
  {
    var first := new Processor();
    procs := [first];
    var increment := 0;
    for m := 0 to |notes|
      invariant increment == m
      invariant Values(procs) == ScheduleUpTo(notes, m, env, cfg)
      invariant Distinct(procs)
      invariant forall i :: 0 <= i < |procs| ==> fresh(procs[i])
    {
      procs := PlaceNote(procs, notes[m], increment, env, cfg);
      increment := increment + 1;
    }
  }
}

/** What the scheduler guarantees about the processors it builds: each one
    keeps its capacity, a spacing of more than 50 ms between its notes, one
    playsound, one wait and one label/jump pair per note; every note's label
    is defined on exactly one processor. */
module SchedulerFacts {
  import opened MidiTypes
  import opened Emission
  import opened Scheduler

  predicate Increasing(s: seq<nat>) {
    forall i, j :: 0 <= i < j < |s| ==> s[i] < s[j]
  }

  /** Consecutive waits more than the cooldown apart. */
  predicate SpacedTimes(w: seq<real>) {
    forall j :: 0 <= j < |w| - 1 ==> w[j + 1] > w[j] + Cooldown
  }

  /** One wait, one playsound and (with effects on) one effect line per
      note, within the capacity, after the header. */
  predicate Counted(p: Proc, cfg: Config) {
    && Header <= p.code
    && |WaitTimes(p.code)| == p.noteCount && CountSounds(p.code) == p.noteCount
    && p.noteCount <= Capacity(cfg)
    && CountEffects(p.code) == (if cfg.vfx then p.noteCount else 0)
  }

  /** Waits spaced by more than the cooldown, busy until the cooldown after the last. */
  predicate Timed(p: Proc) {
    var w := WaitTimes(p.code);
    && SpacedTimes(w)
    && p.endTime == (if |w| == 0 then -1.0 else w[|w| - 1] + Cooldown)
  }

  /** One label per note, in increasing order and below n, each with its jump. */
  predicate Labelled(p: Proc, n: nat) {
    var labels := LabelNumbers(p.code);
    && JumpNumbers(p.code) == labels && |labels| == p.noteCount
    && Increasing(labels) && (forall j :: 0 <= j < |labels| ==> labels[j] < n)
  }

  /** What holds of every processor once the first n notes are placed. */
  predicate WellFormed(p: Proc, n: nat, cfg: Config) {
    Counted(p, cfg) && Timed(p) && Labelled(p, n)
  }

  /** Processor p defines the label of note m. */
  predicate Defines(p: Proc, m: nat) {
    m in LabelNumbers(p.code)
  }

  /** Some processor of the list defines the label of note m. */
  predicate DefinedIn(procs: seq<Proc>, m: nat) {
    exists i :: 0 <= i < |procs| && Defines(procs[i], m)
  }

  lemma {:induction false} RawCounts(code: seq<Line>)
    requires forall i :: 0 <= i < |code| ==> code[i].Raw?
    ensures CountSounds(code) == 0 && CountEffects(code) == 0
    ensures LabelNumbers(code) == [] && JumpNumbers(code) == [] && WaitTimes(code) == []
  {
    if |code| > 0 {
      RawCounts(code[1..]);
    }
  }

  /** A fresh processor holds no note and is free at once. */
  lemma EmptyWellFormed(n: nat, cfg: Config)
    ensures WellFormed(EmptyProc, n, cfg)
    ensures LabelNumbers(EmptyProc.code) == []
  {
    RawCounts(Header);
  }

  lemma SpacedAppend(w: seq<real>, t: real)
    requires SpacedTimes(w) && (|w| > 0 ==> t > w[|w| - 1] + Cooldown)
    ensures SpacedTimes(w + [t])
  {
  }

  lemma IncreasingAppend(labels: seq<nat>, n: nat)
    requires Increasing(labels) && forall j :: 0 <= j < |labels| ==> labels[j] < n
    ensures Increasing(labels + [n])
    ensures forall j :: 0 <= j < |labels + [n]| ==> (labels + [n])[j] < n + 1
  {
  }

  lemma AppendedCounted(p: Proc, note: Note, n: nat, env: Env, cfg: Config)
    requires env.Valid() && Counted(p, cfg) && p.noteCount < Capacity(cfg)
    ensures Counted(Appended(p, note, n, env, cfg), cfg)
  {
    AppendFragmentCounts(p.code, note, n, env, cfg);
  }

  lemma AppendedTimed(p: Proc, note: Note, n: nat, env: Env, cfg: Config)
    requires env.Valid() && Timed(p) && (|WaitTimes(p.code)| > 0 ==> note.start > p.endTime)
    ensures Timed(Appended(p, note, n, env, cfg))
  {
    AppendFragmentCounts(p.code, note, n, env, cfg);
    SpacedAppend(WaitTimes(p.code), note.start);
  }

  lemma AppendedLabelled(p: Proc, note: Note, n: nat, env: Env, cfg: Config)
    requires env.Valid() && Labelled(p, n)
    ensures Labelled(Appended(p, note, n, env, cfg), n + 1)
    ensures LabelNumbers(Appended(p, note, n, env, cfg).code) == LabelNumbers(p.code) + [n]
  {
    AppendFragmentCounts(p.code, note, n, env, cfg);
    IncreasingAppend(LabelNumbers(p.code), n);
  }

  /** Appending a note a processor can take keeps it well formed, now
      counting the note's label n. */
  lemma AppendedWellFormed(p: Proc, note: Note, n: nat, env: Env, cfg: Config)
    requires env.Valid() && WellFormed(p, n, cfg)
    requires p.noteCount < Capacity(cfg) && (p.noteCount > 0 ==> note.start > p.endTime)
    ensures var q := Appended(p, note, n, env, cfg);
      && WellFormed(q, n + 1, cfg)
      && LabelNumbers(q.code) == LabelNumbers(p.code) + [n]
  {
    AppendedCounted(p, note, n, env, cfg);
    AppendedTimed(p, note, n, env, cfg);
    AppendedLabelled(p, note, n, env, cfg);
  }

  /** The note goes to the first processor that accepts it and changes
      nothing else; a processor is added only when none accepts, and then
      it holds just this note. */
  lemma AssignFirstFit(procs: seq<Proc>, note: Note, increment: nat, env: Env, cfg: Config)
    requires env.Valid()
    ensures var after := Assign(procs, note, increment, env, cfg);
      var k := FirstFit(procs, note, Capacity(cfg));
      && (forall i :: 0 <= i < k ==> !Accepts(procs[i], note, Capacity(cfg)))
      && (k < |procs| ==>
            && Accepts(procs[k], note, Capacity(cfg))
            && |after| == |procs|
            && after[k] == Appended(procs[k], note, increment, env, cfg)
            && (forall i :: 0 <= i < |procs| && i != k ==> after[i] == procs[i]))
      && (k == |procs| ==>
            && (forall i :: 0 <= i < |procs| ==> !Accepts(procs[i], note, Capacity(cfg)))
            && after == procs + [Appended(EmptyProc, note, increment, env, cfg)])
  {
  }

  /** The invariant of the outer loop after n notes. */
  ghost predicate Invariant(procs: seq<Proc>, n: nat, cfg: Config) {
    && |procs| >= 1
    && (forall i :: 0 <= i < |procs| ==> WellFormed(procs[i], n, cfg))
    && (forall i :: 1 <= i < |procs| ==> procs[i].noteCount >= 1)
    && (forall m :: 0 <= m < n ==> DefinedIn(procs, m))
    && (forall i, j, m :: 0 <= i < |procs| && 0 <= j < |procs| && Defines(procs[i], m) && Defines(procs[j], m) ==> i == j)
  }

  lemma WellFormedLater(p: Proc, n: nat, cfg: Config)
    requires WellFormed(p, n, cfg)
    ensures WellFormed(p, n + 1, cfg)
  {
  }

  /** Note n joins processor k, which becomes q. */
  lemma UpdateKeepsInvariant(procs: seq<Proc>, k: nat, q: Proc, n: nat, cfg: Config)
    requires Invariant(procs, n, cfg) && k < |procs|
    requires WellFormed(q, n + 1, cfg) && LabelNumbers(q.code) == LabelNumbers(procs[k].code) + [n]
    ensures Invariant(procs[k := q], n + 1, cfg)
  {
    var after := procs[k := q];
    forall i | 0 <= i < |procs|
      ensures WellFormed(procs[i], n + 1, cfg)
    {
      WellFormedLater(procs[i], n, cfg);
    }
    assert forall i, m :: 0 <= i < |after| ==>
      (Defines(after[i], m) <==> Defines(procs[i], m) || (i == k && m == n));
    forall m | 0 <= m < n + 1
      ensures DefinedIn(after, m)
    {
      if m == n {
        assert Defines(after[k], m);
      } else {
        assert DefinedIn(procs, m);
        var i :| 0 <= i < |procs| && Defines(procs[i], m);
        assert Defines(after[i], m);
      }
    }
  }

  /** Note n opens a new processor q. */
  lemma ExtendKeepsInvariant(procs: seq<Proc>, q: Proc, n: nat, cfg: Config)
    requires Invariant(procs, n, cfg)
    requires WellFormed(q, n + 1, cfg) && LabelNumbers(q.code) == [n]
    ensures Invariant(procs + [q], n + 1, cfg)
  {
    var after := procs + [q];
    forall i | 0 <= i < |procs|
      ensures WellFormed(procs[i], n + 1, cfg)
    {
      WellFormedLater(procs[i], n, cfg);
    }
    assert forall i, m :: 0 <= i < |procs| ==> (Defines(after[i], m) <==> Defines(procs[i], m));
    forall m | 0 <= m < n + 1
      ensures DefinedIn(after, m)
    {
      if m == n {
        assert Defines(after[|procs|], m);
      } else {
        assert DefinedIn(procs, m);
        var i :| 0 <= i < |procs| && Defines(procs[i], m);
        assert Defines(after[i], m);
      }
    }
  }

  /** Placing note n keeps the invariant. */
  lemma AssignKeepsInvariant(procs: seq<Proc>, note: Note, n: nat, env: Env, cfg: Config)
    requires env.Valid() && Invariant(procs, n, cfg)
    ensures Invariant(Assign(procs, note, n, env, cfg), n + 1, cfg)
  {
    var k := FirstFit(procs, note, Capacity(cfg));
    if k < |procs| {
      AppendedWellFormed(procs[k], note, n, env, cfg);
      UpdateKeepsInvariant(procs, k, Appended(procs[k], note, n, env, cfg), n, cfg);
    } else {
      EmptyWellFormed(n, cfg);
      AppendedWellFormed(EmptyProc, note, n, env, cfg);
      ExtendKeepsInvariant(procs, Appended(EmptyProc, note, n, env, cfg), n, cfg);
    }
  }

  /** The outer loop starts from the single default processor. */
  lemma InitialInvariant(cfg: Config)
    ensures Invariant([EmptyProc], 0, cfg)
  {
    EmptyWellFormed(0, cfg);
  }

  /** Placing note n of the list keeps the invariant. */
  lemma ScheduleStep(notes: seq<Note>, n: nat, env: Env, cfg: Config)
    requires n < |notes| && env.Valid()
    requires Invariant(ScheduleUpTo(notes, n, env, cfg), n, cfg)
    ensures Invariant(ScheduleUpTo(notes, n + 1, env, cfg), n + 1, cfg)
  {
    AssignKeepsInvariant(ScheduleUpTo(notes, n, env, cfg), notes[n], n, env, cfg);
  }

  lemma {:induction false} ScheduleInvariant(notes: seq<Note>, n: nat, env: Env, cfg: Config)
    requires n <= |notes| && env.Valid()
    ensures Invariant(ScheduleUpTo(notes, n, env, cfg), n, cfg)
  {
    if n == 0 {
      InitialInvariant(cfg);
    } else {
      ScheduleInvariant(notes, n - 1, env, cfg);
      ScheduleStep(notes, n - 1, env, cfg);
    }
  }

  /** What the processors of the invariant guarantee, spelled out. */
  lemma InvariantFacts(procs: seq<Proc>, n: nat, cfg: Config)
    requires Invariant(procs, n, cfg)
    ensures forall i :: 0 <= i < |procs| ==>
      var p := procs[i];
      var w := WaitTimes(p.code);
      && Header <= p.code
      && p.noteCount <= Capacity(cfg)
      && |w| == p.noteCount && CountSounds(p.code) == p.noteCount
      && CountEffects(p.code) == (if cfg.vfx then p.noteCount else 0)
      && (forall j :: 0 <= j < |w| - 1 ==> w[j + 1] > w[j] + 50.0)
      && p.endTime == (if |w| == 0 then -1.0 else w[|w| - 1] + 50.0)
  {
  }

  /** The schedule always has a processor: exactly the default one when
      there are no notes; every processor but the first holds a note. */
  lemma ScheduleStart(notes: seq<Note>, env: Env, cfg: Config)
    requires env.Valid()
    ensures var procs := Schedule(notes, env, cfg);
      && |procs| >= 1
      && (|notes| == 0 ==> procs == [EmptyProc])
      && (forall i :: 1 <= i < |procs| ==> procs[i].noteCount >= 1)
  {
    ScheduleInvariant(notes, |notes|, env, cfg);
  }

  /** Every processor holds at most its capacity of notes, 230 with effects
      and 320 without; it has one wait, one playsound and (with effects) one
      effect line per note; its waits are more than 50 ms apart and in order;
      and it is busy until 50 ms after its last note, or free (-1) if it has
      none. */
  lemma ProcessorBounds(notes: seq<Note>, env: Env, cfg: Config)
    requires env.Valid()
    ensures var procs := Schedule(notes, env, cfg);
      forall i :: 0 <= i < |procs| ==>
        var p := procs[i];
        var w := WaitTimes(p.code);
        && Header <= p.code
        && p.noteCount <= Capacity(cfg)
        && |w| == p.noteCount && CountSounds(p.code) == p.noteCount
        && CountEffects(p.code) == (if cfg.vfx then p.noteCount else 0)
        && (forall j :: 0 <= j < |w| - 1 ==> w[j + 1] > w[j] + 50.0)
        && p.endTime == (if |w| == 0 then -1.0 else w[|w| - 1] + 50.0)
  {
    ScheduleInvariant(notes, |notes|, env, cfg);
    InvariantFacts(Schedule(notes, env, cfg), |notes|, cfg);
  }

  // ---------------------------------------------------------------------
  // What each processor holds

  /** Every label below the number of notes. */
  predicate LabelsIn(labels: seq<nat>, notes: seq<Note>) {
    forall j :: 0 <= j < |labels| ==> labels[j] < |notes|
  }

  /** The code of a processor holding the notes with these labels, in this
      order: the header, then the fragment of each note under its label. */
  function CodeFor(notes: seq<Note>, labels: seq<nat>, env: Env, cfg: Config): seq<Line>
    requires env.Valid() && LabelsIn(labels, notes)
  {
    if |labels| == 0 then Header
    else
      var m := labels[|labels| - 1];
      CodeFor(notes, labels[..|labels| - 1], env, cfg) + Fragment(notes[m], m, env, cfg)
  }

  /** The code of processor p is the header followed by the fragments of
      exactly the notes whose labels it defines. */
  predicate Carries(p: Proc, notes: seq<Note>, env: Env, cfg: Config)
    requires env.Valid()
  {
    var labels := LabelNumbers(p.code);
    LabelsIn(labels, notes) && p.code == CodeFor(notes, labels, env, cfg)
  }

  predicate AllCarry(procs: seq<Proc>, notes: seq<Note>, env: Env, cfg: Config)
    requires env.Valid()
  {
    forall i :: 0 <= i < |procs| ==> Carries(procs[i], notes, env, cfg)
  }

  /** The waits of such code are the start times of its notes, in order. */
  lemma {:induction false} CodeForWaits(notes: seq<Note>, labels: seq<nat>, env: Env, cfg: Config)
    requires env.Valid() && LabelsIn(labels, notes)
    ensures var w := WaitTimes(CodeFor(notes, labels, env, cfg));
      |w| == |labels| && forall j :: 0 <= j < |labels| ==> w[j] == notes[labels[j]].start
  {
    if |labels| == 0 {
      RawCounts(Header);
    } else {
      var init := labels[..|labels| - 1];
      var m := labels[|labels| - 1];
      CodeForWaits(notes, init, env, cfg);
      WaitsDistribute(CodeFor(notes, init, env, cfg), Fragment(notes[m], m, env, cfg));
      FragmentCounts(notes[m], m, env, cfg);
    }
  }

  lemma EmptyCarries(notes: seq<Note>, env: Env, cfg: Config)
    requires env.Valid()
    ensures Carries(EmptyProc, notes, env, cfg)
  {
    RawCounts(Header);
  }

  /** Giving note n of the list to a processor adds that note's fragment
      under label n. */
  lemma AppendedCarries(p: Proc, notes: seq<Note>, n: nat, env: Env, cfg: Config)
    requires env.Valid() && n < |notes| && Carries(p, notes, env, cfg)
    ensures Carries(Appended(p, notes[n], n, env, cfg), notes, env, cfg)
  {
    var labels := LabelNumbers(p.code);
    AppendFragmentCounts(p.code, notes[n], n, env, cfg);
    assert (labels + [n])[..|labels|] == labels;
  }

  lemma AssignCarries(procs: seq<Proc>, notes: seq<Note>, n: nat, env: Env, cfg: Config)
    requires env.Valid() && n < |notes|
    requires AllCarry(procs, notes, env, cfg)
    ensures AllCarry(Assign(procs, notes[n], n, env, cfg), notes, env, cfg)
  {
    var k := FirstFit(procs, notes[n], Capacity(cfg));
    if k < |procs| {
      AppendedCarries(procs[k], notes, n, env, cfg);
    } else {
      EmptyCarries(notes, env, cfg);
      AppendedCarries(EmptyProc, notes, n, env, cfg);
    }
  }

  lemma CarriesStep(notes: seq<Note>, n: nat, env: Env, cfg: Config)
    requires n < |notes| && env.Valid()
    requires AllCarry(ScheduleUpTo(notes, n, env, cfg), notes, env, cfg)
    ensures AllCarry(ScheduleUpTo(notes, n + 1, env, cfg), notes, env, cfg)
  {
    AssignCarries(ScheduleUpTo(notes, n, env, cfg), notes, n, env, cfg);
  }

  lemma {:induction false} ScheduleCarries(notes: seq<Note>, n: nat, env: Env, cfg: Config)
    requires n <= |notes| && env.Valid()
    ensures AllCarry(ScheduleUpTo(notes, n, env, cfg), notes, env, cfg)
  {
    if n == 0 {
      EmptyCarries(notes, env, cfg);
    } else {
      ScheduleCarries(notes, n - 1, env, cfg);
      CarriesStep(notes, n - 1, env, cfg);
    }
  }

  /** Every processor's code is exactly the header followed by the fragments
      of the notes whose labels it defines, note m under label m, in the
      order of their labels; its waits are those notes' start times. With
      `LabelsUnique`, note m's fragment lies on exactly one processor. */
  lemma ProcessorsHoldTheirNotes(notes: seq<Note>, env: Env, cfg: Config)
    requires env.Valid()
    ensures var procs := Schedule(notes, env, cfg);
      forall i :: 0 <= i < |procs| ==>
        var labels := LabelNumbers(procs[i].code);
        var w := WaitTimes(procs[i].code);
        && LabelsIn(labels, notes)
        && procs[i].code == CodeFor(notes, labels, env, cfg)
        && |w| == |labels|
        && (forall j :: 0 <= j < |labels| ==> w[j] == notes[labels[j]].start)
  {
    var procs := Schedule(notes, env, cfg);
    ScheduleCarries(notes, |notes|, env, cfg);
    forall i | 0 <= i < |procs|
      ensures var labels := LabelNumbers(procs[i].code);
        var w := WaitTimes(procs[i].code);
        |w| == |labels| && (forall j :: 0 <= j < |labels| ==> w[j] == notes[labels[j]].start)
    {
      assert Carries(procs[i], notes, env, cfg);
      CodeForWaits(notes, LabelNumbers(procs[i].code), env, cfg);
    }
  }

  /** Labels are numbered by note: the label of every note is defined on
      exactly one processor and exactly once there; a processor's labels come
      in increasing order, each below the number of notes, and it jumps back
      to exactly the labels it defines, in the same order. */
  lemma LabelsUnique(notes: seq<Note>, env: Env, cfg: Config)
    requires env.Valid()
    ensures var procs := Schedule(notes, env, cfg);
      && (forall m :: 0 <= m < |notes| ==> DefinedIn(procs, m))
      && (forall i, j, m :: 0 <= i < |procs| && 0 <= j < |procs| && Defines(procs[i], m) && Defines(procs[j], m) ==> i == j)
      && forall i :: 0 <= i < |procs| ==>
           var labels := LabelNumbers(procs[i].code);
           && JumpNumbers(procs[i].code) == labels
           && (forall a, b :: 0 <= a < b < |labels| ==> labels[a] < labels[b])
           && (forall a :: 0 <= a < |labels| ==> labels[a] < |notes|)
  {
    ScheduleInvariant(notes, |notes|, env, cfg);
  }
}

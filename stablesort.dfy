/** `sorted(notes, key=start_time)`: a stable sort of the notes by start time. */
module StableSort {
  import opened MidiTypes

  predicate SortedByStart(s: seq<Note>) {
    forall i, j :: 0 <= i < j < |s| ==> s[i].start <= s[j].start
  }

  /** The notes of s that start at time t, in their order in s. */
  function StartingAt(s: seq<Note>, t: real): seq<Note> {
    if |s| == 0 then []
    else (if s[0].start == t then [s[0]] else []) + StartingAt(s[1..], t)
  }

  /** Inserts x in front of the first note that does not start before it. */
  function Insert(x: Note, s: seq<Note>): seq<Note> {
    if |s| == 0 || x.start <= s[0].start then [x] + s
    else [s[0]] + Insert(x, s[1..])
  }

  function SortByStart(s: seq<Note>): seq<Note> {
    if |s| == 0 then [] else Insert(s[0], SortByStart(s[1..]))
  }

  lemma StartingAtCons(x: Note, s: seq<Note>, t: real)
    ensures StartingAt([x] + s, t) == (if x.start == t then [x] else []) + StartingAt(s, t)
  {
  }

  lemma {:induction false} InsertPermutes(x: Note, s: seq<Note>)
    ensures multiset(Insert(x, s)) == multiset([x] + s)
  {
    if |s| > 0 && x.start > s[0].start {
      InsertPermutes(x, s[1..]);
      assert s == [s[0]] + s[1..];
    }
  }

  lemma {:induction false} InsertStable(x: Note, s: seq<Note>, t: real)
    ensures StartingAt(Insert(x, s), t) == StartingAt([x] + s, t)
  {
    if |s| > 0 && x.start > s[0].start {
      InsertStable(x, s[1..], t);
      StartingAtCons(s[0], Insert(x, s[1..]), t);
      StartingAtCons(x, s[1..], t);
      StartingAtCons(x, s, t);
      StartingAtCons(s[0], s[1..], t);
    }
  }

  lemma {:induction false} InsertSorted(x: Note, s: seq<Note>)
    requires SortedByStart(s)
    ensures SortedByStart(Insert(x, s))
  {
    if |s| > 0 && x.start > s[0].start {
      var rest := Insert(x, s[1..]);
      InsertSorted(x, s[1..]);
      InsertPermutes(x, s[1..]);
      forall j | 0 <= j < |rest|
        ensures s[0].start <= rest[j].start
      {
        assert rest[j] in multiset([x] + s[1..]);
        if rest[j] != x {
          assert rest[j] in s[1..];
        }
      }
    }
  }

  /** The result is sorted by start time, is a permutation of the input, and
      keeps the input order among notes with the same start time (stability). */
  lemma {:induction false} SortByStartCorrect(s: seq<Note>)
    ensures SortedByStart(SortByStart(s))
    ensures multiset(SortByStart(s)) == multiset(s)
    ensures forall t :: StartingAt(SortByStart(s), t) == StartingAt(s, t)
  {
    if |s| > 0 {
      var rest := SortByStart(s[1..]);
      SortByStartCorrect(s[1..]);
      InsertSorted(s[0], rest);
      InsertPermutes(s[0], rest);
      assert s == [s[0]] + s[1..];
      forall t
        ensures StartingAt(SortByStart(s), t) == StartingAt(s, t)
      {
        InsertStable(s[0], rest, t);
        StartingAtCons(s[0], rest, t);
        StartingAtCons(s[0], s[1..], t);
      }
    }
  }
}

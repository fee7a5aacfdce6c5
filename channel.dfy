/** The engine subprocess seen from the client: a pipe on which commands are
    written one line at a time, and the lines the engine prints, read back
    one `readline()` at a time. */
module Channel {
  import opened PyTypes
  import opened Uci

  /** The subprocess's two pipe ends. `input` holds every line the engine
      will print, as `readline()` returns it; `pos` counts the lines read so
      far; `sent` holds every command written, in order; the text of
      command `c` on the wire is `Line(c)` followed by a newline. */
  class Pipe {
    const input: seq<string>
    var sent: seq<Command>
    var pos: nat

    /** A freshly started engine: nothing written, nothing read. */
    constructor (output: seq<string>)
      ensures input == output && sent == [] && pos == 0
    {
      input := output;
      sent := [];
      pos := 0;
    }

    /** `stdin.write(Line(command) + "\n")` followed by `flush()`. */
    method Write(command: Command)
      modifies this
      ensures sent == old(sent) + [command] && pos == old(pos)
    {
      sent := sent + [command];
    }

    /** `stdout.readline()`: the next line the engine prints. */
    method ReadLine() returns (line: string)
      requires pos < |input|
      modifies this
      ensures line == input[old(pos)] && pos == old(pos) + 1 && sent == old(sent)
    {
      line := input[pos];
      pos := pos + 1;
    }
  }

  // Each wait is stated twice: on `Marks`, one boolean per line, where the
  // lemmas are proved, and on the lines, as the client's methods use it. The
  // line-level lemmas only transfer the mark-level ones. Keeping the string
  // tests behind the marks spares the solver from unfolding `strip` and
  // `split` on every line it reasons about.

  /** For each line, whether it ends a wait for `w`. */
  function Marks(lines: seq<string>, w: Awaited): (m: seq<bool>)
    ensures |m| == |lines|
  {
    if lines == [] then [] else [Ends(w, lines[0])] + Marks(lines[1..], w)
  }

  lemma {:induction false} MarksAt(lines: seq<string>, w: Awaited, i: nat)
    requires i < |lines|
    ensures Marks(lines, w)[i] == Ends(w, lines[i])
  {
    if i > 0 {
      MarksAt(lines[1..], w, i - 1);
    }
  }

  /** The first marked index at or after `from`. */
  function FirstMark(marks: seq<bool>, from: nat): (r: Option<nat>)
    ensures r.Some? ==> from <= r.value < |marks| && marks[r.value]
    decreases |marks| - from
  {
    if from >= |marks| then None
    else if marks[from] then Some(from)
    else FirstMark(marks, from + 1)
  }

  lemma {:induction false} FirstMarkFirst(marks: seq<bool>, from: nat, j: nat)
    requires from <= j < |marks| && marks[j]
    ensures FirstMark(marks, from).Some? && FirstMark(marks, from).value <= j
    decreases j - from
  {
    if !marks[from] {
      FirstMarkFirst(marks, from + 1, j);
    }
  }

  /** How many marked indices there are at or after `from`. */
  function CountMarks(marks: seq<bool>, from: nat): nat
    decreases |marks| - from
  {
    if from >= |marks| then 0
    else (if marks[from] then 1 else 0) + CountMarks(marks, from + 1)
  }

  lemma {:induction false} CountMarksPastFirst(marks: seq<bool>, from: nat)
    ensures FirstMark(marks, from).None? ==> CountMarks(marks, from) == 0
    ensures FirstMark(marks, from).Some? ==>
            CountMarks(marks, from) == 1 + CountMarks(marks, FirstMark(marks, from).value + 1)
    decreases |marks| - from
  {
    if from < |marks| && !marks[from] {
      CountMarksPastFirst(marks, from + 1);
    }
  }

  /** Where `k` successive waits leave the reader, on the marks. */
  function WaitMarks(marks: seq<bool>, from: nat, k: nat): (r: Option<nat>)
    ensures r.Some? ==> from <= r.value && (k > 0 ==> r.value <= |marks|)
  {
    if k == 0 then Some(from)
    else match WaitMarks(marks, from, k - 1)
      case None => None
      case Some(p) =>
        match FirstMark(marks, p)
        case None => None
        case Some(i) => Some(i + 1)
  }

  lemma {:induction false} WaitMarksCount(marks: seq<bool>, from: nat, k: nat)
    ensures WaitMarks(marks, from, k).Some? <==> CountMarks(marks, from) >= k
    ensures WaitMarks(marks, from, k).Some? ==>
            CountMarks(marks, from) == k + CountMarks(marks, WaitMarks(marks, from, k).value)
  {
    if k > 0 {
      WaitMarksCount(marks, from, k - 1);
      match WaitMarks(marks, from, k - 1)
      case None =>
      case Some(p) =>
        CountMarksPastFirst(marks, p);
    }
  }

  lemma WaitMarksNext(marks: seq<bool>, from: nat, k: nat, p: nat)
    requires WaitMarks(marks, from, k) == Some(p) && CountMarks(marks, from) > k
    ensures FirstMark(marks, p).Some?
    ensures WaitMarks(marks, from, k + 1) == Some(FirstMark(marks, p).value + 1)
  {
    WaitMarksCount(marks, from, k + 1);
  }

  /** The first index at or after `from` whose line ends a wait for `w`. */
  function FirstIndex(lines: seq<string>, from: nat, w: Awaited): (r: Option<nat>)
    ensures r.Some? ==> from <= r.value < |lines|
  {
    FirstMark(Marks(lines, w), from)
  }

  /** The line found ends the wait. */
  lemma FirstIndexEnds(lines: seq<string>, from: nat, w: Awaited)
    ensures FirstIndex(lines, from, w).Some? ==> Ends(w, lines[FirstIndex(lines, from, w).value])
  {
    if FirstIndex(lines, from, w).Some? {
      MarksAt(lines, w, FirstIndex(lines, from, w).value);
    }
  }

  /** Any matching line at or after `from` means a match is found, and no
      later than that line. */
  lemma FirstIndexFirst(lines: seq<string>, from: nat, w: Awaited, j: nat)
    requires from <= j < |lines| && Ends(w, lines[j])
    ensures FirstIndex(lines, from, w).Some? && FirstIndex(lines, from, w).value <= j
  {
    MarksAt(lines, w, j);
    FirstMarkFirst(Marks(lines, w), from, j);
  }

  /** Reading one line: the wait stops there if the line ends it, and
      otherwise the first match is the one after it. */
  lemma FirstIndexStep(lines: seq<string>, from: nat, w: Awaited)
    requires from < |lines|
    ensures FirstIndex(lines, from, w) ==
            if Ends(w, lines[from]) then Some(from) else FirstIndex(lines, from + 1, w)
  {
    MarksAt(lines, w, from);
  }

  /** How many lines at or after `from` end a wait for `w`. */
  function Count(lines: seq<string>, from: nat, w: Awaited): nat
  {
    CountMarks(Marks(lines, w), from)
  }

  /** Counting up to and past the first match. */
  lemma CountPastFirst(lines: seq<string>, from: nat, w: Awaited)
    ensures FirstIndex(lines, from, w).None? ==> Count(lines, from, w) == 0
    ensures FirstIndex(lines, from, w).Some? ==>
            Count(lines, from, w) == 1 + Count(lines, FirstIndex(lines, from, w).value + 1, w)
  {
    CountMarksPastFirst(Marks(lines, w), from);
  }

  /** Where the reader stands after `k` successive waits, each reading up to
      and including the next line ending a wait for `w`; None if the lines run out
      first. */
  function Waits(lines: seq<string>, from: nat, k: nat, w: Awaited): (r: Option<nat>)
    ensures r.Some? ==> from <= r.value && (k > 0 ==> r.value <= |lines|)
  {
    WaitMarks(Marks(lines, w), from, k)
  }

  /** `k` waits succeed exactly when at least `k` of the remaining lines
      end a wait for `w`, and they consume exactly `k` of them. */
  lemma WaitsCount(lines: seq<string>, from: nat, k: nat, w: Awaited)
    ensures Waits(lines, from, k, w).Some? <==> Count(lines, from, w) >= k
    ensures Waits(lines, from, k, w).Some? ==>
            Count(lines, from, w) == k + Count(lines, Waits(lines, from, k, w).value, w)
  {
    WaitMarksCount(Marks(lines, w), from, k);
  }

  /** While more matching lines remain than waits done, the next wait
      succeeds and ends just past the next match. */
  lemma WaitsNext(lines: seq<string>, from: nat, k: nat, w: Awaited, p: nat)
    requires Waits(lines, from, k, w) == Some(p) && Count(lines, from, w) > k
    ensures FirstIndex(lines, p, w).Some?
    ensures Waits(lines, from, k + 1, w) == Some(FirstIndex(lines, p, w).value + 1)
  {
    WaitMarksNext(Marks(lines, w), from, k, p);
  }
}

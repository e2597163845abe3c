/**
 The audit log's files (audit.go, lines 49-81 and 133-198): lines are appended
 to the current file, which is rotated to .1, .2, ... once it is large enough.
 File system calls do not fail.
 */
module AuditLog {

  /** A line is the sequence of its bytes, newline included. */
  type Line = string

  function Size(lines: seq<Line>): nat {
    if lines == [] then 0 else Size(lines[..|lines| - 1]) + |lines[|lines| - 1]|
  }

  /** The log as its readers see it: rotated[0] is file .1, the youngest. */
  datatype Log = Log(rotated: seq<seq<Line>>, current: seq<Line>)

  function Rotate(log: Log, keep: nat): Log {
    var files := [log.current] + log.rotated;
    Log(if |files| <= keep then files else files[..keep], [])
  }

  predicate Due(current: seq<Line>, maxBytes: int) { maxBytes > 0 && Size(current) >= maxBytes }

  function Write(log: Log, line: Line, maxBytes: int, keep: nat): Log {
    var log' := log.(current := log.current + [line]);
    if Due(log'.current, maxBytes) then Rotate(log', keep) else log'
  }

  datatype File = Missing | Has(lines: seq<Line>)

  /** Files by number; the current one has number 0. */
  type Files = map<int, seq<Line>>

  function Lookup(files: Files, k: int): File { if k in files then Has(files[k]) else Missing }

  /** The files hold the log and nothing else. */
  ghost predicate Holds(files: Files, log: Log) {
    forall k {:trigger Lookup(files, k)} :: Lookup(files, k) == FileOf(log, k)
  }

  function FileOf(log: Log, k: int): File {
    if k == 0 then Has(log.current) else if 1 <= k <= |log.rotated| then Has(log.rotated[k - 1]) else Missing
  }

  /** The effect of the renames on whatever files there are; a file beyond `keep` stays where it is. */
  ghost predicate Shifted(files: Files, files': Files, keep: nat) {
    && Lookup(files', 0) == Has([])
    && (forall k {:trigger Lookup(files', k)} :: 1 <= k <= keep ==> Lookup(files', k) == Lookup(files, k - 1))
    && (forall k {:trigger Lookup(files', k)} :: k < 0 || k > keep ==> k == 0 || Lookup(files', k) == Lookup(files, k))
  }

  /** os.Rename, which replaces its target, of a file that may be missing. */
  function Move(files: Files, src: int, dst: int): Files {
    if src in files then files[dst := files[src]] - {src} else files
  }

  /** Files i + 1 to keep - 1 have moved up; i + 1 is free. */
  ghost predicate Moved(was: Files, files: Files, i: int, keep: nat) {
    && Lookup(files, i + 1) == Missing
    && (forall k {:trigger Lookup(files, k)} :: k <= i || k > keep ==> Lookup(files, k) == Lookup(was, k))
    && (forall k {:trigger Lookup(files, k)} :: i + 2 <= k <= keep ==> Lookup(files, k) == Lookup(was, k - 1))
  }

  lemma MoveOne(was: Files, files: Files, i: int, keep: nat)
    requires 0 <= i < keep && Moved(was, files, i, keep)
    ensures Moved(was, Move(files, i, i + 1), i - 1, keep)
  {
    var files' := Move(files, i, i + 1);
    assert Lookup(files, i) == Lookup(was, i) && Lookup(files, i + 1) == Missing;
    forall k ensures Lookup(files', k) == if k == i + 1 then Lookup(files, i) else if k == i then Missing else Lookup(files, k) {
    }
  }

  class Logger {
    const maxBytes: int
    const keepFiles: nat
    var files: Files
    var currentBytes: int
    var open: bool

    ghost predicate Valid()
      reads this
    {
      open ==> 0 in files && currentBytes == Size(files[0])
    }

    /** New: appends to an existing file; a negative number of files counts as none. */
    constructor (maxBytes: int, keepFiles: int, files: Files)
      ensures Valid() && open && this.maxBytes == maxBytes && this.keepFiles == (if keepFiles < 0 then 0 else keepFiles)
      ensures this.files == if 0 in files then files else files[0 := []]
    {
      this.maxBytes := maxBytes;
      this.keepFiles := if keepFiles < 0 then 0 else keepFiles;
      var current := if 0 in files then files[0] else [];
      this.files := files[0 := current];
      this.currentBytes := Size(current);
      this.open := true;
    }

    method Close()
      modifies this
      ensures !open && files == old(files) && Valid()
    {
      open := false;
    }

    /** writeEntry */
    method WriteEntry(line: Line)
      requires Valid()
      modifies this
      ensures Valid() && open == old(open)
      ensures !open ==> files == old(files)
      ensures open ==>
                var current := old(files)[0] + [line];
                if Due(current, maxBytes) then Shifted(old(files)[0 := current], files, keepFiles)
                else files == old(files)[0 := current]
    {
      if !open { return; }
      var current := files[0] + [line];
      files := files[0 := current];
      currentBytes := currentBytes + |line|;
      assert current[..|current| - 1] == old(files)[0];
      if maxBytes > 0 && currentBytes >= maxBytes {
        RotateLocked();
      }
    }

    /** rotateLocked: the oldest file goes, the others move up, highest number first. */
    method RotateLocked()
      requires Valid() && open
      modifies this
      ensures Valid() && open
      ensures Shifted(old(files), files, keepFiles)
    {
      ghost var was := files;
      if keepFiles > 0 {
        files := files - {keepFiles};
        var i: int := keepFiles - 1;
        while i >= 1
          invariant 0 <= i < keepFiles && open && Moved(was, files, i, keepFiles)
        {
          MoveOne(was, files, i, keepFiles);
          files := Move(files, i, i + 1);
          i := i - 1;
        }
        MoveOne(was, files, 0, keepFiles);
        files := Move(files, 0, 1);
      }
      ghost var moved := files;
      files := files[0 := []];
      assert forall k {:trigger Lookup(files, k)} :: k != 0 ==> Lookup(files, k) == Lookup(moved, k);
      currentBytes := 0;
    }
  }

  /** The renames rotate the log that the files hold. */
  lemma ShiftRotates(files: Files, files': Files, log: Log, keep: nat)
    requires Holds(files, log) && Shifted(files, files', keep) && |log.rotated| <= keep
    ensures Holds(files', Rotate(log, keep))
  {
    var log' := Rotate(log, keep);
    forall k ensures Lookup(files', k) == FileOf(log', k) {
      assert Lookup(files, k) == FileOf(log, k) && Lookup(files, k - 1) == FileOf(log, k - 1);
    }
  }

  /** So writing to the files writes to the log. */
  lemma WriteHolds(files: Files, files': Files, log: Log, line: Line, maxBytes: int, keep: nat)
    requires Holds(files, log) && |log.rotated| <= keep && 0 in files
    requires var current := files[0] + [line];
             if Due(current, maxBytes) then Shifted(files[0 := current], files', keep) else files' == files[0 := current]
    ensures Holds(files', Write(log, line, maxBytes, keep))
  {
    var current := files[0] + [line];
    var files1, log1 := files[0 := current], log.(current := current);
    assert Lookup(files, 0) == FileOf(log, 0);
    forall k ensures Lookup(files1, k) == FileOf(log1, k) { assert Lookup(files, k) == FileOf(log, k); }
    if Due(current, maxBytes) { ShiftRotates(files1, files', log1, keep); }
  }

  // ---- Runs --------------------------------------------------------------

  /** The log after writing lines, on a current file that already had some. */
  function After(start: seq<Line>, lines: seq<Line>, maxBytes: int, keep: nat): Log {
    if lines == [] then Log([], start)
    else Write(After(start, lines[..|lines| - 1], maxBytes, keep), lines[|lines| - 1], maxBytes, keep)
  }

  /** Files .k down to .1. */
  function Oldest(rotated: seq<seq<Line>>): seq<Line> {
    if rotated == [] then [] else Oldest(rotated[1..]) + rotated[0]
  }

  /** Everything that is still there, oldest first. */
  function Retained(log: Log): seq<Line> { Oldest(log.rotated) + log.current }

  predicate SuffixOf(s: seq<Line>, all: seq<Line>) { |s| <= |all| && s == all[|all| - |s|..] }

  lemma {:induction false} PrefixIsSuffix(rotated: seq<seq<Line>>, k: nat)
    requires k <= |rotated|
    ensures SuffixOf(Oldest(rotated[..k]), Oldest(rotated))
  {
    if k == 0 {
      assert Oldest(rotated[..k]) == [];
    } else {
      assert rotated[..k][1..] == rotated[1..][..k - 1];
      PrefixIsSuffix(rotated[1..], k - 1);
    }
  }

  lemma SuffixAppend(s: seq<Line>, all: seq<Line>, more: seq<Line>)
    requires SuffixOf(s, all)
    ensures SuffixOf(s + more, all + more)
  {
  }

  lemma SuffixTransitive(s: seq<Line>, mid: seq<Line>, all: seq<Line>)
    requires SuffixOf(s, mid) && SuffixOf(mid, all)
    ensures SuffixOf(s, all)
  {
  }

  /** Rotation keeps a suffix, and all of it while there is room for one more file. */
  lemma {:induction false} RotateRetains(log: Log, keep: nat)
    ensures SuffixOf(Retained(Rotate(log, keep)), Retained(log))
    ensures |log.rotated| < keep ==> Retained(Rotate(log, keep)) == Retained(log)
  {
    var files := [log.current] + log.rotated;
    assert files[1..] == log.rotated && Oldest(files) == Retained(log);
    if |files| > keep { PrefixIsSuffix(files, keep); }
  }

  /** What is retained is a suffix of everything ever written, in at most keep rotated files. */
  lemma {:induction false} RetainsSuffix(start: seq<Line>, lines: seq<Line>, maxBytes: int, keep: nat)
    ensures var log := After(start, lines, maxBytes, keep);
            SuffixOf(Retained(log), start + lines) && |log.rotated| <= keep
  {
    if lines == [] {
      assert Retained(After(start, lines, maxBytes, keep)) == start;
    } else {
      var n := |lines| - 1;
      var init, line := lines[..n], lines[n];
      RetainsSuffix(start, init, maxBytes, keep);
      var log := After(start, init, maxBytes, keep);
      var log' := log.(current := log.current + [line]);
      assert Retained(log') == Retained(log) + [line];
      SuffixAppend(Retained(log), start + init, [line]);
      assert start + init + [line] == start + lines;
      RotateRetains(log', keep);
      SuffixTransitive(Retained(Rotate(log', keep)), Retained(log'), start + lines);
    }
  }

  /** What a file of these lines contains. */
  function Text(lines: seq<Line>): string {
    if lines == [] then "" else Text(lines[..|lines| - 1]) + lines[|lines| - 1]
  }

  lemma {:induction false} SizeIsText(lines: seq<Line>)
    ensures Size(lines) == |Text(lines)|
  {
    if lines == [] {
      assert Size(lines) == 0;
    } else {
      SizeIsText(lines[..|lines| - 1]);
    }
  }

  /** The file has reached the limit with its last line, not before. */
  predicate JustFull(file: seq<Line>, maxBytes: int) {
    file != [] && |Text(file[..|file| - 1])| < maxBytes <= |Text(file)|
  }

  lemma {:induction false} DueExactly(file: seq<Line>, maxBytes: int)
    ensures Due(file, maxBytes) <==> 0 < maxBytes <= |Text(file)|
  {
    SizeIsText(file);
  }

  /** All lines of the pieces. */
  function Joined(pieces: seq<seq<Line>>): seq<Line> {
    if pieces == [] then [] else Joined(pieces[..|pieces| - 1]) + pieces[|pieces| - 1]
  }

  lemma {:induction false} JoinedSnoc(pieces: seq<seq<Line>>, piece: seq<Line>)
    ensures Joined(pieces + [piece]) == Joined(pieces) + piece
  {
    assert (pieces + [piece])[..|pieces|] == pieces;
  }

  /** The rotated files are the last pieces, youngest first, keep of them if there are so many. */
  ghost predicate LastPieces(rotated: seq<seq<Line>>, pieces: seq<seq<Line>>, keep: nat) {
    && |rotated| == (if |pieces| <= keep then |pieces| else keep)
    && forall i :: 0 <= i < |rotated| ==> rotated[i] == pieces[|pieces| - 1 - i]
  }

  /**
   The pieces and the current file are what was written; each piece reaches the limit with its last line and not before,
   what remains is below the limit, and without a limit there is no piece.  A file that is over the limit when the log is
   opened is closed by the first line.
   */
  ghost predicate Cut(start: seq<Line>, lines: seq<Line>, current: seq<Line>, pieces: seq<seq<Line>>, maxBytes: int) {
    && Joined(pieces) + current == start + lines
    && (maxBytes <= 0 ==> pieces == [])
    && (maxBytes > 0 && (lines != [] || |Text(start)| < maxBytes) ==> |Text(current)| < maxBytes)
    && (forall i :: 0 <= i < |pieces| ==> JustFull(pieces[i], maxBytes) || (i == 0 && |Text(start)| >= maxBytes))
    && (0 < maxBytes <= |Text(start)| && lines != [] ==> pieces != [] && pieces[0] == start + [lines[0]])
    && (lines == [] ==> current == start && pieces == [])
  }

  lemma {:induction false} CutStart(start: seq<Line>, maxBytes: int)
    ensures Cut(start, [], start, [], maxBytes)
  {
    hide Text;
    assert Joined([]) == [];
  }

  lemma WrittenOn(start: seq<Line>, init: seq<Line>, line: Line, current: seq<Line>, before: seq<Line>)
    requires before + current == start + init
    ensures before + (current + [line]) == start + (init + [line])
  {
    assert before + (current + [line]) == (before + current) + [line];
  }

  /** A line that does not fill the file, */
  lemma {:induction false} CutOn(start: seq<Line>, init: seq<Line>, line: Line,
      current: seq<Line>, pieces: seq<seq<Line>>, maxBytes: int)
    requires Cut(start, init, current, pieces, maxBytes) && !Due(current + [line], maxBytes)
    ensures Cut(start, init + [line], current + [line], pieces, maxBytes)
  {
    hide Text, Joined, JustFull, Due;
    DueExactly(current + [line], maxBytes);
    TextGrows(current, line);
    WrittenOn(start, init, line, current, Joined(pieces));
    assert init != [] ==> (init + [line])[0] == init[0];
  }

  /** and one that does. */
  lemma {:induction false} CutOff(start: seq<Line>, init: seq<Line>, line: Line,
      current: seq<Line>, pieces: seq<seq<Line>>, maxBytes: int)
    requires Cut(start, init, current, pieces, maxBytes) && Due(current + [line], maxBytes)
    ensures Cut(start, init + [line], [], pieces + [current + [line]], maxBytes)
  {
    hide Text, Joined, JustFull, Due;
    var file := current + [line];
    var pieces' := pieces + [file];
    DueExactly(file, maxBytes);
    NoText();
    JoinedSnoc(pieces, file);
    WrittenOn(start, init, line, current, Joined(pieces));
    assert Joined(pieces') + [] == Joined(pieces');
    assert file[..|file| - 1] == current;
    if |Text(current)| < maxBytes { FullNow(file, maxBytes); }
    assert init != [] ==> (init + [line])[0] == init[0];
    assert pieces != [] ==> pieces'[0] == pieces[0];
    forall i | 0 <= i < |pieces'| ensures JustFull(pieces'[i], maxBytes) || (i == 0 && |Text(start)| >= maxBytes) {
      if i < |pieces| { assert pieces'[i] == pieces[i]; }
    }
  }

  /** The log cuts what is written where it is full, and keeps the last pieces. */
  lemma {:induction false} CutsWhereFull(start: seq<Line>, lines: seq<Line>, maxBytes: int, keep: nat)
      returns (pieces: seq<seq<Line>>)
    ensures var log := After(start, lines, maxBytes, keep);
            && Cut(start, lines, log.current, pieces, maxBytes)
            && LastPieces(log.rotated, pieces, keep) && |pieces| == Rotations(start, lines, maxBytes, keep)
  {
    hide Due, Text, Cut;
    if lines == [] {
      pieces := [];
      CutStart(start, maxBytes);
    } else {
      var init, line := lines[..|lines| - 1], lines[|lines| - 1];
      pieces := CutsWhereFull(start, init, maxBytes, keep);
      var log := After(start, init, maxBytes, keep);
      assert lines == init + [line];
      if Due(log.current + [line], maxBytes) {
        CutOff(start, init, line, log.current, pieces, maxBytes);
        LastPiecesOn(log, log.current + [line], pieces, keep);
        pieces := pieces + [log.current + [line]];
      } else {
        CutOn(start, init, line, log.current, pieces, maxBytes);
      }
    }
  }

  lemma {:induction false} TextGrows(file: seq<Line>, line: Line)
    ensures |Text(file + [line])| == |Text(file)| + |line|
  {
    assert (file + [line])[..|file|] == file;
  }

  lemma NoText()
    ensures Text([]) == ""
  {
  }

  lemma FullNow(file: seq<Line>, maxBytes: int)
    requires file != [] && |Text(file[..|file| - 1])| < maxBytes <= |Text(file)|
    ensures JustFull(file, maxBytes)
  {
  }

  lemma LastPiecesOn(log: Log, current: seq<Line>, pieces: seq<seq<Line>>, keep: nat)
    requires LastPieces(log.rotated, pieces, keep)
    ensures LastPieces(Rotate(log.(current := current), keep).rotated, pieces + [current], keep)
  {
  }

  /** So every rotated file was just filled, and the current one is not full. */
  lemma {:induction false} FilesJustFull(start: seq<Line>, lines: seq<Line>, maxBytes: int, keep: nat)
    requires maxBytes > 0 ==> |Text(start)| < maxBytes
    ensures var log := After(start, lines, maxBytes, keep);
            && (maxBytes > 0 ==> |Text(log.current)| < maxBytes)
            && (forall i :: 0 <= i < |log.rotated| ==> JustFull(log.rotated[i], maxBytes))
            && (maxBytes <= 0 ==> log == Log([], start + lines))
  {
    hide JustFull, Text, After, Rotations;
    var pieces := CutsWhereFull(start, lines, maxBytes, keep);
    if maxBytes <= 0 { assert Joined(pieces) == []; }
  }

  lemma {:induction false} RetainsStart(start: seq<Line>)
    ensures Retained(Log([], start)) == start
  {
  }

  /** How many times the lines have made the log rotate. */
  function Rotations(start: seq<Line>, lines: seq<Line>, maxBytes: int, keep: nat): nat {
    if lines == [] then 0
    else
      var init, line := lines[..|lines| - 1], lines[|lines| - 1];
      Rotations(start, init, maxBytes, keep)
      + if Due(After(start, init, maxBytes, keep).current + [line], maxBytes) then 1 else 0
  }

  /** Every rotation adds a file, which has a line, until there are keep. */
  lemma {:induction false} RotatedFiles(start: seq<Line>, lines: seq<Line>, maxBytes: int, keep: nat)
    ensures var log, n := After(start, lines, maxBytes, keep), Rotations(start, lines, maxBytes, keep);
            && |log.rotated| == (if n <= keep then n else keep)
            && forall i :: 0 <= i < |log.rotated| ==> log.rotated[i] != []
  {
    hide Due;
    if lines == [] {
      assert After(start, lines, maxBytes, keep) == Log([], start);
    } else {
      RotatedFiles(start, lines[..|lines| - 1], maxBytes, keep);
    }
  }

  lemma {:induction false} OldestFirst(files: seq<seq<Line>>)
    requires files != []
    ensures var n := |files| - 1; Oldest(files) == files[n] + Oldest(files[..n])
  {
    var n := |files| - 1;
    if n == 0 {
      assert Oldest(files) == Oldest(files[1..]) + files[0];
      assert files[1..] == [] && files[..n] == [];
    } else {
      OldestFirst(files[1..]);
      assert files[1..][..n - 1] == files[..n][1..];
    }
  }

  /** A rotation loses nothing while there is room, and something once all keep files are there. */
  lemma {:induction false} RotateLoses(log: Log, keep: nat)
    requires |log.rotated| <= keep && log.current != [] && forall i :: 0 <= i < |log.rotated| ==> log.rotated[i] != []
    ensures SuffixOf(Retained(Rotate(log, keep)), Retained(log))
    ensures |Retained(Rotate(log, keep))| == |Retained(log)| <==> |log.rotated| < keep
  {
    RotateRetains(log, keep);
    if |log.rotated| == keep {
      var files := [log.current] + log.rotated;
      assert files[1..] == log.rotated;
      OldestFirst(files);
    }
  }

  /** No line is lost if and only if the log has rotated at most keep times. */
  lemma {:induction false} LosesExactly(start: seq<Line>, lines: seq<Line>, maxBytes: int, keep: nat)
    ensures Retained(After(start, lines, maxBytes, keep)) == start + lines <==>
            Rotations(start, lines, maxBytes, keep) <= keep
  {
    RetainsSuffix(start, lines, maxBytes, keep);
    RetainedLength(start, lines, maxBytes, keep);
  }

  lemma {:induction false} RetainedLength(start: seq<Line>, lines: seq<Line>, maxBytes: int, keep: nat)
    ensures var kept := |Retained(After(start, lines, maxBytes, keep))|;
            && kept <= |start| + |lines|
            && (kept == |start| + |lines| <==> Rotations(start, lines, maxBytes, keep) <= keep)
  {
    hide Due, Oldest;
    if lines == [] {
      RetainsStart(start);
    } else {
      var init, line := lines[..|lines| - 1], lines[|lines| - 1];
      RetainedLength(start, init, maxBytes, keep);
      RotatedFiles(start, init, maxBytes, keep);
      var log := After(start, init, maxBytes, keep);
      var log' := log.(current := log.current + [line]);
      assert Retained(log') == Retained(log) + [line];
      RotateLoses(log', keep);
    }
  }

  /** Files .hi, ..., .(lo + 1), one after the other. */
  function ReadBack(files: Files, lo: nat, hi: nat): seq<Line>
    decreases hi - lo
  {
    if lo >= hi then [] else ReadBack(files, lo + 1, hi) + (if lo + 1 in files then files[lo + 1] else [])
  }

  lemma {:induction false} ReadsRotated(files: Files, log: Log, k: nat)
    requires Holds(files, log) && k <= |log.rotated|
    ensures ReadBack(files, k, |log.rotated|) == Oldest(log.rotated[k..])
    decreases |log.rotated| - k
  {
    if k == |log.rotated| {
      assert log.rotated[k..] == [];
    } else {
      ReadsRotated(files, log, k + 1);
      assert log.rotated[k..][1..] == log.rotated[k + 1..];
      assert Lookup(files, k + 1) == FileOf(log, k + 1);
    }
  }

  /** There are files 0 to k and no others. */
  ghost predicate Contiguous(files: Files, k: nat) { forall i :: i in files <==> 0 <= i <= k }

  lemma {:induction false} HoldsRetained(files: Files, log: Log)
    requires Holds(files, log)
    ensures Contiguous(files, |log.rotated|) && ReadBack(files, 0, |log.rotated|) + files[0] == Retained(log)
  {
    ReadsRotated(files, log, 0);
    assert log.rotated[0..] == log.rotated;
    forall i ensures i in files <==> 0 <= i <= |log.rotated| { assert Lookup(files, i) == FileOf(log, i); }
    assert Lookup(files, 0) == FileOf(log, 0);
  }

  /** Files .k down to .1 and then the current one, read one after the other, are a suffix of everything ever written;
      the numbers have no gap and there are at most keep rotated files. */
  lemma {:induction false} FilesHoldSuffix(files: Files, start: seq<Line>, lines: seq<Line>, maxBytes: int, keep: nat)
    requires Holds(files, After(start, lines, maxBytes, keep))
    ensures exists k: nat ::
              && k <= keep && Contiguous(files, k)
              && SuffixOf(ReadBack(files, 0, k) + files[0], start + lines)
  {
    hide After, ReadBack, Oldest, SuffixOf;
    var log := After(start, lines, maxBytes, keep);
    RetainsSuffix(start, lines, maxBytes, keep);
    HoldsRetained(files, log);
    assert Contiguous(files, |log.rotated|);
  }

  /** A logger on an empty set of rotated files writes the lines of a run one by one. */
  method Record(logger: Logger, lines: seq<Line>, ghost start: seq<Line>)
    requires logger.Valid() && logger.open && logger.files == map[0 := start]
    modifies logger
    ensures Holds(logger.files, After(start, lines, logger.maxBytes, logger.keepFiles))
  {
    hide Holds, Write, Due, Shifted, After, SuffixOf, Retained, Size;
    var i := 0;
    assert lines[..0] == [];
    assert Holds(logger.files, After(start, lines[..0], logger.maxBytes, logger.keepFiles)) by {
      HoldsStart(start, logger.maxBytes, logger.keepFiles);
    }
    while i < |lines|
      invariant 0 <= i <= |lines| && logger.Valid() && logger.open
      invariant Holds(logger.files, After(start, lines[..i], logger.maxBytes, logger.keepFiles))
    {
      ghost var files := logger.files;
      ghost var log := After(start, lines[..i], logger.maxBytes, logger.keepFiles);
      RetainsSuffix(start, lines[..i], logger.maxBytes, logger.keepFiles);
      logger.WriteEntry(lines[i]);
      WriteHolds(files, logger.files, log, lines[i], logger.maxBytes, logger.keepFiles);
      AfterOneMore(start, lines, i, logger.maxBytes, logger.keepFiles);
      i := i + 1;
    }
    assert lines[..i] == lines;
  }

  lemma {:induction false} HoldsStart(start: seq<Line>, maxBytes: int, keep: nat)
    ensures Holds(map[0 := start], After(start, [], maxBytes, keep))
  {
  }

  lemma {:induction false} AfterOneMore(start: seq<Line>, lines: seq<Line>, i: nat, maxBytes: int, keep: nat)
    requires i < |lines|
    ensures After(start, lines[..i + 1], maxBytes, keep) ==
            Write(After(start, lines[..i], maxBytes, keep), lines[i], maxBytes, keep)
  {
    assert lines[..i + 1][..i] == lines[..i];
  }
}

/**
  `BridgeJournal` of `workspace_harbor_bridge.py`: an append-only journal kept in a current file and
  a fixed number of older ones, which rotation shifts one place on. An append runs under the journal
  lock; it fails open, and a failure or the death of the process may stop it after any file operation.
 */
module Journal {
  import opened Wrappers

  /** One journal line: whose event it is, what it says, and its length in bytes. */
  datatype Line = Line(root: string, event: nat, bytes: nat)

  type Text = seq<Line>

  /** Index 0 is `journal.jsonl`, index i is `journal.jsonl.i`; a file may be missing. */
  type Files = seq<Option<Text>>

  function TextOf(file: Option<Text>): Text {
    if file.Some? then file.value else []
  }

  function Bytes(text: Text): nat {
    if text == [] then 0 else text[0].bytes + Bytes(text[1..])
  }

  /** The files read from the oldest to the newest. */
  function Content(files: Files): Text {
    if files == [] then [] else Content(files[1..]) + TextOf(files[0])
  }

  // ---------------------------------------------------------------------------------
  // Append
  // ---------------------------------------------------------------------------------

  /** Where an append stops: never, before it touches a file, after the rotation steps above an
      index, at opening the current file, or with that file opened but nothing written. */
  datatype Stop = Never | AtStart | InRotation(done: nat) | AtOpen | AtWrite

  function Shift(files: Files, k: nat): Files
    requires 0 < k < |files|
  {
    if files[k - 1].Some? then files[k := files[k - 1]][k - 1 := None] else files
  }

  /** The rotation loop from index `k` down to, but not including, `stop`. */
  function ShiftDown(files: Files, k: nat, stop: nat): (shifted: Files)
    requires k < |files|
    ensures |shifted| == |files|
    decreases k
  {
    if k <= stop then files else ShiftDown(Shift(files, k), k - 1, stop)
  }

  predicate NeedsRotation(files: Files, line: Line, max: nat)
    requires files != []
  {
    var current := Bytes(TextOf(files[0]));
    current != 0 && current + line.bytes > max
  }

  function Rotated(files: Files, line: Line, max: nat, stop: nat): (rotated: Files)
    requires files != []
    ensures |rotated| == |files|
  {
    if NeedsRotation(files, line, max) then ShiftDown(files, |files| - 1, stop) else files
  }

  function Appended(files: Files, line: Line, max: nat, stop: Stop): (result: (Files, bool))
    requires files != []
    ensures |result.0| == |files|
  {
    match stop
    case AtStart => (files, false)
    case InRotation(done) => (Rotated(files, line, max, done), false)
    case AtOpen => (Rotated(files, line, max, 0), false)
    case AtWrite => (var f := Rotated(files, line, max, 0); f[0 := Some(TextOf(f[0]))], false)
    case Never => (var f := Rotated(files, line, max, 0); f[0 := Some(TextOf(f[0]) + [line])], true)
  }

  // ---------------------------------------------------------------------------------
  // The files are a suffix of the history
  // ---------------------------------------------------------------------------------

  predicate SuffixOf(part: Text, whole: Text) {
    |part| <= |whole| && whole[|whole| - |part|..] == part
  }

  lemma {:induction false} ContentSplit(files: Files, i: nat)
    requires i <= |files|
    ensures Content(files) == Content(files[i..]) + Content(files[..i])
  {
    if i == 0 {
      assert files[..0] == [] && files[0..] == files;
      assert Content(files) + [] == Content(files);
    } else {
      ContentSplit(files[1..], i - 1);
      assert files[1..][i - 1..] == files[i..] && files[1..][..i - 1] == files[1..i];
      assert files[..i][1..] == files[1..i] && files[..i][0] == files[0];
      Reassociate(Content(files[i..]), Content(files[1..i]), TextOf(files[0]));
    }
  }

  lemma ContentFrom(files: Files, k: nat)
    requires k < |files|
    ensures Content(files[k..]) == Content(files[k + 1..]) + TextOf(files[k])
  {
  }

  /** The content around two neighbouring files. */
  lemma ContentAround(files: Files, k: nat)
    requires 0 < k < |files|
    ensures Content(files) == Content(files[k + 1..]) + TextOf(files[k]) + TextOf(files[k - 1]) + Content(files[..k - 1])
  {
    ContentSplit(files, k - 1);
    ContentFrom(files, k - 1);
    ContentFrom(files, k);
  }

  lemma SuffixExtends(part: Text, whole: Text, more: Text)
    requires SuffixOf(part, whole)
    ensures SuffixOf(part + more, whole + more)
  {
  }

  lemma SuffixTransitive(a: Text, b: Text, c: Text)
    requires SuffixOf(a, b) && SuffixOf(b, c)
    ensures SuffixOf(a, c)
  {
  }

  /** Shifting moves a text one file on, over what that file held. */
  lemma ShiftDropsTheTarget(files: Files, k: nat)
    requires 0 < k < |files| && files[k - 1].Some?
    ensures Content(Shift(files, k)) == Content(files[k + 1..]) + TextOf(files[k - 1]) + Content(files[..k - 1])
  {
    var f := Shift(files, k);
    ContentAround(f, k);
    assert f[k + 1..] == files[k + 1..] && f[..k - 1] == files[..k - 1];
    assert Content(files[k + 1..]) + TextOf(files[k - 1]) + [] == Content(files[k + 1..]) + TextOf(files[k - 1]);
  }

  lemma ShiftIntoMissing(files: Files, k: nat)
    requires 0 < k < |files| && files[k].None? && files[k - 1].Some?
    ensures Content(Shift(files, k)) == Content(files)
  {
    ShiftDropsTheTarget(files, k);
    ContentAround(files, k);
    assert Content(files[k + 1..]) + [] == Content(files[k + 1..]);
  }

  lemma ShiftIntoLast(files: Files)
    requires |files| > 1 && files[|files| - 2].Some?
    ensures SuffixOf(Content(Shift(files, |files| - 1)), Content(files))
  {
    var k := |files| - 1;
    var moved, newer := TextOf(files[k - 1]), Content(files[..k - 1]);
    ShiftDropsTheTarget(files, k);
    ContentAround(files, k);
    assert files[k + 1..] == [];
    assert [] + moved == moved && [] + TextOf(files[k]) == TextOf(files[k]);
    Reassociate(TextOf(files[k]), moved, newer);
  }

  /** Shifting into the last file drops its old text; shifting into a missing file loses nothing. */
  lemma ShiftKeepsSuffix(files: Files, k: nat)
    requires 0 < k < |files| && (k == |files| - 1 || files[k].None?)
    ensures SuffixOf(Content(Shift(files, k)), Content(files))
    ensures |Shift(files, k)| == |files| && Shift(files, k)[k - 1].None?
  {
    if files[k - 1].Some? {
      if files[k].None? {
        ShiftIntoMissing(files, k);
      } else {
        ShiftIntoLast(files);
      }
    }
  }

  lemma {:induction false} ShiftDownKeepsSuffix(files: Files, k: nat, stop: nat)
    requires k < |files| && (k == |files| - 1 || files[k].None?)
    ensures SuffixOf(Content(ShiftDown(files, k, stop)), Content(files))
    ensures stop == 0 && 0 < k ==> ShiftDown(files, k, stop)[0].None?
    decreases k
  {
    if k > stop {
      ShiftKeepsSuffix(files, k);
      ShiftDownKeepsSuffix(Shift(files, k), k - 1, stop);
      SuffixTransitive(Content(ShiftDown(files, k, stop)), Content(Shift(files, k)), Content(files));
    }
  }

  lemma RotatedKeepsSuffix(files: Files, line: Line, max: nat, stop: nat)
    requires files != []
    ensures SuffixOf(Content(Rotated(files, line, max, stop)), Content(files))
  {
    if NeedsRotation(files, line, max) {
      ShiftDownKeepsSuffix(files, |files| - 1, stop);
    }
  }

  lemma WritingTheCurrentFile(f: Files, text: Text)
    requires f != []
    ensures Content(f[0 := Some(TextOf(f[0]) + text)]) == Content(f) + text
  {
    var f' := f[0 := Some(TextOf(f[0]) + text)];
    assert f'[1..] == f[1..];
    assert Content(f[1..]) + (TextOf(f[0]) + text) == Content(f[1..]) + TextOf(f[0]) + text;
  }

  function Extension(line: Line, stop: Stop): Text {
    if stop.Never? then [line] else []
  }

  /** An append keeps the files a suffix of the history, extended by the line exactly when it succeeds. */
  lemma AppendKeepsSuffix(files: Files, line: Line, max: nat, stop: Stop, history: Text)
    requires files != [] && SuffixOf(Content(files), history)
    ensures SuffixOf(Content(Appended(files, line, max, stop).0), history + Extension(line, stop))
    ensures Appended(files, line, max, stop).1 <==> stop.Never?
  {
    assert history + [] == history;
    if !stop.AtStart? {
      var done := if stop.InRotation? then stop.done else 0;
      var f := Rotated(files, line, max, done);
      RotatedKeepsSuffix(files, line, max, done);
      SuffixTransitive(Content(f), Content(files), history);
      if stop.Never? {
        WritingTheCurrentFile(f, [line]);
        SuffixExtends(Content(f), history, [line]);
      } else if stop.AtWrite? {
        assert TextOf(f[0]) + [] == TextOf(f[0]);
        WritingTheCurrentFile(f, []);
        assert Content(f) + [] == Content(f);
      }
    }
  }

  /** Once a file is missing, shifting the newer ones into it loses nothing. */
  lemma {:induction false} ShiftDownLosesNothing(files: Files, k: nat, stop: nat)
    requires k < |files| && files[k].None?
    ensures Content(ShiftDown(files, k, stop)) == Content(files)
    decreases k
  {
    if k > stop {
      ShiftKeepsSuffix(files, k);
      if files[k - 1].Some? {
        ShiftIntoMissing(files, k);
      }
      ShiftDownLosesNothing(Shift(files, k), k - 1, stop);
    }
  }

  /** The text that a full rotation drops: that of the oldest file, if there is one to replace it. */
  function Dropped(files: Files, line: Line, max: nat): Text
    requires files != []
  {
    var last := |files| - 1;
    if NeedsRotation(files, line, max) && last > 0 && files[last - 1].Some? then TextOf(files[last]) else []
  }

  lemma ShiftDropsTheOldest(files: Files)
    requires |files| > 1 && files[|files| - 2].Some?
    ensures Content(files) == TextOf(files[|files| - 1]) + Content(Shift(files, |files| - 1))
  {
    var k := |files| - 1;
    ShiftDropsTheTarget(files, k);
    ContentAround(files, k);
    assert files[k + 1..] == [];
    assert [] + TextOf(files[k - 1]) == TextOf(files[k - 1]) && [] + TextOf(files[k]) == TextOf(files[k]);
    Reassociate(TextOf(files[k]), TextOf(files[k - 1]), Content(files[..k - 1]));
  }

  lemma RotationDropsTheOldest(files: Files, line: Line, max: nat)
    requires files != []
    ensures Content(files) == Dropped(files, line, max) + Content(Rotated(files, line, max, 0))
  {
    var k := |files| - 1;
    assert [] + Content(files) == Content(files);
    if NeedsRotation(files, line, max) && k > 0 {
      ShiftKeepsSuffix(files, k);
      if files[k - 1].Some? {
        ShiftDropsTheOldest(files);
      }
      ShiftDownLosesNothing(Shift(files, k), k - 1, 0);
    }
  }

  /** A successful append adds its line at the end and loses at most the text of the oldest file. */
  lemma AppendLosesOnlyTheOldestFile(files: Files, line: Line, max: nat)
    requires files != []
    ensures Dropped(files, line, max) + Content(Appended(files, line, max, Never).0) == Content(files) + [line]
  {
    var f := Rotated(files, line, max, 0);
    RotationDropsTheOldest(files, line, max);
    WritingTheCurrentFile(f, [line]);
    Reassociate(Dropped(files, line, max), Content(f), [line]);
  }

  lemma {:induction false} ShiftDownAt(files: Files, k: nat)
    requires k < |files|
    ensures
      var shifted := ShiftDown(files, k, 0);
      && (forall i | k < i < |files| :: shifted[i] == files[i])
      && (forall i | 0 < i < k :: shifted[i] == files[i - 1])
      && (k > 0 ==> shifted[0] == None && shifted[k] == if files[k - 1].Some? then files[k - 1] else files[k])
      && (k == 0 ==> shifted == files)
    decreases k
  {
    if k > 0 {
      ShiftDownAt(Shift(files, k), k - 1);
    }
  }

  /**
    A full rotation. Nothing moves while the line fits behind what the current file holds, or that
    holds nothing, or there are no backups. Otherwise every file takes the place of the next older one,
    the oldest being overwritten unless nothing takes its place, and the current file is gone.
   */
  lemma RotationShiftsByOne(files: Files, line: Line, max: nat)
    requires files != []
    ensures
      var used, last, rotated := Bytes(TextOf(files[0])), |files| - 1, Rotated(files, line, max, 0);
      && (used == 0 || used + line.bytes <= max || last == 0 ==> rotated == files)
      && (used > 0 && used + line.bytes > max && last > 0 ==>
            && rotated[0] == None && (forall i | 0 < i < last :: rotated[i] == files[i - 1])
            && rotated[last] == if files[last - 1].Some? then files[last - 1] else files[last])
  {
    ShiftDownAt(files, |files| - 1);
  }

  // ---------------------------------------------------------------------------------
  // The files are bounded
  // ---------------------------------------------------------------------------------

  predicate Bounded(file: Option<Text>, max: nat) {
    Bytes(TextOf(file)) <= max || |TextOf(file)| <= 1
  }

  predicate AllBounded(files: Files, max: nat) {
    forall i | 0 <= i < |files| :: Bounded(files[i], max)
  }

  lemma {:induction false} ShiftDownKeepsBounds(files: Files, k: nat, stop: nat, max: nat)
    requires k < |files| && AllBounded(files, max)
    ensures AllBounded(ShiftDown(files, k, stop), max)
    decreases k
  {
    if k > stop {
      ShiftDownKeepsBounds(Shift(files, k), k - 1, stop, max);
    }
  }

  lemma {:induction false} BytesAppend(text: Text, line: Line)
    ensures Bytes(text + [line]) == Bytes(text) + line.bytes
  {
    if text == [] {
      assert text + [line] == [line];
      assert [line][1..] == [];
    } else {
      BytesAppend(text[1..], line);
      assert (text + [line])[1..] == text[1..] + [line];
    }
  }

  lemma {:induction false} NoBytesNoLines(text: Text)
    requires Bytes(text) == 0 && forall i | 0 <= i < |text| :: text[i].bytes > 0
    ensures text == []
  {
  }

  /** Every line has at least its newline. */
  predicate NonEmpty(files: Files) {
    forall i | 0 <= i < |files| :: forall j | 0 <= j < |TextOf(files[i])| :: TextOf(files[i])[j].bytes > 0
  }

  lemma {:induction false} ShiftDownKeepsNonEmpty(files: Files, k: nat, stop: nat)
    requires k < |files| && NonEmpty(files)
    ensures NonEmpty(ShiftDown(files, k, stop))
    decreases k
  {
    if k > stop {
      ShiftDownKeepsNonEmpty(Shift(files, k), k - 1, stop);
    }
  }

  lemma RotatedKeepsBounds(files: Files, line: Line, max: nat, stop: nat)
    requires files != [] && AllBounded(files, max) && NonEmpty(files)
    ensures AllBounded(Rotated(files, line, max, stop), max) && NonEmpty(Rotated(files, line, max, stop))
  {
    if NeedsRotation(files, line, max) {
      ShiftDownKeepsBounds(files, |files| - 1, stop, max);
      ShiftDownKeepsNonEmpty(files, |files| - 1, stop);
    }
  }

  /** The line that is written fits, or is the only one. */
  lemma LineFits(files: Files, line: Line, max: nat)
    requires |files| > 1 && NonEmpty(files)
    ensures Bounded(Some(TextOf(Rotated(files, line, max, 0)[0]) + [line]), max)
  {
    var text := TextOf(files[0]);
    if NeedsRotation(files, line, max) {
      ShiftedAway(files);
    } else if Bytes(text) == 0 {
      NoBytesNoLines(text);
    } else {
      BytesAppend(text, line);
    }
  }

  /** With at least one backup every file stays within the limit or holds a single line. */
  lemma AppendKeepsBounds(files: Files, line: Line, max: nat, stop: Stop)
    requires |files| > 1 && AllBounded(files, max) && NonEmpty(files) && line.bytes > 0
    ensures AllBounded(Appended(files, line, max, stop).0, max) && NonEmpty(Appended(files, line, max, stop).0)
  {
    if !stop.AtStart? {
      RotatedKeepsBounds(files, line, max, if stop.InRotation? then stop.done else 0);
      LineFits(files, line, max);
    }
  }

  lemma ShiftedAway(files: Files)
    requires |files| > 1
    ensures ShiftDown(files, |files| - 1, 0)[0].None?
  {
    ShiftDownKeepsSuffix(files, |files| - 1, 0);
  }

  // ---------------------------------------------------------------------------------
  // Runs
  // ---------------------------------------------------------------------------------

  datatype Op = Op(line: Line, stop: Stop)

  function Empty(backups: nat): Files {
    seq(backups + 1, i => None)
  }

  function Run(files: Files, max: nat, ops: seq<Op>): (result: Files)
    requires files != []
    ensures |result| == |files|
    decreases |ops|
  {
    if ops == [] then files else Run(Appended(files, ops[0].line, max, ops[0].stop).0, max, ops[1..])
  }

  /** The lines of the appends that succeeded. */
  function History(ops: seq<Op>): Text {
    if ops == [] then [] else Extension(ops[0].line, ops[0].stop) + History(ops[1..])
  }

  predicate RealLines(ops: seq<Op>) {
    forall i | 0 <= i < |ops| :: ops[i].line.bytes > 0
  }

  lemma {:induction false} RunKeepsSuffix(files: Files, max: nat, ops: seq<Op>, before: Text)
    requires files != [] && SuffixOf(Content(files), before)
    ensures SuffixOf(Content(Run(files, max, ops)), before + History(ops))
    decreases |ops|
  {
    if ops == [] {
      assert History(ops) == [] && before + [] == before;
    } else {
      var step := Extension(ops[0].line, ops[0].stop);
      AppendKeepsSuffix(files, ops[0].line, max, ops[0].stop, before);
      RunKeepsSuffix(Appended(files, ops[0].line, max, ops[0].stop).0, max, ops[1..], before + step);
      Reassociate(before, step, History(ops[1..]));
    }
  }

  lemma {:induction false} NothingYet(backups: nat)
    ensures Content(Empty(backups)) == []
  {
    if backups > 0 {
      NothingYet(backups - 1);
      assert Empty(backups)[1..] == Empty(backups - 1);
    } else {
      assert Empty(0)[1..] == [];
    }
  }

  /** Whatever fails on the way, the files always hold a contiguous suffix of everything appended. */
  lemma {:induction false} FilesAreASuffix(backups: nat, max: nat, ops: seq<Op>)
    ensures SuffixOf(Content(Run(Empty(backups), max, ops)), History(ops))
  {
    NothingYet(backups);
    RunKeepsSuffix(Empty(backups), max, ops, []);
    assert [] + History(ops) == History(ops);
  }

  lemma {:induction false} RunKeepsBounds(files: Files, max: nat, ops: seq<Op>)
    requires |files| > 1 && AllBounded(files, max) && NonEmpty(files) && RealLines(ops)
    ensures AllBounded(Run(files, max, ops), max)
    decreases |ops|
  {
    if ops != [] {
      AppendKeepsBounds(files, ops[0].line, max, ops[0].stop);
      RunKeepsBounds(Appended(files, ops[0].line, max, ops[0].stop).0, max, ops[1..]);
    }
  }

  ghost predicate AlwaysBounded(backups: nat, max: nat) {
    forall ops | RealLines(ops) :: AllBounded(Run(Empty(backups), max, ops), max)
  }

  /** The size limit is kept exactly when there is at least one backup: without one nothing rotates. */
  lemma {:induction false} BoundedExactlyWithBackups(backups: nat, max: nat)
    ensures AlwaysBounded(backups, max) <==> backups >= 1
  {
    if backups >= 1 {
      forall ops | RealLines(ops) ensures AllBounded(Run(Empty(backups), max, ops), max) {
        RunKeepsBounds(Empty(backups), max, ops);
      }
    } else {
      var op := Op(Line("", 0, max + 1), Never);
      var files := Empty(0);
      var once := Appended(files, op.line, max, Never).0;
      assert once == [Some([op.line])] by {
        assert [] + [op.line] == [op.line];
      }
      var twice := Appended(once, op.line, max, Never).0;
      assert twice == [Some([op.line] + [op.line])];
      assert [op, op][1..] == [op] && [op][1..] == [];
      assert Run(twice, max, []) == twice;
      assert Run(once, max, [op]) == twice;
      assert Run(files, max, [op, op]) == Run(once, max, [op]);
      BytesAppend([op.line], op.line);
      BytesAppend([], op.line);
      assert [] + [op.line] == [op.line];
      assert !Bounded(twice[0], max);
      assert RealLines([op, op]);
    }
  }

  // ---------------------------------------------------------------------------------
  // Recent
  // ---------------------------------------------------------------------------------

  function Matching(text: Text, root: string): Text {
    if text == [] then [] else (if text[0].root == root then [text[0]] else []) + Matching(text[1..], root)
  }

  function Last(text: Text, limit: int): Text {
    if limit <= 0 then [] else if |text| <= limit then text else text[|text| - limit..]
  }

  lemma {:induction false} MatchingJoins(a: Text, b: Text, root: string)
    ensures Matching(a + b, root) == Matching(a, root) + Matching(b, root)
  {
    if a == [] {
      assert a + b == b;
    } else {
      MatchingJoins(a[1..], b, root);
      assert (a + b)[0] == a[0] && (a + b)[1..] == a[1..] + b;
      var first := if a[0].root == root then [a[0]] else [];
      Reassociate(first, Matching(a[1..], root), Matching(b, root));
    }
  }

  lemma MatchingKeepsSuffix(a: Text, b: Text, root: string)
    requires SuffixOf(a, b)
    ensures SuffixOf(Matching(a, root), Matching(b, root))
  {
    assert b == b[..|b| - |a|] + a;
    MatchingJoins(b[..|b| - |a|], a, root);
  }

  /** The matching lines are those of the root, each as often as it occurs; `MatchingJoins` keeps
      them in order. */
  lemma {:induction false} MatchingHolds(text: Text, root: string, line: Line)
    ensures multiset(Matching(text, root))[line] == if line.root == root then multiset(text)[line] else 0
  {
    if text != [] {
      MatchingHolds(text[1..], root, line);
      assert text == [text[0]] + text[1..];
    }
  }

  /** `recent` returns the end of the matching lines: as many as asked for, or all if there are fewer. */
  lemma RecentIsAsAsked(text: Text, root: string, limit: int)
    ensures
      var recent, all := Last(Matching(text, root), limit), Matching(text, root);
      && SuffixOf(recent, all)
      && |recent| == (if limit <= 0 then 0 else if limit < |all| then limit else |all|)
  {
  }

  /** What `recent` returns is also the end of the whole history, as far as the files reach back. */
  lemma {:induction false} RecentIsTheEndOfHistory(backups: nat, max: nat, ops: seq<Op>, root: string, limit: int)
    ensures
      var recent := Last(Matching(Content(Run(Empty(backups), max, ops)), root), limit);
      && SuffixOf(recent, Matching(History(ops), root))
      && (limit > 0 && |Matching(Content(Run(Empty(backups), max, ops)), root)| >= limit ==>
            recent == Last(Matching(History(ops), root), limit))
  {
    FilesAreASuffix(backups, max, ops);
    var content := Content(Run(Empty(backups), max, ops));
    MatchingKeepsSuffix(content, History(ops), root);
    var kept, all := Matching(content, root), Matching(History(ops), root);
    SuffixTransitive(Last(kept, limit), kept, all);
    if limit > 0 && |kept| >= limit {
      assert all[|all| - limit..] == all[|all| - |kept|..][|kept| - limit..];
    }
  }

  // ---------------------------------------------------------------------------------
  // The journal directory
  // ---------------------------------------------------------------------------------

  class BridgeJournal {
    const files: array<Option<Text>>
    const max: nat

    constructor (backups: nat, max: nat)
      ensures files[..] == Empty(backups) && this.max == max && fresh(files)
    {
      files := new Option<Text>[backups + 1](i => None);
      this.max := max;
    }

    /** The rotation loop; it stops early when `stop` is not 0. */
    method Rotate(incoming: Line, stop: nat)
      requires files.Length > 0
      modifies files
      ensures files[..] == Rotated(old(files[..]), incoming, max, stop)
    {
      var current := Bytes(TextOf(files[0]));
      if current == 0 || current + incoming.bytes <= max { return; }
      var index := files.Length - 1;
      while index > stop
        invariant 0 <= index < files.Length
        invariant ShiftDown(files[..], index, stop) == ShiftDown(old(files[..]), files.Length - 1, stop)
      {
        ghost var before := files[..];
        if files[index - 1].Some? {
          files[index] := files[index - 1];
          files[index - 1] := None;
        }
        assert files[..] == Shift(before, index);
        index := index - 1;
      }
    }

    method Append(line: Line, stop: Stop) returns (ok: bool)
      requires files.Length > 0
      modifies files
      ensures (files[..], ok) == Appended(old(files[..]), line, max, stop)
    {
      if stop.AtStart? { return false; }
      Rotate(line, if stop.InRotation? then stop.done else 0);
      if stop.InRotation? || stop.AtOpen? { return false; }
      ghost var rotated := files[..];
      if files[0].None? {
        files[0] := Some([]);
      }
      if stop.AtWrite? {
        assert files[..] == rotated[0 := Some(TextOf(rotated[0]))];
        return false;
      }
      files[0] := Some(files[0].value + [line]);
      assert files[..] == rotated[0 := Some(TextOf(rotated[0]) + [line])];
      ok := true;
    }

    /** Reads the files from the oldest to the newest and keeps the last matching events. */
    method Recent(root: string, limit: int) returns (records: Text)
      ensures records == Last(Matching(Content(files[..]), root), limit)
    {
      if limit <= 0 { return []; }
      records := [];
      var index := files.Length;
      while index > 0
        invariant 0 <= index <= files.Length
        invariant records == Matching(Content(files[..][index..]), root)
      {
        index := index - 1;
        assert files[..][index..][1..] == files[..][index + 1..];
        ghost var older := Content(files[..][index + 1..]);
        if files[index].Some? {
          var text := files[index].value;
          MatchingJoins(older, text, root);
          for i := 0 to |text|
            invariant records + Matching(text[i..], root) == Matching(older + text, root)
          {
            assert text[i..] == [text[i]] + text[i + 1..];
            if text[i].root == root {
              records := records + [text[i]];
            }
          }
        } else {
          assert older + [] == older;
        }
      }
      assert files[..][0..] == files[..];
      records := Last(records, limit);
    }
  }
}

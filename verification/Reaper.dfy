/**
  Cleanup of managed IDE projects in `intellij-project-reaper`: classification and selection, the
  registry of managed roots, and the cleanup loop with its compare-and-remove.
 */
module Reaper {
  import opened Wrappers

  type Root = string

  /** A registry record; a timestamp that cannot be read is None. */
  datatype Record = Record(root: Root, registeredAt: Option<int>, lastReadyAt: Option<int>)

  datatype Reason = NotRegistered | LiveLease | IdleUnder | TimestampUnknown | PluginUnknown | PluginUnsafe
  datatype Classification = Unmanaged | Protected | Eligible

  /** What the selection looks at; `plugins` maps the open projects to whether they are safe to close. */
  datatype View = View(leases: set<Root>, plugins: Option<map<Root, bool>>, existing: set<Root>, now: int, idle: int)

  // ---------------------------------------------------------------------------------
  // Classification
  // ---------------------------------------------------------------------------------

  function Reasons(r: Record, v: View): seq<Reason> {
    (if r.root in v.leases then [LiveLease] else [])
    + (if r.lastReadyAt.None? then [TimestampUnknown]
       else if v.now - r.lastReadyAt.value < v.idle then [IdleUnder] else [])
    + (if v.plugins.None? then []
       else if r.root !in v.plugins.value then [PluginUnknown]
       else if !v.plugins.value[r.root] then [PluginUnsafe] else [])
  }

  function Classify(record: Option<Record>, v: View): (Classification, seq<Reason>) {
    if record.None? then (Unmanaged, [NotRegistered])
    else
      var reasons := Reasons(record.value, v);
      (if reasons == [] then Eligible else Protected, reasons)
  }

  predicate IsOpen(r: Record, v: View) {
    v.plugins.Some? && r.root in v.plugins.value
  }

  predicate Candidate(r: Record, v: View) {
    Classify(Some(r), v).0 == Eligible && IsOpen(r, v)
  }

  /** A candidate is exactly an open project, safe to close, unleased, and idle for long enough. */
  lemma CandidatesAreIdle(r: Record, v: View)
    ensures Candidate(r, v) <==>
              && r.root !in v.leases && r.lastReadyAt.Some? && v.now - r.lastReadyAt.value >= v.idle
              && v.plugins.Some? && r.root in v.plugins.value && v.plugins.value[r.root]
  {
  }

  /** Each reason is given exactly for what it says, and an unregistered project is left alone. */
  lemma ReasonsAreExact(r: Record, v: View)
    ensures
      var (found, reasons) := Classify(Some(r), v);
      && (LiveLease in reasons <==> r.root in v.leases)
      && (TimestampUnknown in reasons <==> r.lastReadyAt == None)
      && (IdleUnder in reasons <==> r.lastReadyAt != None && v.now < r.lastReadyAt.value + v.idle)
      && (PluginUnknown in reasons <==> v.plugins != None && r.root !in v.plugins.value)
      && (PluginUnsafe in reasons <==> v.plugins != None && r.root in v.plugins.value && !v.plugins.value[r.root])
      && found == (if reasons == [] then Eligible else Protected)
    ensures Classify(None, v) == (Unmanaged, [NotRegistered])
  {
  }

  // ---------------------------------------------------------------------------------
  // Selection
  // ---------------------------------------------------------------------------------

  function At(r: Record): int {
    if r.lastReadyAt.Some? then r.lastReadyAt.value else 0
  }

  /** The cleanup order: missing roots first, then the longest unused. */
  predicate Before(a: Record, b: Record, existing: set<Root>) {
    || (a.root !in existing && b.root in existing)
    || ((a.root in existing <==> b.root in existing) && At(a) < At(b))
  }

  function Candidates(records: seq<Record>, v: View): seq<Record> {
    if records == [] then []
    else (if Candidate(records[0], v) then [records[0]] else []) + Candidates(records[1..], v)
  }

  function OpenCount(records: seq<Record>, v: View): nat {
    if records == [] then 0 else (if IsOpen(records[0], v) then 1 else 0) + OpenCount(records[1..], v)
  }

  function CleanupOrder(existing: set<Root>): (Record, Record) -> bool {
    (a: Record, b: Record) => Before(a, b, existing)
  }

  /** `list.sort`, which is stable. */
  function Sort(records: seq<Record>, existing: set<Root>): seq<Record> {
    SortBy(records, CleanupOrder(existing))
  }

  function Excess(count: nat, cap: int): nat {
    if count > cap then count - cap else 0
  }

  function Select(records: seq<Record>, v: View, cap: int): seq<Record> {
    var sorted := Sort(Candidates(records, v), v.existing);
    var excess := Excess(OpenCount(records, v), cap);
    if excess < |sorted| then sorted[..excess] else sorted
  }

  predicate Ordered(records: seq<Record>, existing: set<Root>) {
    forall i, j | 0 <= i < j < |records| :: !Before(records[j], records[i], existing)
  }

  lemma SortKeeps(records: seq<Record>, existing: set<Root>)
    ensures Ordered(Sort(records, existing), existing) && |Sort(records, existing)| == |records|
    ensures forall r :: r in Sort(records, existing) <==> r in records
  {
    SortByKeeps(records, CleanupOrder(existing));
    SameElements(Sort(records, existing), records);
    var sorted := Sort(records, existing);
    forall i, j | 0 <= i < j < |sorted| ensures !Before(sorted[j], sorted[i], existing) {
      assert !CleanupOrder(existing)(sorted[j], sorted[i]);
    }
  }

  lemma {:induction false} CandidatesHold(records: seq<Record>, v: View, r: Record)
    ensures r in Candidates(records, v) <==> r in records && Candidate(r, v)
  {
    if records != [] {
      CandidatesHold(records[1..], v, r);
      assert records == [records[0]] + records[1..];
    }
  }

  lemma {:induction false} CandidatesAreOpen(records: seq<Record>, v: View)
    ensures |Candidates(records, v)| <= OpenCount(records, v)
  {
    if records != [] {
      CandidatesAreOpen(records[1..], v);
    }
  }

  /**
    Exactly as many as the excess over the cap, as far as there are candidates; never so many that
    fewer than the cap stay open.
   */
  lemma SelectionSize(records: seq<Record>, v: View, cap: int)
    ensures
      var open, candidates, selected := OpenCount(records, v), |Candidates(records, v)|, |Select(records, v, cap)|;
      && selected == (if Excess(open, cap) < candidates then Excess(open, cap) else candidates)
      && (open <= cap ==> selected == 0)
      && (open > cap ==> open - selected >= cap)
  {
    var sorted := Sort(Candidates(records, v), v.existing);
    SortKeeps(Candidates(records, v), v.existing);
  }

  /** Selected projects are candidates of the registry, and no other candidate comes before one. */
  lemma SelectionOrder(records: seq<Record>, v: View, cap: int, s: Record, other: Record)
    requires s in Select(records, v, cap)
    ensures s in records && Candidate(s, v)
    ensures other in records && Candidate(other, v) && other !in Select(records, v, cap) ==> !Before(other, s, v.existing)
  {
    var candidates := Candidates(records, v);
    var sorted := Sort(candidates, v.existing);
    var selected := Select(records, v, cap);
    SortKeeps(candidates, v.existing);
    CandidatesHold(records, v, s);
    CandidatesHold(records, v, other);
    var i :| 0 <= i < |selected| && selected[i] == s;
    assert sorted[i] == s;
    if other in records && Candidate(other, v) && other !in selected {
      var j :| 0 <= j < |sorted| && sorted[j] == other;
      assert j >= |selected|;
    }
  }

  /** The open ones among the registered roots. */
  function OpenRoots(records: seq<Record>, v: View): set<Root> {
    set r | r in records && v.plugins.Some? && r.root in v.plugins.value :: r.root
  }

  lemma OpenRootsStep(records: seq<Record>, v: View)
    requires records != []
    ensures OpenRoots(records, v) == OpenRoots(records[1..], v) + (if IsOpen(records[0], v) then {records[0].root} else {})
  {
    assert records == [records[0]] + records[1..];
  }

  lemma {:induction false} OpenCountIsExact(records: seq<Record>, v: View)
    requires forall i, j | 0 <= i < j < |records| :: records[i].root != records[j].root
    ensures OpenCount(records, v) == |OpenRoots(records, v)|
  {
    if records != [] {
      OpenRootsStep(records, v);
      OpenCountIsExact(records[1..], v);
      forall r | r in records[1..] ensures r.root != records[0].root {
        var i :| 0 <= i < |records[1..]| && records[1..][i] == r;
      }
    }
  }

  /**
    Enough is selected: if more than `cap` registered projects are open, either exactly `cap` stay open
    after closing the selection, or everything that may be closed is selected. Otherwise nothing is.
   */
  lemma SelectionIsEnough(records: seq<Record>, v: View, cap: int, r: Record)
    requires Unique(records) && cap >= 0
    ensures
      var open, selected := |OpenRoots(records, v)|, Select(records, v, cap);
      && (open <= cap ==> selected == [])
      && (open > cap ==> open - |selected| >= cap)
      && (open > cap && open - |selected| > cap && r in records && Candidate(r, v) ==> r in selected)
  {
    var candidates := Candidates(records, v);
    var sorted := Sort(candidates, v.existing);
    OpenCountIsExact(records, v);
    SortKeeps(candidates, v.existing);
    CandidatesHold(records, v, r);
    CandidatesAreOpen(records, v);
  }

  /** A project that may be closed and is not selected is not more urgent than a selected one: it is not
      missing while that one exists, and if both are missing or both exist it was used no earlier. */
  lemma SelectionPrefersMissingThenOldest(records: seq<Record>, v: View, cap: int, s: Record, other: Record)
    requires s in Select(records, v, cap)
    requires other in records && Candidate(other, v) && other !in Select(records, v, cap)
    ensures s.root in v.existing ==> other.root in v.existing
    ensures (s.root in v.existing <==> other.root in v.existing) ==>
              s.lastReadyAt.Some? && other.lastReadyAt.Some? && s.lastReadyAt.value <= other.lastReadyAt.value
  {
    SelectionOrder(records, v, cap, s, other);
    CandidatesAreIdle(s, v);
    CandidatesAreIdle(other, v);
  }

  // ---------------------------------------------------------------------------------
  // The registry
  // ---------------------------------------------------------------------------------

  function Without(records: seq<Record>, root: Root): seq<Record> {
    if records == [] then []
    else (if records[0].root == root then [] else [records[0]]) + Without(records[1..], root)
  }

  /** The first record of a root. */
  function Find(records: seq<Record>, root: Root): Option<Record> {
    if records == [] then None
    else if records[0].root == root then Some(records[0]) else Find(records[1..], root)
  }

  function Touched(records: seq<Record>, root: Root, now: int): seq<Record> {
    if records == [] then []
    else if records[0].root == root then [records[0].(lastReadyAt := Some(now))] + records[1..]
    else [records[0]] + Touched(records[1..], root, now)
  }

  datatype Op =
    | Register(root: Root, now: int)
    | Touch(root: Root, now: int)
    | Remove(root: Root, expected: Option<Record>)

  function Apply(records: seq<Record>, op: Op): (seq<Record>, bool) {
    match op
    case Register(root, now) => (Without(records, root) + [Record(root, Some(now), Some(now))], true)
    case Touch(root, now) =>
      if Find(records, root).None? then (records, false) else (Touched(records, root, now), true)
    case Remove(root, expected) =>
      var current := Find(records, root);
      if current.None? || (expected.Some? && current != expected) then (records, false)
      else (Without(records, root), true)
  }

  function ApplyAll(records: seq<Record>, ops: seq<Op>): seq<Record>
    decreases |ops|
  {
    if ops == [] then records else ApplyAll(Apply(records, ops[0]).0, ops[1..])
  }

  predicate Unique(records: seq<Record>) {
    forall i, j | 0 <= i < j < |records| :: records[i].root != records[j].root
  }

  lemma {:induction false} WithoutHolds(records: seq<Record>, root: Root, r: Record)
    ensures r in Without(records, root) <==> r in records && r.root != root
  {
    if records != [] {
      WithoutHolds(records[1..], root, r);
      assert records == [records[0]] + records[1..];
    }
  }

  lemma {:induction false} WithoutKeepsUnique(records: seq<Record>, root: Root)
    requires Unique(records)
    ensures Unique(Without(records, root))
  {
    if records != [] {
      WithoutKeepsUnique(records[1..], root);
      forall r | r in Without(records[1..], root) ensures r.root != records[0].root {
        WithoutHolds(records[1..], root, r);
      }
    }
  }

  lemma {:induction false} TouchedRoots(records: seq<Record>, root: Root, now: int)
    ensures |Touched(records, root, now)| == |records|
    ensures forall i | 0 <= i < |records| :: Touched(records, root, now)[i].root == records[i].root
  {
    if records != [] && records[0].root != root {
      TouchedRoots(records[1..], root, now);
    }
  }

  lemma {:induction false} FindHolds(records: seq<Record>, root: Root)
    ensures Find(records, root).Some? ==> Find(records, root).value in records && Find(records, root).value.root == root
    ensures Find(records, root).None? <==> forall r | r in records :: r.root != root
  {
    if records != [] {
      FindHolds(records[1..], root);
      assert records == [records[0]] + records[1..];
    }
  }

  /** Every operation keeps the registered roots distinct. */
  lemma ApplyKeepsUnique(records: seq<Record>, op: Op)
    requires Unique(records)
    ensures Unique(Apply(records, op).0)
  {
    match op
    case Register(root, now) =>
      WithoutKeepsUnique(records, root);
      forall r | r in Without(records, root) ensures r.root != root {
        WithoutHolds(records, root, r);
      }
    case Touch(root, now) => TouchedRoots(records, root, now);
    case Remove(root, expected) => WithoutKeepsUnique(records, root);
  }

  lemma {:induction false} RootsStayUnique(records: seq<Record>, ops: seq<Op>)
    requires Unique(records)
    ensures Unique(ApplyAll(records, ops))
    decreases |ops|
  {
    if ops != [] {
      ApplyKeepsUnique(records, ops[0]);
      RootsStayUnique(Apply(records, ops[0]).0, ops[1..]);
    }
  }

  lemma {:induction false} FindWithout(records: seq<Record>, root: Root, other: Root)
    ensures Find(Without(records, root), other) == (if other == root then None else Find(records, other))
  {
    if records != [] {
      FindWithout(records[1..], root, other);
      var rest := Without(records[1..], root);
      assert [] + rest == rest && ([records[0]] + rest)[1..] == rest;
    }
  }

  lemma {:induction false} FindAppended(records: seq<Record>, r: Record, root: Root)
    ensures Find(records + [r], root)
      == (if Find(records, root).Some? then Find(records, root) else if r.root == root then Some(r) else None)
  {
    if records == [] {
      assert records + [r] == [r];
      assert [r][1..] == [];
    } else {
      FindAppended(records[1..], r, root);
      assert (records + [r])[1..] == records[1..] + [r];
    }
  }

  lemma {:induction false} FindTouched(records: seq<Record>, root: Root, now: int, other: Root)
    ensures Find(Touched(records, root, now), other)
      == (if other == root && Find(records, root).Some? then Some(Find(records, root).value.(lastReadyAt := Some(now)))
          else Find(records, other))
  {
    if records != [] && records[0].root != root {
      FindTouched(records[1..], root, now, other);
    }
  }

  /** What an operation on its root makes of the root's record. */
  function Outcome(before: Option<Record>, op: Op): Option<Record> {
    match op
    case Register(root, now) => Some(Record(root, Some(now), Some(now)))
    case Touch(_, now) => if before.None? then None else Some(before.value.(lastReadyAt := Some(now)))
    case Remove(_, expected) => if expected.Some? && before != expected then before else None
  }

  /** Every operation changes the record of its own root only, in that way. */
  lemma ApplyAt(records: seq<Record>, op: Op, root: Root)
    ensures Find(Apply(records, op).0, root)
      == (if op.root == root then Outcome(Find(records, root), op) else Find(records, root))
  {
    match op
    case Register(r, now) =>
      FindWithout(records, r, root);
      FindAppended(Without(records, r), Record(r, Some(now), Some(now)), root);
    case Touch(r, now) => FindTouched(records, r, now, root);
    case Remove(r, expected) => FindWithout(records, r, root);
  }

  /** A compare-and-remove removes exactly the unchanged record, and nothing else. */
  lemma CompareAndRemove(records: seq<Record>, expected: Record, other: Root)
    ensures
      var (after, ok) := Apply(records, Remove(expected.root, Some(expected)));
      && (ok <==> Find(records, expected.root) == Some(expected))
      && (!ok ==> after == records)
      && (ok ==> Find(after, expected.root) == None)
      && (other != expected.root ==> Find(after, other) == Find(records, other))
  {
    ApplyAt(records, Remove(expected.root, Some(expected)), expected.root);
    ApplyAt(records, Remove(expected.root, Some(expected)), other);
  }

  /** What an operation reports: registering always succeeds, touching and removing exactly a registered
      root, and a removal with a comparison only of exactly that record. */
  lemma OperationSucceedsExactly(records: seq<Record>, op: Op)
    ensures
      var (after, ok) := Apply(records, op);
      && (ok <==>
            || op.Register?
            || ((exists r :: r in records && r.root == op.root)
                && (op.Remove? && op.expected.Some? ==> Find(records, op.root) == op.expected)))
      && (!ok ==> after == records)
  {
    FindHolds(records, op.root);
  }

  /** An operation that does not remove the root other than by comparison with `expected`, and does
      not refresh it with the very timestamp `expected` carries. */
  predicate Sparing(op: Op, expected: Record) {
    op.root == expected.root ==>
      match op
      case Register(_, now) => Some(now) != expected.lastReadyAt
      case Touch(_, now) => Some(now) != expected.lastReadyAt
      case Remove(_, e) => e == Some(expected)
  }

  /** A record refreshed with another timestamp since it was selected is never lost to the cleanup. */
  lemma {:induction false} RefreshedRecordSurvives(records: seq<Record>, expected: Record, ops: seq<Op>)
    requires Find(records, expected.root).Some?
    requires Find(records, expected.root).value.lastReadyAt != expected.lastReadyAt
    requires forall i | 0 <= i < |ops| :: Sparing(ops[i], expected)
    ensures Find(ApplyAll(records, ops), expected.root).Some?
    ensures Find(ApplyAll(records, ops), expected.root).value.lastReadyAt != expected.lastReadyAt
    decreases |ops|
  {
    if ops != [] {
      ApplyAt(records, ops[0], expected.root);
      RefreshedRecordSurvives(Apply(records, ops[0]).0, expected, ops[1..]);
    }
  }

  // ---------------------------------------------------------------------------------
  // The cleanup loop
  // ---------------------------------------------------------------------------------

  /** What the loop observes for one selected root, after what other processes did meanwhile. */
  datatype Turn = Turn(others: seq<Op>, leases: Option<set<Root>>, plugins: Option<map<Root, bool>>, closed: bool)

  predicate MayClose(root: Root, t: Turn) {
    && t.leases.Some? && t.plugins.Some? && root !in t.leases.value
    && root in t.plugins.value && t.plugins.value[root] && t.closed
  }

  function CleanOne(records: seq<Record>, selected: Record, t: Turn, dryRun: bool): seq<Record> {
    var now := ApplyAll(records, t.others);
    if MayClose(selected.root, t) && !dryRun then Apply(now, Remove(selected.root, Some(selected))).0 else now
  }

  function CleanAll(records: seq<Record>, selected: seq<Record>, turns: seq<Turn>, dryRun: bool): seq<Record>
    requires |turns| == |selected|
    decreases |selected|
  {
    if selected == [] then records
    else CleanAll(CleanOne(records, selected[0], turns[0], dryRun), selected[1..], turns[1..], dryRun)
  }

  /** A turn of the cleanup itself takes away only the selected root, only when it was unleased, safe
      and closed just now, and only the record that was selected. */
  lemma CleanupTakesOnlyWhatItSelected(records: seq<Record>, selected: Record, t: Turn, dryRun: bool, root: Root)
    requires Find(CleanOne(records, selected, t, dryRun), root) != Find(ApplyAll(records, t.others), root)
    ensures root == selected.root && MayClose(root, t) && !dryRun
    ensures Find(ApplyAll(records, t.others), root) == Some(selected)
  {
    CompareAndRemove(ApplyAll(records, t.others), selected, root);
  }

  /**
    What one turn does, exactly: after what the others did, the selected root's record is removed if and
    only if leases and plugins could be read, the root is unleased, open and safe, its project closed,
    this is no dry run, and the record is still the selected one.
   */
  lemma CleanupTurnExactly(records: seq<Record>, selected: Record, t: Turn, dryRun: bool)
    ensures
      var before, after := ApplyAll(records, t.others), CleanOne(records, selected, t, dryRun);
      var removes := && t.leases.Some? && selected.root !in t.leases.value
                     && t.plugins.Some? && selected.root in t.plugins.value && t.plugins.value[selected.root]
                     && t.closed && !dryRun && Find(before, selected.root) == Some(selected);
      && (removes ==> Find(after, selected.root) == None)
      && (!removes ==> after == before)
  {
    CompareAndRemove(ApplyAll(records, t.others), selected, selected.root);
  }

  lemma {:induction false} SpareTurn(records: seq<Record>, selected: Record, t: Turn, dryRun: bool, expected: Record)
    requires Find(records, expected.root).Some?
    requires Find(records, expected.root).value.lastReadyAt != expected.lastReadyAt
    requires forall i | 0 <= i < |t.others| :: Sparing(t.others[i], expected)
    requires selected.root == expected.root ==> selected == expected
    ensures Find(CleanOne(records, selected, t, dryRun), expected.root).Some?
    ensures Find(CleanOne(records, selected, t, dryRun), expected.root).value.lastReadyAt != expected.lastReadyAt
  {
    RefreshedRecordSurvives(records, expected, t.others);
    CompareAndRemove(ApplyAll(records, t.others), selected, expected.root);
  }

  /** The whole cleanup keeps a selected root that was refreshed before its turn came, whatever the
      other processes do meanwhile short of removing it themselves. */
  lemma {:induction false} CleanupSparesTheRefreshed(records: seq<Record>, selected: seq<Record>, turns: seq<Turn>,
                                                     dryRun: bool, expected: Record)
    requires |turns| == |selected|
    requires Find(records, expected.root).Some?
    requires Find(records, expected.root).value.lastReadyAt != expected.lastReadyAt
    requires forall i | 0 <= i < |selected| :: selected[i].root == expected.root ==> selected[i] == expected
    requires forall i | 0 <= i < |turns| :: forall j | 0 <= j < |turns[i].others| :: Sparing(turns[i].others[j], expected)
    ensures Find(CleanAll(records, selected, turns, dryRun), expected.root).Some?
    decreases |selected|
  {
    if selected != [] {
      SpareTurn(records, selected[0], turns[0], dryRun, expected);
      CleanupSparesTheRefreshed(CleanOne(records, selected[0], turns[0], dryRun), selected[1..], turns[1..], dryRun, expected);
    }
  }

  class Registry {
    var records: seq<Record>

    constructor ()
      ensures records == []
    {
      records := [];
    }

    method RegisterRoot(root: Root, now: int)
      modifies this
      ensures records == Apply(old(records), Register(root, now)).0
    {
      DropRoot(root);
      records := records + [Record(root, Some(now), Some(now))];
    }

    /** The list comprehension that leaves a root out. */
    method DropRoot(root: Root)
      modifies this
      ensures records == Without(old(records), root)
    {
      var kept: seq<Record> := [];
      for i := 0 to |records|
        invariant records == old(records)
        invariant kept + Without(records[i..], root) == Without(records, root)
      {
        assert records[i..][1..] == records[i + 1..];
        ghost var rest := Without(records[i + 1..], root);
        if records[i].root != root {
          assert (kept + [records[i]]) + rest == kept + ([records[i]] + rest);
          kept := kept + [records[i]];
        } else {
          assert [] + rest == rest;
        }
      }
      records := kept;
    }

    method TouchRoot(root: Root, now: int) returns (ok: bool)
      modifies this
      ensures (records, ok) == Apply(old(records), Touch(root, now))
    {
      for i := 0 to |records|
        invariant records == old(records)
        invariant Find(records[i..], root) == Find(records, root)
        invariant records[..i] + Touched(records[i..], root, now) == Touched(records, root, now)
      {
        assert records[i..][1..] == records[i + 1..];
        if records[i].root == root {
          records := records[i := records[i].(lastReadyAt := Some(now))];
          assert records == old(records)[..i] + ([records[i]] + old(records)[i + 1..]);
          return true;
        }
      }
      ok := false;
    }

    method RemoveRoot(root: Root, expected: Option<Record>) returns (ok: bool)
      modifies this
      ensures (records, ok) == Apply(old(records), Remove(root, expected))
    {
      var current: Option<Record> := None;
      for i := 0 to |records|
        invariant current == None && Find(records[i..], root) == Find(records, root)
      {
        assert records[i..][1..] == records[i + 1..];
        if records[i].root == root {
          current := Some(records[i]);
          break;
        }
      }
      assert current == Find(records, root);
      if expected.Some? && current != expected { return false; }
      if current.None? { return false; }
      DropRoot(root);
      ok := true;
    }

    /** Other processes at work on the registry file. */
    method Interfere(ops: seq<Op>)
      modifies this
      ensures records == ApplyAll(old(records), ops)
    {
      for i := 0 to |ops|
        invariant ApplyAll(records, ops[i..]) == ApplyAll(old(records), ops)
      {
        assert ops[i..][1..] == ops[i + 1..];
        match ops[i]
        case Register(root, now) => RegisterRoot(root, now);
        case Touch(root, now) => var _ := TouchRoot(root, now);
        case Remove(root, expected) => var _ := RemoveRoot(root, expected);
      }
    }

    /** The cleanup loop over the selected records. */
    method CleanUp(selected: seq<Record>, turns: seq<Turn>, dryRun: bool)
      requires |turns| == |selected|
      modifies this
      ensures records == CleanAll(old(records), selected, turns, dryRun)
    {
      for i := 0 to |selected|
        invariant CleanAll(records, selected[i..], turns[i..], dryRun) == CleanAll(old(records), selected, turns, dryRun)
      {
        assert selected[i..][1..] == selected[i + 1..] && turns[i..][1..] == turns[i + 1..];
        var t, root := turns[i], selected[i].root;
        Interfere(t.others);
        if t.leases.None? || t.plugins.None? || root in t.leases.value { continue; }
        if root !in t.plugins.value || !t.plugins.value[root] { continue; }
        if t.closed && !dryRun {
          var _ := RemoveRoot(root, Some(selected[i]));
        }
      }
    }
  }
}

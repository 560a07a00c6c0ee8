/**
  Whether a project may be closed: `SafetyDecision.java` decides and `LifecycleHttpServer.java`
  reports, `project_status` of `intellij-project-reaper` validates the report and recomputes the
  reasons, and the recycle command filters them.
 */
module Safety {
  import opened Wrappers

  datatype Field = Unsaved | Indexing | Run | Terminal | Debugger | Modal | Closing

  function Name(f: Field): string {
    match f
    case Unsaved => "unsaved-documents"
    case Indexing => "indexing"
    case Run => "run-active"
    case Terminal => "terminal-active"
    case Debugger => "debugger-active"
    case Modal => "modal-active"
    case Closing => "closing"
  }

  const UNKNOWN := "-unknown"

  datatype Counts = Counts(unsaved: int, run: int, terminal: int, debugger: int)
  datatype Active = Active(indexing: bool, modal: bool, closing: bool)

  /** A snapshot: which fields are known, the counts and the activity flags. */
  datatype Snapshot = Snapshot(root: string, known: set<Field>, counts: Counts, active: Active)

  /** A reason: a field that is active, or that is not known. */
  datatype Reason = Reason(field: Field, unknown: bool)

  function Text(r: Reason): string {
    if r.unknown then Name(r.field) + UNKNOWN else Name(r.field)
  }

  function Texts(reasons: seq<Reason>): seq<string> {
    seq(|reasons|, i requires 0 <= i < |reasons| => Text(reasons[i]))
  }

  datatype Decision = Decision(safe: bool, reasons: seq<Reason>)

  /** Whether a field, if known, speaks against closing. */
  predicate Raised(s: Snapshot, f: Field) {
    match f
    case Unsaved => s.counts.unsaved != 0
    case Indexing => s.active.indexing
    case Run => s.counts.run != 0
    case Terminal => s.counts.terminal != 0
    case Debugger => s.counts.debugger != 0
    case Modal => s.active.modal
    case Closing => s.active.closing
  }

  /** The reasons that one field contributes. */
  function Part(s: Snapshot, f: Field): seq<Reason> {
    if f !in s.known then [Reason(f, true)] else if Raised(s, f) then [Reason(f, false)] else []
  }

  /** The reasons of some fields, in their order. */
  function Parts(s: Snapshot, fields: seq<Field>): seq<Reason> {
    if fields == [] then [] else Part(s, fields[0]) + Parts(s, fields[1..])
  }

  const REPORT_ORDER := [Unsaved, Indexing, Run, Terminal, Debugger, Modal, Closing]
  const CHECK_ORDER := [Unsaved, Run, Terminal, Debugger, Indexing, Modal, Closing]
  const RECOVERY_ORDER := [Unsaved, Modal, Closing]

  function Decide(reasons: seq<Reason>): Decision {
    Decision(reasons == [], reasons)
  }

  /** `evaluate` and `evaluateOwnedRecovery`. */
  function Evaluate(s: Snapshot): Decision { Decide(Parts(s, REPORT_ORDER)) }
  function EvaluateOwnedRecovery(s: Snapshot): Decision { Decide(Parts(s, RECOVERY_ORDER)) }

  // ---------------------------------------------------------------------------------
  // Reasons as texts
  // ---------------------------------------------------------------------------------

  /** The first letter of a reason tells its field. */
  function Initial(f: Field): char {
    match f
    case Unsaved => 'u'
    case Indexing => 'i'
    case Run => 'r'
    case Terminal => 't'
    case Debugger => 'd'
    case Modal => 'm'
    case Closing => 'c'
  }

  lemma InitialTells(r: Reason)
    ensures Text(r) != [] && Text(r)[0] == Initial(r.field)
  {
  }

  /** Two reasons are written alike only if they are the same. */
  lemma TextTells(a: Reason, b: Reason)
    requires Text(a) == Text(b)
    ensures a == b
  {
    InitialTells(a);
    InitialTells(b);
    assert a.field == b.field;
    assert |Text(a)| == |Name(a.field)| + (if a.unknown then |UNKNOWN| else 0);
    assert |Text(b)| == |Name(b.field)| + (if b.unknown then |UNKNOWN| else 0);
  }

  lemma TextsTell(a: seq<Reason>, b: seq<Reason>)
    ensures Texts(a) == Texts(b) <==> a == b
  {
    if Texts(a) == Texts(b) {
      assert |a| == |Texts(a)| == |Texts(b)| == |b|;
      forall i | 0 <= i < |a| ensures a[i] == b[i] {
        assert Texts(a)[i] == Texts(b)[i];
        TextTells(a[i], b[i]);
      }
    }
  }

  lemma {:induction false} PartsJoin(s: Snapshot, a: seq<Field>, b: seq<Field>)
    ensures Parts(s, a + b) == Parts(s, a) + Parts(s, b)
  {
    if a == [] {
      assert a + b == b;
    } else {
      var head, rest, last := Part(s, a[0]), Parts(s, a[1..]), Parts(s, b);
      calc {
        Parts(s, a + b);
        { assert (a + b)[0] == a[0] && (a + b)[1..] == a[1..] + b; }
        head + Parts(s, a[1..] + b);
        { PartsJoin(s, a[1..], b); }
        head + (rest + last);
        { Reassociate(head, rest, last); }
        (head + rest) + last;
        Parts(s, a) + last;
      }
    }
  }

  lemma PartsThen(s: Snapshot, fields: seq<Field>, f: Field)
    ensures Parts(s, fields + [f]) == Parts(s, fields) + Part(s, f)
  {
    PartsJoin(s, fields, [f]);
    PartOfOne(s, f);
  }

  lemma PartOfOne(s: Snapshot, f: Field)
    ensures Parts(s, [f]) == Part(s, f)
  {
  }

  lemma {:induction false} PartsOfThree(s: Snapshot, a: Field, b: Field, c: Field)
    ensures Parts(s, [a, b, c]) == Part(s, a) + Part(s, b) + Part(s, c)
  {
    PartsJoin(s, [a], [b] + [c]);
    PartsJoin(s, [b], [c]);
    PartOfOne(s, a);
    PartOfOne(s, b);
    PartOfOne(s, c);
    assert [a, b, c] == [a] + ([b] + [c]);
  }

  const ACTIVITY := [Run, Terminal, Debugger]

  /** The two orders differ only in where indexing stands. */
  lemma OrdersSplit(s: Snapshot)
    ensures
      var first, indexing, activity, last :=
        Part(s, Unsaved), Part(s, Indexing), Parts(s, ACTIVITY), Parts(s, [Modal, Closing]);
      && Parts(s, REPORT_ORDER) == first + (indexing + (activity + last))
      && Parts(s, CHECK_ORDER) == first + (activity + (indexing + last))
  {
    PartOfOne(s, Unsaved);
    PartOfOne(s, Indexing);
    assert REPORT_ORDER == [Unsaved] + ([Indexing] + (ACTIVITY + [Modal, Closing]));
    PartsJoin(s, [Unsaved], [Indexing] + (ACTIVITY + [Modal, Closing]));
    PartsJoin(s, [Indexing], ACTIVITY + [Modal, Closing]);
    PartsJoin(s, ACTIVITY, [Modal, Closing]);
    assert CHECK_ORDER == [Unsaved] + (ACTIVITY + ([Indexing] + [Modal, Closing]));
    PartsJoin(s, [Unsaved], ACTIVITY + ([Indexing] + [Modal, Closing]));
    PartsJoin(s, ACTIVITY, [Indexing] + [Modal, Closing]);
    PartsJoin(s, [Indexing], [Modal, Closing]);
  }

  /** Indexing and some run, terminal or debugger activity are reported together. */
  predicate Clash(s: Snapshot) {
    && Part(s, Indexing) != []
    && (Part(s, Run) != [] || Part(s, Terminal) != [] || Part(s, Debugger) != [])
  }

  lemma ActivityStarts(s: Snapshot)
    ensures Parts(s, ACTIVITY) != [] <==> (Part(s, Run) != [] || Part(s, Terminal) != [] || Part(s, Debugger) != [])
    ensures Parts(s, ACTIVITY) != [] ==> Parts(s, ACTIVITY)[0].field != Indexing
  {
    PartsOfThree(s, Run, Terminal, Debugger);
  }

  lemma OrdersDiffer(first: seq<Reason>, a: seq<Reason>, b: seq<Reason>, last: seq<Reason>)
    requires a != [] && b != [] && a[0] != b[0]
    ensures first + (a + (b + last)) != first + (b + (a + last))
  {
    assert (first + (a + (b + last)))[|first|] == a[0];
    assert (first + (b + (a + last)))[|first|] == b[0];
  }

  /** Both programs list the same reasons exactly when there is no such clash. */
  lemma OrdersAgree(s: Snapshot)
    ensures Parts(s, REPORT_ORDER) == Parts(s, CHECK_ORDER) <==> !Clash(s)
  {
    var first, indexing, activity, last :=
      Part(s, Unsaved), Part(s, Indexing), Parts(s, ACTIVITY), Parts(s, [Modal, Closing]);
    OrdersSplit(s);
    ActivityStarts(s);
    if indexing == [] {
      assert [] + (activity + last) == activity + last && [] + last == last;
    } else if activity == [] {
      assert [] + last == last && [] + (indexing + last) == indexing + last;
    } else {
      OrdersDiffer(first, indexing, activity, last);
    }
  }

  // ---------------------------------------------------------------------------------
  // The report and its validation
  // ---------------------------------------------------------------------------------

  /** One entry of the status report. */
  datatype Item = Item(root: string, safe: bool, reasons: seq<string>, known: set<Field>, counts: Counts, active: Active)

  function StatusItem(s: Snapshot): Item {
    var d := Evaluate(s);
    Item(s.root, d.safe, Texts(d.reasons), s.known, s.counts, s.active)
  }

  function Report(snapshots: seq<Snapshot>): seq<Item> {
    seq(|snapshots|, i requires 0 <= i < |snapshots| => StatusItem(snapshots[i]))
  }

  predicate CountsValid(c: Counts) {
    c.unsaved >= 0 && c.run >= 0 && c.terminal >= 0 && c.debugger >= 0
  }

  function Recomputed(item: Item): seq<Reason> {
    Parts(Snapshot(item.root, item.known, item.counts, item.active), CHECK_ORDER)
  }

  /** One entry passes, apart from the uniqueness of its root. */
  predicate Consistent(item: Item, canonical: set<string>) {
    && item.root != "" && item.root in canonical && CountsValid(item.counts)
    && item.reasons == Texts(Recomputed(item)) && item.safe == (Recomputed(item) == [])
  }

  /** `project_status`: the entries by root, or nothing if any is malformed or contradictory. */
  function ProjectStatus(items: seq<Item>, canonical: set<string>, done: map<string, Item>): Option<map<string, Item>> {
    if items == [] then Some(done)
    else if !Consistent(items[0], canonical) || items[0].root in done then None
    else ProjectStatus(items[1..], canonical, done[items[0].root := items[0]])
  }

  predicate DistinctRoots(items: seq<Item>) {
    forall i, j | 0 <= i < j < |items| :: items[i].root != items[j].root
  }

  lemma {:induction false} ValidatorAccepts(items: seq<Item>, canonical: set<string>, done: map<string, Item>)
    ensures
      var result := ProjectStatus(items, canonical, done);
      && (result.Some? <==>
            && DistinctRoots(items)
            && (forall i | 0 <= i < |items| :: Consistent(items[i], canonical) && items[i].root !in done))
      && (result.Some? ==>
            && (forall i | 0 <= i < |items| :: items[i].root in result.value && result.value[items[i].root] == items[i])
            && (forall r | r in done :: r in result.value && result.value[r] == done[r]))
  {
    if items != [] && Consistent(items[0], canonical) && items[0].root !in done {
      var next := done[items[0].root := items[0]];
      ValidatorAccepts(items[1..], canonical, next);
      assert items == [items[0]] + items[1..];
      DistinctHead(items);
      assert forall i | 0 < i < |items| :: items[i] == items[1..][i - 1];
      if ProjectStatus(items[1..], canonical, next).None? && DistinctRoots(items)
        && forall i | 0 <= i < |items| :: Consistent(items[i], canonical) && items[i].root !in done {
        forall i | 0 <= i < |items[1..]| ensures Consistent(items[1..][i], canonical) && items[1..][i].root !in next {
          assert items[1..][i] == items[i + 1];
        }
      }
    }
  }

  lemma DistinctHead(items: seq<Item>)
    requires items != []
    ensures DistinctRoots(items) <==>
              DistinctRoots(items[1..]) && forall i | 0 < i < |items| :: items[i].root != items[0].root
  {
  }

  /** The validator accepts a snapshot's entry exactly when its root and counts are well-formed and
      its reasons do not clash; contradictory it never is otherwise. */
  lemma EntryAccepted(s: Snapshot, canonical: set<string>)
    ensures Consistent(StatusItem(s), canonical) <==>
              s.root != "" && s.root in canonical && CountsValid(s.counts) && !Clash(s)
  {
    var item := StatusItem(s);
    assert Snapshot(item.root, item.known, item.counts, item.active) == s;
    OrdersAgree(s);
    TextsTell(Parts(s, REPORT_ORDER), Parts(s, CHECK_ORDER));
  }

  predicate WellFormed(snapshots: seq<Snapshot>, canonical: set<string>) {
    && (forall i, j | 0 <= i < j < |snapshots| :: snapshots[i].root != snapshots[j].root)
    && (forall i | 0 <= i < |snapshots| ::
          snapshots[i].root != "" && snapshots[i].root in canonical && CountsValid(snapshots[i].counts))
  }

  /**
    The whole report is accepted exactly when the snapshots are well-formed and none reports
    indexing together with run, terminal or debugger activity.
   */
  lemma ReportAccepted(snapshots: seq<Snapshot>, canonical: set<string>)
    ensures ProjectStatus(Report(snapshots), canonical, map[]).Some? <==>
              WellFormed(snapshots, canonical) && forall i | 0 <= i < |snapshots| :: !Clash(snapshots[i])
  {
    var items := Report(snapshots);
    ValidatorAccepts(items, canonical, map[]);
    forall i | 0 <= i < |snapshots|
      ensures Consistent(items[i], canonical) <==>
                && snapshots[i].root != "" && snapshots[i].root in canonical && CountsValid(snapshots[i].counts)
                && !Clash(snapshots[i])
    {
      EntryAccepted(snapshots[i], canonical);
    }
    assert forall i | 0 <= i < |snapshots| :: items[i].root == snapshots[i].root;
  }

  /** What was accepted is what the decision said, and says for recovery after filtering. */
  lemma AcceptedMeansEvaluated(snapshots: seq<Snapshot>, canonical: set<string>, i: nat)
    requires ProjectStatus(Report(snapshots), canonical, map[]).Some? && i < |snapshots|
    ensures
      var entries := ProjectStatus(Report(snapshots), canonical, map[]).value;
      var s := snapshots[i];
      && s.root in entries
      && entries[s.root].safe == Evaluate(s).safe && entries[s.root].reasons == Texts(Evaluate(s).reasons)
      && RecycleBlockers(entries[s.root].reasons) == Texts(EvaluateOwnedRecovery(s).reasons)
  {
    ValidatorAccepts(Report(snapshots), canonical, map[]);
    assert Report(snapshots)[i] == StatusItem(snapshots[i]);
    FilterIsRecovery(snapshots[i]);
  }

  /** A snapshot the two programs cannot agree on. */
  lemma IndexingWithARunIsRefused(canonical: set<string>)
    requires "/p" in canonical
    ensures
      var all := {Unsaved, Indexing, Run, Terminal, Debugger, Modal, Closing};
      var s := Snapshot("/p", all, Counts(0, 1, 0, 0), Active(true, false, false));
      WellFormed([s], canonical) && ProjectStatus(Report([s]), canonical, map[]).None?
  {
    var all := {Unsaved, Indexing, Run, Terminal, Debugger, Modal, Closing};
    var s := Snapshot("/p", all, Counts(0, 1, 0, 0), Active(true, false, false));
    ReportAccepted([s], canonical);
    assert Clash([s][0]);
  }

  lemma {:induction false} PartsHold(s: Snapshot, fields: seq<Field>, r: Reason)
    ensures r in Parts(s, fields) <==>
              r.field in fields && (if r.unknown then r.field !in s.known else r.field in s.known && Raised(s, r.field))
  {
    if fields != [] {
      PartsHold(s, fields[1..], r);
      assert fields == [fields[0]] + fields[1..];
      assert r in Part(s, fields[0]) <==>
          r.field == fields[0] && (if r.unknown then r.field !in s.known else r.field in s.known && Raised(s, r.field));
    }
  }

  /** The decision gives exactly the reasons there are: one for each field that is unknown or active. */
  lemma ReasonsAreExact(s: Snapshot, r: Reason)
    ensures r in Evaluate(s).reasons <==>
              (if r.unknown then r.field !in s.known else r.field in s.known && Raised(s, r.field))
  {
    PartsHold(s, REPORT_ORDER, r);
    EveryFieldIsReported(r.field);
  }

  lemma EveryFieldIsReported(f: Field)
    ensures f in REPORT_ORDER
  {
  }

  /** Safe means that every condition is known and inactive. */
  lemma SafeMeansKnownAndQuiet(s: Snapshot)
    ensures Evaluate(s).safe <==> forall f: Field :: f in s.known && !Raised(s, f)
    ensures EvaluateOwnedRecovery(s).safe <==> forall f | f in {Unsaved, Modal, Closing} :: f in s.known && !Raised(s, f)
  {
    EveryPart(s, REPORT_ORDER);
    EveryPart(s, RECOVERY_ORDER);
    forall f: Field ensures f in REPORT_ORDER {
      EveryFieldIsReported(f);
    }
    assert forall f: Field :: f in RECOVERY_ORDER <==> f in {Unsaved, Modal, Closing} by {
      assert RECOVERY_ORDER[0] == Unsaved && RECOVERY_ORDER[1] == Modal && RECOVERY_ORDER[2] == Closing;
    }
  }

  lemma {:induction false} EveryPart(s: Snapshot, fields: seq<Field>)
    ensures Parts(s, fields) == [] <==> forall f | f in fields :: f in s.known && !Raised(s, f)
  {
    if fields != [] {
      EveryPart(s, fields[1..]);
      assert fields == [fields[0]] + fields[1..];
    }
  }

  // ---------------------------------------------------------------------------------
  // On the fields themselves
  // ---------------------------------------------------------------------------------

  /** What is told about one condition. */
  function Told(name: string, known: bool, active: bool): seq<string> {
    if !known then [name + "-unknown"] else if active then [name] else []
  }

  function UnsavedTold(i: Item): seq<string> {
    Told("unsaved-documents", Unsaved in i.known, i.counts.unsaved != 0)
  }

  function IndexingTold(i: Item): seq<string> {
    Told("indexing", Indexing in i.known, i.active.indexing)
  }

  function ActivityTold(i: Item): seq<string> {
    Told("run-active", Run in i.known, i.counts.run != 0) + Told("terminal-active", Terminal in i.known, i.counts.terminal != 0)
    + Told("debugger-active", Debugger in i.known, i.counts.debugger != 0)
  }

  function LastTold(i: Item): seq<string> {
    Told("modal-active", Modal in i.known, i.active.modal) + Told("closing", Closing in i.known, i.active.closing)
  }

  lemma PartTold(s: Snapshot, f: Field)
    ensures Texts(Part(s, f)) == Told(Name(f), f in s.known, Raised(s, f))
  {
    assert Texts([]) == [];
  }

  lemma TextsOfThree(a: seq<Reason>, b: seq<Reason>, c: seq<Reason>)
    ensures Texts(a + b + c) == Texts(a) + Texts(b) + Texts(c)
  {
    TextsJoin(a, b);
    TextsJoin(a + b, c);
  }

  lemma ActivityIsTold(s: Snapshot, i: Item)
    requires i.known == s.known && i.counts == s.counts
    ensures Texts(Parts(s, ACTIVITY)) == ActivityTold(i)
  {
    PartsOfThree(s, Run, Terminal, Debugger);
    TextsOfThree(Part(s, Run), Part(s, Terminal), Part(s, Debugger));
    PartTold(s, Run);
    PartTold(s, Terminal);
    PartTold(s, Debugger);
  }

  lemma LastIsTold(s: Snapshot, i: Item)
    requires i.known == s.known && i.active == s.active
    ensures Texts(Parts(s, [Modal, Closing])) == LastTold(i)
  {
    PartsJoin(s, [Modal], [Closing]);
    PartOfOne(s, Modal);
    PartOfOne(s, Closing);
    TextsJoin(Part(s, Modal), Part(s, Closing));
    PartTold(s, Modal);
    PartTold(s, Closing);
    assert [Modal, Closing] == [Modal] + [Closing];
  }

  lemma TextsOfFour(a: seq<Reason>, b: seq<Reason>, c: seq<Reason>, d: seq<Reason>)
    ensures Texts(a + (b + (c + d))) == Texts(a) + (Texts(b) + (Texts(c) + Texts(d)))
  {
    TextsJoin(a, b + (c + d));
    TextsJoin(b, c + d);
    TextsJoin(c, d);
  }

  /** The reported reasons, condition by condition, in the order of the report and of the validator. */
  lemma ReasonsInBothOrders(s: Snapshot, i: Item)
    requires i.known == s.known && i.counts == s.counts && i.active == s.active
    ensures Texts(Parts(s, REPORT_ORDER)) == UnsavedTold(i) + (IndexingTold(i) + (ActivityTold(i) + LastTold(i)))
    ensures Texts(Parts(s, CHECK_ORDER)) == UnsavedTold(i) + (ActivityTold(i) + (IndexingTold(i) + LastTold(i)))
  {
    OrdersSplit(s);
    PartTold(s, Unsaved);
    PartTold(s, Indexing);
    ActivityIsTold(s, i);
    LastIsTold(s, i);
    var last := Parts(s, [Modal, Closing]);
    TextsOfFour(Part(s, Unsaved), Part(s, Indexing), Parts(s, ACTIVITY), last);
    TextsOfFour(Part(s, Unsaved), Parts(s, ACTIVITY), Part(s, Indexing), last);
  }

  /** An entry without contradiction: a known root, no negative count, exactly the reasons that its own
      fields give, and safe exactly when there is none. */
  predicate Truthful(i: Item, canonical: set<string>) {
    && i.root != "" && i.root in canonical
    && i.counts.unsaved >= 0 && i.counts.run >= 0 && i.counts.terminal >= 0 && i.counts.debugger >= 0
    && i.reasons == UnsavedTold(i) + (ActivityTold(i) + (IndexingTold(i) + LastTold(i)))
    && (i.safe <==> i.reasons == [])
  }

  lemma ConsistentExactly(i: Item, canonical: set<string>)
    ensures Consistent(i, canonical) <==> Truthful(i, canonical)
  {
    var s := Snapshot(i.root, i.known, i.counts, i.active);
    ReasonsInBothOrders(s, i);
    assert Texts(Parts(s, CHECK_ORDER)) == [] <==> Parts(s, CHECK_ORDER) == [] by {
      assert |Texts(Parts(s, CHECK_ORDER))| == |Parts(s, CHECK_ORDER)|;
    }
  }

  lemma {:induction false} NothingElseIsRead(items: seq<Item>, canonical: set<string>, done: map<string, Item>)
    requires ProjectStatus(items, canonical, done).Some?
    ensures forall r | r in ProjectStatus(items, canonical, done).value ::
              r in done || exists i :: 0 <= i < |items| && items[i].root == r
  {
    if items != [] {
      var next := done[items[0].root := items[0]];
      NothingElseIsRead(items[1..], canonical, next);
      forall r | r in ProjectStatus(items, canonical, done).value && r !in done
        ensures exists i :: 0 <= i < |items| && items[i].root == r
      {
        if r in next {
          assert items[0].root == r;
        } else {
          var i :| 0 <= i < |items[1..]| && items[1..][i].root == r;
          assert items[i + 1].root == r;
        }
      }
    }
  }

  /** Any report, also a forged one, is accepted exactly when its roots are distinct and every entry is
      truthful; what is read is then each entry under its root and nothing else. */
  lemma StatusAcceptedExactly(items: seq<Item>, canonical: set<string>)
    ensures
      var result := ProjectStatus(items, canonical, map[]);
      && (result.Some? <==>
            && (forall i, j | 0 <= i < j < |items| :: items[i].root != items[j].root)
            && (forall i | 0 <= i < |items| :: Truthful(items[i], canonical)))
      && (result.Some? ==>
            && (forall i | 0 <= i < |items| :: items[i].root in result.value && result.value[items[i].root] == items[i])
            && (forall r | r in result.value :: exists i :: 0 <= i < |items| && items[i].root == r))
  {
    ValidatorAccepts(items, canonical, map[]);
    forall i | 0 <= i < |items| ensures Consistent(items[i], canonical) <==> Truthful(items[i], canonical) {
      ConsistentExactly(items[i], canonical);
    }
    if ProjectStatus(items, canonical, map[]).Some? {
      NothingElseIsRead(items, canonical, map[]);
    }
  }

  predicate AllKnown(s: Snapshot) {
    s.known == {Unsaved, Indexing, Run, Terminal, Debugger, Modal, Closing}
  }

  /** Closing is safe exactly when all seven conditions are known, nothing is unsaved, running, in a
      terminal or being debugged, and the IDE is neither indexing, modal nor closing. Recovery asks for
      three of them. */
  lemma SafeExactly(s: Snapshot)
    ensures Evaluate(s).safe <==>
              AllKnown(s) && s.counts == Counts(0, 0, 0, 0) && s.active == Active(false, false, false)
    ensures EvaluateOwnedRecovery(s).safe <==>
              && {Unsaved, Modal, Closing} <= s.known
              && s.counts.unsaved == 0 && !s.active.modal && !s.active.closing
  {
    SafeMeansKnownAndQuiet(s);
    var fields := {Unsaved, Indexing, Run, Terminal, Debugger, Modal, Closing};
    forall f: Field ensures f in fields {
      EveryFieldIsReported(f);
    }
    assert Raised(s, Unsaved) <==> s.counts.unsaved != 0;
    assert Raised(s, Indexing) <==> s.active.indexing;
    assert Raised(s, Run) <==> s.counts.run != 0;
    assert Raised(s, Terminal) <==> s.counts.terminal != 0;
    assert Raised(s, Debugger) <==> s.counts.debugger != 0;
    assert Raised(s, Modal) <==> s.active.modal;
    assert Raised(s, Closing) <==> s.active.closing;
  }

  // ---------------------------------------------------------------------------------
  // The recycle filter
  // ---------------------------------------------------------------------------------

  const PROTECTED_PREFIXES := ["unsaved-documents", "modal-active", "closing"]

  predicate StartsWith(text: string, prefix: string) {
    |prefix| <= |text| && text[..|prefix|] == prefix
  }

  predicate IsProtected(reason: string) {
    exists i | 0 <= i < |PROTECTED_PREFIXES| :: StartsWith(reason, PROTECTED_PREFIXES[i])
  }

  function RecycleBlockers(reasons: seq<string>): seq<string> {
    if reasons == [] then []
    else (if IsProtected(reasons[0]) then [reasons[0]] else []) + RecycleBlockers(reasons[1..])
  }

  predicate InRecovery(f: Field) {
    f == Unsaved || f == Modal || f == Closing
  }

  lemma ProtectedReasons(r: Reason)
    ensures IsProtected(Text(r)) <==> InRecovery(r.field)
  {
    InitialTells(r);
    assert PROTECTED_PREFIXES[0] == Name(Unsaved) && PROTECTED_PREFIXES[1] == Name(Modal);
    assert PROTECTED_PREFIXES[2] == Name(Closing);
    if InRecovery(r.field) {
      StartsWithItsName(r);
    } else {
      forall i | 0 <= i < |PROTECTED_PREFIXES| ensures !StartsWith(Text(r), PROTECTED_PREFIXES[i]) {
        FirstLetterDiffers(Text(r), PROTECTED_PREFIXES[i]);
      }
    }
  }

  lemma StartsWithItsName(r: Reason)
    ensures StartsWith(Text(r), Name(r.field))
  {
  }

  lemma FirstLetterDiffers(text: string, prefix: string)
    requires text != [] && prefix != [] && text[0] != prefix[0]
    ensures !StartsWith(text, prefix)
  {
  }

  lemma {:induction false} BlockersJoin(a: seq<string>, b: seq<string>)
    ensures RecycleBlockers(a + b) == RecycleBlockers(a) + RecycleBlockers(b)
  {
    if a == [] {
      assert a + b == b;
    } else {
      var head := if IsProtected(a[0]) then [a[0]] else [];
      calc {
        RecycleBlockers(a + b);
        { assert (a + b)[0] == a[0] && (a + b)[1..] == a[1..] + b; }
        head + RecycleBlockers(a[1..] + b);
        { BlockersJoin(a[1..], b); }
        head + (RecycleBlockers(a[1..]) + RecycleBlockers(b));
        { Reassociate(head, RecycleBlockers(a[1..]), RecycleBlockers(b)); }
        RecycleBlockers(a) + RecycleBlockers(b);
      }
    }
  }

  function Kept(fields: seq<Field>): seq<Field> {
    if fields == [] then [] else (if InRecovery(fields[0]) then [fields[0]] else []) + Kept(fields[1..])
  }

  lemma TextsJoin(a: seq<Reason>, b: seq<Reason>)
    ensures Texts(a + b) == Texts(a) + Texts(b)
  {
  }

  lemma BlockersOfPart(s: Snapshot, f: Field)
    ensures RecycleBlockers(Texts(Part(s, f))) == Texts(if InRecovery(f) then Part(s, f) else [])
  {
    var part := Part(s, f);
    if part != [] {
      ProtectedReasons(part[0]);
      assert Texts(part) == [Text(part[0])] && Texts(part)[1..] == [];
    }
  }

  lemma {:induction false} BlockersOfParts(s: Snapshot, fields: seq<Field>)
    ensures RecycleBlockers(Texts(Parts(s, fields))) == Texts(Parts(s, Kept(fields)))
  {
    if fields != [] {
      var head, rest := Part(s, fields[0]), Parts(s, fields[1..]);
      TextsJoin(head, rest);
      BlockersJoin(Texts(head), Texts(rest));
      BlockersOfPart(s, fields[0]);
      BlockersOfParts(s, fields[1..]);
      var kept := if InRecovery(fields[0]) then [fields[0]] else [];
      PartsJoin(s, kept, Kept(fields[1..]));
      PartOfOne(s, fields[0]);
      TextsJoin(Parts(s, kept), Parts(s, Kept(fields[1..])));
    }
  }

  /** Filtering the reported reasons by prefix yields the reasons of the owned-recovery decision. */
  lemma FilterIsRecovery(s: Snapshot)
    ensures RecycleBlockers(Texts(Evaluate(s).reasons)) == Texts(EvaluateOwnedRecovery(s).reasons)
  {
    BlockersOfParts(s, REPORT_ORDER);
    KeptOf(REPORT_ORDER);
  }

  lemma KeptOf(fields: seq<Field>)
    requires fields == REPORT_ORDER
    ensures Kept(fields) == RECOVERY_ORDER
  {
  }

  // ---------------------------------------------------------------------------------
  // The programs
  // ---------------------------------------------------------------------------------

  /** The list that the static helpers of the decision append to. */
  class ReasonList {
    var reasons: seq<Reason>

    constructor ()
      ensures reasons == []
    {
      reasons := [];
    }

    method AddKnownZero(field: Field, known: bool, count: int)
      modifies this
      ensures reasons == old(reasons)
                         + (if !known then [Reason(field, true)] else if count != 0 then [Reason(field, false)] else [])
    {
      if !known {
        reasons := reasons + [Reason(field, true)];
      } else if count != 0 {
        reasons := reasons + [Reason(field, false)];
      }
    }

    method AddFalse(field: Field, known: bool, active: bool)
      modifies this
      ensures reasons == old(reasons)
                         + (if !known then [Reason(field, true)] else if active then [Reason(field, false)] else [])
    {
      if !known {
        reasons := reasons + [Reason(field, true)];
      } else if active {
        reasons := reasons + [Reason(field, false)];
      }
    }
  }

  method EvaluateSnapshot(s: Snapshot) returns (d: Decision)
    ensures d == Evaluate(s)
  {
    var list := new ReasonList();
    list.AddKnownZero(Unsaved, Unsaved in s.known, s.counts.unsaved);
    list.AddFalse(Indexing, Indexing in s.known, s.active.indexing);
    list.AddKnownZero(Run, Run in s.known, s.counts.run);
    ghost var first := list.reasons;
    assert first == Part(s, Unsaved) + Part(s, Indexing) + Part(s, Run);
    list.AddKnownZero(Terminal, Terminal in s.known, s.counts.terminal);
    list.AddKnownZero(Debugger, Debugger in s.known, s.counts.debugger);
    list.AddFalse(Modal, Modal in s.known, s.active.modal);
    list.AddFalse(Closing, Closing in s.known, s.active.closing);
    assert list.reasons == first + Part(s, Terminal) + Part(s, Debugger) + Part(s, Modal) + Part(s, Closing);
    ReportOrderUnrolled(s, first);
    d := Decision(list.reasons == [], list.reasons);
  }

  lemma ReportOrderUnrolled(s: Snapshot, first: seq<Reason>)
    requires first == Part(s, Unsaved) + Part(s, Indexing) + Part(s, Run)
    ensures first + Part(s, Terminal) + Part(s, Debugger) + Part(s, Modal) + Part(s, Closing) == Parts(s, REPORT_ORDER)
  {
    var a, b := [Unsaved, Indexing, Run], [Terminal, Debugger, Modal];
    assert REPORT_ORDER == a + b + [Closing];
    PartsOfThree(s, Unsaved, Indexing, Run);
    PartsOfThree(s, Terminal, Debugger, Modal);
    PartsJoin(s, a, b);
    PartsThen(s, a + b, Closing);
    Reassociate(first, Part(s, Terminal), Part(s, Debugger));
    Reassociate(first, Part(s, Terminal) + Part(s, Debugger), Part(s, Modal));
  }

  method EvaluateForRecovery(s: Snapshot) returns (d: Decision)
    ensures d == EvaluateOwnedRecovery(s)
  {
    var list := new ReasonList();
    list.AddKnownZero(Unsaved, Unsaved in s.known, s.counts.unsaved);
    list.AddFalse(Modal, Modal in s.known, s.active.modal);
    list.AddFalse(Closing, Closing in s.known, s.active.closing);
    PartsOfThree(s, Unsaved, Modal, Closing);
    d := Decision(list.reasons == [], list.reasons);
  }

  /** The validation loop over the entries of a report. */
  method ReadStatus(items: seq<Item>, canonical: set<string>) returns (result: Option<map<string, Item>>)
    ensures result == ProjectStatus(items, canonical, map[])
  {
    var entries: map<string, Item> := map[];
    for i := 0 to |items|
      invariant ProjectStatus(items[i..], canonical, entries) == ProjectStatus(items, canonical, map[])
    {
      assert items[i..][1..] == items[i + 1..];
      var item := items[i];
      if item.root == "" || item.root !in canonical { return None; }
      if !CountsValid(item.counts) || item.root in entries { return None; }
      var expected := RecomputeReasons(item);
      if item.reasons != Texts(expected) || item.safe != (expected == []) { return None; }
      entries := entries[item.root := item];
    }
    result := Some(entries);
  }

  /** The two loops over the counted and the flagged fields. */
  method RecomputeReasons(item: Item) returns (expected: seq<Reason>)
    ensures expected == Recomputed(item)
  {
    var s := Snapshot(item.root, item.known, item.counts, item.active);
    expected := [];
    var counted, flagged := [Unsaved, Run, Terminal, Debugger], [Indexing, Modal, Closing];
    for i := 0 to |counted|
      invariant expected == Parts(s, counted[..i])
    {
      PartsJoin(s, counted[..i], [counted[i]]);
      PartOfOne(s, counted[i]);
      assert counted[..i + 1] == counted[..i] + [counted[i]];
      expected := expected + (if counted[i] !in item.known then [Reason(counted[i], true)]
                              else if Raised(s, counted[i]) then [Reason(counted[i], false)] else []);
    }
    assert counted[..|counted|] == counted && counted + flagged[..0] == counted;
    for i := 0 to |flagged|
      invariant expected == Parts(s, counted + flagged[..i])
    {
      PartsJoin(s, counted + flagged[..i], [flagged[i]]);
      PartOfOne(s, flagged[i]);
      assert counted + flagged[..i + 1] == counted + flagged[..i] + [flagged[i]];
      expected := expected + (if flagged[i] !in item.known then [Reason(flagged[i], true)]
                              else if Raised(s, flagged[i]) then [Reason(flagged[i], false)] else []);
    }
    assert flagged[..|flagged|] == flagged;
    assert CHECK_ORDER == counted + flagged;
  }
}

/**
  Owner resolution by thread lineage in `bin/serena-worktree-broker`: a subagent thread is
  resolved to the root of its chain of parents, or to itself when the chain is not trustworthy.
 */
module Lineage {
  import opened Wrappers

  const MAX_LINEAGE_DEPTH := 8

  /** The JSON value of a parent field: missing, a string, or something else. */
  datatype Parent = Absent | Text(id: string) | NotText

  datatype Meta = Meta(parent: Parent, subagent: bool, nested: Parent)

  /** What `_session_meta` returns for a thread: its metadata, or the reason there is none. */
  datatype Session = Found(meta: Meta) | Unreadable(reason: string)

  type Sessions = map<string, Session>

  function Lookup(sessions: Sessions, t: string): Session {
    if t in sessions then sessions[t] else Unreadable("missing-session")
  }

  datatype Resolution = Resolution(thread: string, owner: string, source: string, reason: Option<string>)

  predicate HexDigit(c: char) {
    '0' <= c <= '9' || 'a' <= c <= 'f'
  }

  /** THREAD_ID_PATTERN: 8-4-4-4-12 lower-case hexadecimal digits. */
  predicate ThreadId(t: string) {
    |t| == 36 && forall i | 0 <= i < 36 :: if i in {8, 13, 18, 23} then t[i] == '-' else HexDigit(t[i])
  }

  const HEX := "0123456789abcdef"

  predicate Hexadecimal(digits: string) {
    forall i | 0 <= i < |digits| :: digits[i] in HEX
  }

  lemma HexDigits(c: char)
    ensures HexDigit(c) <==> c in HEX
  {
    if HexDigit(c) {
      var i := if c <= '9' then c as int - '0' as int else c as int - 'a' as int + 10;
      assert HEX[i] == c;
    }
  }

  /** A thread identifier is five groups of lower-case hexadecimal digits, joined by dashes. */
  lemma ThreadIdGroups(a: string, b: string, c: string, d: string, e: string)
    requires |a| == 8 && |b| == |c| == |d| == 4 && |e| == 12
    ensures ThreadId(a + "-" + b + "-" + c + "-" + d + "-" + e) <==>
              Hexadecimal(a) && Hexadecimal(b) && Hexadecimal(c) && Hexadecimal(d) && Hexadecimal(e)
  {
    var t := a + "-" + b + "-" + c + "-" + d + "-" + e;
    assert t[8] == t[13] == t[18] == t[23] == '-';
    assert t[..8] == a && t[9..13] == b && t[14..18] == c && t[19..23] == d && t[24..36] == e;
    forall i | 0 <= i < 36 ensures HexDigit(t[i]) <==> t[i] in HEX {
      HexDigits(t[i]);
    }
    GroupsOf(t);
  }

  lemma GroupAt(t: string, from: nat, to: nat)
    requires from <= to <= |t|
    ensures Hexadecimal(t[from..to]) <==> forall i | from <= i < to :: t[i] in HEX
  {
    if Hexadecimal(t[from..to]) {
      forall i | from <= i < to ensures t[i] in HEX {
        assert t[from..to][i - from] == t[i];
      }
    }
  }

  lemma GroupsOf(t: string)
    requires |t| == 36 && t[8] == t[13] == t[18] == t[23] == '-'
    requires forall i | 0 <= i < 36 :: HexDigit(t[i]) <==> t[i] in HEX
    ensures ThreadId(t) <==>
              Hexadecimal(t[..8]) && Hexadecimal(t[9..13]) && Hexadecimal(t[14..18]) && Hexadecimal(t[19..23])
              && Hexadecimal(t[24..36])
  {
    GroupAt(t, 0, 8);
    GroupAt(t, 9, 13);
    GroupAt(t, 14, 18);
    GroupAt(t, 19, 23);
    GroupAt(t, 24, 36);
    assert t[..8] == t[0..8];
    assert ThreadId(t) <==> forall i | 0 <= i < 36 && i !in {8, 13, 18, 23} :: t[i] in HEX;
  }

  function Failed(start: string, reason: string): Resolution {
    Resolution(start, start, "root-thread", Some(reason))
  }

  /** The walk from `current`, having taken `transitions` links and seen `visited`. */
  function Walk(sessions: Sessions, start: string, current: string, visited: set<string>, transitions: nat): Resolution
    requires transitions <= MAX_LINEAGE_DEPTH
    decreases MAX_LINEAGE_DEPTH - transitions
  {
    if current in visited then Failed(start, "lineage-cycle")
    else match Lookup(sessions, current)
      case Unreadable(reason) => Failed(start, reason)
      case Found(meta) =>
        if meta.parent.Absent? then
          if meta.subagent then Failed(start, "missing-parent")
          else Resolution(start, current, if transitions > 0 then "subagent-lineage" else "root-thread", None)
        else if !meta.subagent then Failed(start, "invalid-thread-source")
        else if !meta.parent.Text? || meta.nested != meta.parent then Failed(start, "inconsistent-parent")
        else if !ThreadId(meta.parent.id) then Failed(start, "invalid-parent-id")
        else if transitions >= MAX_LINEAGE_DEPTH then Failed(start, "lineage-too-deep")
        else Walk(sessions, start, meta.parent.id, visited + {current}, transitions + 1)
  }

  function LineageOwner(sessions: Sessions, start: string): Resolution {
    Walk(sessions, start, start, {}, 0)
  }

  /** `_lineage_owner` as written: a loop over `current`, `visited` and `transitions`. */
  method FindLineageOwner(sessions: Sessions, start: string) returns (r: Resolution)
    ensures r == LineageOwner(sessions, start)
  {
    var current := start;
    var visited: set<string> := {};
    var transitions := 0;
    while true
      invariant transitions <= MAX_LINEAGE_DEPTH
      invariant Walk(sessions, start, current, visited, transitions) == LineageOwner(sessions, start)
      decreases MAX_LINEAGE_DEPTH - transitions
    {
      if current in visited { return Failed(start, "lineage-cycle"); }
      var session := Lookup(sessions, current);
      if session.Unreadable? { return Failed(start, session.reason); }
      var meta := session.meta;
      if meta.parent.Absent? {
        if meta.subagent { return Failed(start, "missing-parent"); }
        var source := if transitions > 0 then "subagent-lineage" else "root-thread";
        return Resolution(start, current, source, None);
      }
      if !meta.subagent { return Failed(start, "invalid-thread-source"); }
      if !meta.parent.Text? || meta.nested != meta.parent { return Failed(start, "inconsistent-parent"); }
      if !ThreadId(meta.parent.id) { return Failed(start, "invalid-parent-id"); }
      if transitions >= MAX_LINEAGE_DEPTH { return Failed(start, "lineage-too-deep"); }
      visited := visited + {current};
      transitions := transitions + 1;
      current := meta.parent.id;
    }
  }

  // ---------------------------------------------------------------------------------
  // Chains of parents
  // ---------------------------------------------------------------------------------

  /** `t` names `p` as its parent, consistently and with a well-formed identifier. */
  predicate Link(sessions: Sessions, t: string, p: string) {
    var s := Lookup(sessions, t);
    s.Found? && s.meta.subagent && s.meta.parent == Text(p) && s.meta.nested == Text(p) && ThreadId(p)
  }

  /** A parentless thread that is not a subagent. */
  predicate RootThread(sessions: Sessions, t: string) {
    var s := Lookup(sessions, t);
    s.Found? && s.meta.parent.Absent? && !s.meta.subagent
  }

  /** A path of valid links. */
  predicate Linked(sessions: Sessions, path: seq<string>) {
    path != [] && forall i | 0 <= i < |path| - 1 :: Link(sessions, path[i], path[i + 1])
  }

  /** A path of valid links from `start` to a root thread. */
  predicate Chain(sessions: Sessions, start: string, path: seq<string>) {
    Linked(sessions, path) && path[0] == start && RootThread(sessions, path[|path| - 1])
  }

  lemma NoLinkFromRoot(sessions: Sessions, t: string, p: string)
    requires RootThread(sessions, t)
    ensures !Link(sessions, t, p)
  {
  }

  /** A thread on a chain never comes back: links are deterministic and a root has none. */
  lemma {:induction false} ChainsDoNotRepeat(sessions: Sessions, path: seq<string>, i: nat, j: nat)
    requires Linked(sessions, path) && RootThread(sessions, path[|path| - 1])
    requires i < j < |path|
    ensures path[i] != path[j]
    decreases |path| - j
  {
    assert Link(sessions, path[i], path[i + 1]);
    if j == |path| - 1 {
      NoLinkFromRoot(sessions, path[j], path[i + 1]);
    } else {
      assert Link(sessions, path[j], path[j + 1]);
      ChainsDoNotRepeat(sessions, path, i + 1, j + 1);
    }
  }

  /** The walk follows a chain of at most the allowed length to its root. */
  lemma {:induction false} WalkFollowsChain(sessions: Sessions, start: string, path: seq<string>, k: nat,
                                            visited: set<string>)
    requires Chain(sessions, start, path) && k < |path| <= MAX_LINEAGE_DEPTH + 1
    requires forall i | k <= i < |path| :: path[i] !in visited
    ensures
      Walk(sessions, start, path[k], visited, k)
        == Resolution(start, path[|path| - 1], if |path| > 1 then "subagent-lineage" else "root-thread", None)
    decreases |path| - k
  {
    if k < |path| - 1 {
      assert Link(sessions, path[k], path[k + 1]);
      forall i | k < i < |path| ensures path[i] != path[k] {
        ChainsDoNotRepeat(sessions, path, k, i);
      }
      WalkFollowsChain(sessions, start, path, k + 1, visited + {path[k]});
    }
  }

  /** A successful walk has followed a chain. */
  lemma {:induction false} WalkFindsChain(sessions: Sessions, start: string, current: string, visited: set<string>,
                                          transitions: nat)
    returns (path: seq<string>)
    requires transitions <= MAX_LINEAGE_DEPTH
    requires Walk(sessions, start, current, visited, transitions).reason == None
    ensures Chain(sessions, current, path) && |path| + transitions <= MAX_LINEAGE_DEPTH + 1
    ensures path[|path| - 1] == Walk(sessions, start, current, visited, transitions).owner
    decreases MAX_LINEAGE_DEPTH - transitions
  {
    var meta := Lookup(sessions, current).meta;
    if meta.parent.Absent? {
      path := [current];
    } else {
      var rest := WalkFindsChain(sessions, start, meta.parent.id, visited + {current}, transitions + 1);
      path := [current] + rest;
    }
  }

  lemma {:induction false} FailureKeepsStart(sessions: Sessions, start: string, current: string, visited: set<string>,
                                             transitions: nat)
    requires transitions <= MAX_LINEAGE_DEPTH
    ensures
      var r := Walk(sessions, start, current, visited, transitions);
      r.thread == start && (r.reason.Some? ==> r == Failed(start, r.reason.value))
    decreases MAX_LINEAGE_DEPTH - transitions
  {
    match Lookup(sessions, current)
    case Unreadable(_) =>
    case Found(meta) =>
      if meta.parent.Text? && transitions < MAX_LINEAGE_DEPTH {
        FailureKeepsStart(sessions, start, meta.parent.id, visited + {current}, transitions + 1);
      }
  }

  /**
    The resolution succeeds exactly when at most eight valid links lead from the thread to a
    parentless thread that is not a subagent, and then the owner is that thread. In every other
    case the owner is the thread itself.
   */
  lemma OwnerIsTheChainsRoot(sessions: Sessions, start: string)
    ensures
      var r := LineageOwner(sessions, start);
      && (r.reason == None <==> exists path :: Chain(sessions, start, path) && |path| <= MAX_LINEAGE_DEPTH + 1)
      && (forall path | Chain(sessions, start, path) && |path| <= MAX_LINEAGE_DEPTH + 1 ::
            r == Resolution(start, path[|path| - 1], if |path| > 1 then "subagent-lineage" else "root-thread", None))
      && (r.reason != None ==> r.owner == start && r.source == "root-thread")
  {
    var r := LineageOwner(sessions, start);
    FailureKeepsStart(sessions, start, start, {}, 0);
    if r.reason == None {
      var path := WalkFindsChain(sessions, start, start, {}, 0);
    }
    forall path | Chain(sessions, start, path) && |path| <= MAX_LINEAGE_DEPTH + 1
      ensures r == Resolution(start, path[|path| - 1], if |path| > 1 then "subagent-lineage" else "root-thread", None)
    {
      WalkFollowsChain(sessions, start, path, 0, {});
    }
  }

  /** A child that is resolved through its lineage shares its owner with its parent. */
  lemma ChildAndParentShareOwner(sessions: Sessions, child: string, parent: string)
    requires Link(sessions, child, parent) && LineageOwner(sessions, child).reason == None
    ensures LineageOwner(sessions, parent).reason == None
    ensures LineageOwner(sessions, parent).owner == LineageOwner(sessions, child).owner
  {
    var path := WalkFindsChain(sessions, child, child, {}, 0);
    assert |path| > 1;
    assert Link(sessions, path[0], path[1]);
    assert Chain(sessions, parent, path[1..]);
    OwnerIsTheChainsRoot(sessions, parent);
  }

  /**
    Exactly when a child shares its owner with the parent it names: when the chain of the child is
    within the depth limit (or the child names itself). In every other case the child falls back to
    itself, and the parent never resolves to the child.
   */
  lemma SharedOwnerExactly(sessions: Sessions, child: string, parent: string)
    requires Link(sessions, child, parent)
    ensures LineageOwner(sessions, child).owner == LineageOwner(sessions, parent).owner <==>
              child == parent || exists path :: Chain(sessions, child, path) && |path| <= MAX_LINEAGE_DEPTH + 1
  {
    OwnerIsTheChainsRoot(sessions, child);
    OwnerIsTheChainsRoot(sessions, parent);
    if LineageOwner(sessions, child).reason == None {
      ChildAndParentShareOwner(sessions, child, parent);
    } else if LineageOwner(sessions, parent).reason == None {
      var path := WalkFindsChain(sessions, parent, parent, {}, 0);
      if path[|path| - 1] == child {
        NoLinkFromRoot(sessions, child, parent);
      }
    }
  }

  /** Resolving an owner gives that owner again. */
  lemma OwnersResolveToThemselves(sessions: Sessions, t: string)
    requires LineageOwner(sessions, t).reason == None
    ensures LineageOwner(sessions, LineageOwner(sessions, t).owner).owner == LineageOwner(sessions, t).owner
    ensures LineageOwner(sessions, LineageOwner(sessions, t).owner).reason == None
  {
    var path := WalkFindsChain(sessions, t, t, {}, 0);
    var root := path[|path| - 1];
    assert Chain(sessions, root, [root]);
    OwnerIsTheChainsRoot(sessions, root);
  }

  /** The depth limit splits a family: a parent may resolve where its child no longer does. */
  lemma TooDeepChildLosesItsOwner(sessions: Sessions, path: seq<string>)
    requires |path| == MAX_LINEAGE_DEPTH + 2 && Chain(sessions, path[0], path)
    ensures LineageOwner(sessions, path[0]).owner == path[0]
    ensures LineageOwner(sessions, path[1]).owner == path[|path| - 1] != path[0]
  {
    assert Link(sessions, path[0], path[1]);
    assert Chain(sessions, path[1], path[1..]);
    OwnerIsTheChainsRoot(sessions, path[1]);
    if LineageOwner(sessions, path[0]).reason == None {
      var other := WalkFindsChain(sessions, path[0], path[0], {}, 0);
      NoLinkFromRoot(sessions, other[|other| - 1], path[|other|]);
      ChainsAgree(sessions, path, other, |other| - 1);
    }
    FailureKeepsStart(sessions, path[0], path[0], {}, 0);
    ChainsDoNotRepeat(sessions, path, 0, |path| - 1);
  }

  lemma {:induction false} ChainsAgree(sessions: Sessions, p: seq<string>, q: seq<string>, k: nat)
    requires Linked(sessions, p) && Linked(sessions, q) && p[0] == q[0] && k < |p| && k < |q|
    ensures p[k] == q[k]
  {
    if k > 0 {
      ChainsAgree(sessions, p, q, k - 1);
      assert Link(sessions, p[k - 1], p[k]) && Link(sessions, q[k - 1], q[k]);
    }
  }

  // ---------------------------------------------------------------------------------
  // Why a resolution fails
  // ---------------------------------------------------------------------------------

  /** The links that the walk has followed from `start`, none of them back. */
  predicate Followed(sessions: Sessions, start: string, path: seq<string>) {
    && Linked(sessions, path) && path[0] == start && |path| <= MAX_LINEAGE_DEPTH + 1
    && forall i, j | 0 <= i < j < |path| :: path[i] != path[j]
  }

  function Seen(path: seq<string>): set<string> {
    set i | 0 <= i < |path| :: path[i]
  }

  lemma {:induction false} WalkFollowsLinks(sessions: Sessions, start: string, path: seq<string>, k: nat)
    requires Followed(sessions, start, path) && k < |path|
    ensures LineageOwner(sessions, start) == Walk(sessions, start, path[k], Seen(path[..k]), k)
  {
    if k == 0 {
      assert Seen(path[..0]) == {};
    } else {
      WalkFollowsLinks(sessions, start, path, k - 1);
      assert Link(sessions, path[k - 1], path[k]);
      assert path[k - 1] !in Seen(path[..k - 1]);
      assert path[..k] == path[..k - 1] + [path[k - 1]];
      assert Seen(path[..k]) == Seen(path[..k - 1]) + {path[k - 1]} by {
        assert forall i | 0 <= i < k - 1 :: path[..k][i] == path[..k - 1][i];
        assert path[..k][k - 1] == path[k - 1];
      }
    }
  }

  /** A thread that leads no further fails for what its metadata says. */
  lemma MetadataDecidesTheReason(sessions: Sessions, start: string, path: seq<string>)
    requires Followed(sessions, start, path)
    ensures
      var s, reason := Lookup(sessions, path[|path| - 1]), LineageOwner(sessions, start).reason;
      && (s.Unreadable? ==> reason == Some(s.reason))
      && (s.Found? && s.meta.parent.Absent? ==> reason == if s.meta.subagent then Some("missing-parent") else None)
      && (s.Found? && !s.meta.parent.Absent? && !s.meta.subagent ==> reason == Some("invalid-thread-source"))
      && (s.Found? && s.meta.parent.NotText? && s.meta.subagent ==> reason == Some("inconsistent-parent"))
      && (s.Found? && s.meta.parent.Text? && s.meta.subagent && s.meta.nested != s.meta.parent ==>
            reason == Some("inconsistent-parent"))
      && (s.Found? && s.meta.parent.Text? && s.meta.subagent && s.meta.nested == s.meta.parent ==>
            (!ThreadId(s.meta.parent.id) ==> reason == Some("invalid-parent-id")))
  {
    var k := |path| - 1;
    WalkFollowsLinks(sessions, start, path, k);
    assert path[k] !in Seen(path[..k]);
  }

  /** A valid link fails only when it is one too many, or leads back to a thread already seen. */
  lemma LinksDecideTheReason(sessions: Sessions, start: string, path: seq<string>, next: string)
    requires Followed(sessions, start, path) && Link(sessions, path[|path| - 1], next)
    ensures |path| == MAX_LINEAGE_DEPTH + 1 ==> LineageOwner(sessions, start).reason == Some("lineage-too-deep")
    ensures |path| <= MAX_LINEAGE_DEPTH && next in path ==> LineageOwner(sessions, start).reason == Some("lineage-cycle")
  {
    var k := |path| - 1;
    WalkFollowsLinks(sessions, start, path, k);
    assert path[k] !in Seen(path[..k]);
    if |path| <= MAX_LINEAGE_DEPTH && next in path {
      var i :| 0 <= i < |path| && path[i] == next;
      assert i < k ==> path[..k][i] == next;
    }
  }
}

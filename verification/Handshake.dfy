/**
  The read loop of `run_handshake` in `workspace_harbor_bridge.py`: chunks of the broker's output
  are collected in a buffer, complete lines are taken from it and interpreted. Messages are those
  of the MCP revision 2025-06-18, section "Transports", stdio: newline-delimited JSON-RPC
  messages; responses carry a result or an error as section 5 of JSON-RPC 2.0 says.
 */
module Handshake {
  import opened Wrappers

  newtype Byte = x: int | 0 <= x < 256

  const NEWLINE: Byte := 10
  const BUFFER_LIMIT: nat := 1_048_576

  const EXPECTED_TOOLS := {"initial_instructions", "activate_project", "get_symbols_overview"}

  datatype Failure =
    | OutputLimit | ProtocolError | InitializeError | ToolsListError | ExpectedToolMissing
    | InitializeTimeout | ToolsListTimeout | InitializeEof | ToolsListEof

  /** A decoded line. `tools` lists the items of a list: the name of an item that has one. */
  datatype Payload = NotADict | Dict(tools: Option<seq<Option<string>>>)
  datatype MessageId = One | Two | Other
  datatype Message = Malformed | NotAnObject | Object(id: MessageId, error: bool, result: Payload)

  /** What the reader has concluded so far. */
  datatype Verdict = Verdict(initialized: bool, tools: Option<set<string>>, failure: Option<Failure>)

  const Unknown := Verdict(false, None, None)

  predicate Stopped(v: Verdict) {
    v.tools.Some? || v.failure.Some?
  }

  function Names(items: seq<Option<string>>): set<string> {
    set i | 0 <= i < |items| && items[i].Some? :: items[i].value
  }

  function Fail(v: Verdict, failure: Failure): Verdict {
    v.(failure := Some(failure))
  }

  /** The meaning of one message. */
  function Handle(v: Verdict, m: Message): Verdict {
    match m
    case Malformed => Fail(v, ProtocolError)
    case NotAnObject => Fail(v, ProtocolError)
    case Object(One, error, result) =>
      if error || result.NotADict? then Fail(v, InitializeError) else v.(initialized := true)
    case Object(Two, error, result) =>
      if !v.initialized then Fail(v, ProtocolError)
      else if error || result.NotADict? || result.tools.None? then Fail(v, ToolsListError)
      else
        var names := Names(result.tools.value);
        var listed := v.(tools := Some(names));
        if names * EXPECTED_TOOLS == {} then Fail(listed, ExpectedToolMissing) else listed
    case Object(Other, _, _) => v
  }

  // ---------------------------------------------------------------------------------
  // Lines of a stream
  // ---------------------------------------------------------------------------------

  /** The length of the first line, without its newline. */
  function LineEnd(s: seq<Byte>): (n: nat)
    ensures n <= |s| && (forall i | 0 <= i < n :: s[i] != NEWLINE)
    ensures n < |s| ==> s[n] == NEWLINE
  {
    if s == [] || s[0] == NEWLINE then 0 else 1 + LineEnd(s[1..])
  }

  /** The newline-terminated lines of a stream. */
  function Lines(s: seq<Byte>): seq<seq<Byte>>
    decreases |s|
  {
    var n := LineEnd(s);
    if n < |s| then [s[..n]] + Lines(s[n + 1..]) else []
  }

  /** Interprets lines one after another until one settles the handshake. */
  function Fold(decode: seq<Byte> -> Message, v: Verdict, lines: seq<seq<Byte>>): Verdict
    decreases |lines|
  {
    if lines == [] || Stopped(v) then v else Fold(decode, Handle(v, decode(lines[0])), lines[1..])
  }

  lemma FirstLine(s: seq<Byte>, t: seq<Byte>)
    requires NEWLINE !in s
    ensures LineEnd(s + [NEWLINE] + t) == |s|
  {
    assert (s + [NEWLINE] + t)[|s|] == NEWLINE;
    assert forall i | 0 <= i < |s| :: (s + [NEWLINE] + t)[i] == s[i];
  }

  /** What follows does not change the first line. */
  lemma FirstLineStays(s: seq<Byte>, t: seq<Byte>)
    requires LineEnd(s) < |s|
    ensures
      var n := LineEnd(s);
      LineEnd(s + t) == n && (s + t)[..n] == s[..n] && (s + t)[n + 1..] == s[n + 1..] + t
  {
    assert (s + t)[LineEnd(s)] == NEWLINE;
    assert forall i | 0 <= i < |s| :: (s + t)[i] == s[i];
  }

  lemma LinesSplit(s: seq<Byte>, t: seq<Byte>)
    requires LineEnd(s) < |s|
    ensures Lines(s + t) == [s[..LineEnd(s)]] + Lines(s[LineEnd(s) + 1..] + t)
  {
    FirstLineStays(s, t);
  }

  // ---------------------------------------------------------------------------------
  // The reader
  // ---------------------------------------------------------------------------------

  datatype Reader = Reader(buffer: seq<Byte>, total: nat, verdict: Verdict)

  const Fresh := Reader([], 0, Unknown)

  /** What one turn of the loop observes: a chunk of a stream, the deadline, or the end of the process. */
  datatype Event = Out(chunk: seq<Byte>) | Err(chunk: seq<Byte>) | Deadline | Ended

  /** The inner loop: takes complete lines from the buffer. */
  function Drain(decode: seq<Byte> -> Message, v: Verdict, buffer: seq<Byte>): (Verdict, seq<Byte>)
    decreases |buffer|
  {
    var n := LineEnd(buffer);
    if n == |buffer| then (v, buffer)
    else
      var v' := Handle(v, decode(buffer[..n]));
      if Stopped(v') then (v', buffer[n + 1..]) else Drain(decode, v', buffer[n + 1..])
  }

  /** One event; a settled reader ignores it. */
  function Feed(decode: seq<Byte> -> Message, max: nat, r: Reader, e: Event): Reader {
    if Stopped(r.verdict) then r
    else match e
      case Deadline =>
        r.(verdict := Fail(r.verdict, if r.verdict.initialized then ToolsListTimeout else InitializeTimeout))
      case Ended =>
        r.(verdict := Fail(r.verdict, if r.verdict.initialized then ToolsListEof else InitializeEof))
      case Err(chunk) =>
        var total := r.total + |chunk|;
        if total > max then Reader(r.buffer, total, Fail(r.verdict, OutputLimit)) else r.(total := total)
      case Out(chunk) =>
        var total := r.total + |chunk|;
        var buffer := r.buffer + chunk;
        if total > max then Reader(r.buffer, total, Fail(r.verdict, OutputLimit))
        else if |buffer| > BUFFER_LIMIT && NEWLINE !in buffer then Reader(buffer, total, Fail(r.verdict, OutputLimit))
        else
          var (verdict, rest) := Drain(decode, r.verdict, buffer);
          Reader(rest, total, verdict)
  }

  function FeedAll(decode: seq<Byte> -> Message, max: nat, r: Reader, events: seq<Event>): Reader
    decreases |events|
  {
    if events == [] then r else FeedAll(decode, max, Feed(decode, max, r, events[0]), events[1..])
  }

  /** The standard output stream that the chunks make up. */
  function Stdout(events: seq<Event>): seq<Byte> {
    if events == [] then []
    else (if events[0].Out? then events[0].chunk else []) + Stdout(events[1..])
  }

  function Size(events: seq<Event>): nat {
    if events == [] then 0
    else (if events[0].Out? || events[0].Err? then |events[0].chunk| else 0) + Size(events[1..])
  }

  /** Only output is observed: no deadline passes and the process does not end. */
  predicate OnlyOutput(events: seq<Event>) {
    forall i | 0 <= i < |events| :: events[i].Out? || events[i].Err?
  }

  /** Every line that is reached before the handshake settles fits the buffer. */
  predicate LinesFit(decode: seq<Byte> -> Message, v: Verdict, s: seq<Byte>)
    decreases |s|
  {
    var n := LineEnd(s);
    n <= BUFFER_LIMIT
    && (n < |s| ==>
          var v' := Handle(v, decode(s[..n]));
          Stopped(v') || LinesFit(decode, v', s[n + 1..]))
  }

  // ---------------------------------------------------------------------------------
  // Chunks do not matter
  // ---------------------------------------------------------------------------------

  lemma {:induction false} StoppedFold(decode: seq<Byte> -> Message, v: Verdict, lines: seq<seq<Byte>>)
    requires Stopped(v)
    ensures Fold(decode, v, lines) == v
  {
  }

  /** Draining a buffer and reading on is reading the whole: the meaning is unchanged. */
  lemma {:induction false} DrainKeepsMeaning(decode: seq<Byte> -> Message, v: Verdict, buffer: seq<Byte>, rest: seq<Byte>)
    requires !Stopped(v)
    ensures
      var (v', b) := Drain(decode, v, buffer);
      && Fold(decode, v, Lines(buffer + rest)) == (if Stopped(v') then v' else Fold(decode, v', Lines(b + rest)))
      && (Stopped(v') || LineEnd(b) == |b|)
    decreases |buffer|
  {
    var n := LineEnd(buffer);
    if n < |buffer| {
      var line, tail := buffer[..n], buffer[n + 1..];
      var v1 := Handle(v, decode(line));
      assert Fold(decode, v, Lines(buffer + rest)) == Fold(decode, v1, Lines(tail + rest)) by {
        LinesSplit(buffer, rest);
      }
      if Stopped(v1) {
        StoppedFold(decode, v1, Lines(tail + rest));
      } else {
        DrainKeepsMeaning(decode, v1, tail, rest);
        assert Drain(decode, v, buffer) == Drain(decode, v1, tail);
      }
    }
  }

  /** And the lines still to come fit. */
  lemma {:induction false} DrainKeepsFit(decode: seq<Byte> -> Message, v: Verdict, buffer: seq<Byte>, rest: seq<Byte>)
    requires !Stopped(v) && LinesFit(decode, v, buffer + rest)
    ensures
      var (v', b) := Drain(decode, v, buffer);
      Stopped(v') || LinesFit(decode, v', b + rest)
    decreases |buffer|
  {
    var n := LineEnd(buffer);
    if n < |buffer| {
      FirstLineStays(buffer, rest);
      var v1 := Handle(v, decode(buffer[..n]));
      if !Stopped(v1) {
        DrainKeepsFit(decode, v1, buffer[n + 1..], rest);
      }
    }
  }

  /** A buffer without a newline is part of one line. */
  lemma FitBoundsTheBuffer(decode: seq<Byte> -> Message, v: Verdict, buffer: seq<Byte>, rest: seq<Byte>)
    requires LinesFit(decode, v, buffer + rest) && NEWLINE !in buffer
    ensures |buffer| <= BUFFER_LIMIT
  {
  }

  lemma {:induction false} SettledStays(decode: seq<Byte> -> Message, max: nat, r: Reader, events: seq<Event>)
    requires Stopped(r.verdict)
    ensures FeedAll(decode, max, r, events) == r
    decreases |events|
  {
    if events != [] {
      SettledStays(decode, max, r, events[1..]);
    }
  }

  /** One chunk that fits: the buffer and what is still to come mean the same as before. */
  lemma ChunkKeepsMeaning(decode: seq<Byte> -> Message, max: nat, r: Reader, chunk: seq<Byte>, rest: seq<Byte>)
    requires !Stopped(r.verdict) && r.total + |chunk| <= max
    requires LinesFit(decode, r.verdict, r.buffer + chunk + rest)
    ensures
      var r' := Feed(decode, max, r, Out(chunk));
      && r'.total == r.total + |chunk|
      && Fold(decode, r.verdict, Lines(r.buffer + chunk + rest))
        == (if Stopped(r'.verdict) then r'.verdict else Fold(decode, r'.verdict, Lines(r'.buffer + rest)))
      && (Stopped(r'.verdict) || (LineEnd(r'.buffer) == |r'.buffer| && LinesFit(decode, r'.verdict, r'.buffer + rest)))
  {
    var buffer := r.buffer + chunk;
    if NEWLINE !in buffer {
      FitBoundsTheBuffer(decode, r.verdict, buffer, rest);
    }
    DrainKeepsMeaning(decode, r.verdict, buffer, rest);
    DrainKeepsFit(decode, r.verdict, buffer, rest);
  }

  lemma {:induction false} ReadingOn(decode: seq<Byte> -> Message, max: nat, r: Reader, events: seq<Event>)
    requires OnlyOutput(events) && !Stopped(r.verdict) && r.total + Size(events) <= max
    requires LineEnd(r.buffer) == |r.buffer| && LinesFit(decode, r.verdict, r.buffer + Stdout(events))
    ensures FeedAll(decode, max, r, events).verdict == Fold(decode, r.verdict, Lines(r.buffer + Stdout(events)))
    decreases |events|
  {
    if events == [] {
      assert r.buffer + Stdout(events) == r.buffer;
      assert Lines(r.buffer) == [];
    } else {
      var r1 := Feed(decode, max, r, events[0]);
      var rest := Stdout(events[1..]);
      if events[0].Out? {
        var chunk := events[0].chunk;
        assert r.buffer + Stdout(events) == r.buffer + chunk + rest;
        ChunkKeepsMeaning(decode, max, r, chunk, rest);
        if Stopped(r1.verdict) {
          SettledStays(decode, max, r1, events[1..]);
        } else {
          ReadingOn(decode, max, r1, events[1..]);
        }
      } else {
        assert Stdout(events) == rest;
        ReadingOn(decode, max, r1, events[1..]);
      }
    }
  }

  /**
    The outcome is the fold of the message step over the lines of the whole stream, however the
    stream was cut into chunks and interleaved with diagnostics, when the output stays within both
    limits and neither the deadline nor the end of the process intervenes.
   */
  lemma {:induction false} OutcomeIsTheFold(decode: seq<Byte> -> Message, max: nat, events: seq<Event>)
    requires OnlyOutput(events) && Size(events) <= max && LinesFit(decode, Unknown, Stdout(events))
    ensures FeedAll(decode, max, Fresh, events).verdict == Fold(decode, Unknown, Lines(Stdout(events)))
  {
    assert [] + Stdout(events) == Stdout(events);
    ReadingOn(decode, max, Fresh, events);
  }

  /** Two ways of cutting one stream lead to one outcome. */
  lemma {:induction false} ChunksDoNotMatter(decode: seq<Byte> -> Message, max: nat, a: seq<Event>, b: seq<Event>)
    requires OnlyOutput(a) && OnlyOutput(b) && Size(a) <= max && Size(b) <= max
    requires Stdout(a) == Stdout(b) && LinesFit(decode, Unknown, Stdout(a))
    ensures FeedAll(decode, max, Fresh, a).verdict == FeedAll(decode, max, Fresh, b).verdict
  {
    OutcomeIsTheFold(decode, max, a);
    OutcomeIsTheFold(decode, max, b);
  }

  // ---------------------------------------------------------------------------------
  // What a successful handshake has seen
  // ---------------------------------------------------------------------------------

  predicate Initializes(m: Message) {
    m.Object? && m.id == One && !m.error && m.result.Dict?
  }

  /** A message that does not end the handshake: a successful initialize response, or one that
      answers neither request. */
  predicate Benign(m: Message) {
    Initializes(m) || (m.Object? && m.id == Other)
  }

  /** A tools list with an expected tool. */
  predicate ListsExpected(m: Message) {
    && m.Object? && m.id == Two && !m.error && m.result.Dict? && m.result.tools.Some?
    && exists i :: 0 <= i < |m.result.tools.value| && m.result.tools.value[i].Some?
                   && m.result.tools.value[i].value in EXPECTED_TOOLS
  }

  /** Line `k` completes the handshake: an expected tools list, after benign messages one of which
      has initialized the session, unless it was initialized before. */
  ghost predicate CompletedBy(decode: seq<Byte> -> Message, initialized: bool, lines: seq<seq<Byte>>, k: nat) {
    && k < |lines| && ListsExpected(decode(lines[k]))
    && (forall i | 0 <= i < k :: Benign(decode(lines[i])))
    && (initialized || exists i :: 0 <= i < k && Initializes(decode(lines[i])))
  }

  lemma NamesExpected(items: seq<Option<string>>)
    ensures Names(items) * EXPECTED_TOOLS != {} <==>
              exists i :: 0 <= i < |items| && items[i].Some? && items[i].value in EXPECTED_TOOLS
  {
    if i :| 0 <= i < |items| && items[i].Some? && items[i].value in EXPECTED_TOOLS {
      assert items[i].value in Names(items) * EXPECTED_TOOLS;
    }
    if Names(items) * EXPECTED_TOOLS != {} {
      var name :| name in Names(items) * EXPECTED_TOOLS;
      var i :| 0 <= i < |items| && items[i].Some? && items[i].value == name;
    }
  }

  predicate Healthy(v: Verdict) {
    v.tools.Some? && v.failure.None?
  }

  lemma OneMessage(v: Verdict, m: Message)
    requires !Stopped(v)
    ensures Healthy(Handle(v, m)) <==> v.initialized && ListsExpected(m)
    ensures !Stopped(Handle(v, m)) <==> Benign(m)
    ensures Benign(m) ==> Handle(v, m).initialized == (v.initialized || Initializes(m))
  {
    if m.Object? && m.id == Two && m.result.Dict? && m.result.tools.Some? {
      NamesExpected(m.result.tools.value);
    }
  }

  lemma CompletedLater(decode: seq<Byte> -> Message, initialized: bool, lines: seq<seq<Byte>>, k: nat)
    requires lines != [] && Benign(decode(lines[0]))
    ensures CompletedBy(decode, initialized, lines, k + 1) <==>
              CompletedBy(decode, initialized || Initializes(decode(lines[0])), lines[1..], k)
  {
  }

  lemma {:induction false} HealthyFrom(decode: seq<Byte> -> Message, v: Verdict, lines: seq<seq<Byte>>)
    requires !Stopped(v)
    ensures Healthy(Fold(decode, v, lines)) <==> exists k :: CompletedBy(decode, v.initialized, lines, k)
    decreases |lines|
  {
    if lines != [] {
      var m := decode(lines[0]);
      var v1 := Handle(v, m);
      OneMessage(v, m);
      if Benign(m) {
        HealthyFrom(decode, v1, lines[1..]);
        assert !CompletedBy(decode, v.initialized, lines, 0);
        if exists k :: CompletedBy(decode, v1.initialized, lines[1..], k) {
          var k: nat :| CompletedBy(decode, v1.initialized, lines[1..], k);
          CompletedLater(decode, v.initialized, lines, k);
        }
        if exists k :: CompletedBy(decode, v.initialized, lines, k) {
          var k: nat :| CompletedBy(decode, v.initialized, lines, k);
          assert k != 0;
          CompletedLater(decode, v.initialized, lines, k - 1);
        }
      } else {
        StoppedFold(decode, v1, lines[1..]);
        forall k | CompletedBy(decode, v.initialized, lines, k) ensures k == 0 {
        }
        assert CompletedBy(decode, v.initialized, lines, 0) <==> v.initialized && ListsExpected(m);
      }
    }
  }

  /** What the handshake reports. */
  datatype Result = Pending | Failed(failure: Failure) | ExitNonzero | Complete

  /** After the loop; `exit` is what the proxy's process then says, None if it is still running. */
  function Conclude(v: Verdict, exit: Option<int>): Result {
    if v.failure.Some? then Failed(v.failure.value)
    else if v.tools.None? then Pending
    else if exit.Some? && exit.value != 0 then ExitNonzero
    else Complete
  }

  /** The handshake is complete exactly when some line lists an expected tool, an earlier one has
      initialized the session, nothing before it failed, and the proxy did not exit with an error. */
  lemma {:induction false} HealthyExactly(decode: seq<Byte> -> Message, lines: seq<seq<Byte>>, exit: Option<int>)
    ensures Conclude(Fold(decode, Unknown, lines), exit) == Complete <==>
              (exit.Some? ==> exit.value == 0) && exists k :: CompletedBy(decode, false, lines, k)
    ensures Conclude(Fold(decode, Unknown, lines), exit) == ExitNonzero <==>
              exit.Some? && exit.value != 0 && exists k :: CompletedBy(decode, false, lines, k)
  {
    HealthyFrom(decode, Unknown, lines);
  }

  // ---------------------------------------------------------------------------------
  // Which failure is reported
  // ---------------------------------------------------------------------------------

  /** Some of the first `k` lines has initialized the session. */
  ghost predicate InitializedBy(decode: seq<Byte> -> Message, lines: seq<seq<Byte>>, k: nat)
    requires k <= |lines|
  {
    exists i :: 0 <= i < k && Initializes(decode(lines[i]))
  }

  predicate AllBenign(decode: seq<Byte> -> Message, lines: seq<seq<Byte>>, k: nat)
    requires k <= |lines|
  {
    forall i | 0 <= i < k :: Benign(decode(lines[i]))
  }

  lemma InitializedStep(decode: seq<Byte> -> Message, lines: seq<seq<Byte>>, k: nat)
    requires 0 < k <= |lines|
    ensures InitializedBy(decode, lines, k) <==>
              Initializes(decode(lines[0])) || InitializedBy(decode, lines[1..], k - 1)
  {
    if i :| 0 <= i < k && Initializes(decode(lines[i])) {
      assert i > 0 ==> Initializes(decode(lines[1..][i - 1]));
    }
    if i :| 0 <= i < k - 1 && Initializes(decode(lines[1..][i])) {
      assert Initializes(decode(lines[i + 1]));
    }
  }

  lemma BenignStep(v: Verdict, m: Message)
    requires !Stopped(v) && Benign(m)
    ensures Handle(v, m) == v.(initialized := v.initialized || Initializes(m))
  {
  }

  /** After benign lines only, nothing is settled, and the session is initialized if one of them said so. */
  lemma {:induction false} BenignLines(decode: seq<Byte> -> Message, v: Verdict, lines: seq<seq<Byte>>, k: nat)
    requires k <= |lines| && !Stopped(v) && AllBenign(decode, lines, k)
    ensures Fold(decode, v, lines)
      == Fold(decode, v.(initialized := v.initialized || InitializedBy(decode, lines, k)), lines[k..])
    decreases k
  {
    if k > 0 {
      BenignStep(v, decode(lines[0]));
      InitializedStep(decode, lines, k);
      BenignLines(decode, Handle(v, decode(lines[0])), lines[1..], k - 1);
      assert lines[1..][k - 1..] == lines[k..];
    } else {
      assert lines[0..] == lines;
    }
  }

  /** Whether a response to the first or the second request reports an error or has the wrong shape. */
  predicate Rejected(m: Message)
    requires m.Object?
  {
    m.error || m.result.NotADict?
  }

  /**
    The first line that is not benign decides what is reported: a protocol error for garbage and for a
    tools list before the session is initialized, an error of the request that it answers, or a list
    without an expected tool. If it is an expected list, its names are what the verdict carries.
   */
  lemma {:induction false} FirstFailureDecides(decode: seq<Byte> -> Message, lines: seq<seq<Byte>>, k: nat)
    requires k < |lines| && AllBenign(decode, lines, k) && !Benign(decode(lines[k]))
    ensures
      var m, v := decode(lines[k]), Fold(decode, Unknown, lines);
      var initialized := InitializedBy(decode, lines, k);
      && (!m.Object? ==> v.failure == Some(ProtocolError))
      && (m.Object? && m.id == One ==> v.failure == Some(InitializeError))
      && (m.Object? && m.id == Two && !initialized ==> v.failure == Some(ProtocolError))
      && (m.Object? && m.id == Two && initialized && (Rejected(m) || m.result.tools == None) ==>
            v.failure == Some(ToolsListError))
      && (m.Object? && m.id == Two && initialized && !Rejected(m) && m.result.tools != None ==>
            && v.failure == (if ListsExpected(m) then None else Some(ExpectedToolMissing))
            && v.tools.Some?
            && forall name :: name in v.tools.value <==> Some(name) in m.result.tools.value)
  {
    var m := decode(lines[k]);
    var v := Unknown.(initialized := InitializedBy(decode, lines, k));
    BenignLines(decode, Unknown, lines, k);
    assert lines[k..][0] == lines[k];
    StoppedFold(decode, Handle(v, m), lines[k..][1..]);
    if m.Object? && m.id == Two && m.result.Dict? && m.result.tools.Some? {
      NamesExpected(m.result.tools.value);
    }
  }

  // ---------------------------------------------------------------------------------
  // Deadlines, the end of the process, and too much output
  // ---------------------------------------------------------------------------------

  lemma {:induction false} FeedThen(decode: seq<Byte> -> Message, max: nat, r: Reader, events: seq<Event>, e: Event)
    ensures FeedAll(decode, max, r, events + [e]) == Feed(decode, max, FeedAll(decode, max, r, events), e)
    decreases |events|
  {
    if events == [] {
      assert [] + [e] == [e] && [e][1..] == [];
    } else {
      assert (events + [e])[0] == events[0] && (events + [e])[1..] == events[1..] + [e];
      FeedThen(decode, max, Feed(decode, max, r, events[0]), events[1..], e);
    }
  }

  lemma {:induction false} AfterBenignOutput(decode: seq<Byte> -> Message, max: nat, events: seq<Event>)
    requires OnlyOutput(events) && Size(events) <= max && LinesFit(decode, Unknown, Stdout(events))
    requires AllBenign(decode, Lines(Stdout(events)), |Lines(Stdout(events))|)
    ensures
      var lines := Lines(Stdout(events));
      FeedAll(decode, max, Fresh, events).verdict == Verdict(InitializedBy(decode, lines, |lines|), None, None)
  {
    var lines := Lines(Stdout(events));
    OutcomeIsTheFold(decode, max, events);
    BenignLines(decode, Unknown, lines, |lines|);
    assert lines[|lines|..] == [];
  }

  /** If the deadline passes, or the process ends, while all complete lines were benign, the failure
      names the request that was not answered: the second one exactly if a line initialized the session. */
  lemma {:induction false} SilenceIsNamed(decode: seq<Byte> -> Message, max: nat, events: seq<Event>)
    requires OnlyOutput(events) && Size(events) <= max && LinesFit(decode, Unknown, Stdout(events))
    requires AllBenign(decode, Lines(Stdout(events)), |Lines(Stdout(events))|)
    ensures
      var lines := Lines(Stdout(events));
      var initialized := InitializedBy(decode, lines, |lines|);
      && FeedAll(decode, max, Fresh, events + [Deadline]).verdict.failure
        == Some(if initialized then ToolsListTimeout else InitializeTimeout)
      && FeedAll(decode, max, Fresh, events + [Ended]).verdict.failure
        == Some(if initialized then ToolsListEof else InitializeEof)
  {
    AfterBenignOutput(decode, max, events);
    FeedThen(decode, max, Fresh, events, Deadline);
    FeedThen(decode, max, Fresh, events, Ended);
  }

  lemma {:induction false} TotalIsTheSize(decode: seq<Byte> -> Message, max: nat, r: Reader, events: seq<Event>)
    requires !Stopped(FeedAll(decode, max, r, events).verdict)
    ensures FeedAll(decode, max, r, events).total == r.total + Size(events)
    decreases |events|
  {
    if events != [] {
      var r1 := Feed(decode, max, r, events[0]);
      if Stopped(r1.verdict) {
        SettledStays(decode, max, r1, events[1..]);
      } else {
        TotalIsTheSize(decode, max, r1, events[1..]);
      }
    }
  }

  /** Output of either stream counts: the chunk that takes an unsettled handshake over the limit ends it. */
  lemma {:induction false} TooMuchOutput(decode: seq<Byte> -> Message, max: nat, events: seq<Event>, e: Event)
    requires !Stopped(FeedAll(decode, max, Fresh, events).verdict) && (e.Out? || e.Err?)
    requires Size(events) + |e.chunk| > max
    ensures FeedAll(decode, max, Fresh, events + [e]).verdict.failure == Some(OutputLimit)
  {
    FeedThen(decode, max, Fresh, events, e);
    TotalIsTheSize(decode, max, Fresh, events);
  }

  // ---------------------------------------------------------------------------------
  // The condition is exact
  // ---------------------------------------------------------------------------------

  /** A stream delivered byte by byte. */
  function Bytewise(s: seq<Byte>): seq<Event> {
    if s == [] then [] else [Out([s[0]])] + Bytewise(s[1..])
  }

  lemma {:induction false} BytewiseIsTheStream(s: seq<Byte>)
    ensures Stdout(Bytewise(s)) == s && Size(Bytewise(s)) == |s| && OnlyOutput(Bytewise(s))
  {
    if s != [] {
      BytewiseIsTheStream(s[1..]);
    }
  }

  /** The fold never runs into the buffer limit. */
  lemma {:induction false} FoldHasNoLimit(decode: seq<Byte> -> Message, v: Verdict, lines: seq<seq<Byte>>)
    requires v.failure != Some(OutputLimit)
    ensures Fold(decode, v, lines).failure != Some(OutputLimit)
    decreases |lines|
  {
    if lines != [] && !Stopped(v) {
      assert Handle(v, decode(lines[0])).failure != Some(OutputLimit);
      FoldHasNoLimit(decode, Handle(v, decode(lines[0])), lines[1..]);
    }
  }

  lemma NewlineEndsTheLine(decode: seq<Byte> -> Message, v: Verdict, line: seq<Byte>, rest: seq<Byte>)
    requires NEWLINE !in line && !Stopped(v) && |line| <= BUFFER_LIMIT
    ensures Drain(decode, v, line + [NEWLINE]) == (Handle(v, decode(line)), [])
    ensures
      var v' := Handle(v, decode(line));
      LinesFit(decode, v, line + [NEWLINE] + rest) <==> (Stopped(v') || LinesFit(decode, v', rest))
  {
    FirstLine(line, rest);
    FirstLine(line, []);
    var whole, buffer := line + [NEWLINE] + rest, line + [NEWLINE];
    assert buffer + [] == buffer;
    assert buffer[..|line|] == line && buffer[|line| + 1..] == [];
    assert whole[..|line|] == line && whole[|line| + 1..] == rest;
  }

  /** Byte by byte, an overlong line is refused as soon as the buffer is full. */
  lemma {:induction false} OverlongIsRefused(decode: seq<Byte> -> Message, max: nat, r: Reader, s: seq<Byte>)
    requires !Stopped(r.verdict) && r.total + |s| <= max && NEWLINE !in r.buffer && |r.buffer| <= BUFFER_LIMIT
    requires !LinesFit(decode, r.verdict, r.buffer + s)
    ensures FeedAll(decode, max, r, Bytewise(s)).verdict.failure == Some(OutputLimit)
    decreases |s|
  {
    assert s != [] by {
      assert r.buffer + [] == r.buffer;
    }
    var events := Bytewise(s);
    var buffer := r.buffer + [s[0]];
    assert events[0] == Out([s[0]]) && events[1..] == Bytewise(s[1..]);
    assert r.buffer + s == buffer + s[1..];
    var r1 := Feed(decode, max, r, events[0]);
    if s[0] == NEWLINE {
      NewlineEndsTheLine(decode, r.verdict, r.buffer, s[1..]);
      assert [] + s[1..] == s[1..];
      OverlongIsRefused(decode, max, r1, s[1..]);
    } else {
      assert NEWLINE !in buffer;
      if |buffer| > BUFFER_LIMIT {
        SettledStays(decode, max, r1, events[1..]);
      } else {
        OverlongIsRefused(decode, max, r1, s[1..]);
      }
    }
  }

  /** Every way of delivering the stream yields the fold. */
  ghost predicate EveryDeliveryFolds(decode: seq<Byte> -> Message, max: nat, s: seq<Byte>) {
    forall events | OnlyOutput(events) && Size(events) <= max && Stdout(events) == s ::
      FeedAll(decode, max, Fresh, events).verdict == Fold(decode, Unknown, Lines(s))
  }

  /** The outcome is independent of the chunks exactly when every line reached fits the buffer. */
  lemma {:induction false} FoldExactlyWhenLinesFit(decode: seq<Byte> -> Message, max: nat, s: seq<Byte>)
    requires |s| <= max
    ensures EveryDeliveryFolds(decode, max, s) <==> LinesFit(decode, Unknown, s)
  {
    if LinesFit(decode, Unknown, s) {
      forall events | OnlyOutput(events) && Size(events) <= max && Stdout(events) == s
        ensures FeedAll(decode, max, Fresh, events).verdict == Fold(decode, Unknown, Lines(s))
      {
        OutcomeIsTheFold(decode, max, events);
      }
    } else {
      assert [] + s == s;
      OverlongIsRefused(decode, max, Fresh, s);
      FoldHasNoLimit(decode, Unknown, Lines(s));
      BytewiseIsTheStream(s);
      assert !EveryDeliveryFolds(decode, max, s);
    }
  }

  // ---------------------------------------------------------------------------------
  // The loops as the program runs them
  // ---------------------------------------------------------------------------------

  class OutputReader {
    var buffer: seq<Byte>
    var total: nat
    var verdict: Verdict

    constructor ()
      ensures State() == Fresh
    {
      buffer, total, verdict := [], 0, Unknown;
    }

    function State(): Reader
      reads this
    {
      Reader(buffer, total, verdict)
    }

    /** Takes complete lines from the growing and shrinking buffer until one settles the handshake. */
    method TakeLines(decode: seq<Byte> -> Message)
      requires !Stopped(verdict)
      modifies this`buffer, this`verdict
      ensures (verdict, buffer) == Drain(decode, old(verdict), old(buffer))
    {
      while NEWLINE in buffer && !Stopped(verdict)
        invariant Drain(decode, old(verdict), old(buffer))
          == (if Stopped(verdict) then (verdict, buffer) else Drain(decode, verdict, buffer))
        decreases |buffer|
      {
        var n := LineEnd(buffer);
        var line := buffer[..n];
        buffer := buffer[n + 1..];
        verdict := Handle(verdict, decode(line));
      }
    }

    method Receive(decode: seq<Byte> -> Message, max: nat, e: Event)
      requires !Stopped(verdict)
      modifies this
      ensures State() == Feed(decode, max, old(State()), e)
    {
      match e
      case Deadline =>
        verdict := Fail(verdict, if verdict.initialized then ToolsListTimeout else InitializeTimeout);
      case Ended =>
        verdict := Fail(verdict, if verdict.initialized then ToolsListEof else InitializeEof);
      case Err(chunk) =>
        total := total + |chunk|;
        if total > max {
          verdict := Fail(verdict, OutputLimit);
        }
      case Out(chunk) =>
        total := total + |chunk|;
        if total > max {
          verdict := Fail(verdict, OutputLimit);
          return;
        }
        buffer := buffer + chunk;
        if |buffer| > BUFFER_LIMIT && NEWLINE !in buffer {
          verdict := Fail(verdict, OutputLimit);
          return;
        }
        TakeLines(decode);
    }

    /** The outer loop: reads until the handshake is settled or nothing more is observed. */
    method Read(decode: seq<Byte> -> Message, max: nat, events: seq<Event>)
      modifies this
      ensures State() == FeedAll(decode, max, old(State()), events)
    {
      var i := 0;
      while i < |events| && !Stopped(verdict)
        invariant 0 <= i <= |events|
        invariant FeedAll(decode, max, State(), events[i..]) == FeedAll(decode, max, old(State()), events)
      {
        assert events[i..][1..] == events[i + 1..];
        Receive(decode, max, events[i]);
        i := i + 1;
      }
      if Stopped(verdict) {
        SettledStays(decode, max, State(), events[i..]);
      }
    }
  }
}

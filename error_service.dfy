/**
 * The real-time error service: captured errors wait in a FIFO queue that is
 * drained by one processing loop, each error is dispatched by what its
 * message mentions, a failed handling is retried up to three more times, and
 * every captured error or warning is appended to a stored log that keeps the
 * newest 100 entries.
 */
module ErrorService {
  import opened Wrappers
  import opened Text

  const MaxRetries: nat := 3
  const MaxLogs: nat := 100

  datatype Severity = Error | Warning

  /** A captured error or warning; the id, timestamp and metadata it also carries are not modelled. */
  datatype ErrorRecord = ErrorRecord(source: string, message: string, severity: Severity, attempts: nat)

  function Min(a: int, b: int): int {
    if a <= b then a else b
  }

  // ---------------------------------------------------------------------
  // Dispatch
  // ---------------------------------------------------------------------

  /** The handler `handleError` picks. */
  datatype Category = Location | Network | Map | State | Storage | Generic

  /**
   * The words each detector's case-insensitive pattern looks for. The
   * alternatives `geolocation`, `permission.*location`, `undefined.*state`
   * and `asyncstorage` are left out: they match only text that a shorter
   * alternative already matches (see `LongerAlternativesRedundant`).
   */
  const LocationWords: seq<string> := ["location", "gps"]
  const NetworkWords: seq<string> := ["network", "fetch", "request", "connection", "timeout", "cors"]
  const MapWords: seq<string> := ["map", "route", "marker", "polyline", "directions"]
  const StateWords: seq<string> := ["state", "context", "reducer", "dispatch"]
  const StorageWords: seq<string> := ["storage", "persist", "save", "load"]

  /** The message mentions one of the words, in any letter case. */
  ghost predicate Mentions(message: string, words: seq<string>) {
    exists i :: 0 <= i < |words| && Contains(ToLower(message), words[i])
  }

  /** A search for w in s from position `from` on, as the pattern match runs it. */
  function Finds(s: string, w: string, from: nat): bool
    decreases |s| + 1 - from
  {
    if from + |w| > |s| then false
    else s[from..from + |w|] == w || Finds(s, w, from + 1)
  }

  lemma {:induction false} FindsMeans(s: string, w: string, from: nat)
    ensures Finds(s, w, from) <==> IndexOf(s, w, from) != -1
    decreases |s| + 1 - from
  {
    if from + |w| <= |s| {
      FindsMeans(s, w, from + 1);
    }
  }

  /** The case-insensitive test of one detector: does the lower-cased message include one of the words. */
  function MentionsAny(message: string, words: seq<string>): bool {
    if words == [] then false
    else Finds(ToLower(message), words[0], 0) || MentionsAny(message, words[1..])
  }

  lemma {:induction false} MentionsAnyMeans(message: string, words: seq<string>)
    ensures MentionsAny(message, words) <==> Mentions(message, words)
  {
    if words != [] {
      FindsMeans(ToLower(message), words[0], 0);
      assert Finds(ToLower(message), words[0], 0) <==> Includes(ToLower(message), words[0]);
      MentionsAnyMeans(message, words[1..]);
      assert forall i :: 1 <= i < |words| ==> words[i] == words[1..][i - 1];
      if Mentions(message, words[1..]) {
        var i :| 0 <= i < |words[1..]| && Contains(ToLower(message), words[1..][i]);
        assert Contains(ToLower(message), words[i + 1]);
      }
    }
  }

  /** `a.*b`: b occurs somewhere after an occurrence of a. */
  ghost predicate ContainsInOrder(s: string, a: string, b: string) {
    exists i, j :: OccursAt(s, a, i) && OccursAt(s, b, j) && i + |a| <= j
  }

  /** The alternatives left out of the word lists never match where the kept ones do not. */
  lemma LongerAlternativesRedundant(s: string)
    ensures Contains(s, "geolocation") ==> Contains(s, "location")
    ensures Contains(s, "asyncstorage") ==> Contains(s, "storage")
    ensures ContainsInOrder(s, "permission", "location") ==> Contains(s, "location")
    ensures ContainsInOrder(s, "undefined", "state") ==> Contains(s, "state")
  {
    if Contains(s, "geolocation") {
      var i :| OccursAt(s, "geolocation", i);
      assert s[i + 3..i + 11] == s[i..i + 11][3..];
      assert OccursAt(s, "location", i + 3);
    }
    if Contains(s, "asyncstorage") {
      var i :| OccursAt(s, "asyncstorage", i);
      assert s[i + 5..i + 12] == s[i..i + 12][5..];
      assert OccursAt(s, "storage", i + 5);
    }
  }

  /** The detectors `handleError` tries, in the order it tries them. */
  const Detectors: seq<(Category, seq<string>)> :=
    [(Location, LocationWords), (Network, NetworkWords), (Map, MapWords),
     (State, StateWords), (Storage, StorageWords)]

  /** The category of the first detector whose words the message mentions. */
  function FirstMatch(message: string, detectors: seq<(Category, seq<string>)>): Category
    decreases |detectors|, 1
  {
    if detectors == [] then Generic else TryDetector(message, detectors)
  }

  /** The first detector's test, and the rest of the table when it does not match. */
  function TryDetector(message: string, detectors: seq<(Category, seq<string>)>): Category
    requires detectors != []
    decreases |detectors|, 0
  {
    if MentionsAny(message, detectors[0].1) then detectors[0].0
    else FirstMatch(message, detectors[1..])
  }

  /**
   * `handleError`: location before network before map before state before
   * storage; a message none of them mentions goes to the generic handler.
   */
  function Classify(message: string): Category
  {
    FirstMatch(message, Detectors)
  }

  /** The detector table read out: the chain of tests `handleError` makes. */
  lemma ClassifyInOrder(message: string)
    ensures Classify(message)
         == if MentionsAny(message, LocationWords) then Location
            else if MentionsAny(message, NetworkWords) then Network
            else if MentionsAny(message, MapWords) then Map
            else if MentionsAny(message, StateWords) then State
            else if MentionsAny(message, StorageWords) then Storage
            else Generic
  {
    var d1 := [(Network, NetworkWords), (Map, MapWords), (State, StateWords), (Storage, StorageWords)];
    var d2 := [(Map, MapWords), (State, StateWords), (Storage, StorageWords)];
    var d3 := [(State, StateWords), (Storage, StorageWords)];
    var d4 := [(Storage, StorageWords)];
    assert Detectors[1..] == d1 && d1[1..] == d2 && d2[1..] == d3 && d3[1..] == d4 && d4[1..] == [];
    assert FirstMatch(message, d4) == TryDetector(message, d4)
        == if MentionsAny(message, StorageWords) then Storage else Generic;
    assert FirstMatch(message, d3) == TryDetector(message, d3)
        == if MentionsAny(message, StateWords) then State else FirstMatch(message, d4);
    assert FirstMatch(message, d2) == TryDetector(message, d2)
        == if MentionsAny(message, MapWords) then Map else FirstMatch(message, d3);
    assert FirstMatch(message, d1) == TryDetector(message, d1)
        == if MentionsAny(message, NetworkWords) then Network else FirstMatch(message, d2);
    assert Classify(message) == TryDetector(message, Detectors)
        == if MentionsAny(message, LocationWords) then Location else FirstMatch(message, d1);
  }

  /** The dispatch order: each handler takes exactly the messages no earlier detector claims. */
  lemma ClassifyPriority(message: string)
    ensures Classify(message) == Location <==> Mentions(message, LocationWords)
    ensures Classify(message) == Network <==> !Mentions(message, LocationWords) && Mentions(message, NetworkWords)
    ensures Classify(message) == Map <==> (!Mentions(message, LocationWords) && !Mentions(message, NetworkWords)
                           && Mentions(message, MapWords))
    ensures Classify(message) == State <==> (!Mentions(message, LocationWords) && !Mentions(message, NetworkWords)
                             && !Mentions(message, MapWords) && Mentions(message, StateWords))
    ensures Classify(message) == Storage <==> (!Mentions(message, LocationWords) && !Mentions(message, NetworkWords)
                               && !Mentions(message, MapWords) && !Mentions(message, StateWords)
                               && Mentions(message, StorageWords))
    ensures Classify(message) == Generic <==> (!Mentions(message, LocationWords) && !Mentions(message, NetworkWords)
                               && !Mentions(message, MapWords) && !Mentions(message, StateWords)
                               && !Mentions(message, StorageWords))
  {
    ClassifyInOrder(message);
    MentionsAnyMeans(message, LocationWords);
    MentionsAnyMeans(message, NetworkWords);
    MentionsAnyMeans(message, MapWords);
    MentionsAnyMeans(message, StateWords);
    MentionsAnyMeans(message, StorageWords);
  }


  /** A message that mentions a location problem goes to the location handler, whatever else it mentions. */
  lemma LocationFirst(before: string, after: string)
    ensures Classify(before + "GPS" + after) == Location
  {
    var s := before + "GPS" + after;
    var t := ToLower(s);
    ClassifyPriority(s);
    assert t[|before|..|before| + 3] == "gps" by {
      assert s[|before|..|before| + 3] == "GPS";
    }
    assert OccursAt(t, LocationWords[1], |before|);
  }

  // ---------------------------------------------------------------------
  // The stored log
  // ---------------------------------------------------------------------

  /** `logToStorage`: append, then drop the oldest entries beyond 100. */
  function KeepNewest(logs: seq<ErrorRecord>, e: ErrorRecord): (r: seq<ErrorRecord>)
    ensures |r| == Min(|logs| + 1, MaxLogs)
    ensures r[|r| - 1] == e
  {
    var all := logs + [e];
    if |all| > MaxLogs then all[|all| - MaxLogs..] else all
  }

  /** The kept log is a suffix of the old log and the new entry; nothing is dropped below 100 entries. */
  lemma KeepNewestSuffix(logs: seq<ErrorRecord>, e: ErrorRecord)
    ensures KeepNewest(logs, e) == (logs + [e])[|logs| + 1 - |KeepNewest(logs, e)|..]
    ensures |logs| < MaxLogs ==> KeepNewest(logs, e) == logs + [e]
  {
  }

  /** Writing a then b is writing a + b. */
  lemma {:induction false} LogAllAppend(logs: seq<ErrorRecord>, a: seq<ErrorRecord>, b: seq<ErrorRecord>)
    ensures LogAll(logs, a + b) == LogAll(LogAll(logs, a), b)
    decreases |a|
  {
    if a == [] {
      assert a + b == b;
    } else {
      LogAllAppend(KeepNewest(logs, a[0]), a[1..], b);
      assert (a + b)[0] == a[0] && (a + b)[1..] == a[1..] + b;
    }
  }


  /** The log after writing each of `es` in turn. */
  function LogAll(logs: seq<ErrorRecord>, es: seq<ErrorRecord>): seq<ErrorRecord>
    decreases |es|
  {
    if es == [] then logs else LogAll(KeepNewest(logs, es[0]), es[1..])
  }

  /** The newest (up to) 100 entries of a history. */
  function Window(s: seq<ErrorRecord>): seq<ErrorRecord> {
    if |s| <= MaxLogs then s else s[|s| - MaxLogs..]
  }

  /** Keeping the newest 100, then adding more and keeping the newest 100, is keeping the newest 100 of all. */
  lemma WindowAppend(s: seq<ErrorRecord>, rest: seq<ErrorRecord>)
    ensures Window(Window(s) + rest) == Window(s + rest)
  {
    if |s| > MaxLogs {
      var w := Window(s);
      var a, b := w + rest, s + rest;
      assert a == b[|s| - MaxLogs..];
      if |a| > MaxLogs {
        assert a[|a| - MaxLogs..] == b[|b| - MaxLogs..];
      }
    }
  }

  lemma KeepNewestWindow(logs: seq<ErrorRecord>, e: ErrorRecord)
    ensures KeepNewest(logs, e) == Window(logs + [e])
  {
  }

  /** However many entries are written, the log is exactly the newest 100 of all that were ever written. */
  lemma {:induction false} LogAllWindow(logs: seq<ErrorRecord>, es: seq<ErrorRecord>)
    requires |logs| <= MaxLogs
    ensures LogAll(logs, es) == Window(logs + es)
    ensures |LogAll(logs, es)| <= MaxLogs
    decreases |es|
  {
    if es != [] {
      var x, rest := es[0], es[1..];
      var kept := KeepNewest(logs, x);
      LogAllWindow(kept, rest);
      calc {
        LogAll(logs, es);
        LogAll(kept, rest);
        Window(kept + rest);
        { KeepNewestWindow(logs, x); }
        Window(Window(logs + [x]) + rest);
        { WindowAppend(logs + [x], rest); }
        Window((logs + [x]) + rest);
        { assert (logs + [x]) + rest == logs + es; }
        Window(logs + es);
      }
    }
  }

  // ---------------------------------------------------------------------
  // The queue
  // ---------------------------------------------------------------------

  /** What the console override captures when a handler throws with the given text. */
  function HandlingFailed(reason: string): (e: ErrorRecord)
    ensures e.source == "console" && e.severity == Error && e.attempts == 0
  {
    ErrorRecord("console", "Error handling failed: " + reason, Error, 0)
  }

  /**
   * What one handling writes to the log: a throwing handler's console record;
   * on success, the record itself when the generic handler took it
   * (`handleGenericError` logs it for analysis), and nothing otherwise.
   */
  function Written(e: ErrorRecord, outcome: Option<string>): seq<ErrorRecord> {
    if outcome.Some? then [HandlingFailed(outcome.value)]
    else if Classify(e.message) == Generic then [e]
    else []
  }

  /** Writing what one handling writes. */
  lemma WrittenLogged(logs: seq<ErrorRecord>, e: ErrorRecord, outcome: Option<string>)
    ensures LogAll(logs, Written(e, outcome))
         == if outcome.Some? then KeepNewest(logs, HandlingFailed(outcome.value))
            else if Classify(e.message) == Generic then KeepNewest(logs, e)
            else logs
  {
    var w := Written(e, outcome);
    if w != [] {
      assert w[1..] == [];
    }
  }

  /** The log writes of the handlings of `handled`, the first being handling k of the run. */
  function HandlingWrites(handled: seq<ErrorRecord>, outcomes: seq<Option<string>>, k: nat): seq<ErrorRecord>
    decreases |handled|
  {
    if handled == [] then []
    else Written(handled[0], OutcomeAt(outcomes, k)) + HandlingWrites(handled[1..], outcomes, k + 1)
  }

  /** The outcome of the k-th handling of a run; handlings past the given outcomes succeed. */
  function OutcomeAt(outcomes: seq<Option<string>>, k: nat): (o: Option<string>)
    ensures k >= |outcomes| ==> o.None?
  {
    if k < |outcomes| then outcomes[k] else None
  }

  /**
   * What goes back on the queue after one handling: nothing on success; on a
   * failure the console override's new record, then the failed record with
   * one more attempt while it has retries left.
   */
  function Requeued(e: ErrorRecord, outcome: Option<string>): (r: seq<ErrorRecord>)
    ensures outcome.None? ==> r == []
    ensures outcome.Some? ==> |r| >= 1 && r[0] == HandlingFailed(outcome.value)
    ensures |r| <= 2
    ensures |r| == 2 <==> outcome.Some? && e.attempts < MaxRetries
    ensures |r| == 2 ==> r[1] == e.(attempts := e.attempts + 1)
    ensures e.attempts <= MaxRetries ==> forall i :: 0 <= i < |r| ==> r[i].attempts <= MaxRetries
  {
    if outcome.None? then []
    else [HandlingFailed(outcome.value)] + (if e.attempts < MaxRetries then [e.(attempts := e.attempts + 1)] else [])
  }

  /** The state one run of the processing loop works on: the queue, and the records handled so far. */
  datatype Drained = Drained(queue: seq<ErrorRecord>, seen: seq<ErrorRecord>)

  /** One turn of the loop: handle the head of the queue with the given outcome. */
  function Turn(d: Drained, outcome: Option<string>): Drained
    requires d.queue != []
  {
    Drained(d.queue[1..] + Requeued(d.queue[0], outcome), d.seen + [d.queue[0]])
  }

  /** The loop of `processErrorQueue` from its k-th handling on, run until the queue is empty. */
  function Drain(d: Drained, outcomes: seq<Option<string>>, k: nat): (r: Drained)
    ensures r.queue == []
    decreases (if k < |outcomes| then |outcomes| - k else 0), |d.queue|
  {
    if d.queue == [] then d else Drain(Turn(d, OutcomeAt(outcomes, k)), outcomes, k + 1)
  }
  /** The log once the loop, run from d on, has finished, starting from `logs`. */
  function LogsAfter(d: Drained, logs: seq<ErrorRecord>, outcomes: seq<Option<string>>, k: nat): seq<ErrorRecord>
    decreases (if k < |outcomes| then |outcomes| - k else 0), |d.queue|, 1
  {
    if d.queue == [] then logs else LogsAfterTurn(d, logs, outcomes, k)
  }

  /** One turn's writes, then the rest of the drain. */
  function LogsAfterTurn(d: Drained, logs: seq<ErrorRecord>, outcomes: seq<Option<string>>, k: nat): seq<ErrorRecord>
    requires d.queue != []
    decreases (if k < |outcomes| then |outcomes| - k else 0), |d.queue|, 0
  {
    var o := OutcomeAt(outcomes, k);
    LogsAfter(Turn(d, o), LogAll(logs, Written(d.queue[0], o)), outcomes, k + 1)
  }


  /** One turn of the loop, as the run from d on sees it. */
  lemma LoopStep(d: Drained, logs: seq<ErrorRecord>, outcomes: seq<Option<string>>, k: nat)
    requires d.queue != []
    ensures Drain(d, outcomes, k) == Drain(Turn(d, OutcomeAt(outcomes, k)), outcomes, k + 1)
    ensures LogsAfter(d, logs, outcomes, k)
         == LogsAfter(Turn(d, OutcomeAt(outcomes, k)), LogAll(logs, Written(d.queue[0], OutcomeAt(outcomes, k))), outcomes, k + 1)
  {
  }

  /** First in, first out: everything waiting is handled, in queue order, before anything queued later. */
  lemma {:induction false} DrainFifo(d: Drained, outcomes: seq<Option<string>>, k: nat)
    ensures d.seen + d.queue <= Drain(d, outcomes, k).seen
    decreases (if k < |outcomes| then |outcomes| - k else 0), |d.queue|
  {
    if d.queue != [] {
      var o := OutcomeAt(outcomes, k);
      var t := Turn(d, o);
      var a := d.seen + d.queue;
      var b := t.seen + t.queue;
      assert b == a + Requeued(d.queue[0], o) by {
        assert t.seen + t.queue == d.seen + [d.queue[0]] + (d.queue[1..] + Requeued(d.queue[0], o));
        assert d.queue == [d.queue[0]] + d.queue[1..];
      }
      DrainFifo(t, outcomes, k + 1);
      var r := Drain(t, outcomes, k + 1);
      assert r == Drain(d, outcomes, k);
      assert a <= b;
      assert b <= r.seen;
    }
  }

  /**
   * Every waiting record is handled at least once, and each failure adds at
   * most two handlings (the console's record and one retry), so a run ends.
   */
  lemma {:induction false} DrainCount(d: Drained, outcomes: seq<Option<string>>, k: nat)
    ensures |d.seen| + |d.queue| <= |Drain(d, outcomes, k).seen|
    ensures |Drain(d, outcomes, k).seen| <= |d.seen| + |d.queue| + 2 * (if k < |outcomes| then |outcomes| - k else 0)
    decreases (if k < |outcomes| then |outcomes| - k else 0), |d.queue|
  {
    if d.queue != [] {
      DrainCount(Turn(d, OutcomeAt(outcomes, k)), outcomes, k + 1);
    }
  }

  /** No record is handled after its third retry. */
  lemma {:induction false} DrainAttempts(d: Drained, outcomes: seq<Option<string>>, k: nat)
    requires forall i :: 0 <= i < |d.queue| ==> d.queue[i].attempts <= MaxRetries
    requires forall i :: 0 <= i < |d.seen| ==> d.seen[i].attempts <= MaxRetries
    ensures forall i :: 0 <= i < |Drain(d, outcomes, k).seen| ==> Drain(d, outcomes, k).seen[i].attempts <= MaxRetries
    decreases (if k < |outcomes| then |outcomes| - k else 0), |d.queue|
  {
    if d.queue != [] {
      var t := Turn(d, OutcomeAt(outcomes, k));
      assert forall i :: 0 <= i < |d.queue| - 1 ==> t.queue[i] == d.queue[i + 1];
      DrainAttempts(t, outcomes, k + 1);
    }
  }

  /**
   * The log ends up holding, after what it held, the writes of the run's
   * handlings in order: each failure's console record and each record the
   * generic handler took.
   */
  lemma {:induction false} DrainLogs(d: Drained, logs: seq<ErrorRecord>, outcomes: seq<Option<string>>, k: nat)
    ensures |d.seen| <= |Drain(d, outcomes, k).seen|
    ensures LogsAfter(d, logs, outcomes, k) == LogAll(logs, HandlingWrites(Drain(d, outcomes, k).seen[|d.seen|..], outcomes, k))
    decreases (if k < |outcomes| then |outcomes| - k else 0), |d.queue|
  {
    if d.queue == [] {
      assert Drain(d, outcomes, k).seen[|d.seen|..] == [];
    } else {
      var o := OutcomeAt(outcomes, k);
      var t := Turn(d, o);
      var x := d.queue[0];
      var w := Written(x, o);
      LoopStep(d, logs, outcomes, k);
      DrainLogs(t, LogAll(logs, w), outcomes, k + 1);
      DrainFifo(t, outcomes, k + 1);
      var seen := Drain(t, outcomes, k + 1).seen;
      var tail := seen[|t.seen|..];
      SeenFrom(d.seen, x, seen);
      HandlingWritesCons(x, tail, outcomes, k);
      LogAllAppend(logs, w, HandlingWrites(tail, outcomes, k + 1));
    }
  }

  /** Once `before + [x]` has been seen, what was seen after `before` starts with x. */
  lemma SeenFrom(before: seq<ErrorRecord>, x: ErrorRecord, seen: seq<ErrorRecord>)
    requires before + [x] <= seen
    ensures seen[|before|..] == [x] + seen[|before| + 1..]
  {
    assert seen[|before|] == x;
  }

  lemma HandlingWritesCons(x: ErrorRecord, tail: seq<ErrorRecord>, outcomes: seq<Option<string>>, k: nat)
    ensures HandlingWrites([x] + tail, outcomes, k) == Written(x, OutcomeAt(outcomes, k)) + HandlingWrites(tail, outcomes, k + 1)
  {
    assert ([x] + tail)[1..] == tail;
  }

  /**
   * `captureError` of a generic record into an idle, empty queue whose handling
   * succeeds issues two writes of the record: one by the generic handler, one
   * by `captureError` itself. Here the writes run one after the other. In the
   * source both read the stored log before either writes it back, so the
   * stored log gains the record only once.
   */
  lemma GenericCaptureWritesTwice(logs: seq<ErrorRecord>, e: ErrorRecord)
    requires Classify(e.message) == Generic
    ensures KeepNewest(LogsAfter(Drained([e], []), logs, [], 0), e) == KeepNewest(KeepNewest(logs, e), e)
  {
    var d := Drained([e], []);
    WrittenLogged(logs, e, None);
    assert Turn(d, None).queue == [];
    assert LogsAfter(d, logs, [], 0) == LogsAfter(Turn(d, None), LogAll(logs, Written(e, None)), [], 1);
  }

  class RealtimeErrorService {
    var queue: seq<ErrorRecord>
    var isProcessing: bool
    /** The stored 'errorLogs' list. */
    var logs: seq<ErrorRecord>
    /** Every record given to `handleError`, in order. */
    ghost var handled: seq<ErrorRecord>

    /** Only records with attempts left to count wait in the queue. */
    predicate Valid()
      reads this
    {
      forall i :: 0 <= i < |queue| ==> queue[i].attempts <= MaxRetries
    }

    /** The singleton at start-up, over whatever log storage already holds. */
    constructor(stored: seq<ErrorRecord>)
      ensures Valid()
      ensures queue == [] && !isProcessing && logs == stored && handled == []
    {
      queue := [];
      isProcessing := false;
      logs := stored;
      handled := [];
    }

    method LogToStorage(e: ErrorRecord)
      modifies this
      ensures logs == KeepNewest(old(logs), e)
      ensures queue == old(queue) && isProcessing == old(isProcessing) && handled == old(handled)
    {
      var all := logs + [e];
      if |all| > MaxLogs {
        all := all[|all| - MaxLogs..];
      }
      logs := all;
    }

    /** `captureWarning`: logged, never queued. */
    method CaptureWarning(source: string, message: string)
      modifies this
      ensures logs == KeepNewest(old(logs), ErrorRecord(source, message, Warning, 0))
      ensures queue == old(queue) && isProcessing == old(isProcessing) && handled == old(handled)
    {
      LogToStorage(ErrorRecord(source, message, Warning, 0));
    }

    /**
     * One turn of the processing loop: the head of the queue is handled with
     * the given outcome; a failure is captured as a new error (queued and
     * logged) and the failed record is queued again while it has retries left;
     * a record the generic handler takes is logged by it.
     */
    method HandleNext(outcome: Option<string>) returns (e: ErrorRecord)
      requires Valid() && queue != []
      modifies this
      ensures Valid()
      ensures e == old(queue[0])
      ensures queue == old(queue[1..]) + Requeued(e, outcome)
      ensures handled == old(handled) + [e]
      ensures outcome.Some? ==> logs == KeepNewest(old(logs), HandlingFailed(outcome.value))
      ensures outcome.None? && Classify(e.message) == Generic ==> logs == KeepNewest(old(logs), e)
      ensures outcome.None? && Classify(e.message) != Generic ==> logs == old(logs)
      ensures isProcessing == old(isProcessing)
    {
      e := queue[0];
      queue := queue[1..];
      handled := handled + [e];
      ghost var before := logs;
      if outcome.Some? {
        HandlingThrew(e, outcome.value);
      } else if Classify(e.message) == Generic {
        LogToStorage(e);
      }
    }

    /**
     * A handler threw: the console override queues and stores the failure,
     * and the record goes back on the queue until it has been retried three times.
     */
    method HandlingThrew(e: ErrorRecord, reason: string)
      requires Valid() && e.attempts <= MaxRetries
      modifies this
      ensures Valid()
      ensures queue == old(queue) + Requeued(e, Some(reason))
      ensures logs == KeepNewest(old(logs), HandlingFailed(reason))
      ensures handled == old(handled) && isProcessing == old(isProcessing)
    {
      var note := HandlingFailed(reason);
      queue := queue + [note];
      LogToStorage(note);
      if e.attempts < MaxRetries {
        queue := queue + [e.(attempts := e.attempts + 1)];
      }
    }

    /** One pass of the loop body: handling k of the run, as the run from here on sees it. */
    method RunTurn(outcomes: seq<Option<string>>, k: nat, ghost seen: seq<ErrorRecord>) returns (e: ErrorRecord)
      requires Valid() && isProcessing && queue != []
      modifies this
      ensures Valid() && isProcessing
      ensures e == old(queue[0]) && handled == old(handled) + [e]
      ensures Drain(Drained(queue, seen + [e]), outcomes, k + 1) == Drain(Drained(old(queue), seen), outcomes, k)
      ensures LogsAfter(Drained(queue, seen + [e]), logs, outcomes, k + 1) == LogsAfter(Drained(old(queue), seen), old(logs), outcomes, k)
      ensures k >= |outcomes| ==> |queue| < |old(queue)|
    {
      var outcome := OutcomeAt(outcomes, k);
      ghost var cur := Drained(queue, seen);
      ghost var curLogs := logs;
      e := HandleNext(outcome);
      LoopStep(cur, curLogs, outcomes, k);
      WrittenLogged(curLogs, e, outcome);
      assert Drained(queue, seen + [e]) == Turn(cur, outcome);
    }

    /**
     * `processErrorQueue`, with `outcomes[k]` the result of the k-th
     * handling of this run (handlings past the end succeed). A handling that
     * throws is reported through the overridden `console.error`, which
     * captures a new error: it is queued and logged, and its own call of this
     * loop returns at once because the loop is running. The failed record is
     * then queued again with one more attempt, unless it has used all three
     * retries. The retry delay is not modelled.
     */
    method ProcessErrorQueue(outcomes: seq<Option<string>>)
      requires Valid()
      modifies this
      ensures Valid() && |old(handled)| <= |handled|
      ensures old(isProcessing) || old(queue) == [] ==>
                queue == old(queue) && isProcessing == old(isProcessing)
                && logs == old(logs) && handled == old(handled)
      ensures !old(isProcessing) ==>
                queue == [] && !isProcessing
                && Drained(queue, handled[|old(handled)|..]) == Drain(Drained(old(queue), []), outcomes, 0)
                && logs == LogsAfter(Drained(old(queue), []), old(logs), outcomes, 0)
    {
      if isProcessing {
        return;
      }
      if queue == [] {
        assert handled[|old(handled)|..] == [];
        return;
      }
      isProcessing := true;
      ghost var seen := RunQueue(outcomes);
      isProcessing := false;
      assert handled[|old(handled)|..] == seen;
    }

    /** The loop of `processErrorQueue`: one turn per queued record, until the queue is empty. */
    method RunQueue(outcomes: seq<Option<string>>) returns (ghost seen: seq<ErrorRecord>)
      requires Valid() && isProcessing
      modifies this
      ensures Valid() && isProcessing && queue == []
      ensures handled == old(handled) + seen
      ensures Drained(queue, seen) == Drain(Drained(old(queue), []), outcomes, 0)
      ensures logs == LogsAfter(Drained(old(queue), []), old(logs), outcomes, 0)
    {
      ghost var start := Drained(queue, []);
      seen := [];
      var k := 0;
      while queue != []
        invariant Valid() && isProcessing
        invariant handled == old(handled) + seen
        invariant Drain(Drained(queue, seen), outcomes, k) == Drain(start, outcomes, 0)
        invariant LogsAfter(Drained(queue, seen), logs, outcomes, k) == LogsAfter(start, old(logs), outcomes, 0)
        decreases (if k < |outcomes| then |outcomes| - k else 0), |queue|
      {
        var e := RunTurn(outcomes, k, seen);
        seen := seen + [e];
        k := k + 1;
      }
    }

    /**
     * `captureError`: the record is queued and the queue processed, then the
     * record is written to the log. The source does not await the processing,
     * so its own write can be issued while the first handling is still in
     * flight; here the whole drain runs first.
     */
    method CaptureError(source: string, message: string, outcomes: seq<Option<string>>)
      requires Valid()
      modifies this
      ensures Valid()
      ensures logs != [] && logs[|logs| - 1] == ErrorRecord(source, message, Error, 0)
      ensures |old(handled)| <= |handled|
      ensures old(isProcessing) ==> queue == old(queue) + [ErrorRecord(source, message, Error, 0)]
      ensures !old(isProcessing) ==>
                queue == [] && !isProcessing
                && old(queue) + [ErrorRecord(source, message, Error, 0)] <= handled[|old(handled)|..]
      ensures old(isProcessing) ==> logs == KeepNewest(old(logs), ErrorRecord(source, message, Error, 0))
      ensures !old(isProcessing) ==>
                logs == KeepNewest(LogsAfter(Drained(old(queue) + [ErrorRecord(source, message, Error, 0)], []),
                                             old(logs), outcomes, 0),
                                   ErrorRecord(source, message, Error, 0))
    {
      var e := ErrorRecord(source, message, Error, 0);
      queue := queue + [e];
      ghost var start := Drained(queue, []);
      ProcessErrorQueue(outcomes);
      if !old(isProcessing) {
        DrainFifo(start, outcomes, 0);
      }
      LogToStorage(e);
    }
  }
}

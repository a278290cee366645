/**
 * The life of the one session that the interceptor of a dynamic session
 * template uses for one call, as a log of the side effects it performs on
 * that session and on the exception translator, and the state machine
 * ACQUIRED -> EXECUTED -> (COMMITTED) -> RELEASED -> (TRANSLATED) that a
 * well-behaved log follows.
 */
module SessionLifecycle {
  import opened Collaborators

  /** One side effect of the interceptor. */
  datatype Event =
    | Acquire(session: SqlSession)       // SqlSessionUtils.getSqlSession
    | Execute(session: SqlSession)       // method.invoke(sqlSession, args)
    | Commit(session: SqlSession)        // sqlSession.commit(true)
    | Close(session: SqlSession)         // SqlSessionUtils.closeSqlSession
    | Translate(cause: Throwable)        // translateExceptionIfPossible

  datatype EventKind = AcquireKind | ExecuteKind | CommitKind | CloseKind | TranslateKind

  function KindOf(e: Event): EventKind {
    match e
    case Acquire(_) => AcquireKind
    case Execute(_) => ExecuteKind
    case Commit(_) => CommitKind
    case Close(_) => CloseKind
    case Translate(_) => TranslateKind
  }

  /** The number of events of kind `k` in `log`. */
  function Count(log: seq<Event>, k: EventKind): nat
  {
    if log == [] then 0
    else (if KindOf(log[0]) == k then 1 else 0) + Count(log[1..], k)
  }

  /** Where the session of one call stands. */
  datatype Phase =
    | Start
    | Acquired(session: SqlSession)
    | Executed(session: SqlSession)
    | Committed(session: SqlSession)
    | Released(session: SqlSession)
    | Translated(session: SqlSession)

  /** A released session stays released; after that only the translator may run. */
  predicate IsReleased(p: Phase) {
    p.Released? || p.Translated?
  }

  /** The transitions allowed: a session event must concern the session acquired. */
  function Step(p: Phase, e: Event): Option<Phase>
  {
    match (p, e)
    case (Start, Acquire(s)) => Some(Acquired(s))
    case (Acquired(s), Execute(t)) => if s == t then Some(Executed(s)) else None
    case (Executed(s), Commit(t)) => if s == t then Some(Committed(s)) else None
    case (Executed(s), Close(t)) => if s == t then Some(Released(s)) else None
    case (Committed(s), Close(t)) => if s == t then Some(Released(s)) else None
    case (Released(s), Translate(_)) => Some(Translated(s))
    case _ => None
  }

  /** The phase reached by running `log` from `p`, or None if some step is not allowed. */
  function Run(p: Phase, log: seq<Event>): Option<Phase>
    decreases |log|
  {
    if log == [] then Some(p)
    else match Step(p, log[0])
      case None => None
      case Some(q) => Run(q, log[1..])
  }

  /** A complete, well-behaved log: from no session to a released one. */
  predicate Accepts(log: seq<Event>) {
    var r := Run(Start, log);
    r.Some? && IsReleased(r.value)
  }

  /** How many closes a run from `p` still owes. */
  function ClosesOwed(p: Phase): nat {
    if p.Start? || p.Acquired? || p.Executed? || p.Committed? then 1 else 0
  }

  function CommitsAllowed(p: Phase): nat {
    if p.Start? || p.Acquired? || p.Executed? then 1 else 0
  }

  function TranslatesAllowed(p: Phase): nat {
    if p.Translated? then 0 else 1
  }

  /**
   * Along any run that ends released, the close happens exactly as often as
   * the starting phase still owes it, the commit and the translation happen
   * at most once, and nothing but the translation follows a close.
   */
  lemma {:induction false} RunCounts(p: Phase, log: seq<Event>)
    requires Run(p, log).Some? && IsReleased(Run(p, log).value)
    ensures Count(log, CloseKind) == ClosesOwed(p)
    ensures Count(log, AcquireKind) == (if p.Start? then 1 else 0)
    ensures Count(log, CommitKind) <= CommitsAllowed(p)
    ensures Count(log, TranslateKind) <= TranslatesAllowed(p)
    ensures IsReleased(p) ==> forall j :: 0 <= j < |log| ==> log[j].Translate?
    ensures forall j :: 0 <= j < |log| && log[j].Translate? ==>
              IsReleased(p) || exists i :: 0 <= i < j && log[i].Close?
    decreases |log|
  {
    if log != [] {
      var q := Step(p, log[0]).value;
      var tail := log[1..];
      RunCounts(q, tail);
      forall j | 0 <= j < |log| && log[j].Translate? && !IsReleased(p)
        ensures exists i :: 0 <= i < j && log[i].Close?
      {
        if log[0].Close? {
          assert 0 < j;
        } else {
          assert !IsReleased(q);
          assert j > 0 && tail[j - 1] == log[j];
          var i :| 0 <= i < j - 1 && tail[i].Close?;
          assert log[i + 1].Close?;
        }
      }
    }
  }

  /**
   * Every accepted log acquires one session first, runs the call on it
   * next, releases it exactly once, commits it at most once, calls the
   * translator at most once and only after the release, and touches the
   * session no more once it has been released.
   */
  lemma AcceptedLog(log: seq<Event>)
    requires Accepts(log)
    ensures |log| >= 3 && log[0].Acquire? && log[1] == Execute(log[0].session)
    ensures Count(log, AcquireKind) == 1
    ensures Count(log, CloseKind) == 1
    ensures Count(log, CommitKind) <= 1
    ensures Count(log, TranslateKind) <= 1
    ensures forall i, j :: 0 <= i < j < |log| && log[i].Close? ==> log[j].Translate?
    ensures forall j :: 0 <= j < |log| && log[j].Translate? ==>
              exists i :: 0 <= i < j && log[i].Close?
  {
    RunCounts(Start, log);
    var s := log[0].session;
    assert Step(Start, log[0]) == Some(Acquired(s));
    assert log[1..] != [];
    assert Step(Acquired(s), log[1]) == Some(Executed(s));
    assert log[2..] != [] by {
      assert Run(Executed(s), log[2..]) == Run(Start, log);
    }
    forall i, j | 0 <= i < j < |log| && log[i].Close?
      ensures log[j].Translate?
    {
      ReleasedAfterClose(Start, log, i);
      var r := Run(Start, log[..i + 1]).value;
      RunSplit(Start, log, i + 1);
      RunCounts(r, log[i + 1..]);
      assert log[j] == log[i + 1..][j - i - 1];
    }
  }

  /** Running a log is running its prefix, then its suffix. */
  lemma {:induction false} RunSplit(p: Phase, log: seq<Event>, n: nat)
    requires n <= |log|
    ensures Run(p, log) ==
      match Run(p, log[..n])
      case None => None
      case Some(q) => Run(q, log[n..])
    decreases n
  {
    if n > 0 {
      assert log[..n][0] == log[0];
      assert log[..n][1..] == log[1..][..n - 1];
      assert log[n..] == log[1..][n - 1..];
      match Step(p, log[0])
      case None =>
      case Some(q) => RunSplit(q, log[1..], n - 1);
    }
  }

  /** The phase right after a close in a running log is a released one. */
  lemma {:induction false} ReleasedAfterClose(p: Phase, log: seq<Event>, i: nat)
    requires i < |log| && log[i].Close?
    requires Run(p, log).Some?
    ensures Run(p, log[..i + 1]).Some? && IsReleased(Run(p, log[..i + 1]).value)
    decreases i
  {
    var q := Step(p, log[0]).value;
    assert log[..i + 1][0] == log[0];
    if i == 0 {
      assert log[..1][1..] == [];
    } else {
      assert log[..i + 1][1..] == log[1..][..i];
      ReleasedAfterClose(q, log[1..], i - 1);
    }
  }

  /**
   * The log of one intercepted call on session `s`: acquire, execute, the
   * forced commit if there is one, the release, and the translation of
   * `translated` if the translator runs.
   */
  function Lifecycle(s: SqlSession, committed: bool, translated: Option<Throwable>): seq<Event>
  {
    [Acquire(s), Execute(s)] + (if committed then [Commit(s)] else []) + [Close(s)]
    + (if translated.Some? then [Translate(translated.value)] else [])
  }

  /**
   * Every such log is accepted by the lifecycle machine, releases `s`
   * exactly once, commits once exactly when asked to, and calls the
   * translator once exactly when asked to, after the release.
   */
  lemma LifecycleAccepted(s: SqlSession, committed: bool, translated: Option<Throwable>)
    ensures Accepts(Lifecycle(s, committed, translated))
    ensures Count(Lifecycle(s, committed, translated), CloseKind) == 1
    ensures Count(Lifecycle(s, committed, translated), CommitKind) == (if committed then 1 else 0)
    ensures Count(Lifecycle(s, committed, translated), TranslateKind) == (if translated.Some? then 1 else 0)
    ensures var log := Lifecycle(s, committed, translated);
      forall j :: 0 <= j < |log| && log[j].Translate? ==>
        translated == Some(log[j].cause) && exists i :: 0 <= i < j && log[i] == Close(s)
  {
    var log := Lifecycle(s, committed, translated);
    var tail := [Close(s)] + (if translated.Some? then [Translate(translated.value)] else []);
    var mid := if committed then Committed(s) else Executed(s);
    assert Run(mid, tail) == Some(if translated.Some? then Translated(s) else Released(s)) by {
      assert tail[0] == Close(s) && Step(mid, Close(s)) == Some(Released(s));
      assert Run(mid, tail) == Run(Released(s), tail[1..]);
      if translated.Some? {
        assert tail[1..] == [Translate(translated.value)];
        assert Run(Released(s), tail[1..]) == Run(Translated(s), []);
      } else {
        assert tail[1..] == [];
      }
    }
    var body := (if committed then [Commit(s)] else []) + tail;
    assert Run(Executed(s), body) == Run(mid, tail) by {
      if committed {
        assert body[1..] == tail;
      } else {
        assert body == tail;
      }
    }
    assert log == [Acquire(s)] + ([Execute(s)] + body);
    assert log[1..] == [Execute(s)] + body;
    assert log[1..][1..] == body;
    AcceptedLog(log);
    CountSplit([Acquire(s), Execute(s)], body, CommitKind);
    CountSplit([Acquire(s), Execute(s)], body, TranslateKind);
    CountSplit(if committed then [Commit(s)] else [], tail, CommitKind);
    CountSplit(if committed then [Commit(s)] else [], tail, TranslateKind);
    assert [Acquire(s), Execute(s)][1..][1..] == [];
  }

  /** Counting distributes over concatenation. */
  lemma {:induction false} CountSplit(a: seq<Event>, b: seq<Event>, k: EventKind)
    ensures Count(a + b, k) == Count(a, k) + Count(b, k)
    decreases |a|
  {
    if a == [] {
      assert a + b == b;
    } else {
      assert (a + b)[0] == a[0];
      assert (a + b)[1..] == a[1..] + b;
      CountSplit(a[1..], b, k);
    }
  }
}

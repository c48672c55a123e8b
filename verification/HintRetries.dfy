/**
  A hint read that fails is tried again without end, although each read is retried only
  once: the retry finds the failed read still marked as in flight and becomes the trailing
  hint, for which the end of the failed read starts a read that counts as a first one.
*/
module HintRetries {
  import opened Options
  import opened SshWire
  import opened HostSegments
  import opened HostRuns
  import opened HintLoss
  import opened HostRecovery

  /** The read for a hint that brings news has been sent and is the last task. */
  predicate ReadingNews(s: Sys, n: nat, c: Counters, hint: Hint) {
    Published(s.host, c) && AwaitsRead(s, n, hint) && Leq(c, hint.counters) && SomeAbove(hint.counters, c)
  }

  const FAILED: Reply := Failure(OtherCode)

  /** The read fails. */
  lemma ReadIsRejected(s: Sys, n: nat, hint: Hint)
    requires AwaitsRead(s, n, hint)
    ensures Step(s, ReplyArrives(n, FAILED)) == s.(tasks := s.tasks[n := s.tasks[n].(pc := HintCatch)])
  {
    var pc := s.tasks[n].pc;
    assert EndCommand(s.host, pc.capture, pc.request, FAILED) == Thrown(s.host);
  }

  /** A retry is queued. */
  lemma RetryIsQueued(s: Sys, n: nat, c: Counters, hint: Hint)
    requires Published(s.host, c) && |s.tasks| == n + 1 && s.tasks[n].kind == HintReading(hint, 0) && s.tasks[n].pc.HintCatch?
    ensures Step(s, Resume(n)) ==
              s.(tasks := s.tasks[n := s.tasks[n].(pc := HintFinally)] + [Task(HintReading(hint, 1), RetryQueued, 0, 0)])
  {
    assert OnResume(s, n) == CatchHint(s, n, hint, 0);
  }

  /** The retry runs before the failed read has ended, and trails. */
  lemma RetryTrails(s: Sys, n: nat, hint: Hint)
    requires s.host.snapshotInFlight && |s.tasks| == n + 2
    requires s.tasks[n + 1] == Task(HintReading(hint, 1), RetryQueued, 0, 0)
    ensures Step(s, Resume(n + 1)) ==
              s.(host := s.host.(trailing := true, trailingHint := Some(hint)),
                 tasks := s.tasks[n + 1 := s.tasks[n + 1].(pc := Finished(true))])
  {
    assert OnResume(s, n + 1) == RetryHint(s, n + 1, hint);
  }

  /** The end of the failed read starts another first read. */
  lemma ReadStartsOver(s: Sys, n: nat, c: Counters, hint: Hint)
    requires s.host.trailing && s.host.trailingHint == Some(hint) && Published(s.host.(trailing := false), c)
    requires Leq(c, hint.counters) && SomeAbove(hint.counters, c)
    requires |s.tasks| == n + 2 && s.tasks[n].kind == HintReading(hint, 0) && s.tasks[n].pc.HintFinally?
    ensures Step(s, Resume(n)) ==
              s.(host := s.host.(trailing := false, trailingHint := None, snapshotInFlight := true),
                 tasks := s.tasks[n := s.tasks[n].(pc := Finished(true))] + [Task(HintReading(hint, 0), Settling, 0, 0)])
  {
    assert OnResume(s, n) == CloseHint(s, n, hint);
    assert FinishHintRead(s.host, hint) ==
           (s.host.(trailing := false, trailingHint := None, snapshotInFlight := true), Some(hint));
  }

  /** That read is sent. */
  lemma NextReadIsSent(s: Sys, n: nat, c: Counters, hint: Hint)
    requires Published(s.host, c) && s.host.snapshotInFlight
    requires |s.tasks| == n + 1 && s.tasks[n] == Task(HintReading(hint, 0), Settling, 0, 0)
    ensures var u := Step(s, Resume(n));
            && Published(u.host, c) && AwaitsRead(u, n, hint) && u.tasks[..n] == s.tasks[..n] && u.tasks[n].calls == 1
  {
    assert OnResume(s, n) == IssueRead(s, n);
  }

  /** Only failing replies and promise reactions. */
  ghost predicate OnlyFailures(more: seq<Event>) {
    forall e | e in more :: e.Resume? || (e.ReplyArrives? && e.reply.Failure?)
  }

  /** The last `k` reads of the hint are two tasks apart, and each was sent. */
  ghost predicate ReadsSent(ts: seq<Task>, first: nat, k: nat, hint: Hint) {
    forall j | 0 <= j < k ::
      first + 2 * j < |ts| && ts[first + 2 * j].kind == HintReading(hint, 0) && ts[first + 2 * j].calls == 1
  }

  lemma PathsJoin(first: seq<Sys>, a: seq<Event>, second: seq<Sys>, b: seq<Event>)
    requires IsPath(first, a) && IsPath(second, b) && first[|a|] == second[0]
    ensures IsPath(first + second[1..], a + b)
  {
    var path, events := first + second[1..], a + b;
    forall i | 0 <= i < |events| ensures path[i + 1] == Step(path[i], events[i]) {
      if i < |a| {
        assert path[i] == first[i] && path[i + 1] == first[i + 1] && events[i] == a[i];
      } else {
        assert path[i] == second[i - |a|] && path[i + 1] == second[i - |a| + 1] && events[i] == b[i - |a|];
      }
    }
  }

  lemma LeadsThen(s: Sys, a: seq<Event>, t: Sys, b: seq<Event>, u: Sys)
    requires Leads(s, a, t) && Leads(t, b, u)
    ensures Leads(s, a + b, u)
  {
    var first :| IsPath(first, a) && first[0] == s && first[|a|] == t;
    var second :| IsPath(second, b) && second[0] == t && second[|b|] == u;
    PathsJoin(first, a, second, b);
    assert (first + second[1..])[0] == s && (first + second[1..])[|a + b|] == u;
  }

  /** The failed read is about to end, and its retry trails. */
  predicate RetryHasTrailed(s: Sys, n: nat, c: Counters, hint: Hint) {
    && s.host.trailing && s.host.trailingHint == Some(hint) && Published(s.host.(trailing := false), c)
    && |s.tasks| == n + 2 && s.tasks[n].kind == HintReading(hint, 0) && s.tasks[n].pc.HintFinally?
  }

  lemma FailureTrails(s: Sys, n: nat, c: Counters, hint: Hint) returns (more: seq<Event>, u: Sys)
    requires ReadingNews(s, n, c, hint)
    ensures OnlyFailures(more) && Leads(s, more, u)
    ensures RetryHasTrailed(u, n, c, hint) && u.tasks[..n] == s.tasks[..n] && u.tasks[n].calls == s.tasks[n].calls
  {
    LeadsNowhere(s);
    ReadIsRejected(s, n, hint);
    LeadsOn(s, [], s, ReplyArrives(n, FAILED));
    var s1 := Step(s, ReplyArrives(n, FAILED));
    RetryIsQueued(s1, n, c, hint);
    LeadsOn(s, [] + [ReplyArrives(n, FAILED)], s1, Resume(n));
    var s2 := Step(s1, Resume(n));
    RetryTrails(s2, n, hint);
    LeadsOn(s, [] + [ReplyArrives(n, FAILED)] + [Resume(n)], s2, Resume(n + 1));
    u := Step(s2, Resume(n + 1));
    more := [] + [ReplyArrives(n, FAILED)] + [Resume(n)] + [Resume(n + 1)];
  }

  lemma TrailingStartsOver(s: Sys, n: nat, c: Counters, hint: Hint) returns (more: seq<Event>, u: Sys)
    requires RetryHasTrailed(s, n, c, hint) && Leq(c, hint.counters) && SomeAbove(hint.counters, c)
    ensures OnlyFailures(more) && Leads(s, more, u)
    ensures ReadingNews(u, n + 2, c, hint) && u.tasks[n + 2].calls == 1
    ensures u.tasks[..n] == s.tasks[..n] && u.tasks[n] == s.tasks[n].(pc := Finished(true))
  {
    LeadsNowhere(s);
    ReadStartsOver(s, n, c, hint);
    LeadsOn(s, [], s, Resume(n));
    var t := Step(s, Resume(n));
    NextReadIsSent(t, n + 2, c, hint);
    LeadsOn(s, [] + [Resume(n)], t, Resume(n + 2));
    u := Step(t, Resume(n + 2));
    more := [] + [Resume(n)] + [Resume(n + 2)];
    PrefixesAgree(s.tasks, t.tasks, u.tasks, n);
  }

  lemma PrefixesAgree(ts: seq<Task>, us: seq<Task>, vs: seq<Task>, n: nat)
    requires n < |ts| && n + 2 <= |us| && n + 2 <= |vs| && us[..n] == ts[..n] && vs[..n + 2] == us[..n + 2]
    ensures vs[..n] == ts[..n] && vs[n] == us[n]
  {
    assert vs[n] == vs[..n + 2][n] == us[..n + 2][n];
    assert vs[..n] == vs[..n + 2][..n] == us[..n + 2][..n] == us[..n];
  }

  /** From one sent read to the next, by events that leave the earlier tasks alone. */
  lemma FailureStartsOver(s: Sys, n: nat, c: Counters, hint: Hint) returns (more: seq<Event>, u: Sys)
    requires ReadingNews(s, n, c, hint)
    ensures OnlyFailures(more) && Leads(s, more, u)
    ensures |u.tasks| == n + 3 && u.tasks[..n] == s.tasks[..n] && u.tasks[n].kind == HintReading(hint, 0)
    ensures u.tasks[n].calls == s.tasks[n].calls && u.tasks[n + 2].calls == 1
    ensures ReadingNews(u, n + 2, c, hint)
  {
    var first, t := FailureTrails(s, n, c, hint);
    var second;
    second, u := TrailingStartsOver(t, n, c, hint);
    LeadsThen(s, first, t, second, u);
    more := first + second;
  }

  lemma OneMoreRead(ts: seq<Task>, us: seq<Task>, vs: seq<Task>, n: nat, k: nat, hint: Hint)
    requires n < |ts| && n + 2 < |us| && n + 2 < |vs| && us[..n] == ts[..n] && vs[..n + 2] == us[..n + 2]
    requires us[n].kind == HintReading(hint, 0) && us[n].calls == 1
    requires ReadsSent(vs, n + 2, k, hint)
    ensures ReadsSent(vs, n, k + 1, hint) && vs[..n] == ts[..n]
  {
    PrefixesAgree(ts, us, vs, n);
    forall j | 0 <= j < k + 1
      ensures n + 2 * j < |vs| && vs[n + 2 * j].kind == HintReading(hint, 0) && vs[n + 2 * j].calls == 1
    {
      if j > 0 { assert n + 2 * j == (n + 2) + 2 * (j - 1); }
    }
  }

  lemma {:induction false} KeepsFailing(s: Sys, n: nat, c: Counters, hint: Hint, k: nat) returns (more: seq<Event>, u: Sys)
    requires ReadingNews(s, n, c, hint) && s.tasks[n].calls == 1
    ensures OnlyFailures(more) && Leads(s, more, u)
    ensures |u.tasks| > n && ReadsSent(u.tasks, n, k + 1, hint) && u.tasks[..n] == s.tasks[..n]
    decreases k
  {
    if k == 0 {
      more, u := [], s;
      LeadsNowhere(s);
    } else {
      var first, t := FailureStartsOver(s, n, c, hint);
      var rest;
      rest, u := KeepsFailing(t, n + 2, c, hint, k - 1);
      more := first + rest;
      LeadsThen(s, first, t, rest, u);
      OneMoreRead(s.tasks, t.tasks, u.tasks, n, k, hint);
    }
  }

  /** One hint, and nothing after it but promise reactions and failing replies: for every number there is a run
      in which that many reads are sent for it. */
  lemma {:induction false} OneHintIsReadForWithoutEnd(k: nat) returns (before: seq<Event>, hint: Hint, more: seq<Event>)
    ensures OnlyFailures(more)
    ensures var n := |Run(before).tasks|; ReadsSent(Run(before + [HintArrives(hint)] + more).tasks, n, k + 1, hint)
  {
    var c;
    before, c := ActivatedHost();
    var s := Run(before);
    var n := |s.tasks|;
    hint := HintOf(s.host, Counters(1, 1, 0, 0, 0));
    var sent := FirstReadIsSent(s, c, hint);
    var rest, u := KeepsFailing(sent, n, c, hint, k);
    LeadsThen(s, [HintArrives(hint)] + [Resume(n)], sent, rest, u);
    LeadsRuns(before, [HintArrives(hint)] + [Resume(n)] + rest, u);
    more := [Resume(n)] + rest;
    assert before + [HintArrives(hint)] + more == before + ([HintArrives(hint)] + [Resume(n)] + rest);
  }

  lemma FirstReadIsSent(s: Sys, c: Counters, hint: Hint) returns (u: Sys)
    requires Published(s.host, c) && !s.host.snapshotInFlight && hint == HintOf(s.host, hint.counters)
    requires Leq(c, hint.counters) && SomeAbove(hint.counters, c) && hint.counters.scopeGeneration == c.scopeGeneration
    ensures Leads(s, [HintArrives(hint)] + [Resume(|s.tasks|)], u)
    ensures ReadingNews(u, |s.tasks|, c, hint) && u.tasks[|s.tasks|].calls == 1
  {
    ReadStarts(s, c, hint.counters);
    LeadsNowhere(s);
    LeadsOn(s, [], s, HintArrives(hint));
    assert [] + [HintArrives(hint)] == [HintArrives(hint)];
    var heard := Step(s, HintArrives(hint));
    LeadsOn(s, [HintArrives(hint)], heard, Resume(|s.tasks|));
    u := Step(heard, Resume(|s.tasks|));
  }
}

// The log tail of backend/api/routes.py (stream): polls of a growing log, and
// what the browser has been sent.
module LogTail {
  import opened Store

  const MAX_IDLE := 600

  /** Why the generator stopped. */
  datatype Stop = Disconnected | Finished | Silent

  predicate IsEnd(r: Row) { r.event.kind.RunEnd? }

  /** The log at each poll: gapless, and only ever appended to. */
  ghost predicate Growing(polls: seq<seq<Row>>) {
    && (forall i | 0 <= i < |polls| :: Gapless(polls[i]))
    && (forall i, j | 0 <= i <= j < |polls| :: polls[i] <= polls[j])
  }

  /** The log up to and including its first RUN_END. */
  function UpToEnd(log: seq<Row>): (r: seq<Row>)
    ensures r <= log
  {
    if log == [] then [] else if IsEnd(log[0]) then [log[0]] else [log[0]] + UpToEnd(log[1..])
  }

  predicate Ended(log: seq<Row>) { exists r :: r in log && IsEnd(r) }

  lemma {:induction false} EndsAt(log: seq<Row>, i: nat)
    requires i < |log| && IsEnd(log[i]) && forall j | 0 <= j < i :: !IsEnd(log[j])
    ensures UpToEnd(log) == log[..i + 1]
  {
    if i > 0 {
      EndsAt(log[1..], i - 1);
      assert log[..i + 1] == [log[0]] + log[1..][..i];
    }
  }

  lemma {:induction false} NoEnd(log: seq<Row>)
    requires !Ended(log)
    ensures UpToEnd(log) == log
  {
    if log != [] {
      assert log[0] in log;
      assert forall r | r in log[1..] :: r in log;
      NoEnd(log[1..]);
      assert log == [log[0]] + log[1..];
    }
  }

  /** The last 601 polls up to poll i found nothing beyond what was sent. */
  ghost predicate SilentUntil(polls: seq<seq<Row>>, i: int, sent: seq<Row>) {
    MAX_IDLE <= i < |polls| && forall j | i - MAX_IDLE <= j <= i :: polls[j] == sent
  }

  /** `for e in rows: ... yield`, up to the first RUN_END. */
  method Send(was: seq<Row>, rows: seq<Row>) returns (sent: seq<Row>, last: nat, finished: bool)
    requires Gapless(was + rows) && !Ended(was) && rows != []
    ensures finished <==> Ended(was + rows)
    ensures sent == UpToEnd(was + rows) && last == |sent|
  {
    hide UpToEnd;
    sent, last, finished := was, |was|, false;
    ghost var log := was + rows;
    for i := 0 to |rows|
      invariant sent == log[..|was| + i] && last == |sent| && !Ended(sent)
    {
      assert log[|was| + i] == rows[i];
      last := rows[i].seqNo;
      sent := sent + [rows[i]];
      if IsEnd(rows[i]) {
        forall j | 0 <= j < |was| + i ensures !IsEnd(log[j]) { assert log[j] in log[..|was| + i]; }
        EndsAt(log, |was| + i);
        assert log[|was| + i] in log;
        return sent, last, true;
      }
    }
    assert sent == log;
    NoEnd(log);
  }

  /**
   * Whatever is appended between two polls, the stream has sent the log up to
   * its first RUN_END, each row once and in order: nothing is lost, nothing
   * repeated. It stops at the first RUN_END it sends, or after 601 empty polls.
   */
  method Stream(polls: seq<seq<Row>>) returns (sent: seq<Row>, stop: Stop)
    requires Growing(polls)
    ensures stop.Disconnected? ==> sent == (if polls == [] then [] else polls[|polls| - 1]) && !Ended(sent)
    ensures stop.Finished? ==> exists i :: 0 <= i < |polls| && Ended(polls[i]) && sent == UpToEnd(polls[i])
    ensures stop.Silent? ==> !Ended(sent) && exists i :: SilentUntil(polls, i, sent)
    ensures forall i | 0 <= i < |polls| :: sent <= polls[i] || polls[i] <= sent
  {
    hide Growing, UpToEnd, After, Gapless;
    sent, stop := [], Disconnected;
    var last, idle := 0, 0;
    for k := 0 to |polls|
      invariant sent == (if k == 0 then [] else polls[k - 1]) && last == |sent| && !Ended(sent)
      invariant idle <= k && idle <= MAX_IDLE && forall j | k - idle <= j < k :: polls[j] == sent
    {
      var log := polls[k];
      var rows := After(log, last);
      NewRows(polls, k, sent);
      if rows != [] {
        idle := 0;
        var finished;
        sent, last, finished := Send(sent, rows);
        if finished {
          SentFits(polls, k, sent);
          return sent, Finished;
        }
        NoEnd(log);
      } else {
        idle := idle + 1;
        if idle > MAX_IDLE {
          SentFits(polls, k, sent);
          assert SilentUntil(polls, k, sent);
          return sent, Silent;
        }
      }
    }
    if polls != [] { SentFits(polls, |polls| - 1, sent); }
  }

  /** A poll reads exactly what was appended since the last one. */
  lemma NewRows(polls: seq<seq<Row>>, k: nat, sent: seq<Row>)
    requires Growing(polls) && k < |polls| && sent == if k == 0 then [] else polls[k - 1]
    ensures sent + After(polls[k], |sent|) == polls[k] && Gapless(polls[k])
  {
    var log := polls[k];
    assert Gapless(log);
    assert k > 0 ==> polls[k - 1] <= log;
    AfterIsRest(log, |sent|, 0);
  }

  lemma SentFits(polls: seq<seq<Row>>, k: nat, sent: seq<Row>)
    requires Growing(polls) && k < |polls| && sent <= polls[k]
    ensures forall i | 0 <= i < |polls| :: sent <= polls[i] || polls[i] <= sent
  {
    forall i | 0 <= i < |polls| ensures sent <= polls[i] || polls[i] <= sent {
      if i < k { assert polls[i] <= polls[k]; } else { assert polls[k] <= polls[i]; }
    }
  }
}

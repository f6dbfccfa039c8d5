/**
 * The requests sent to the Marathon scheduler: the POST with retry on
 * conflict of the current revision (commands.go:159-192), the single POST
 * of the legacy revision (babl-build.go:203-227) and the DELETE shared by
 * both (commands.go:194-212, babl-build.go:228-246). Each is a function
 * from the scheduler's replies and the number of requests sent before it
 * to the events it produces.
 */
module Scheduler {

  import opened Wrappers
  import Json
  import opened Effects

  const Retries := 3

  /** The scheduler's application collection on port 8080 of `host`, where `deploy` POSTs. */
  function AppsUrl(host: string): (r: string)
    ensures |r| == 20 + |host| && r[..7] == "http://" && r[7..7 + |host|] == host
    ensures r[7 + |host|..] == ":8080/v2/apps"
  {
    "http://" + host + ":8080/v2/apps"
  }

  /** The application `id` inside that collection, where `destroy` sends its DELETE. */
  function AppUrl(host: string, id: string): (r: string)
    ensures r == AppsUrl(host) + "/" + id
  {
    "http://" + host + ":8080/v2/apps/" + id
  }

  /**
   * Attempts `attempt`, `attempt` + 1, ... of the POST loop. Every reply is
   * echoed; a status outside 2xx is logged; a 409 is logged and followed by
   * a one-second sleep and the next attempt (the guard `i < retries` is
   * always true inside the loop); any other status ends the loop; a
   * transport error ends the process.
   */
  function PostAttempts(url: string, body: Json.Value, replies: nat -> Reply, attempt: nat, sent: nat): Run
    decreases Retries - attempt
  {
    if attempt >= Retries then Run([], sent, false)
    else
      var reply := replies(sent);
      var request := Request(Post, url, Some(body));
      if reply.TransportError? then Run([request, Fatal(TransportFailure)], sent + 1, true)
      else
        var echoed := Echoed(url, body, reply);
        if reply.status == StatusConflict && attempt < Retries then
          var rest := PostAttempts(url, body, replies, attempt + 1, sent + 1);
          Run(echoed + [Log(Retrying), Sleep(1)] + rest.events, rest.sent, rest.fatal)
        else Run(echoed, sent + 1, false)
  }

  /**
   * The POST loop itself, as the code runs it: `i` counts attempts, a 409
   * is followed by `continue`, anything else by `break`, and a transport
   * error leaves the loop through log.Fatal.
   */
  method PostWithRetries(url: string, body: Json.Value, replies: nat -> Reply, sent: nat)
    returns (events: seq<Event>, n: nat, fatal: bool)
    ensures PostAttempts(url, body, replies, 0, sent) == Run(events, n, fatal)
  {
    ghost var total := PostAttempts(url, body, replies, 0, sent);
    events := [];
    n := sent;
    fatal := false;
    var i := 0;
    while i < Retries
      invariant 0 <= i <= Retries && Pending(url, body, replies, i, n, events, total)
    {
      var reply := replies(n);
      PostStep(url, body, replies, i, n, events, total);
      if reply.TransportError? {
        events := events + [Request(Post, url, Some(body)), Fatal(TransportFailure)];
        n := n + 1;
        fatal := true;
        return;
      }
      events := events + Echoed(url, body, reply);
      n := n + 1;
      if reply.status == StatusConflict && i < Retries {
        events := events + [Log(Retrying), Sleep(1)];
        i := i + 1;
        continue;
      }
      break;
    }
    if Retries <= i {
      PendingDone(url, body, replies, i, n, events, total);
    }
  }

  /** What the loop still has to do from attempt `i`, having produced `events`, to end as `total`. */
  ghost predicate Pending(url: string, body: Json.Value, replies: nat -> Reply, i: nat, n: nat, events: seq<Event>, total: Run)
  {
    var r := PostAttempts(url, body, replies, i, n);
    events + r.events == total.events && r.sent == total.sent && r.fatal == total.fatal
  }

  /** One pass through the loop body. */
  lemma PostStep(url: string, body: Json.Value, replies: nat -> Reply, i: nat, n: nat, events: seq<Event>, total: Run)
    requires i < Retries && Pending(url, body, replies, i, n, events, total)
    ensures replies(n).TransportError? ==>
      events + [Request(Post, url, Some(body)), Fatal(TransportFailure)] == total.events && n + 1 == total.sent && total.fatal
    ensures replies(n).Response? && replies(n).status == StatusConflict ==>
      Pending(url, body, replies, i + 1, n + 1, events + Echoed(url, body, replies(n)) + [Log(Retrying), Sleep(1)], total)
    ensures replies(n).Response? && replies(n).status != StatusConflict ==>
      events + Echoed(url, body, replies(n)) == total.events && n + 1 == total.sent && !total.fatal
  {
    if replies(n).Response? {
      PostAttemptsUnfold(url, body, replies, i, n);
    }
  }

  /** Leaving the loop because all attempts are used up. */
  lemma PendingDone(url: string, body: Json.Value, replies: nat -> Reply, i: nat, n: nat, events: seq<Event>, total: Run)
    requires Retries <= i && Pending(url, body, replies, i, n, events, total)
    ensures events == total.events && n == total.sent && !total.fatal
  {
  }

  /** The POST loop only sends requests, echoes, logs, sleeps and exits: it starts no subprocess. */
  lemma {:induction false} PostAttemptsSpawnNothing(url: string, body: Json.Value, replies: nat -> Reply, attempt: nat, sent: nat)
    decreases Retries - attempt
    ensures var r := PostAttempts(url, body, replies, attempt, sent);
      forall j :: 0 <= j < |r.events| ==> !r.events[j].Spawn?
  {
    if attempt < Retries && replies(sent).Response? && replies(sent).status == StatusConflict {
      PostAttemptsSpawnNothing(url, body, replies, attempt + 1, sent + 1);
      var rest := PostAttempts(url, body, replies, attempt + 1, sent + 1);
      var head := Echoed(url, body, replies(sent)) + [Log(Retrying), Sleep(1)];
      assert PostAttempts(url, body, replies, attempt, sent).events == head + rest.events;
      assert forall j :: 0 <= j < |head| ==> !head[j].Spawn?;
    }
  }

  /** The number of conflicts among the replies to requests `from` .. `to` - 1. */
  function Conflicts(replies: nat -> Reply, from: nat, to: nat): nat
    decreases to - from
  {
    if from >= to then 0
    else (if IsConflict(replies(from)) then 1 else 0) + Conflicts(replies, from + 1, to)
  }

  /**
   * The POST loop sends between one and three requests; every reply but the
   * last one it read was a 409; it stops before the third attempt only on a
   * reply that is not a 409; and it ends the process exactly when the last
   * reply was a transport error.
   */
  lemma {:induction false} PostAttemptsStops(url: string, body: Json.Value, replies: nat -> Reply, attempt: nat, sent: nat)
    requires attempt < Retries
    decreases Retries - attempt
    ensures var r := PostAttempts(url, body, replies, attempt, sent);
      && sent < r.sent <= sent + (Retries - attempt)
      && (forall k :: sent <= k < r.sent - 1 ==> IsConflict(replies(k)))
      && (r.sent < sent + (Retries - attempt) ==> !IsConflict(replies(r.sent - 1)))
      && (r.fatal <==> replies(r.sent - 1).TransportError?)
  {
    if IsConflict(replies(sent)) && attempt + 1 < Retries {
      PostAttemptsStops(url, body, replies, attempt + 1, sent + 1);
    }
  }

  /** The events of one attempt that receives a response. */
  function Echoed(url: string, body: Json.Value, reply: Reply): seq<Event>
    requires reply.Response?
  {
    [Request(Post, url, Some(body)), Stdout(reply.body)]
      + (if !Is2xx(reply.status) then [Log(PostRejected(reply.status))] else [])
  }

  lemma EchoedCounts(url: string, body: Json.Value, reply: Reply)
    requires reply.Response?
    ensures Count(Echoed(url, body, reply), IsPost) == 1 && Count(Echoed(url, body, reply), IsSleep) == 0
  {
    var e := Echoed(url, body, reply);
    assert e == [e[0]] + e[1..];
    CountConcat([e[0]], e[1..], IsPost);
    CountNone(e[1..], IsPost);
    CountNone(e, IsSleep);
  }

  /** One attempt of the loop, unfolded. */
  lemma PostAttemptsUnfold(url: string, body: Json.Value, replies: nat -> Reply, attempt: nat, sent: nat)
    requires attempt < Retries && replies(sent).Response?
    ensures var r, reply := PostAttempts(url, body, replies, attempt, sent), replies(sent);
      if reply.status == StatusConflict then
        var rest := PostAttempts(url, body, replies, attempt + 1, sent + 1);
        r == Run(Echoed(url, body, reply) + [Log(Retrying), Sleep(1)] + rest.events, rest.sent, rest.fatal)
      else r == Run(Echoed(url, body, reply), sent + 1, false)
  {
  }

  /** One POST per reply consumed, and one sleep per 409 among those replies, the third included. */
  lemma PostAttemptsCounts(url: string, body: Json.Value, replies: nat -> Reply, attempt: nat, sent: nat)
    requires attempt <= Retries
    ensures var r := PostAttempts(url, body, replies, attempt, sent);
      && sent <= r.sent
      && Count(r.events, IsPost) == r.sent - sent
      && Count(r.events, IsSleep) == Conflicts(replies, sent, r.sent)
  {
    PostAttemptsPosts(url, body, replies, attempt, sent);
    PostAttemptsSleeps(url, body, replies, attempt, sent);
  }

  lemma {:induction false} PostAttemptsPosts(url: string, body: Json.Value, replies: nat -> Reply, attempt: nat, sent: nat)
    requires attempt <= Retries
    decreases Retries - attempt
    ensures var r := PostAttempts(url, body, replies, attempt, sent);
      sent <= r.sent && Count(r.events, IsPost) == r.sent - sent
  {
    var reply := replies(sent);
    if attempt == Retries {
    } else if reply.TransportError? {
      var request := Request(Post, url, Some(body));
      assert PostAttempts(url, body, replies, attempt, sent) == Run([request, Fatal(TransportFailure)], sent + 1, true);
      CountConcat([request], [Fatal(TransportFailure)], IsPost);
      assert [request] + [Fatal(TransportFailure)] == [request, Fatal(TransportFailure)];
    } else if reply.status == StatusConflict {
      RetryCounts(url, body, replies, attempt, sent);
      PostAttemptsPosts(url, body, replies, attempt + 1, sent + 1);
    } else {
      EchoedCounts(url, body, reply);
      PostAttemptsUnfold(url, body, replies, attempt, sent);
    }
  }

  lemma {:induction false} PostAttemptsSleeps(url: string, body: Json.Value, replies: nat -> Reply, attempt: nat, sent: nat)
    requires attempt <= Retries
    decreases Retries - attempt
    ensures var r := PostAttempts(url, body, replies, attempt, sent);
      Count(r.events, IsSleep) == Conflicts(replies, sent, r.sent)
  {
    var r := PostAttempts(url, body, replies, attempt, sent);
    var reply := replies(sent);
    if attempt == Retries {
    } else if reply.TransportError? {
      var request := Request(Post, url, Some(body));
      assert PostAttempts(url, body, replies, attempt, sent) == Run([request, Fatal(TransportFailure)], sent + 1, true);
      CountConcat([request], [Fatal(TransportFailure)], IsSleep);
      assert [request] + [Fatal(TransportFailure)] == [request, Fatal(TransportFailure)];
    } else if reply.status == StatusConflict {
      RetryCounts(url, body, replies, attempt, sent);
      PostAttemptsSleeps(url, body, replies, attempt + 1, sent + 1);
      PostAttemptsPosts(url, body, replies, attempt + 1, sent + 1);
      assert Conflicts(replies, sent, r.sent) == 1 + Conflicts(replies, sent + 1, r.sent);
    } else {
      EchoedCounts(url, body, reply);
      PostAttemptsUnfold(url, body, replies, attempt, sent);
      assert Conflicts(replies, sent, sent + 1) == 0;
    }
  }

  /** An attempt answered by a 409 adds one POST and one sleep to those of the next attempt. */
  lemma RetryCounts(url: string, body: Json.Value, replies: nat -> Reply, attempt: nat, sent: nat)
    requires attempt < Retries && replies(sent).Response? && replies(sent).status == StatusConflict
    ensures var r, rest := PostAttempts(url, body, replies, attempt, sent), PostAttempts(url, body, replies, attempt + 1, sent + 1);
      && r.sent == rest.sent
      && Count(r.events, IsPost) == 1 + Count(rest.events, IsPost)
      && Count(r.events, IsSleep) == 1 + Count(rest.events, IsSleep)
  {
    var echoed := Echoed(url, body, replies(sent));
    var wait := [Log(Retrying), Sleep(1)];
    var rest := PostAttempts(url, body, replies, attempt + 1, sent + 1);
    EchoedCounts(url, body, replies(sent));
    PostAttemptsUnfold(url, body, replies, attempt, sent);
    CountConcat(echoed + wait, rest.events, IsPost);
    CountConcat(echoed, wait, IsPost);
    CountConcat(echoed + wait, rest.events, IsSleep);
    CountConcat(echoed, wait, IsSleep);
  }

  /** When the loop ends the process, the fatal exit is its last event. */
  lemma {:induction false} PostAttemptsFatalIsLast(url: string, body: Json.Value, replies: nat -> Reply, attempt: nat, sent: nat)
    requires attempt <= Retries
    decreases Retries - attempt
    ensures var r := PostAttempts(url, body, replies, attempt, sent);
      r.fatal ==> r.events != [] && r.events[|r.events| - 1] == Fatal(TransportFailure)
  {
    var reply := replies(sent);
    if attempt < Retries && IsConflict(reply) {
      PostAttemptsFatalIsLast(url, body, replies, attempt + 1, sent + 1);
    }
  }

  /** Two conflicts and then a success: three requests, two sleeps, and the process goes on. */
  lemma ConflictTwiceThenSuccess(url: string, body: Json.Value, replies: nat -> Reply)
    requires IsConflict(replies(0)) && IsConflict(replies(1))
    requires replies(2).Response? && replies(2).status == 200
    ensures var r := PostAttempts(url, body, replies, 0, 0);
      r.sent == 3 && Count(r.events, IsPost) == 3 && Count(r.events, IsSleep) == 2 && !r.fatal
  {
    PostAttemptsStops(url, body, replies, 0, 0);
    PostAttemptsCounts(url, body, replies, 0, 0);
    var r := PostAttempts(url, body, replies, 0, 0);
    assert !IsConflict(replies(2));
    assert Conflicts(replies, 0, 3) == 2;
  }

  /**
   * A scheduler that always answers 409: exactly three requests, three
   * sleeps, the last event is a sleep after the third attempt, and the
   * process does not fail.
   */
  lemma AlwaysConflict(url: string, body: Json.Value, replies: nat -> Reply)
    requires forall k :: IsConflict(replies(k))
    ensures var r := PostAttempts(url, body, replies, 0, 0);
      && r.sent == 3 && Count(r.events, IsPost) == 3 && Count(r.events, IsSleep) == 3 && !r.fatal
      && r.events[|r.events| - 1] == Sleep(1)
  {
    PostAttemptsStops(url, body, replies, 0, 0);
    PostAttemptsCounts(url, body, replies, 0, 0);
    var r := PostAttempts(url, body, replies, 0, 0);
    assert Conflicts(replies, 0, 3) == 3;
    var r2 := PostAttempts(url, body, replies, 2, 2);
    assert r2.events[|r2.events| - 1] == Sleep(1);
    var r1 := PostAttempts(url, body, replies, 1, 1);
    assert r1.events[|r1.events| - 1] == Sleep(1);
  }

  /** A status that is neither 2xx nor 409 is logged and ends the loop without ending the process. */
  lemma RejectionIsOnlyLogged(url: string, body: Json.Value, replies: nat -> Reply, attempt: nat, sent: nat, status: int, text: string)
    requires attempt < Retries
    requires replies(sent) == Response(status, text) && !Is2xx(status) && status != StatusConflict
    ensures PostAttempts(url, body, replies, attempt, sent)
         == Run([Request(Post, url, Some(body)), Stdout(text), Log(PostRejected(status))], sent + 1, false)
  {
  }

  /**
   * The legacy POST (babl-build.go:217-225): one request; the reply's body is
   * echoed only for a status in [200, 400); only a transport error is fatal.
   */
  function SinglePost(url: string, body: Json.Value, replies: nat -> Reply, sent: nat): (r: Run)
    ensures r.sent == sent + 1 && Count(r.events, IsPost) == 1
    ensures r.fatal <==> replies(sent).TransportError?
    ensures replies(sent).Response? ==>
      (Stdout(replies(sent).body) in r.events <==> 200 <= replies(sent).status < 400)
    ensures forall e :: e in r.events ==> !e.Log? && !e.Sleep?
  {
    var reply := replies(sent);
    var request := Request(Post, url, Some(body));
    if reply.TransportError? then
      assert Count([request, Fatal(TransportFailure)], IsPost) == 1 by {
        CountConcat([request], [Fatal(TransportFailure)], IsPost);
      }
      Run([request, Fatal(TransportFailure)], sent + 1, true)
    else if 200 <= reply.status < 400 then
      assert Count([request, Stdout(reply.body)], IsPost) == 1 by {
        CountConcat([request], [Stdout(reply.body)], IsPost);
      }
      Run([request, Stdout(reply.body)], sent + 1, false)
    else
      Run([request], sent + 1, false)
  }

  /** The legacy POST as the code runs it: send, stop on a transport error, echo only a status in [200, 400). */
  method PostOnce(url: string, body: Json.Value, replies: nat -> Reply, sent: nat)
    returns (events: seq<Event>, n: nat, fatal: bool)
    ensures SinglePost(url, body, replies, sent) == Run(events, n, fatal)
  {
    var reply := replies(sent);
    events := [Request(Post, url, Some(body))];
    n := sent + 1;
    if reply.TransportError? {
      events := events + [Fatal(TransportFailure)];
      fatal := true;
      return;
    }
    fatal := false;
    if 200 <= reply.status < 400 {
      events := events + [Stdout(reply.body)];
    }
  }

  /** The fourth postcondition of SinglePost in the counting form that the request lemmas use. */
  lemma SinglePostNeverSleeps(url: string, body: Json.Value, replies: nat -> Reply, sent: nat)
    ensures Count(SinglePost(url, body, replies, sent).events, IsSleep) == 0
  {
    var r := SinglePost(url, body, replies, sent);
    forall k | 0 <= k < |r.events|
      ensures !IsSleep(r.events[k])
    {
      assert r.events[k] in r.events;
    }
    CountNone(r.events, IsSleep);
  }

  /** `destroy` (commands.go:194-212): the DELETE of `url`, the echo of the reply, and the exit on failure. */
  function DestroyRun(url: string, replies: nat -> Reply, sent: nat): Run
  {
    var reply := replies(sent);
    var request := Request(Delete, url, None);
    var events :=
      if reply.TransportError? then [request, Fatal(TransportFailure)]
      else [request, Stdout(reply.body)] + (if !Is2xx(reply.status) then [Fatal(DeleteRejected(reply.status))] else []);
    Run(events, sent + 1, reply.TransportError? || !Is2xx(reply.status))
  }

  /**
   * `destroy` sends one DELETE to `url` and no POST; the reply's body is
   * echoed right after the request; the process ends, with a fatal last
   * event, exactly on a transport error or a status outside 2xx.
   */
  lemma DestroyRunShape(url: string, replies: nat -> Reply, sent: nat)
    ensures var r := DestroyRun(url, replies, sent);
      && r.sent == sent + 1 && Count(r.events, IsDelete) == 1 && Count(r.events, IsPost) == 0
      && |r.events| >= 2 && r.events[0] == Request(Delete, url, None)
      && (r.fatal <==> (replies(sent).TransportError? || !Is2xx(replies(sent).status)))
      && (replies(sent).Response? ==> r.events[1] == Stdout(replies(sent).body))
      && (r.fatal <==> r.events[|r.events| - 1].Fatal?)
      && forall j :: 0 <= j < |r.events| ==> r.events[j].Request? || r.events[j].Stdout? || r.events[j].Fatal?
  {
    var events := DestroyRun(url, replies, sent).events;
    var request := Request(Delete, url, None);
    CountConcat([request], events[1..], IsDelete);
    CountConcat([request], events[1..], IsPost);
    assert events == [request] + events[1..];
    CountNone(events[1..], IsDelete);
    CountNone(events[1..], IsPost);
  }

  /** The DELETE as the code runs it: send, stop on a transport error, echo the body, stop on a status outside 2xx. */
  method DeleteOnce(url: string, replies: nat -> Reply, sent: nat)
    returns (events: seq<Event>, n: nat, fatal: bool)
    ensures DestroyRun(url, replies, sent) == Run(events, n, fatal)
  {
    var reply := replies(sent);
    events := [Request(Delete, url, None)];
    n := sent + 1;
    if reply.TransportError? {
      events := events + [Fatal(TransportFailure)];
      fatal := true;
      return;
    }
    events := events + [Stdout(reply.body)];
    fatal := !Is2xx(reply.status);
    if fatal {
      events := events + [Fatal(DeleteRejected(reply.status))];
    }
  }
}

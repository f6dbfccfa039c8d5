/**
 * What the tool does to the outside world, as recorded events, and what the
 * outside world answers. The scheduler's replies are an oracle: the n-th
 * HTTP request made by the process receives `replies(n)`. Output to stdout,
 * log lines, one-second sleeps, subprocesses and fatal exits become events
 * appended to a trace.
 */
module Effects {

  import opened Wrappers
  import Json
  import Identity

  /** The outcome of one HTTP request: a transport error, or a status code and a body. */
  datatype Reply = TransportError | Response(status: int, body: string)

  datatype Method = Post | Delete

  datatype LogMessage =
    | PostRejected(status: int)     // "HTTP POST request returned <status>"
    | Retrying                      // "Retrying in 1 second..."

  /** Why the process stopped with log.Fatal. */
  datatype FatalReason =
    | MalformedLocalConfig          // .babl-build.yml could not be parsed
    | TransportFailure              // the HTTP client returned an error
    | DeleteRejected(status: int)   // "HTTP DELETE request returned <status>"

  datatype Event =
    | Stdout(text: string)
    | JsonOut(doc: Json.Value)
    | Spawn(argv: seq<string>)
    | Request(verb: Method, url: string, body: Option<Json.Value>)
    | Log(message: LogMessage)
    | Sleep(seconds: nat)
    | Fatal(reason: FatalReason)

  /** A sequence of steps: the events it produced, the number of requests sent so far, and whether it ended the process. */
  datatype Run = Run(events: seq<Event>, sent: nat, fatal: bool)

  const StatusConflict := 409

  predicate Is2xx(status: int)
  {
    200 <= status < 300
  }

  predicate IsConflict(r: Reply)
  {
    r.Response? && r.status == StatusConflict
  }

  predicate IsPost(e: Event)
  {
    e.Request? && e.verb == Post
  }

  predicate IsDelete(e: Event)
  {
    e.Request? && e.verb == Delete
  }

  predicate IsSleep(e: Event)
  {
    e.Sleep?
  }

  /** The number of events of the trace that satisfy `p`. */
  function Count(events: seq<Event>, p: Event -> bool): nat
  {
    if events == [] then 0
    else (if p(events[0]) then 1 else 0) + Count(events[1..], p)
  }

  lemma {:induction false} CountConcat(a: seq<Event>, b: seq<Event>, p: Event -> bool)
    ensures Count(a + b, p) == Count(a, p) + Count(b, p)
  {
    if a == [] {
      assert a + b == b;
    } else {
      assert (a + b)[1..] == a[1..] + b;
      CountConcat(a[1..], b, p);
    }
  }

  lemma CountNone(a: seq<Event>, p: Event -> bool)
    requires forall k :: 0 <= k < |a| ==> !p(a[k])
    ensures Count(a, p) == 0
  {
    if a != [] {
      CountNone(a[1..], p);
    }
  }

  /** The total length of the strings in `args`. */
  function Width(args: seq<string>): nat
  {
    if args == [] then 0 else |args[0]| + Width(args[1..])
  }

  /** strings.Join(args, " "). */
  function Join(args: seq<string>): string
  {
    if args == [] then ""
    else if |args| == 1 then args[0]
    else args[0] + " " + Join(args[1..])
  }

  /**
   * `execute(argv[0], argv[1..]...)` (commands.go:62-75): the command line is
   * echoed, and the subprocess is started unless the tool runs dry.
   */
  function ExecEvents(argv: seq<string>, dryRun: bool): seq<Event>
    requires argv != []
  {
    [Stdout(argv[0] + " " + Join(argv[1..]))] + (if dryRun then [] else [Spawn(argv)])
  }

  /** Joining keeps every argument, in order, with one space between neighbours and nothing else. */
  lemma {:induction false} JoinKeepsArguments(args: seq<string>)
    ensures |Join(args)| == Width(args) + (if args == [] then 0 else |args| - 1)
    ensures args != [] ==> Join(args)[..|args[0]|] == args[0]
    ensures |args| > 1 ==> Join(args)[|args[0]|] == ' ' && Join(args)[|args[0]| + 1..] == Join(args[1..])
  {
    if |args| > 1 {
      JoinKeepsArguments(args[1..]);
    }
  }

  /**
   * `execute` echoes the command line first, its words separated by single
   * spaces (a command without arguments is echoed with a trailing space),
   * and then starts exactly that subprocess unless the run is dry; it
   * neither talks to the scheduler nor ends the process.
   */
  lemma ExecEchoesThenSpawns(argv: seq<string>, dryRun: bool)
    requires argv != []
    ensures var r := ExecEvents(argv, dryRun);
      && |r| == (if dryRun then 1 else 2) && (!dryRun ==> r[1] == Spawn(argv))
      && r[0] == Stdout(argv[0] + " " + Join(argv[1..]))
      && |r[0].text| == Width(argv) + (if |argv| == 1 then 1 else |argv| - 1)
      && forall e :: e in r ==> !e.Request? && !e.Sleep? && !e.Fatal?
  {
    JoinKeepsArguments(argv[1..]);
    assert Width(argv) == |argv[0]| + Width(argv[1..]);
  }

  /** The `build` command (commands.go:130-135). */
  function BuildEvents(image: string, args: seq<string>, dryRun: bool): seq<Event>
  {
    ExecEvents(Identity.BuildArgv(image, args), dryRun) + ExecEvents(Identity.TagArgv(image), dryRun)
  }

  /** The `push` command (commands.go:154-157). */
  function PushEvents(image: string, dryRun: bool): seq<Event>
  {
    ExecEvents(Identity.PushArgv(image), dryRun)
      + ExecEvents(Identity.PushArgv(Identity.ImageLatest(image)), dryRun)
  }

  /** Building and pushing start subprocesses and echo lines; they never talk to the scheduler. */
  lemma DockerStepsSendNoRequest(image: string, args: seq<string>, dryRun: bool)
    ensures forall e :: e in BuildEvents(image, args, dryRun) + PushEvents(image, dryRun) ==> !e.Request?
    ensures dryRun ==> forall e :: e in BuildEvents(image, args, dryRun) + PushEvents(image, dryRun) ==> !e.Spawn?
    ensures !dryRun ==> Spawn(Identity.BuildArgv(image, args)) in BuildEvents(image, args, dryRun)
  {
  }
}

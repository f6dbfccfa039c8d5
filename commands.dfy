/**
 * The commands of the current revision (commands.go): resolving the
 * descriptor (`conf`), and the `build`, `push`, `play`, `sh`, `version`,
 * `config`, `deploy`, `destroy` and `dist` commands of a process whose
 * package state is a `Tool` object.
 */
module Commands {

  import opened Wrappers
  import Json
  import Identity
  import opened Descriptor
  import opened Effects
  import opened Scheduler

  /**
   * What the process finds when it starts: the bundled template, the two
   * YAML files of the working directory, the directory's base name, the
   * output of `git rev-list HEAD --count`, and the two flags.
   */
  datatype Workspace = Workspace(
    template: Config,
    bablYml: YamlFile<Config>,      // read by init, config.go:50-54
    localYml: YamlFile<Config>,     // read by conf, commands.go:40
    moduleName: string,
    gitCount: string,
    marathonHost: string,
    dryRun: bool)

  function IdOf(overwrites: Config, moduleName: string): string
  {
    Identity.Id(Identity.ServiceType(overwrites.env.serviceTags), moduleName)
  }

  function ImageOf(overwrites: Config, moduleName: string, gitCount: string): string
  {
    Identity.Image(IdOf(overwrites, moduleName), Identity.Version(gitCount))
  }

  /** The record `conf` starts from: the template, merged with .babl-build.yml when it parsed. */
  function Base(template: Config, localYml: YamlFile<Config>): Config
  {
    if localYml.Parsed? then Merge(template, localYml.doc) else template
  }

  /** `conf` (commands.go:31-53): merge, then overwrite the id, the image and the module name. */
  function Resolve(template: Config, localYml: YamlFile<Config>, overwrites: Config, moduleName: string, gitCount: string)
    : Result<Config, FatalReason>
  {
    if localYml.Malformed? then Failure(MalformedLocalConfig)
    else
      var c := Base(template, localYml);
      Success(c.(id := IdOf(overwrites, moduleName),
                 container := c.container.(docker := c.container.docker.(image := ImageOf(overwrites, moduleName, gitCount))),
                 env := c.env.(bablModule := moduleName)))
  }

  /** `a` and `b` agree on every field that `conf` does not compute. */
  predicate AgreeOutsideInjected(a: Config, b: Config)
  {
    && a.container.containerType == b.container.containerType
    && a.container.docker.forcePullImage == b.container.docker.forcePullImage
    && a.container.docker.network == b.container.docker.network
    && a.container.docker.portMappings == b.container.docker.portMappings
    && a.container.docker.parameters == b.container.docker.parameters
    && a.container.options == b.container.options
    && a.container.volumes == b.container.volumes
    && a.instances == b.instances && a.cpus == b.cpus && a.mem == b.mem && a.uris == b.uris
    && a.env.serviceTags == b.env.serviceTags
    && a.env.bablModuleVersion == b.env.bablModuleVersion
    && a.env.bablCommand == b.env.bablCommand
    && a.cmd == b.cmd
  }

  /**
   * `conf` fails only on a malformed .babl-build.yml; otherwise its id,
   * image and module name are the computed ones, whatever the template or
   * the override said, and every other field is the merged one (the
   * template's when the file is absent).
   */
  lemma ResolveSpec(template: Config, localYml: YamlFile<Config>, overwrites: Config, moduleName: string, gitCount: string)
    ensures var r := Resolve(template, localYml, overwrites, moduleName, gitCount);
      && (r.Failure? <==> localYml.Malformed?)
      && (r.Failure? ==> r.error == MalformedLocalConfig)
      && (r.Success? ==>
            && r.value.id == Identity.ServiceType(overwrites.env.serviceTags) + "-" + moduleName
            && r.value.container.docker.image == Identity.Registry + r.value.id + ":" + "v" + Identity.TrimSpace(gitCount)
            && r.value.env.bablModule == moduleName)
  {
    Identity.ImageOfCheckout(IdOf(overwrites, moduleName), gitCount);
  }

  /** Every field that `conf` does not compute is the merged one (the template's when the file is absent). */
  lemma ResolveKeepsMerged(template: Config, localYml: YamlFile<Config>, overwrites: Config, moduleName: string, gitCount: string)
    requires !localYml.Malformed?
    ensures AgreeOutsideInjected(Resolve(template, localYml, overwrites, moduleName, gitCount).value, Base(template, localYml))
  {
  }

  /** An explicit `mem: 0` in .babl-build.yml survives `conf`; an absent `mem` keeps the template's. */
  lemma ResolveKeepsNullableMem(template: Config, local: Config, overwrites: Config, moduleName: string, gitCount: string)
    ensures local.mem == Some(0.0) ==>
      Resolve(template, Parsed(local), overwrites, moduleName, gitCount).value.mem == Some(0.0)
    ensures local.mem.None? ==>
      Resolve(template, Parsed(local), overwrites, moduleName, gitCount).value.mem == template.mem
    ensures Resolve(template, Unreadable, overwrites, moduleName, gitCount).value.mem == template.mem
  {
  }

  /**
   * The id's type comes from babl.yml and never from .babl-build.yml, so the
   * descriptor's SERVICE_TAGS can disagree with the type in its id.
   */
  lemma IdIgnoresLocalServiceTags(template: Config, local1: Config, local2: Config, overwrites: Config, moduleName: string, gitCount: string)
    ensures Resolve(template, Parsed(local1), overwrites, moduleName, gitCount).value.id
         == Resolve(template, Parsed(local2), overwrites, moduleName, gitCount).value.id
    ensures var c := Resolve(Zero, Parsed(Zero.(env := Zero.env.(serviceTags := "web"))), Zero, moduleName, gitCount).value;
      c.env.serviceTags == "web" && c.id == "babl-" + moduleName
  {
    assert IdOf(Zero, moduleName) == "babl-" + moduleName by {
      assert Identity.ServiceType(Zero.env.serviceTags) + "-" == "babl-";
    }
  }

  /**
   * The repository's test for `id` expects "larskluge/string-upcase" for the
   * fixture tagged "larskluge"; the code joins with a hyphen instead.
   */
  lemma FixtureId()
    ensures var ov := Zero.(env := Zero.env.(serviceTags := "larskluge"));
      && IdOf(ov, "string-upcase") == "larskluge-string-upcase"
      && IdOf(ov, "string-upcase") != "larskluge/string-upcase"
  {
    var id := IdOf(Zero.(env := Zero.env.(serviceTags := "larskluge")), "string-upcase");
    assert id[9] == '-';
  }

  /** When babl.yml cannot be used, the type is "babl" and `play` gets no extra options. */
  lemma MissingBablYmlDefaults(bablYml: YamlFile<Config>, moduleName: string, image: string)
    requires !bablYml.Parsed?
    ensures IdOf(Overwrites(bablYml), moduleName) == "babl-" + moduleName
    ensures Identity.PlayArgv(moduleName, Identity.ContainerOptions(Overwrites(bablYml).container.options), image)
         == Identity.RunPrefix(moduleName) + [image]
  {
  }

  /** `play` passes the options of babl.yml between the fixed docker arguments and the image. */
  lemma PlayUsesBablYmlOptions(options: seq<string>, moduleName: string, image: string)
    ensures var ov := Overwrites(Parsed(Zero.(container := Zero.container.(options := Some(options)))));
      var a := Identity.PlayArgv(moduleName, Identity.ContainerOptions(ov.container.options), image);
      a[10..|a| - 1] == options && a[|a| - 1] == image
  {
  }

  /** `deploy` (commands.go:159-192): resolve the descriptor, then POST it with retries. */
  function DeployRun(ws: Workspace, replies: nat -> Reply, sent: nat): Run
  {
    PostOrFail(DeployBody(ws), ws.marathonHost, replies, sent)
  }

  /** The JSON body `deploy` sends, or why `conf` stopped the process before it. */
  function DeployBody(ws: Workspace): Result<Json.Value, FatalReason>
  {
    var c := Resolve(ws.template, ws.localYml, Overwrites(ws.bablYml), ws.moduleName, ws.gitCount);
    if c.Failure? then Failure(c.error) else Success(Encode(c.value))
  }

  function PostOrFail(body: Result<Json.Value, FatalReason>, host: string, replies: nat -> Reply, sent: nat): Run
  {
    if body.Failure? then Run([Fatal(body.error)], sent, true)
    else PostAttempts(AppsUrl(host), body.value, replies, 0, sent)
  }

  /** Whatever the body, `deploy` starts no subprocess and sends at least one request once it has a body. */
  lemma PostOrFailShape(body: Result<Json.Value, FatalReason>, host: string, replies: nat -> Reply, sent: nat)
    ensures var r := PostOrFail(body, host, replies, sent);
      && (forall j :: 0 <= j < |r.events| ==> !r.events[j].Spawn?)
      && (body.Success? ==> r.sent > sent)
      && (body.Failure? ==> r.sent == sent)
  {
    if body.Success? {
      PostAttemptsSpawnNothing(AppsUrl(host), body.value, replies, 0, sent);
      PostAttemptsStops(AppsUrl(host), body.value, replies, 0, sent);
    }
  }

  /** `destroy` (commands.go:194-212). */
  function DestroyOf(ws: Workspace, replies: nat -> Reply, sent: nat): Run
  {
    DestroyRun(AppUrl(ws.marathonHost, WorkspaceId(ws)), replies, sent)
  }

  /** The subprocesses `dist` starts before it talks to the scheduler: `build` then `push`. */
  function DockerSteps(image: string, dryRun: bool): seq<Event>
  {
    BuildEvents(image, [], dryRun) + PushEvents(image, dryRun)
  }

  /** The id and the image of the module in `ws`, as every command computes them after `init`. */
  function WorkspaceId(ws: Workspace): string
  {
    IdOf(Overwrites(ws.bablYml), ws.moduleName)
  }

  function WorkspaceImage(ws: Workspace): string
  {
    ImageOf(Overwrites(ws.bablYml), ws.moduleName, ws.gitCount)
  }

  /** The second half of `dist`: `destroy`, then `deploy` unless `destroy` ended the process. */
  function DestroyThenDeploy(ws: Workspace, replies: nat -> Reply, sent: nat): Run
  {
    var d := DestroyOf(ws, replies, sent);
    if d.fatal then d
    else
      var p := DeployRun(ws, replies, d.sent);
      Run(d.events + p.events, p.sent, p.fatal)
  }

  /** `dist` (commands.go:213-221): build, push, destroy and deploy, stopping at the first fatal step. */
  function DistRun(ws: Workspace, replies: nat -> Reply, sent: nat): Run
  {
    var t := DestroyThenDeploy(ws, replies, sent);
    Run(DockerSteps(WorkspaceImage(ws), ws.dryRun) + t.events, t.sent, t.fatal)
  }

  /** A malformed .babl-build.yml stops `deploy` before any request. */
  lemma MalformedLocalStopsDeployEarly(ws: Workspace, replies: nat -> Reply, sent: nat)
    requires ws.localYml.Malformed?
    ensures DeployRun(ws, replies, sent) == Run([Fatal(MalformedLocalConfig)], sent, true)
  {
  }

  /**
   * With a usable .babl-build.yml, `deploy` POSTs the JSON form of the
   * resolved descriptor to the apps URL one to three times, one POST per
   * request sent.
   */
  lemma DeployPostsResolved(ws: Workspace, replies: nat -> Reply, sent: nat)
    requires !ws.localYml.Malformed?
    ensures var p, c := DeployRun(ws, replies, sent), Resolve(ws.template, ws.localYml, Overwrites(ws.bablYml), ws.moduleName, ws.gitCount);
      && c.Success? && p == PostAttempts(AppsUrl(ws.marathonHost), Encode(c.value), replies, 0, sent)
      && sent < p.sent <= sent + Retries
      && Count(p.events, IsPost) == p.sent - sent
  {
    var c := Resolve(ws.template, ws.localYml, Overwrites(ws.bablYml), ws.moduleName, ws.gitCount);
    assert DeployBody(ws) == Success(Encode(c.value));
    PostOrFailPosts(Encode(c.value), ws.marathonHost, replies, sent);
  }

  /** Once there is a body, `deploy` is the POST loop: one to three requests, each one a POST. */
  lemma PostOrFailPosts(body: Json.Value, host: string, replies: nat -> Reply, sent: nat)
    ensures var p := PostOrFail(Success(body), host, replies, sent);
      && p == PostAttempts(AppsUrl(host), body, replies, 0, sent)
      && sent < p.sent <= sent + Retries
      && Count(p.events, IsPost) == p.sent - sent
  {
    PostAttemptsStops(AppsUrl(host), body, replies, 0, sent);
    PostAttemptsCounts(AppsUrl(host), body, replies, 0, sent);
  }

  /** `destroy` sends one DELETE, addressed to the module's id under the apps URL. */
  lemma DestroyTargetsModule(ws: Workspace, replies: nat -> Reply, sent: nat)
    ensures var d := DestroyOf(ws, replies, sent);
      && d.sent == sent + 1 && d.events[0] == Request(Delete, AppsUrl(ws.marathonHost) + "/" + WorkspaceId(ws), None)
      && Count(d.events, IsDelete) == 1 && Count(d.events, IsPost) == 0
  {
    DestroyRunShape(AppUrl(ws.marathonHost, WorkspaceId(ws)), replies, sent);
  }

  /**
   * `dist` sends between one and four requests; it sends only the DELETE
   * exactly when the DELETE failed or .babl-build.yml is malformed.
   */
  lemma DistRequestCount(ws: Workspace, replies: nat -> Reply, sent: nat)
    ensures var r, d := DistRun(ws, replies, sent), DestroyOf(ws, replies, sent);
      && sent < r.sent <= sent + 1 + Retries
      && (r.sent == sent + 1 <==> d.fatal || ws.localYml.Malformed?)
  {
    var d := DestroyOf(ws, replies, sent);
    DestroyTargetsModule(ws, replies, sent);
    if !d.fatal && !ws.localYml.Malformed? {
      DeployPostsResolved(ws, replies, d.sent);
    }
  }

  /** `deploy` starts no subprocess. */
  lemma DeploySpawnsNothing(ws: Workspace, replies: nat -> Reply, sent: nat)
    ensures var p := DeployRun(ws, replies, sent);
      forall j :: 0 <= j < |p.events| ==> !p.events[j].Spawn?
  {
    PostOrFailShape(DeployBody(ws), ws.marathonHost, replies, sent);
  }

  /** `dist` without its docker steps begins with the DELETE and starts no subprocess. */
  lemma DestroyThenDeployShape(ws: Workspace, replies: nat -> Reply, sent: nat)
    ensures var t := DestroyThenDeploy(ws, replies, sent);
      && t.events != [] && IsDelete(t.events[0])
      && (forall j :: 0 <= j < |t.events| ==> !t.events[j].Spawn?)
  {
    DestroyThenPostShape(AppUrl(ws.marathonHost, WorkspaceId(ws)), DeployBody(ws), ws.marathonHost, replies, sent);
  }

  lemma DestroyThenPostShape(url: string, body: Result<Json.Value, FatalReason>, host: string, replies: nat -> Reply, sent: nat)
    ensures var d := DestroyRun(url, replies, sent);
      var p := PostOrFail(body, host, replies, d.sent);
      var t := if d.fatal then d else Run(d.events + p.events, p.sent, p.fatal);
      && t.events != [] && IsDelete(t.events[0])
      && (forall j :: 0 <= j < |t.events| ==> !t.events[j].Spawn?)
  {
    var d := DestroyRun(url, replies, sent);
    PostOrFailShape(body, host, replies, d.sent);
    ThenShape(d, PostOrFail(body, host, replies, d.sent));
  }

  /** A DELETE-first run without subprocesses, followed (unless fatal) by another run without subprocesses. */
  lemma ThenShape(d: Run, p: Run)
    requires d.events != [] && IsDelete(d.events[0])
    requires forall j :: 0 <= j < |d.events| ==> !d.events[j].Spawn?
    requires forall j :: 0 <= j < |p.events| ==> !p.events[j].Spawn?
    ensures var t := if d.fatal then d else Run(d.events + p.events, p.sent, p.fatal);
      && t.events != [] && IsDelete(t.events[0])
      && (forall j :: 0 <= j < |t.events| ==> !t.events[j].Spawn?)
  {
    Split(d.events, p.events);
  }

  /** The docker steps of `dist` send no request. */
  lemma DockerStepsNoRequest(image: string, dryRun: bool)
    ensures var s := DockerSteps(image, dryRun);
      && (forall j :: 0 <= j < |s| ==> !s[j].Request?)
      && Count(s, IsPost) == 0
  {
    var s := DockerSteps(image, dryRun);
    DockerStepsSendNoRequest(image, [], dryRun);
    assert forall j :: 0 <= j < |s| ==> s[j] in s;
    CountNone(s, IsPost);
  }

  /**
   * `dist` runs its steps in order: its events begin with those of `build`
   * and `push`, none of which is a request, and the next one is the DELETE.
   */
  lemma DistDeletesAfterDockerSteps(ws: Workspace, replies: nat -> Reply, sent: nat)
    ensures var r, k := DistRun(ws, replies, sent), |DockerSteps(WorkspaceImage(ws), ws.dryRun)|;
      && k < |r.events| && r.events[..k] == DockerSteps(WorkspaceImage(ws), ws.dryRun) && IsDelete(r.events[k])
      && (forall j :: 0 <= j < k ==> !r.events[j].Request?)
  {
    var docker := DockerSteps(WorkspaceImage(ws), ws.dryRun);
    var t := DestroyThenDeploy(ws, replies, sent);
    DestroyThenDeployShape(ws, replies, sent);
    DockerStepsNoRequest(WorkspaceImage(ws), ws.dryRun);
    Split(docker, t.events);
  }

  /** Indexing into a concatenation. */
  lemma Split(a: seq<Event>, b: seq<Event>)
    ensures (a + b)[..|a|] == a && (a + b)[|a|..] == b
    ensures forall j :: 0 <= j < |a| ==> (a + b)[j] == a[j]
    ensures forall j :: |a| <= j < |a + b| ==> (a + b)[j] == b[j - |a|]
  {
  }

  lemma AppendTwice(before: seq<Event>, a: seq<Event>, b: seq<Event>, after: seq<Event>)
    requires after == before + a + b
    ensures after == before + (a + b)
  {
  }

  lemma DistRunSteps(ws: Workspace, replies: nat -> Reply, sent: nat)
    ensures var d := DestroyOf(ws, replies, sent);
      DistRun(ws, replies, sent).events
      == BuildEvents(WorkspaceImage(ws), [], ws.dryRun) + PushEvents(WorkspaceImage(ws), ws.dryRun)
         + (if d.fatal then d.events else d.events + DeployRun(ws, replies, d.sent).events)
  {
  }

  /** After the DELETE, `dist` starts no subprocess. */
  lemma DistSpawnsNothingAfterDelete(ws: Workspace, replies: nat -> Reply, sent: nat)
    ensures var r, k := DistRun(ws, replies, sent), |DockerSteps(WorkspaceImage(ws), ws.dryRun)|;
      forall j :: k <= j < |r.events| ==> !r.events[j].Spawn?
  {
    DestroyThenDeployShape(ws, replies, sent);
    Split(DockerSteps(WorkspaceImage(ws), ws.dryRun), DestroyThenDeploy(ws, replies, sent).events);
  }

  /**
   * A DELETE that fails ends `dist` with no POST, and a POST is sent only
   * after the scheduler accepted the DELETE.
   */
  lemma DistPostsOnlyAfterAcceptedDelete(ws: Workspace, replies: nat -> Reply, sent: nat)
    ensures var r := DistRun(ws, replies, sent);
      && (DestroyOf(ws, replies, sent).fatal ==> r.fatal && Count(r.events, IsPost) == 0)
      && (Count(r.events, IsPost) > 0 ==> replies(sent).Response? && Is2xx(replies(sent).status))
  {
    DestroyRunShape(AppUrl(ws.marathonHost, WorkspaceId(ws)), replies, sent);
    var docker := DockerSteps(WorkspaceImage(ws), ws.dryRun);
    var t := DestroyThenDeploy(ws, replies, sent);
    DockerStepsNoRequest(WorkspaceImage(ws), ws.dryRun);
    CountConcat(docker, t.events, IsPost);
  }

  /**
   * A dry run starts no subprocess but sends the same requests as a real
   * run: the DELETE, and the POST once the DELETE was accepted and
   * .babl-build.yml is usable, because `--dry-run` only reaches `execute`.
   */
  lemma DryRunStillTalksToScheduler(ws: Workspace, replies: nat -> Reply, sent: nat)
    ensures DistRun(ws.(dryRun := true), replies, sent).sent == DistRun(ws.(dryRun := false), replies, sent).sent
    ensures DistRun(ws.(dryRun := true), replies, sent).sent > sent
  {
    var d := DestroyOf(ws, replies, sent);
    assert DestroyOf(ws.(dryRun := true), replies, sent) == d == DestroyOf(ws.(dryRun := false), replies, sent);
    assert DeployBody(ws.(dryRun := true)) == DeployBody(ws) == DeployBody(ws.(dryRun := false));
    PostOrFailShape(DeployBody(ws), ws.marathonHost, replies, d.sent);
    assert DestroyThenDeploy(ws.(dryRun := true), replies, sent) == DestroyThenDeploy(ws.(dryRun := false), replies, sent);
  }

  /**
   * Within `dist`, a malformed .babl-build.yml is found only after the
   * application was deleted: the DELETE goes out, and then the process stops.
   */
  lemma DistDeletesBeforeConfigCheck(ws: Workspace, replies: nat -> Reply, sent: nat)
    requires ws.localYml.Malformed? && replies(sent).Response? && Is2xx(replies(sent).status)
    ensures var r := DistRun(ws, replies, sent);
      && r.fatal && r.sent == sent + 1 && Count(r.events, IsPost) == 0
      && r.events[|r.events| - 1] == Fatal(MalformedLocalConfig)
  {
    var docker := DockerSteps(WorkspaceImage(ws), ws.dryRun);
    var t := DestroyThenDeploy(ws, replies, sent);
    DestroyThenMalformed(ws, replies, sent);
    DockerStepsNoRequest(WorkspaceImage(ws), ws.dryRun);
    AfterPostFree(docker, t.events);
  }

  /** Behind a prefix without POST, the POSTs and the last event are those of the suffix. */
  lemma AfterPostFree(a: seq<Event>, b: seq<Event>)
    requires Count(a, IsPost) == 0 && b != []
    ensures Count(a + b, IsPost) == Count(b, IsPost) && (a + b)[|a + b| - 1] == b[|b| - 1]
  {
    CountConcat(a, b, IsPost);
  }

  lemma DestroyThenMalformed(ws: Workspace, replies: nat -> Reply, sent: nat)
    requires ws.localYml.Malformed? && replies(sent).Response? && Is2xx(replies(sent).status)
    ensures var t := DestroyThenDeploy(ws, replies, sent);
      && t.fatal && t.sent == sent + 1 && Count(t.events, IsPost) == 0
      && t.events != [] && t.events[|t.events| - 1] == Fatal(MalformedLocalConfig)
  {
    var d := DestroyOf(ws, replies, sent);
    MalformedLocalStopsDeployEarly(ws, replies, d.sent);
    CountConcat(d.events, [Fatal(MalformedLocalConfig)], IsPost);
  }

  /**
   * The process: the package-level state of commands.go and config.go
   * (`overwrites`), the requests sent so far, the trace of what it did, and
   * whether it has exited through log.Fatal.
   */
  class Tool {
    const ws: Workspace
    const replies: nat -> Reply
    var overwrites: Config
    var sent: nat
    var trace: seq<Event>
    var exited: bool

    ghost predicate Valid()
      reads this`overwrites
    {
      overwrites == Overwrites(ws.bablYml)
    }

    /** Process start-up, including `init` of config.go:50-54. */
    constructor (ws: Workspace, replies: nat -> Reply)
      ensures this.ws == ws && this.replies == replies
      ensures Valid() && sent == 0 && trace == [] && !exited
    {
      this.ws := ws;
      this.replies := replies;
      overwrites := Zero;
      if ws.bablYml.Parsed? {
        overwrites := ws.bablYml.doc;
      }
      sent := 0;
      trace := [];
      exited := false;
    }

    function Id(): string
      reads this`overwrites
    {
      IdOf(overwrites, ws.moduleName)
    }

    function Image(): string
      reads this`overwrites
    {
      ImageOf(overwrites, ws.moduleName, ws.gitCount)
    }

    /** `conf` (commands.go:31-53). */
    method Conf() returns (res: Result<Config, FatalReason>)
      requires Valid()
      ensures res == Resolve(ws.template, ws.localYml, overwrites, ws.moduleName, ws.gitCount)
    {
      var c := ws.template;
      if ws.localYml.Malformed? {
        return Failure(MalformedLocalConfig);
      }
      if ws.localYml.Parsed? {
        c := Merge(c, ws.localYml.doc);
      }
      c := c.(id := Id());
      c := c.(container := c.container.(docker := c.container.docker.(image := Image())));
      c := c.(env := c.env.(bablModule := ws.moduleName));
      return Success(c);
    }

    /** `execute` (commands.go:62-75), with the subprocess assumed to succeed. */
    method Execute(argv: seq<string>)
      requires argv != []
      modifies this`trace
      ensures trace == old(trace) + ExecEvents(argv, ws.dryRun)
    {
      trace := trace + [Stdout(argv[0] + " " + Join(argv[1..]))];
      if !ws.dryRun {
        trace := trace + [Spawn(argv)];
      }
    }

    method Build(args: seq<string>)
      requires Valid()
      modifies this`trace
      ensures trace == old(trace) + BuildEvents(WorkspaceImage(ws), args, ws.dryRun)
    {
      ghost var before := trace;
      var image := Image();
      Execute(Identity.BuildArgv(image, args));
      Execute(Identity.TagArgv(image));
      AppendTwice(before, ExecEvents(Identity.BuildArgv(image, args), ws.dryRun), ExecEvents(Identity.TagArgv(image), ws.dryRun), trace);
    }

    method Push()
      requires Valid()
      modifies this`trace
      ensures trace == old(trace) + PushEvents(WorkspaceImage(ws), ws.dryRun)
    {
      ghost var before := trace;
      var image := Image();
      var latest := Identity.ImageLatest(image);
      Execute(Identity.PushArgv(image));
      Execute(Identity.PushArgv(latest));
      AppendTwice(before, ExecEvents(Identity.PushArgv(image), ws.dryRun), ExecEvents(Identity.PushArgv(latest), ws.dryRun), trace);
    }

    /** `play` (commands.go:222-232). */
    method Play()
      modifies this`trace
      ensures trace == old(trace)
        + ExecEvents(Identity.PlayArgv(ws.moduleName, Identity.ContainerOptions(overwrites.container.options), Image()), ws.dryRun)
    {
      var argv := Identity.RunPrefix(ws.moduleName);
      argv := argv + Identity.ContainerOptions(overwrites.container.options);
      argv := argv + [Image()];
      Execute(argv);
    }

    /** `sh` (commands.go:233-243). */
    method Sh()
      modifies this`trace
      ensures trace == old(trace)
        + ExecEvents(Identity.ShArgv(ws.moduleName, Identity.ContainerOptions(overwrites.container.options), Image()), ws.dryRun)
    {
      var argv := Identity.RunPrefix(ws.moduleName);
      argv := argv + Identity.ContainerOptions(overwrites.container.options);
      argv := argv + [Image(), "sh"];
      Execute(argv);
    }

    /** `version` (commands.go:137-142). */
    method PrintVersion()
      modifies this`trace
      ensures trace == old(trace) + [Stdout(Identity.Version(ws.gitCount))]
    {
      trace := trace + [Stdout(Identity.Version(ws.gitCount))];
    }

    /** `config` (commands.go:143-151): the resolved descriptor as JSON on stdout. */
    method PrintConfig()
      requires Valid()
      modifies this`trace, this`exited
      ensures var c := Resolve(ws.template, ws.localYml, overwrites, ws.moduleName, ws.gitCount);
        && trace == old(trace) + (if c.Success? then [JsonOut(Encode(c.value))] else [Fatal(c.error)])
        && exited == (old(exited) || c.Failure?)
    {
      var c := Conf();
      if c.Failure? {
        trace := trace + [Fatal(c.error)];
        exited := true;
      } else {
        trace := trace + [JsonOut(Encode(c.value))];
      }
    }

    /** `deploy` (commands.go:159-192): resolve the descriptor and POST its JSON form. */
    method Deploy()
      requires Valid() && !exited
      modifies this`trace, this`sent, this`exited
      ensures var r := DeployRun(ws, replies, old(sent));
        trace == old(trace) + r.events && sent == r.sent && exited == r.fatal
    {
      var c := Conf();
      if c.Failure? {
        trace := trace + [Fatal(c.error)];
        exited := true;
        return;
      }
      var events, n, fatal := PostWithRetries(AppsUrl(ws.marathonHost), Encode(c.value), replies, sent);
      trace := trace + events;
      sent := n;
      exited := fatal;
    }

    /** `destroy` (commands.go:194-212). */
    method Destroy()
      requires Valid() && !exited
      modifies this`trace, this`sent, this`exited
      ensures var r := DestroyOf(ws, replies, old(sent));
        trace == old(trace) + r.events && sent == r.sent && exited == r.fatal
    {
      var events, n, fatal := DeleteOnce(AppUrl(ws.marathonHost, Id()), replies, sent);
      trace := trace + events;
      sent := n;
      exited := fatal;
    }

    /** The first half of `dist`: `build` without extra arguments, then `push`. */
    method BuildAndPush()
      requires Valid()
      modifies this`trace
      ensures trace == old(trace) + DockerSteps(WorkspaceImage(ws), ws.dryRun)
    {
      ghost var before := trace;
      Build([]);
      Push();
      AppendTwice(before, BuildEvents(WorkspaceImage(ws), [], ws.dryRun), PushEvents(WorkspaceImage(ws), ws.dryRun), trace);
    }

    /** The second half of `dist`: `destroy`, then `deploy` unless `destroy` ended the process. */
    method DestroyAndDeploy()
      requires Valid() && !exited
      modifies this`trace, this`sent, this`exited
      ensures var t := DestroyThenDeploy(ws, replies, old(sent));
        trace == old(trace) + t.events && sent == t.sent && exited == t.fatal
    {
      ghost var before, start := trace, sent;
      Destroy();
      if !exited {
        ghost var d := DestroyOf(ws, replies, start);
        Deploy();
        AppendTwice(before, d.events, DeployRun(ws, replies, d.sent).events, trace);
      }
    }

    /** `dist` (commands.go:213-221). */
    method Dist()
      requires Valid() && !exited
      modifies this`trace, this`sent, this`exited
      ensures var t := DestroyThenDeploy(ws, replies, old(sent));
        && trace == old(trace) + DockerSteps(WorkspaceImage(ws), ws.dryRun) + t.events
        && sent == t.sent && exited == t.fatal
    {
      BuildAndPush();
      DestroyAndDeploy();
    }
  }
}

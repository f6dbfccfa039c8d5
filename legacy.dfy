/**
 * The legacy single-file revision (babl-build.go). Its identity strings and
 * docker commands are those of the current revision (module Identity); what
 * differs is the descriptor record (no port mappings, parameters or module
 * version, and a `mem` that is a plain number), the single file
 * .babl-build.yml that provides both the `init` overrides and the merge
 * layer, and a `deploy` that sends one POST and never retries.
 */
module Legacy {

  import opened Wrappers
  import opened Json
  import Identity
  import Descriptor
  import opened Effects
  import opened Scheduler
  import Commands

  datatype Docker = Docker(image: string, forcePullImage: bool, network: string)

  datatype Container = Container(
    containerType: string,
    docker: Docker,
    options: Option<seq<string>>,
    volumes: Option<seq<Descriptor.Volume>>)

  datatype Env = Env(serviceTags: string, bablModule: string, bablCommand: string)

  /** The `config` record of babl-build.go:26-52; `mem` is a float64, never absent. */
  datatype Config = Config(
    id: string,
    container: Container,
    instances: int,
    cpus: real,
    mem: real,
    uris: Option<seq<string>>,
    env: Env,
    cmd: string)

  const Zero := Config("", Container("", Docker("", false, ""), None, None), 0, 0.0, 0.0, None, Env("", "", ""), "")

  /** `init` (babl-build.go:164-168): the overrides come from .babl-build.yml; a parse error is discarded. */
  function Overwrites(localYml: Descriptor.YamlFile<Config>): Config
  {
    if localYml.Parsed? then localYml.doc else Zero
  }

  // mergo.MergeWithOverwrite on the legacy record: a field is taken from the
  // override when it is not Go's zero value, so `mem: 0` counts as unset.

  function MergeDocker(t: Docker, o: Docker): Docker
  {
    Docker(Descriptor.Pick(t.image, o.image, ""), Descriptor.Pick(t.forcePullImage, o.forcePullImage, false), Descriptor.Pick(t.network, o.network, ""))
  }

  function MergeContainer(t: Container, o: Container): Container
  {
    Container(Descriptor.Pick(t.containerType, o.containerType, ""), MergeDocker(t.docker, o.docker),
               Descriptor.PickList(t.options, o.options), Descriptor.PickList(t.volumes, o.volumes))
  }

  function MergeEnv(t: Env, o: Env): Env
  {
    Env(Descriptor.Pick(t.serviceTags, o.serviceTags, ""), Descriptor.Pick(t.bablModule, o.bablModule, ""), Descriptor.Pick(t.bablCommand, o.bablCommand, ""))
  }

  function Merge(t: Config, o: Config): Config
  {
    Config(Descriptor.Pick(t.id, o.id, ""), MergeContainer(t.container, o.container),
            Descriptor.Pick(t.instances, o.instances, 0), Descriptor.Pick(t.cpus, o.cpus, 0.0), Descriptor.Pick(t.mem, o.mem, 0.0),
            Descriptor.PickList(t.uris, o.uris), MergeEnv(t.env, o.env), Descriptor.Pick(t.cmd, o.cmd, ""))
  }

  /**
   * An override cannot set `mem` to zero in the legacy revision: `mem: 0` is
   * the zero value and leaves the template's `mem`, where the current
   * revision's nullable `mem` keeps an explicit zero.
   */
  lemma ZeroMemCannotOverride(t: Config, o: Config, d: Descriptor.Config, p: Descriptor.Config)
    ensures Merge(t, o.(mem := 0.0)).mem == t.mem
    ensures o.mem != 0.0 ==> Merge(t, o).mem == o.mem
    ensures Descriptor.Merge(d, p.(mem := Some(0.0))).mem == Some(0.0)
  {
  }

  /** Field by field, the override's value wins when it is not the zero value; `mem: 0` is the zero value. */
  lemma MergeTakesSetFields(t: Config, o: Config)
    ensures var r := Merge(t, o);
      && r.id == (if o.id != "" then o.id else t.id)
      && r.instances == (if o.instances != 0 then o.instances else t.instances)
      && r.cpus == (if o.cpus != 0.0 then o.cpus else t.cpus)
      && r.mem == (if o.mem != 0.0 then o.mem else t.mem)
      && r.uris == (if Descriptor.IsEmpty(o.uris) then t.uris else o.uris)
      && r.env.serviceTags == (if o.env.serviceTags != "" then o.env.serviceTags else t.env.serviceTags)
      && r.container.options == (if Descriptor.IsEmpty(o.container.options) then t.container.options else o.container.options)
      && r.container.docker.forcePullImage == (t.container.docker.forcePullImage || o.container.docker.forcePullImage)
      && r.cmd == (if o.cmd != "" then o.cmd else t.cmd)
      && r.container.containerType == (if o.container.containerType != "" then o.container.containerType else t.container.containerType)
      && r.container.docker.image == (if o.container.docker.image != "" then o.container.docker.image else t.container.docker.image)
      && r.container.docker.network == (if o.container.docker.network != "" then o.container.docker.network else t.container.docker.network)
      && r.container.volumes == (if Descriptor.IsEmpty(o.container.volumes) then t.container.volumes else o.container.volumes)
      && r.env.bablModule == (if o.env.bablModule != "" then o.env.bablModule else t.env.bablModule)
      && r.env.bablCommand == (if o.env.bablCommand != "" then o.env.bablCommand else t.env.bablCommand)
  {
  }

  /** An override that sets nothing leaves the template unchanged. */
  lemma MergeZeroOverride(t: Config)
    ensures Merge(t, Zero) == t
  {
  }

  /** Merging the same override twice is merging it once. */
  lemma MergeIdempotent(t: Config, o: Config)
    ensures Merge(Merge(t, o), o) == Merge(t, o)
  {
  }

  /** The JSON form (babl-build.go:26-52): `options` and `volumes` are omitempty, everything else is always written. */
  function EncodeContainer(c: Container): (r: Value)
    ensures r.Obj? && {"type", "docker"} <= r.fields.Keys
    ensures "options" in r.fields <==> !Descriptor.IsEmpty(c.options)
    ensures "volumes" in r.fields <==> !Descriptor.IsEmpty(c.volumes)
    ensures r.fields.Keys <= {"type", "docker", "options", "volumes"}
  {
    var docker := Obj(map["image" := Str(c.docker.image), "forcePullImage" := Bool(c.docker.forcePullImage),
                          "network" := Str(c.docker.network)]);
    var m := map["type" := Str(c.containerType), "docker" := docker];
    var m := if Descriptor.IsEmpty(c.options) then m else m["options" := Arr(Descriptor.EncodeStrings(c.options.value))];
    var m := if Descriptor.IsEmpty(c.volumes) then m else m["volumes" := Arr(Descriptor.EncodeVolumes(c.volumes.value))];
    Obj(m)
  }

  /** `mem` is always a number, `uris` is null exactly when nil, and there is no module version. */
  function Encode(c: Config): (r: Value)
    ensures r.Obj? && r.fields.Keys == {"id", "container", "instances", "cpus", "mem", "uris", "env", "cmd"}
    ensures r.fields["mem"] == Num(c.mem)
    ensures r.fields["uris"].Null? <==> c.uris.None?
    ensures r.fields["env"].Obj? && r.fields["env"].fields.Keys == {"SERVICE_TAGS", "BABL_MODULE", "BABL_COMMAND"}
  {
    Obj(map[
      "id" := Str(c.id),
      "container" := EncodeContainer(c.container),
      "instances" := Num(c.instances as real),
      "cpus" := Num(c.cpus),
      "mem" := Num(c.mem),
      "uris" := (if c.uris.Some? then Arr(Descriptor.EncodeStrings(c.uris.value)) else Null),
      "env" := Obj(map["SERVICE_TAGS" := Str(c.env.serviceTags), "BABL_MODULE" := Str(c.env.bablModule),
                       "BABL_COMMAND" := Str(c.env.bablCommand)]),
      "cmd" := Str(c.cmd)])
  }

  /** An absent `mem` and `mem: 0` are written identically: the legacy JSON cannot tell them apart. */
  lemma ZeroMemIsWritten(c: Config)
    ensures Encode(c.(mem := 0.0)).fields["mem"] == Num(0.0)
    ensures Encode(c.(mem := 0.0)) == Encode(Merge(c.(mem := 0.0), Zero))
  {
    assert Merge(c.(mem := 0.0), Zero) == c.(mem := 0.0);
  }

  /** What the legacy process finds when it starts: there is no babl.yml. */
  datatype Workspace = Workspace(
    template: Config,
    localYml: Descriptor.YamlFile<Config>,
    moduleName: string,
    gitCount: string,
    marathonHost: string,
    dryRun: bool)

  function WorkspaceId(ws: Workspace): string
  {
    Identity.Id(Identity.ServiceType(Overwrites(ws.localYml).env.serviceTags), ws.moduleName)
  }

  function WorkspaceImage(ws: Workspace): string
  {
    Identity.Image(WorkspaceId(ws), Identity.Version(ws.gitCount))
  }

  /** `conf` (babl-build.go:114-136). */
  function Resolve(ws: Workspace): Result<Config, FatalReason>
  {
    if ws.localYml.Malformed? then Failure(MalformedLocalConfig)
    else
      var c := if ws.localYml.Parsed? then Merge(ws.template, ws.localYml.doc) else ws.template;
      Success(c.(id := WorkspaceId(ws),
                 container := c.container.(docker := c.container.docker.(image := WorkspaceImage(ws))),
                 env := c.env.(bablModule := ws.moduleName)))
  }

  /** `conf` fails only on a malformed file; otherwise it carries the computed id, image and module name. */
  lemma ResolveSpec(ws: Workspace)
    ensures Resolve(ws).Failure? <==> ws.localYml.Malformed?
    ensures Resolve(ws).Success? ==>
      && Resolve(ws).value.id == WorkspaceId(ws)
      && Resolve(ws).value.container.docker.image == Identity.Registry + WorkspaceId(ws) + ":" + "v" + Identity.TrimSpace(ws.gitCount)
      && Resolve(ws).value.env.bablModule == ws.moduleName
  {
    Identity.ImageOfCheckout(WorkspaceId(ws), ws.gitCount);
  }

  /**
   * Because the overrides and the merge layer are the same file, a
   * .babl-build.yml that sets SERVICE_TAGS gives the descriptor that value
   * and an id of that type.
   */
  lemma LocalServiceTagsApply(ws: Workspace)
    requires ws.localYml.Parsed? && ws.localYml.doc.env.serviceTags != ""
    ensures Resolve(ws).value.env.serviceTags == ws.localYml.doc.env.serviceTags
    ensures Resolve(ws).value.id == ws.localYml.doc.env.serviceTags + "-" + ws.moduleName
  {
  }

  /** A malformed .babl-build.yml still leaves the default type for `build` and `push`, but stops `conf`. */
  lemma MalformedFileDefaultsType(ws: Workspace)
    requires ws.localYml.Malformed?
    ensures WorkspaceId(ws) == "babl-" + ws.moduleName
    ensures Resolve(ws).Failure?
  {
  }

  /** `deploy` (babl-build.go:203-227): one POST of the descriptor, no retry. */
  function DeployRun(ws: Workspace, replies: nat -> Reply, sent: nat): Run
  {
    var body := DeployBody(ws);
    if body.Failure? then Run([Fatal(body.error)], sent, true)
    else SinglePost(AppsUrl(ws.marathonHost), body.value, replies, sent)
  }

  /** The JSON body the legacy `deploy` sends, or why `conf` stopped the process before it. */
  function DeployBody(ws: Workspace): Result<Value, FatalReason>
  {
    var c := Resolve(ws);
    if c.Failure? then Failure(c.error) else Success(Encode(c.value))
  }

  /**
   * The legacy `deploy` sends exactly one POST whatever the reply, a 409
   * included, never sleeps, never logs the status, and fails only on a
   * transport error; the body is echoed only for a status in [200, 400).
   */
  lemma DeploySendsOnce(ws: Workspace, replies: nat -> Reply, sent: nat)
    requires !ws.localYml.Malformed?
    ensures var r := DeployRun(ws, replies, sent);
      && r.sent == sent + 1 && Count(r.events, IsPost) == 1 && Count(r.events, IsSleep) == 0
      && (r.fatal <==> replies(sent).TransportError?)
      && (replies(sent).Response? ==> (Stdout(replies(sent).body) in r.events <==> 200 <= replies(sent).status < 400))
  {
    assert DeployBody(ws).Success?;
    SinglePostNeverSleeps(AppsUrl(ws.marathonHost), DeployBody(ws).value, replies, sent);
  }

  /** A malformed .babl-build.yml ends the legacy `deploy` before any request. */
  lemma MalformedStopsDeploy(ws: Workspace, replies: nat -> Reply, sent: nat)
    requires ws.localYml.Malformed?
    ensures DeployRun(ws, replies, sent) == Run([Fatal(MalformedLocalConfig)], sent, true)
  {
  }

  /** The same conflict that the current revision retries up to three times. */
  lemma DeployGivesUpOnConflict(ws: Workspace, replies: nat -> Reply, sent: nat)
    requires !ws.localYml.Malformed? && replies(sent) == Response(StatusConflict, "conflict")
    ensures var r := DeployRun(ws, replies, sent);
      !r.fatal && r.sent == sent + 1 && Stdout("conflict") !in r.events
  {
  }

  /** `destroy` (babl-build.go:228-246): one DELETE of the application named by the legacy id. */
  function DestroyOf(ws: Workspace, replies: nat -> Reply, sent: nat): Run
  {
    DestroyRun(AppUrl(ws.marathonHost, WorkspaceId(ws)), replies, sent)
  }

  /**
   * The legacy `destroy` sends one DELETE, addressed under the apps URL to
   * the id whose type comes from the service tags of .babl-build.yml.
   */
  lemma DestroyTargetsModule(ws: Workspace, replies: nat -> Reply, sent: nat)
    ensures var d, tags := DestroyOf(ws, replies, sent), Overwrites(ws.localYml).env.serviceTags;
      && d.sent == sent + 1 && Count(d.events, IsDelete) == 1 && Count(d.events, IsPost) == 0
      && d.events[0] == Request(Delete, AppsUrl(ws.marathonHost) + "/" + Identity.ServiceType(tags) + "-" + ws.moduleName, None)
  {
    DestroyRunShape(AppUrl(ws.marathonHost, WorkspaceId(ws)), replies, sent);
  }

  /** `destroy` followed by `deploy`, stopping when `destroy` ended the process. */
  function DestroyThenDeploy(ws: Workspace, replies: nat -> Reply, sent: nat): Run
  {
    var d := DestroyOf(ws, replies, sent);
    if d.fatal then d
    else
      var p := DeployRun(ws, replies, d.sent);
      Run(d.events + p.events, p.sent, p.fatal)
  }

  /** `dist` (babl-build.go:247-255): build, push, destroy, deploy. */
  function DistRun(ws: Workspace, replies: nat -> Reply, sent: nat): Run
  {
    var t := DestroyThenDeploy(ws, replies, sent);
    Run(Commands.DockerSteps(WorkspaceImage(ws), ws.dryRun) + t.events, t.sent, t.fatal)
  }

  /**
   * The legacy `dist` sends the DELETE first; it sends one POST exactly when
   * the DELETE was accepted and the descriptor could be resolved, and at most
   * two requests in all.
   */
  lemma DistRequests(ws: Workspace, replies: nat -> Reply, sent: nat)
    ensures var r := DistRun(ws, replies, sent);
      && r.sent <= sent + 2
      && (Count(r.events, IsPost) == 1 <==>
            replies(sent).Response? && Is2xx(replies(sent).status) && !ws.localYml.Malformed?)
      && Count(r.events, IsPost) <= 1
  {
    var docker := Commands.DockerSteps(WorkspaceImage(ws), ws.dryRun);
    var t := DestroyThenDeploy(ws, replies, sent);
    DestroyThenDeployPosts(ws, replies, sent);
    Commands.DockerStepsNoRequest(WorkspaceImage(ws), ws.dryRun);
    CountConcat(docker, t.events, IsPost);
  }

  /** The legacy `dist` runs `build` and `push` first, without any request, and then sends the DELETE. */
  lemma DistDeletesAfterDockerSteps(ws: Workspace, replies: nat -> Reply, sent: nat)
    ensures var r, k := DistRun(ws, replies, sent), |Commands.DockerSteps(WorkspaceImage(ws), ws.dryRun)|;
      && k < |r.events| && r.events[..k] == Commands.DockerSteps(WorkspaceImage(ws), ws.dryRun)
      && r.events[k] == Request(Delete, AppUrl(ws.marathonHost, WorkspaceId(ws)), None)
      && (forall j :: 0 <= j < k ==> !r.events[j].Request?)
  {
    var docker := Commands.DockerSteps(WorkspaceImage(ws), ws.dryRun);
    var t := DestroyThenDeploy(ws, replies, sent);
    var d := DestroyOf(ws, replies, sent);
    assert t.events[0] == d.events[0] by {
      if !d.fatal {
        Commands.Split(d.events, DeployRun(ws, replies, d.sent).events);
      }
    }
    Commands.DockerStepsNoRequest(WorkspaceImage(ws), ws.dryRun);
    Commands.Split(docker, t.events);
  }

  lemma DestroyThenDeployPosts(ws: Workspace, replies: nat -> Reply, sent: nat)
    ensures var t := DestroyThenDeploy(ws, replies, sent);
      && t.sent <= sent + 2
      && (Count(t.events, IsPost) == 1 <==>
            replies(sent).Response? && Is2xx(replies(sent).status) && !ws.localYml.Malformed?)
      && Count(t.events, IsPost) <= 1
  {
    var d := DestroyOf(ws, replies, sent);
    DestroyRunShape(AppUrl(ws.marathonHost, WorkspaceId(ws)), replies, sent);
    if !d.fatal {
      var p := DeployRun(ws, replies, d.sent);
      CountConcat(d.events, p.events, IsPost);
      if ws.localYml.Malformed? {
        assert p.events == [Fatal(MalformedLocalConfig)];
        CountNone(p.events, IsPost);
      }
    }
  }

  /** The command line of the legacy `play` (babl-build.go:256-266): the options come from .babl-build.yml. */
  function PlayArgv(ws: Workspace): seq<string>
  {
    Identity.PlayArgv(ws.moduleName, Identity.ContainerOptions(Overwrites(ws.localYml).container.options), WorkspaceImage(ws))
  }

  /** The command line of the legacy `sh` (babl-build.go:267-277). */
  function ShArgv(ws: Workspace): seq<string>
  {
    Identity.ShArgv(ws.moduleName, Identity.ContainerOptions(Overwrites(ws.localYml).container.options), WorkspaceImage(ws))
  }

  /**
   * The legacy `play` passes the options of .babl-build.yml, the same file
   * that `conf` merges, between the fixed docker arguments and the image; a
   * missing or malformed file gives no options.
   */
  lemma PlayUsesLocalOptions(ws: Workspace)
    ensures var a := PlayArgv(ws);
      && a[10..|a| - 1] == (if ws.localYml.Parsed? then Identity.ContainerOptions(ws.localYml.doc.container.options) else [])
      && a[|a| - 1] == WorkspaceImage(ws)
      && ShArgv(ws) == a + ["sh"]
  {
    var options := Identity.ContainerOptions(Overwrites(ws.localYml).container.options);
    Identity.PlayArgvLayout(ws.moduleName, options, WorkspaceImage(ws));
  }

  lemma DistRunSteps(ws: Workspace, replies: nat -> Reply, sent: nat)
    ensures var d := DestroyOf(ws, replies, sent);
      DistRun(ws, replies, sent).events
      == BuildEvents(WorkspaceImage(ws), [], ws.dryRun) + PushEvents(WorkspaceImage(ws), ws.dryRun)
         + (if d.fatal then d.events else d.events + DeployRun(ws, replies, d.sent).events)
  {
  }

  /**
   * The legacy process: the package-level `overwrites` of babl-build.go:54-61
   * and what it did so far.
   */
  class Tool {
    const ws: Workspace
    const replies: nat -> Reply
    var overwrites: Config
    var sent: nat
    var trace: seq<Event>
    var exited: bool

    ghost predicate Valid()
      reads this`overwrites
    {
      overwrites == Overwrites(ws.localYml)
    }

    /** Process start-up, including `init` of babl-build.go:164-168. */
    constructor (ws: Workspace, replies: nat -> Reply)
      ensures this.ws == ws && this.replies == replies
      ensures Valid() && sent == 0 && trace == [] && !exited
    {
      this.ws := ws;
      this.replies := replies;
      overwrites := Zero;
      if ws.localYml.Parsed? {
        overwrites := ws.localYml.doc;
      }
      sent := 0;
      trace := [];
      exited := false;
    }

    function Id(): string
      reads this`overwrites
    {
      Identity.Id(Identity.ServiceType(overwrites.env.serviceTags), ws.moduleName)
    }

    function Image(): string
      reads this`overwrites
    {
      Identity.Image(Id(), Identity.Version(ws.gitCount))
    }

    /** `conf` (babl-build.go:114-136). */
    method Conf() returns (res: Result<Config, FatalReason>)
      requires Valid()
      ensures res == Resolve(ws)
    {
      if ws.localYml.Malformed? {
        return Failure(MalformedLocalConfig);
      }
      var c := ws.template;
      if ws.localYml.Parsed? {
        c := Merge(c, ws.localYml.doc);
      }
      c := c.(id := Id());
      c := c.(container := c.container.(docker := c.container.docker.(image := Image())));
      c := c.(env := c.env.(bablModule := ws.moduleName));
      return Success(c);
    }

    /** `deploy` (babl-build.go:203-227). */
    method Deploy()
      requires Valid() && !exited
      modifies this`trace, this`sent, this`exited
      ensures var r := DeployRun(ws, replies, old(sent));
        trace == old(trace) + r.events && sent == r.sent && exited == r.fatal
    {
      var c := Conf();
      if c.Failure? {
        trace := trace + [Fatal(c.error)];
        exited := true;
        return;
      }
      var events, n, fatal := PostOnce(AppsUrl(ws.marathonHost), Encode(c.value), replies, sent);
      trace := trace + events;
      sent := n;
      exited := fatal;
    }

    /** `execute` (babl-build.go:138-151), with the subprocess assumed to succeed. */
    method Execute(argv: seq<string>)
      requires argv != []
      modifies this`trace
      ensures trace == old(trace) + ExecEvents(argv, ws.dryRun)
    {
      trace := trace + [Stdout(argv[0] + " " + Join(argv[1..]))];
      if !ws.dryRun {
        trace := trace + [Spawn(argv)];
      }
    }

    /** `build` (babl-build.go:172-180), with the image named after the type of .babl-build.yml. */
    method Build(args: seq<string>)
      requires Valid()
      modifies this`trace
      ensures trace == old(trace) + BuildEvents(WorkspaceImage(ws), args, ws.dryRun)
    {
      ghost var before := trace;
      var image := Image();
      Execute(Identity.BuildArgv(image, args));
      Execute(Identity.TagArgv(image));
      Commands.AppendTwice(before, ExecEvents(Identity.BuildArgv(image, args), ws.dryRun),
        ExecEvents(Identity.TagArgv(image), ws.dryRun), trace);
    }

    /** `push` (babl-build.go:196-202). */
    method Push()
      requires Valid()
      modifies this`trace
      ensures trace == old(trace) + PushEvents(WorkspaceImage(ws), ws.dryRun)
    {
      ghost var before := trace;
      var image := Image();
      var latest := Identity.ImageLatest(image);
      Execute(Identity.PushArgv(image));
      Execute(Identity.PushArgv(latest));
      Commands.AppendTwice(before, ExecEvents(Identity.PushArgv(image), ws.dryRun),
        ExecEvents(Identity.PushArgv(latest), ws.dryRun), trace);
    }

    /** `play` (babl-build.go:256-266). */
    method Play()
      requires Valid()
      modifies this`trace
      ensures trace == old(trace) + ExecEvents(PlayArgv(ws), ws.dryRun)
    {
      var argv := Identity.RunPrefix(ws.moduleName);
      argv := argv + Identity.ContainerOptions(overwrites.container.options);
      argv := argv + [Image()];
      Execute(argv);
    }

    /** `sh` (babl-build.go:267-277). */
    method Sh()
      requires Valid()
      modifies this`trace
      ensures trace == old(trace) + ExecEvents(ShArgv(ws), ws.dryRun)
    {
      var argv := Identity.RunPrefix(ws.moduleName);
      argv := argv + Identity.ContainerOptions(overwrites.container.options);
      argv := argv + [Image(), "sh"];
      Execute(argv);
    }

    /** `version` (babl-build.go:181-186). */
    method PrintVersion()
      modifies this`trace
      ensures trace == old(trace) + [Stdout(Identity.Version(ws.gitCount))]
    {
      trace := trace + [Stdout(Identity.Version(ws.gitCount))];
    }

    /** `config` (babl-build.go:187-195): the resolved legacy descriptor as JSON on stdout. */
    method PrintConfig()
      requires Valid()
      modifies this`trace, this`exited
      ensures var c := Resolve(ws);
        && trace == old(trace) + (if c.Success? then [JsonOut(Encode(c.value))] else [Fatal(c.error)])
        && exited == (old(exited) || c.Failure?)
    {
      var c := Conf();
      if c.Failure? {
        trace := trace + [Fatal(c.error)];
        exited := true;
      } else {
        trace := trace + [JsonOut(Encode(c.value))];
      }
    }

    /** `destroy` (babl-build.go:228-246). */
    method Destroy()
      requires Valid() && !exited
      modifies this`trace, this`sent, this`exited
      ensures var r := DestroyOf(ws, replies, old(sent));
        trace == old(trace) + r.events && sent == r.sent && exited == r.fatal
    {
      var events, n, fatal := DeleteOnce(AppUrl(ws.marathonHost, Id()), replies, sent);
      trace := trace + events;
      sent := n;
      exited := fatal;
    }

    /** The first half of `dist`: `build` without extra arguments, then `push`. */
    method BuildAndPush()
      requires Valid()
      modifies this`trace
      ensures trace == old(trace) + Commands.DockerSteps(WorkspaceImage(ws), ws.dryRun)
    {
      ghost var before := trace;
      Build([]);
      Push();
      Commands.AppendTwice(before, BuildEvents(WorkspaceImage(ws), [], ws.dryRun), PushEvents(WorkspaceImage(ws), ws.dryRun), trace);
    }

    /** The second half of `dist`: `destroy`, then `deploy` unless `destroy` ended the process. */
    method DestroyAndDeploy()
      requires Valid() && !exited
      modifies this`trace, this`sent, this`exited
      ensures var t := DestroyThenDeploy(ws, replies, old(sent));
        trace == old(trace) + t.events && sent == t.sent && exited == t.fatal
    {
      ghost var before, start := trace, sent;
      Destroy();
      if !exited {
        ghost var d := DestroyOf(ws, replies, start);
        Deploy();
        Commands.AppendTwice(before, d.events, DeployRun(ws, replies, d.sent).events, trace);
      }
    }

    /** `dist` (babl-build.go:247-255). */
    method Dist()
      requires Valid() && !exited
      modifies this`trace, this`sent, this`exited
      ensures var t := DestroyThenDeploy(ws, replies, old(sent));
        && trace == old(trace) + Commands.DockerSteps(WorkspaceImage(ws), ws.dryRun) + t.events
        && sent == t.sent && exited == t.fatal
    {
      BuildAndPush();
      DestroyAndDeploy();
    }
  }
}

/**
 * The deployment descriptor of the current revision (config.go): the record,
 * how the overrides file is loaded at start-up, how an override record is
 * merged over the bundled template, and which keys its JSON form carries.
 */
module Descriptor {

  import opened Wrappers
  import opened Json

  // The record (config.go:9-46). A Go slice is an Option: None is nil.
  // Floating-point fields are reals; no arithmetic is done on them.

  datatype PortMapping = PortMapping(containerPort: int, hostPort: int, servicePort: int, protocol: string)

  datatype Parameter = Parameter(key: string, value: string)

  datatype Docker = Docker(
    image: string,
    forcePullImage: bool,
    network: string,
    portMappings: Option<seq<PortMapping>>,
    parameters: Option<seq<Parameter>>)

  datatype Volume = Volume(hostPath: string, containerPath: string, mode: string)

  datatype Container = Container(
    containerType: string,
    docker: Docker,
    options: Option<seq<string>>,
    volumes: Option<seq<Volume>>)

  datatype Env = Env(serviceTags: string, bablModule: string, bablModuleVersion: string, bablCommand: string)

  datatype Config = Config(
    id: string,
    container: Container,
    instances: int,
    cpus: real,
    mem: Option<real>,      // *float64: None is an absent `mem`
    uris: Option<seq<string>>,
    env: Env,
    cmd: string)

  /** Go's zero value of `config`. */
  const Zero := Config("", Container("", Docker("", false, "", None, None), None, None),
                       0, 0.0, None, None, Env("", "", "", ""), "")

  /** Reading and decoding a YAML file: it could not be read, it could not be parsed, or it gave a record. */
  datatype YamlFile<C> = Unreadable | Malformed | Parsed(doc: C)

  /** `init` (config.go:50-54): the overrides read from babl.yml; a parse error is discarded. */
  function Overwrites(bablYml: YamlFile<Config>): (r: Config)
    ensures bablYml.Parsed? ==> r == bablYml.doc
    ensures !bablYml.Parsed? ==> r == Zero && r.env.serviceTags == "" && r.container.options.None?
  {
    if bablYml.Parsed? then bablYml.doc else Zero
  }

  // Merging (mergo.MergeWithOverwrite). A field of the override is taken when
  // it is set, that is when it is not Go's zero value; a slice counts as unset
  // when it is nil or empty, and a set slice replaces the template's whole.

  function Pick<T(==)>(template: T, override: T, zero: T): T
  {
    if override == zero then template else override
  }

  predicate IsEmpty<T>(l: Option<seq<T>>)
  {
    l.None? || l.value == []
  }

  function PickList<T>(template: Option<seq<T>>, override: Option<seq<T>>): Option<seq<T>>
  {
    if IsEmpty(override) then template else override
  }

  function MergeDocker(t: Docker, o: Docker): Docker
  {
    Docker(Pick(t.image, o.image, ""), Pick(t.forcePullImage, o.forcePullImage, false),
           Pick(t.network, o.network, ""), PickList(t.portMappings, o.portMappings),
           PickList(t.parameters, o.parameters))
  }

  function MergeContainer(t: Container, o: Container): Container
  {
    Container(Pick(t.containerType, o.containerType, ""), MergeDocker(t.docker, o.docker),
              PickList(t.options, o.options), PickList(t.volumes, o.volumes))
  }

  function MergeEnv(t: Env, o: Env): Env
  {
    Env(Pick(t.serviceTags, o.serviceTags, ""), Pick(t.bablModule, o.bablModule, ""),
        Pick(t.bablModuleVersion, o.bablModuleVersion, ""), Pick(t.bablCommand, o.bablCommand, ""))
  }

  /**
   * A field of the result is the override's when the override sets it and
   * the template's otherwise; a nil `mem` is unset, `mem: 0` is set.
   */
  function Merge(t: Config, o: Config): (r: Config)
    ensures r.id == (if o.id != "" then o.id else t.id)
    ensures r.instances == (if o.instances != 0 then o.instances else t.instances)
    ensures r.cpus == (if o.cpus != 0.0 then o.cpus else t.cpus)
    ensures r.mem == (if o.mem.Some? then o.mem else t.mem)
    ensures r.cmd == (if o.cmd != "" then o.cmd else t.cmd)
    ensures r.env.serviceTags == (if o.env.serviceTags != "" then o.env.serviceTags else t.env.serviceTags)
    ensures r.container.containerType == (if o.container.containerType != "" then o.container.containerType else t.container.containerType)
    ensures r.container.docker.forcePullImage == (t.container.docker.forcePullImage || o.container.docker.forcePullImage)
    ensures r.container.docker.image == (if o.container.docker.image != "" then o.container.docker.image else t.container.docker.image)
    ensures r.container.docker.network == (if o.container.docker.network != "" then o.container.docker.network else t.container.docker.network)
    ensures r.env.bablModule == (if o.env.bablModule != "" then o.env.bablModule else t.env.bablModule)
    ensures r.env.bablModuleVersion == (if o.env.bablModuleVersion != "" then o.env.bablModuleVersion else t.env.bablModuleVersion)
    ensures r.env.bablCommand == (if o.env.bablCommand != "" then o.env.bablCommand else t.env.bablCommand)
  {
    Config(Pick(t.id, o.id, ""), MergeContainer(t.container, o.container),
           Pick(t.instances, o.instances, 0), Pick(t.cpus, o.cpus, 0.0), Pick(t.mem, o.mem, None),
           PickList(t.uris, o.uris), MergeEnv(t.env, o.env), Pick(t.cmd, o.cmd, ""))
  }

  /** An override that sets nothing leaves the template as it is. */
  lemma MergeZeroOverride(t: Config)
    ensures Merge(t, Zero) == t
  {
  }

  /** Merging the same override twice is merging it once. */
  lemma MergeIdempotent(t: Config, o: Config)
    ensures Merge(Merge(t, o), o) == Merge(t, o)
  {
  }

  /** Layering overrides one after another is the same as merging the layered overrides first. */
  lemma MergeAssociative(a: Config, b: Config, c: Config)
    ensures Merge(Merge(a, b), c) == Merge(a, Merge(b, c))
  {
  }

  /**
   * `mem` is nullable: an override without `mem` keeps the template's value,
   * an override with `mem: 0` gives a present zero, and the two differ.
   */
  lemma MemAbsentDiffersFromZero(t: Config, o: Config)
    ensures o.mem.None? ==> Merge(t, o).mem == t.mem
    ensures o.mem == Some(0.0) ==> Merge(t, o).mem == Some(0.0)
    ensures t.mem != Some(0.0) ==> Merge(t, o.(mem := None)).mem != Merge(t, o.(mem := Some(0.0))).mem
  {
  }

  /** Lists are never merged element by element: each list of the result is the override's, whole, unless that is nil or empty, and then the template's. */
  lemma MergeReplacesWholeLists(t: Config, o: Config)
    ensures var r := Merge(t, o);
      && r.uris == (if IsEmpty(o.uris) then t.uris else o.uris)
      && r.container.options == (if IsEmpty(o.container.options) then t.container.options else o.container.options)
      && r.container.volumes == (if IsEmpty(o.container.volumes) then t.container.volumes else o.container.volumes)
      && r.container.docker.portMappings
         == (if IsEmpty(o.container.docker.portMappings) then t.container.docker.portMappings else o.container.docker.portMappings)
      && r.container.docker.parameters
         == (if IsEmpty(o.container.docker.parameters) then t.container.docker.parameters else o.container.docker.parameters)
  {
  }

  // JSON form (the `json` tags of config.go:9-46). `omitempty` drops a zero
  // number, an empty string and a nil or empty slice; fields without it are
  // always written, a nil slice or pointer as null.

  function EncodePortMapping(p: PortMapping): (r: Value)
    ensures r.Obj? && "hostPort" in r.fields
    ensures "containerPort" in r.fields <==> p.containerPort != 0
    ensures "servicePort" in r.fields <==> p.servicePort != 0
    ensures "protocol" in r.fields <==> p.protocol != ""
    ensures r.fields.Keys <= {"containerPort", "hostPort", "servicePort", "protocol"}
  {
    var m := map["hostPort" := Num(p.hostPort as real)];
    var m := if p.containerPort != 0 then m["containerPort" := Num(p.containerPort as real)] else m;
    var m := if p.servicePort != 0 then m["servicePort" := Num(p.servicePort as real)] else m;
    var m := if p.protocol != "" then m["protocol" := Str(p.protocol)] else m;
    Obj(m)
  }

  function EncodeParameter(p: Parameter): Value
  {
    Obj(map["key" := Str(p.key), "value" := Str(p.value)])
  }

  function EncodeVolume(v: Volume): Value
  {
    Obj(map["hostPath" := Str(v.hostPath), "containerPath" := Str(v.containerPath), "mode" := Str(v.mode)])
  }

  function EncodeStrings(xs: seq<string>): seq<Value>
  {
    seq(|xs|, i requires 0 <= i < |xs| => Str(xs[i]))
  }

  function EncodePortMappings(ps: seq<PortMapping>): seq<Value>
  {
    seq(|ps|, i requires 0 <= i < |ps| => EncodePortMapping(ps[i]))
  }

  function EncodeParameters(ps: seq<Parameter>): seq<Value>
  {
    seq(|ps|, i requires 0 <= i < |ps| => EncodeParameter(ps[i]))
  }

  function EncodeVolumes(vs: seq<Volume>): seq<Value>
  {
    seq(|vs|, i requires 0 <= i < |vs| => EncodeVolume(vs[i]))
  }

  function EncodeDocker(d: Docker): (r: Value)
    ensures r.Obj? && {"image", "forcePullImage", "network"} <= r.fields.Keys
    ensures "portMappings" in r.fields <==> !IsEmpty(d.portMappings)
    ensures "parameters" in r.fields <==> !IsEmpty(d.parameters)
    ensures r.fields.Keys <= {"image", "forcePullImage", "network", "portMappings", "parameters"}
  {
    var m := map["image" := Str(d.image), "forcePullImage" := Bool(d.forcePullImage), "network" := Str(d.network)];
    var m := if IsEmpty(d.portMappings) then m
             else m["portMappings" := Arr(EncodePortMappings(d.portMappings.value))];
    var m := if IsEmpty(d.parameters) then m
             else m["parameters" := Arr(EncodeParameters(d.parameters.value))];
    Obj(m)
  }

  function EncodeContainer(c: Container): (r: Value)
    ensures r.Obj? && {"type", "docker"} <= r.fields.Keys
    ensures "options" in r.fields <==> !IsEmpty(c.options)
    ensures "volumes" in r.fields <==> !IsEmpty(c.volumes)
    ensures r.fields.Keys <= {"type", "docker", "options", "volumes"}
  {
    var m := map["type" := Str(c.containerType), "docker" := EncodeDocker(c.docker)];
    var m := if IsEmpty(c.options) then m else m["options" := Arr(EncodeStrings(c.options.value))];
    var m := if IsEmpty(c.volumes) then m
             else m["volumes" := Arr(EncodeVolumes(c.volumes.value))];
    Obj(m)
  }

  function EncodeEnv(e: Env): Value
  {
    Obj(map["SERVICE_TAGS" := Str(e.serviceTags), "BABL_MODULE" := Str(e.bablModule),
            "BABL_MODULE_VERSION" := Str(e.bablModuleVersion), "BABL_COMMAND" := Str(e.bablCommand)])
  }

  /** The descriptor as `json.Encode` writes it: every top-level key, `mem` and `uris` as null when absent. */
  function Encode(c: Config): (r: Value)
    ensures r.Obj? && r.fields.Keys == {"id", "container", "instances", "cpus", "mem", "uris", "env", "cmd"}
    ensures r.fields["mem"] == (if c.mem.Some? then Num(c.mem.value) else Null)
    ensures r.fields["uris"].Null? <==> c.uris.None?
  {
    Obj(map[
      "id" := Str(c.id),
      "container" := EncodeContainer(c.container),
      "instances" := Num(c.instances as real),
      "cpus" := Num(c.cpus),
      "mem" := (if c.mem.Some? then Num(c.mem.value) else Null),
      "uris" := (if c.uris.Some? then Arr(EncodeStrings(c.uris.value)) else Null),
      "env" := EncodeEnv(c.env),
      "cmd" := Str(c.cmd)])
  }

  // Reading the JSON form back, as json.Unmarshal fills a zero `config`:
  // an absent key or null leaves the zero value.

  function DecodePortMapping(v: Value): PortMapping
  {
    var m := if v.Obj? then v.fields else map[];
    PortMapping(IntAt(m, "containerPort"), IntAt(m, "hostPort"), IntAt(m, "servicePort"), StrAt(m, "protocol"))
  }

  function DecodeParameter(v: Value): Parameter
  {
    var m := if v.Obj? then v.fields else map[];
    Parameter(StrAt(m, "key"), StrAt(m, "value"))
  }

  function DecodeVolume(v: Value): Volume
  {
    var m := if v.Obj? then v.fields else map[];
    Volume(StrAt(m, "hostPath"), StrAt(m, "containerPath"), StrAt(m, "mode"))
  }

  function DecodeStrings(vs: seq<Value>): seq<string>
  {
    seq(|vs|, i requires 0 <= i < |vs| => if vs[i].Str? then vs[i].s else "")
  }

  function DecodePortMappings(vs: seq<Value>): seq<PortMapping>
  {
    seq(|vs|, i requires 0 <= i < |vs| => DecodePortMapping(vs[i]))
  }

  function DecodeParameters(vs: seq<Value>): seq<Parameter>
  {
    seq(|vs|, i requires 0 <= i < |vs| => DecodeParameter(vs[i]))
  }

  function DecodeVolumes(vs: seq<Value>): seq<Volume>
  {
    seq(|vs|, i requires 0 <= i < |vs| => DecodeVolume(vs[i]))
  }

  function DecodeDocker(m: map<string, Value>): Docker
  {
    var pm := ArrAt(m, "portMappings");
    var ps := ArrAt(m, "parameters");
    Docker(StrAt(m, "image"), BoolAt(m, "forcePullImage"), StrAt(m, "network"),
           if pm.Some? then Some(DecodePortMappings(pm.value)) else None,
           if ps.Some? then Some(DecodeParameters(ps.value)) else None)
  }

  function DecodeContainer(m: map<string, Value>): Container
  {
    var os := ArrAt(m, "options");
    var vs := ArrAt(m, "volumes");
    Container(StrAt(m, "type"), DecodeDocker(ObjAt(m, "docker")),
              if os.Some? then Some(DecodeStrings(os.value)) else None,
              if vs.Some? then Some(DecodeVolumes(vs.value)) else None)
  }

  function DecodeEnv(m: map<string, Value>): Env
  {
    Env(StrAt(m, "SERVICE_TAGS"), StrAt(m, "BABL_MODULE"), StrAt(m, "BABL_MODULE_VERSION"), StrAt(m, "BABL_COMMAND"))
  }

  function Decode(v: Value): Config
  {
    var m := if v.Obj? then v.fields else map[];
    var us := ArrAt(m, "uris");
    Config(StrAt(m, "id"), DecodeContainer(ObjAt(m, "container")), IntAt(m, "instances"),
           RealAt(m, "cpus"), if "mem" in m && m["mem"].Num? then Some(RealAt(m, "mem")) else None,
           if us.Some? then Some(DecodeStrings(us.value)) else None,
           DecodeEnv(ObjAt(m, "env")), StrAt(m, "cmd"))
  }

  /** Nil for every `omitempty` list that is empty: what the JSON form cannot tell apart. */
  function NilIfEmpty<T>(l: Option<seq<T>>): Option<seq<T>>
  {
    if IsEmpty(l) then None else l
  }

  function NormalizeDocker(d: Docker): Docker
  {
    d.(portMappings := NilIfEmpty(d.portMappings), parameters := NilIfEmpty(d.parameters))
  }

  function NormalizeContainer(c: Container): Container
  {
    c.(docker := NormalizeDocker(c.docker), options := NilIfEmpty(c.options), volumes := NilIfEmpty(c.volumes))
  }

  function Normalize(c: Config): Config
  {
    c.(container := NormalizeContainer(c.container))
  }

  lemma PortMappingRoundTrip(p: PortMapping)
    ensures DecodePortMapping(EncodePortMapping(p)) == p
  {
  }

  lemma ParameterRoundTrip(p: Parameter)
    ensures DecodeParameter(EncodeParameter(p)) == p
  {
  }

  lemma VolumeRoundTrip(v: Volume)
    ensures DecodeVolume(EncodeVolume(v)) == v
  {
  }

  lemma StringsRoundTrip(xs: seq<string>)
    ensures DecodeStrings(EncodeStrings(xs)) == xs
  {
  }

  lemma DockerRoundTrip(d: Docker)
    ensures DecodeDocker(EncodeDocker(d).fields) == NormalizeDocker(d)
  {
    var m := EncodeDocker(d).fields;
    var r := DecodeDocker(m);
    if IsEmpty(d.portMappings) {
      assert r.portMappings == None;
    } else {
      var ps := d.portMappings.value;
      assert ArrAt(m, "portMappings") == Some(EncodePortMappings(ps));
      var back := DecodePortMappings(EncodePortMappings(ps));
      forall i | 0 <= i < |ps| ensures back[i] == ps[i] {
        PortMappingRoundTrip(ps[i]);
      }
      assert back == ps;
    }
    if IsEmpty(d.parameters) {
      assert r.parameters == None;
    } else {
      var ps := d.parameters.value;
      assert ArrAt(m, "parameters") == Some(EncodeParameters(ps));
      var back := DecodeParameters(EncodeParameters(ps));
      forall i | 0 <= i < |ps| ensures back[i] == ps[i] {
        ParameterRoundTrip(ps[i]);
      }
      assert back == ps;
    }
  }

  lemma ContainerRoundTrip(c: Container)
    ensures DecodeContainer(EncodeContainer(c).fields) == NormalizeContainer(c)
  {
    var m := EncodeContainer(c).fields;
    var r := DecodeContainer(m);
    DockerRoundTrip(c.docker);
    assert ObjAt(m, "docker") == EncodeDocker(c.docker).fields;
    if IsEmpty(c.options) {
      assert r.options == None;
    } else {
      StringsRoundTrip(c.options.value);
      assert r.options == c.options;
    }
    if IsEmpty(c.volumes) {
      assert r.volumes == None;
    } else {
      var vs := c.volumes.value;
      assert ArrAt(m, "volumes") == Some(EncodeVolumes(vs));
      var back := DecodeVolumes(EncodeVolumes(vs));
      forall i | 0 <= i < |vs| ensures back[i] == vs[i] {
        VolumeRoundTrip(vs[i]);
      }
      assert back == vs;
    }
  }

  /** Reading the JSON form back gives the descriptor, except that empty omitted lists come back nil. */
  lemma DecodeEncode(c: Config)
    ensures Decode(Encode(c)) == Normalize(c)
  {
    var m := Encode(c).fields;
    ContainerRoundTrip(c.container);
    if c.uris.Some? {
      StringsRoundTrip(c.uris.value);
    }
    DecodeFields(m, c);
  }

  /** Decoding any document whose keys hold the encoded fields of `c`. */
  lemma DecodeFields(m: map<string, Value>, c: Config)
    requires "id" in m && m["id"] == Str(c.id)
    requires "container" in m && m["container"] == EncodeContainer(c.container)
    requires DecodeContainer(EncodeContainer(c.container).fields) == NormalizeContainer(c.container)
    requires "instances" in m && m["instances"] == Num(c.instances as real)
    requires "cpus" in m && m["cpus"] == Num(c.cpus)
    requires "mem" in m && m["mem"] == (if c.mem.Some? then Num(c.mem.value) else Null)
    requires "uris" in m && m["uris"] == (if c.uris.Some? then Arr(EncodeStrings(c.uris.value)) else Null)
    requires c.uris.Some? ==> DecodeStrings(EncodeStrings(c.uris.value)) == c.uris.value
    requires "env" in m && m["env"] == EncodeEnv(c.env)
    requires "cmd" in m && m["cmd"] == Str(c.cmd)
    ensures Decode(Obj(m)) == Normalize(c)
  {
  }

  /** Emptying the omitted lists does not change the JSON form. */
  lemma EncodeNormalize(c: Config)
    ensures Encode(Normalize(c)) == Encode(c)
  {
    assert EncodeContainer(NormalizeContainer(c.container)) == EncodeContainer(c.container) by {
      assert EncodeDocker(NormalizeDocker(c.container.docker)) == EncodeDocker(c.container.docker);
    }
  }

  /** Two descriptors have the same JSON form exactly when they agree up to empty-versus-nil lists. */
  lemma EncodeInjectiveUpToNormalize(a: Config, b: Config)
    ensures Encode(a) == Encode(b) <==> Normalize(a) == Normalize(b)
  {
    DecodeEncode(a);
    DecodeEncode(b);
    EncodeNormalize(a);
    EncodeNormalize(b);
  }

  /** Absent `mem` and `mem: 0` reach the scheduler as different documents. */
  lemma MemAbsentAndZeroEncodeDifferently(c: Config)
    ensures Encode(c.(mem := None)) != Encode(c.(mem := Some(0.0)))
  {
    assert Encode(c.(mem := None)).fields["mem"] == Null;
  }
}

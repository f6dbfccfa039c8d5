/**
 * How a module is named and tagged: the service type, the scheduler id,
 * the version taken from the git history, the image references, and the
 * docker command lines built from them (commands.go:85-115, 131-134,
 * 155-156, 225-241; the same helpers are repeated in babl-build.go:83-112).
 *
 * The working directory's base name and the raw output of
 * `git rev-list HEAD --count` are inputs here; nothing is run.
 */
module Identity {

  import opened Wrappers

  const DefaultType := "babl"
  const Registry := "registry.babl.sh:5000/"
  const LatestTag := ":latest"

  /** Go's unicode.IsSpace. */
  predicate IsSpace(c: char)
  {
    var n := c as int;
    n == 0x09 || n == 0x0A || n == 0x0B || n == 0x0C || n == 0x0D || n == 0x20
    || n == 0x85 || n == 0xA0 || n == 0x1680 || (0x2000 <= n <= 0x200A)
    || n == 0x2028 || n == 0x2029 || n == 0x202F || n == 0x205F || n == 0x3000
  }

  predicate AllSpace(s: string)
  {
    forall k :: 0 <= k < |s| ==> IsSpace(s[k])
  }

  /** Neither starts nor ends with white space. */
  predicate Trimmed(s: string)
  {
    s == [] || (!IsSpace(s[0]) && !IsSpace(s[|s| - 1]))
  }

  /** White space removed from the front of `s` (see TrimLeftSpec). */
  function TrimLeft(s: string): string
  {
    if s != [] && IsSpace(s[0]) then TrimLeft(s[1..]) else s
  }

  /** White space removed from the back of `s` (see TrimRightSpec). */
  function TrimRight(s: string): string
  {
    if s != [] && IsSpace(s[|s| - 1]) then TrimRight(s[..|s| - 1]) else s
  }

  /** TrimLeft keeps a suffix, removes only white space, and leaves no white space in front. */
  lemma {:induction false} TrimLeftSpec(s: string)
    ensures var r := TrimLeft(s);
      && |r| <= |s| && r == s[|s| - |r|..]
      && AllSpace(s[..|s| - |r|])
      && (r != [] ==> !IsSpace(r[0]))
  {
    if s != [] && IsSpace(s[0]) {
      TrimLeftSpec(s[1..]);
      var r := TrimLeft(s[1..]);
      assert s[..|s| - |r|] == [s[0]] + s[1..][..|s| - 1 - |r|];
    }
  }

  /** TrimRight keeps a prefix, removes only white space, and leaves no white space at the back. */
  lemma {:induction false} TrimRightSpec(s: string)
    ensures var r := TrimRight(s);
      && |r| <= |s| && r == s[..|r|]
      && AllSpace(s[|r|..])
      && (r != [] ==> !IsSpace(r[|r| - 1]))
  {
    if s != [] && IsSpace(s[|s| - 1]) {
      TrimRightSpec(s[..|s| - 1]);
      var r := TrimRight(s[..|s| - 1]);
      assert s[|r|..] == s[..|s| - 1][|r|..] + [s[|s| - 1]];
    }
  }

  /** Go's strings.TrimSpace: the infix of `s` left after removing white space at both ends. */
  function TrimSpace(s: string): (r: string)
    ensures Trimmed(r)
  {
    var l := TrimLeft(s);
    TrimLeftSpec(s);
    var r := TrimRight(l);
    TrimRightSpec(l);
    assert r != [] ==> r[0] == l[..|r|][0] == l[0];
    r
  }

  /** `_type`: the service tag read from the overrides, or "babl" when it is empty. */
  function ServiceType(serviceTags: string): (r: string)
    ensures r != []
  {
    if serviceTags != "" then serviceTags else DefaultType
  }

  /** `id`: the type and the module name joined by a hyphen; both parts can be read back by position. */
  function Id(kind: string, moduleName: string): string
  {
    kind + "-" + moduleName
  }

  /** `version`: "v" followed by the trimmed output of the git commit count. */
  function Version(gitCount: string): string
  {
    "v" + TrimSpace(gitCount)
  }

  /** `image`: the registry reference of the module's image at `version`. */
  function Image(id: string, version: string): string
  {
    Registry + id + ":" + version
  }

  /** The index of the last colon of `s`. */
  function LastColon(s: string): (r: Option<nat>)
    ensures r.None? ==> ':' !in s
    ensures r.Some? ==> r.value < |s| && s[r.value] == ':' && ':' !in s[r.value + 1..]
  {
    if s == [] then None
    else if s[|s| - 1] == ':' then Some(|s| - 1)
    else
      var init, last := s[..|s| - 1], s[|s| - 1];
      var r := LastColon(init);
      assert s == init + [last];
      assert r.Some? ==> s[r.value + 1..] == init[r.value + 1..] + [last];
      r
  }

  /** The regular expression `:[^:]+$` matches `s` from index `i` on. */
  predicate TailMatchAt(s: string, i: int)
  {
    0 <= i < |s| - 1 && s[i] == ':' && ':' !in s[i + 1..]
  }

  /**
   * `imageLatest`: every match of `:[^:]+$` in `s` replaced by ":latest".
   * The string is either unchanged, or it is a prefix of `s` up to a match,
   * followed by ":latest".
   */
  function ImageLatest(s: string): string
  {
    match LastColon(s)
    case None => s
    case Some(i) => if i < |s| - 1 then s[..i] + LatestTag else s
  }

  /** The docker arguments shared by `play` and `sh`. */
  function RunPrefix(moduleName: string): seq<string>
  {
    ["docker", "run", "-it", "--rm", "-p", "4444:4444", "-e",
     "BABL_MODULE=" + moduleName, "-e", "BABL_COMMAND=/bin/app"]
  }

  /** `containerOptions`: the overrides' container options; nil gives an empty list, never nil. */
  function ContainerOptions(options: Option<seq<string>>): (r: seq<string>)
    ensures r == [] <==> (options.None? || options.value == [])
    ensures r != [] ==> options == Some(r)
  {
    if options.Some? then options.value else []
  }

  /** The `play` command line: the docker-run prefix naming the module, then the options, then the image. */
  function PlayArgv(moduleName: string, options: seq<string>, image: string): seq<string>
  {
    RunPrefix(moduleName) + options + [image]
  }

  /** The `sh` command line is the `play` command line with "sh" appended. */
  function ShArgv(moduleName: string, options: seq<string>, image: string): (r: seq<string>)
    ensures r == PlayArgv(moduleName, options, image) + ["sh"]
  {
    RunPrefix(moduleName) + options + [image, "sh"]
  }

  /** The `build` command line. */
  function BuildArgv(image: string, args: seq<string>): seq<string>
  {
    ["docker", "build", "-t", image] + args + ["."]
  }

  function TagArgv(image: string): seq<string>
  {
    ["docker", "tag", "-f", image, ImageLatest(image)]
  }

  function PushArgv(image: string): seq<string>
  {
    ["docker", "push", image]
  }

  // Properties

  /** The id can be split back, by position, into the type and the module name around the hyphen. */
  lemma IdParts(kind: string, moduleName: string)
    ensures var r := Id(kind, moduleName);
      && |r| == |kind| + 1 + |moduleName| && r[|kind|] == '-'
      && r[..|kind|] == kind && r[|kind| + 1..] == moduleName
  {
  }

  /** The version is "v" followed by text that neither starts nor ends with white space. */
  lemma VersionShape(gitCount: string)
    ensures var r := Version(gitCount);
      r != [] && r[0] == 'v' && Trimmed(r[1..])
  {
    assert Version(gitCount)[1..] == TrimSpace(gitCount);
  }

  /** The image reference is the registry, the id, a colon and the version, each readable back by position. */
  lemma ImageParts(id: string, version: string)
    ensures var r := Image(id, version);
      && |r| == |Registry| + |id| + 1 + |version|
      && r[..|Registry|] == Registry && r[|Registry|..|Registry| + |id|] == id
      && r[|Registry| + |id|] == ':' && r[|Registry| + |id| + 1..] == version
  {
  }

  /**
   * Replacing the tag leaves the reference alone when nothing after its last
   * colon can be replaced, and otherwise keeps it up to that colon and
   * appends ":latest".
   */
  lemma ImageLatestShape(s: string)
    ensures var r := ImageLatest(s);
      r == s || (|LatestTag| <= |r| && TailMatchAt(s, |r| - |LatestTag|) && r == s[..|r| - |LatestTag|] + LatestTag)
  {
  }

  /** The `play` command line: docker run naming the module, then the options, then the image last. */
  lemma PlayArgvLayout(moduleName: string, options: seq<string>, image: string)
    ensures var r := PlayArgv(moduleName, options, image);
      && |r| == 11 + |options|
      && r[0] == "docker" && r[1] == "run" && r[7] == "BABL_MODULE=" + moduleName
      && r[10..10 + |options|] == options && r[|r| - 1] == image
  {
  }

  /** The `build` command line: the image is the tag after `-t`, the extra arguments follow, the context `.` comes last. */
  lemma BuildArgvLayout(image: string, args: seq<string>)
    ensures var r := BuildArgv(image, args);
      && |r| == 5 + |args| && r[..3] == ["docker", "build", "-t"] && r[3] == image
      && r[4..4 + |args|] == args && r[|r| - 1] == "."
  {
  }

  lemma {:induction false} TrimLeftSkips(a: string, x: string)
    requires AllSpace(a)
    requires x == [] || !IsSpace(x[0])
    ensures TrimLeft(a + x) == x
  {
    if a != [] {
      assert (a + x)[1..] == a[1..] + x;
      TrimLeftSkips(a[1..], x);
    } else {
      assert a + x == x;
    }
  }

  lemma {:induction false} TrimRightSkips(x: string, b: string)
    requires AllSpace(b)
    requires x == [] || !IsSpace(x[|x| - 1])
    ensures TrimRight(x + b) == x
  {
    if b != [] {
      assert (x + b)[..|x + b| - 1] == x + b[..|b| - 1];
      TrimRightSkips(x, b[..|b| - 1]);
    } else {
      assert x + b == x;
    }
  }

  /** TrimSpace returns exactly the middle part of any white-space / text / white-space split. */
  lemma TrimSpaceUnique(a: string, m: string, b: string)
    requires AllSpace(a) && AllSpace(b) && Trimmed(m)
    ensures TrimSpace(a + m + b) == m
  {
    assert a + m + b == a + (m + b);
    if m == [] {
      assert AllSpace(a + b) by {
        forall k | 0 <= k < |a + b| ensures IsSpace((a + b)[k]) {
          if k < |a| { assert (a + b)[k] == a[k]; } else { assert (a + b)[k] == b[k - |a|]; }
        }
      }
      assert a + m + b == (a + b) + [];
      TrimLeftSkips(a + b, []);
      assert TrimRight([]) == [];
    } else {
      assert (m + b)[0] == m[0];
      TrimLeftSkips(a, m + b);
      TrimRightSkips(m, b);
    }
  }

  /** The version of a checkout whose `git rev-list --count` printed `count` and a newline. */
  lemma VersionOfCount(count: string)
    requires Trimmed(count)
    ensures Version(count + "\n") == "v" + count
  {
    assert "" + count + "\n" == count + "\n";
    TrimSpaceUnique("", count, "\n");
  }

  /** TrimSpace keeps a contiguous part of `s`: it removes characters at the two ends only. */
  lemma TrimSpaceIsInfix(s: string)
    ensures var r, i := TrimSpace(s), |s| - |TrimLeft(s)|;
      0 <= i && i + |r| <= |s| && forall k :: 0 <= k < |r| ==> r[k] == s[i + k]
  {
    var l := TrimLeft(s);
    TrimLeftSpec(s);
    var r := TrimRight(l);
    TrimRightSpec(l);
    assert TrimSpace(s) == r;
    PrefixOfSuffix(s, l, r);
  }

  lemma PrefixOfSuffix(s: string, l: string, r: string)
    requires |l| <= |s| && l == s[|s| - |l|..] && |r| <= |l| && r == l[..|r|]
    ensures var i := |s| - |l|; i + |r| <= |s| && forall k :: 0 <= k < |r| ==> r[k] == s[i + k]
  {
  }

  lemma VersionHasNoColon(gitCount: string)
    requires ':' !in gitCount
    ensures Version(gitCount)[0] == 'v' && ':' !in Version(gitCount)
  {
    var r := TrimSpace(gitCount);
    var i := |gitCount| - |TrimLeft(gitCount)|;
    TrimSpaceIsInfix(gitCount);
    forall k | 0 <= k < |r| ensures r[k] != ':' {
      assert r[k] == gitCount[i + k];
    }
    var v := Version(gitCount);
    forall k | 0 <= k < |v| ensures v[k] != ':' {
      if k > 0 {
        assert v[k] == r[k - 1];
      }
    }
  }

  /** The last colon is the only place where `:[^:]+$` can match. */
  lemma LastColonIsUnique(s: string, i: nat)
    requires i < |s| && s[i] == ':' && ':' !in s[i + 1..]
    ensures LastColon(s) == Some(i)
  {
    var r := LastColon(s);
    assert s[i] in s;
    NoColonAfter(s, i);
    NoColonAfter(s, r.value);
  }

  lemma NoColonAfter(s: string, i: nat)
    requires i < |s| && ':' !in s[i + 1..]
    ensures forall k :: i < k < |s| ==> s[k] != ':'
  {
    forall k | i < k < |s| ensures s[k] != ':' {
      assert s[k] == s[i + 1..][k - i - 1];
    }
  }

  /** ImageLatest performs the regular-expression replacement `:[^:]+$` -> ":latest". */
  lemma ImageLatestIsRegexReplace(s: string)
    ensures forall i, j :: TailMatchAt(s, i) && TailMatchAt(s, j) ==> i == j
    ensures (forall i :: !TailMatchAt(s, i)) ==> ImageLatest(s) == s
    ensures forall i :: TailMatchAt(s, i) ==> ImageLatest(s) == s[..i] + ":latest"
  {
    forall i, j | TailMatchAt(s, i) && TailMatchAt(s, j) ensures i == j {
      LastColonIsUnique(s, i);
      LastColonIsUnique(s, j);
    }
    forall i | TailMatchAt(s, i) ensures ImageLatest(s) == s[..i] + ":latest" {
      LastColonIsUnique(s, i);
    }
    match LastColon(s)
    case None =>
    case Some(i) =>
      if i < |s| - 1 {
        assert TailMatchAt(s, i);
      }
  }

  /** A string without a colon, or ending in a colon, has no match and is left as it is. */
  lemma ImageLatestUnchanged(s: string)
    requires ':' !in s || (s != [] && s[|s| - 1] == ':')
    ensures ImageLatest(s) == s
  {
    if ':' in s {
      LastColonIsUnique(s, |s| - 1);
    }
  }

  /** Applying ImageLatest a second time changes nothing. */
  lemma ImageLatestIdempotent(s: string)
    ensures ImageLatest(ImageLatest(s)) == ImageLatest(s)
  {
    match LastColon(s)
    case None =>
    case Some(i) =>
      if i < |s| - 1 {
        var r := s[..i] + LatestTag;
        assert r[i] == ':';
        assert r[i + 1..] == "latest";
        LastColonIsUnique(r, i);
        assert r[..i] == s[..i];
      }
  }

  /** The image of a checkout: registry, id, a colon, "v" and the trimmed commit count. */
  lemma ImageOfCheckout(id: string, gitCount: string)
    ensures Image(id, Version(gitCount)) == Registry + id + ":" + "v" + TrimSpace(gitCount)
  {
    Regroup(Registry + id + ":", "v", TrimSpace(gitCount));
  }

  lemma Regroup(p: string, v: string, t: string)
    ensures p + (v + t) == p + v + t
  {
  }

  /** The latest tag of an image keeps the registry (with its port 5000) and the id, and ends in ":latest". */
  lemma ImageLatestOfImage(id: string, version: string)
    requires version != [] && ':' !in version
    ensures ImageLatest(Image(id, version)) == Registry + id + ":latest"
  {
    var s := Image(id, version);
    var i := |Registry| + |id|;
    assert s[i] == ':';
    assert s[i + 1..] == version;
    LastColonIsUnique(s, i);
    assert s[..i] == Registry + id;
  }

  /** Whatever the id and the version, the latest tag still names the same registry. */
  lemma ImageLatestKeepsRegistry(id: string, version: string)
    ensures Registry <= ImageLatest(Image(id, version))
  {
    var s := Image(id, version);
    var i := |Registry| + |id|;
    assert s[i] == ':';
    assert s[i] in s;
    var j := LastColon(s).value;
    NoColonAfter(s, j);
    assert s[..j][..|Registry|] == Registry;
  }

  /** The full image pipeline for a git count without colons. */
  lemma LatestImageOfCheckout(kind: string, moduleName: string, gitCount: string)
    requires ':' !in gitCount
    ensures ImageLatest(Image(Id(kind, moduleName), Version(gitCount)))
         == Registry + kind + "-" + moduleName + ":latest"
  {
    VersionHasNoColon(gitCount);
    ImageLatestOfImage(Id(kind, moduleName), Version(gitCount));
  }

  /** For a fixed type, different modules get different ids. */
  lemma IdInjectiveInModule(kind: string, m1: string, m2: string)
    requires Id(kind, m1) == Id(kind, m2)
    ensures m1 == m2
  {
    assert m1 == Id(kind, m1)[|kind| + 1..];
    assert m2 == Id(kind, m2)[|kind| + 1..];
  }

  /** Across types the hyphen is ambiguous: two different (type, module) pairs share one id. */
  lemma IdSeparatorAmbiguous()
    ensures Id("web-api", "x") == Id("web", "api-x")
  {
  }

  /** `push` sends exactly the two references that `build` created: the image and the tag made from it. */
  lemma PushesBuiltReferences(image: string, args: seq<string>)
    ensures PushArgv(image)[2] == BuildArgv(image, args)[3]
    ensures PushArgv(ImageLatest(image))[2] == TagArgv(image)[4] && TagArgv(image)[3] == image
    ensures PushArgv(image)[..2] == PushArgv(ImageLatest(image))[..2] == ["docker", "push"]
  {
  }
}

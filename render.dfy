/**
 * Rendering of resources into repository files (pkg/state/render.go).
 *
 * Each resource is serialized and placed at a path that follows a fixed,
 * lower-cased directory layout below "stages/<stage>/". The serializer is a
 * parameter that may fail; the three path rules the Go code passes as
 * closures are the PathRule datatype.
 */
module Render {
  import opened Wrappers
  import opened Core

  /**
   * The parts of a Kubernetes object that rendering reads; manifest stands for the rest.
   * kind is GroupVersionKind().Kind, which names the file; objectKindQuoted is the text
   * `%q` produces for the object's ObjectKind value (quotes and escapes included), which
   * only the serialization error shows.
   */
  datatype KubeResource = KubeResource(kind: string, name: string, namespace: string, manifest: string,
                                       objectKindQuoted: string)

  /** A deployment as rendering sees it: its identity and its app config. */
  datatype DeploymentMeta = DeploymentMeta(name: string, namespace: string, stage: string)
  datatype Deployment = Deployment(meta: DeploymentMeta, app: AppConfig)

  /** A serializer to YAML (util.ToYaml): bytes or an error. */
  type Serializer<!T> = T -> Result<seq<Byte>, string>

  datatype RenderError =
    | ResourceNotSerialized(objectKind: string, cause: string)
    | AppConfigNotSerialized(cause: string)
  {
    function Message(): string
    {
      match this
      case ResourceNotSerialized(objectKind, cause) => "Error serializing resource " + objectKind + ": " + cause
      case AppConfigNotSerialized(cause) => "Error serializing app config: " + cause
    }
  }

  // ---------------------------------------------------------------------
  // Strings and paths

  function LowerChar(c: char): char
  {
    if 'A' <= c <= 'Z' then (c as int + 32) as char else c
  }

  /** strings.ToLower, on ASCII letters. */
  function ToLower(s: string): string
  {
    seq(|s|, i requires 0 <= i < |s| => LowerChar(s[i]))
  }

  predicate IsLower(s: string)
  {
    forall i :: 0 <= i < |s| ==> !('A' <= s[i] <= 'Z')
  }

  /** ToLower yields lower case, leaves lower case alone, and so is idempotent. */
  lemma ToLowerLowers(s: string)
    ensures IsLower(ToLower(s))
    ensures IsLower(s) ==> ToLower(s) == s
    ensures ToLower(ToLower(s)) == ToLower(s)
  {
  }

  lemma ToLowerConcat(a: string, b: string)
    ensures ToLower(a + b) == ToLower(a) + ToLower(b)
  {
  }

  /** filepath.Join: the non-empty segments joined by '/'. */
  function Join(segments: seq<string>): string
    decreases |segments|
  {
    if segments == [] then ""
    else if segments[0] == "" then Join(segments[1..])
    else if Join(segments[1..]) == "" then segments[0]
    else segments[0] + "/" + Join(segments[1..])
  }

  lemma JoinUnfold(first: string, rest: seq<string>)
    ensures Join([first] + rest) ==
      if first == "" then Join(rest) else if Join(rest) == "" then first else first + "/" + Join(rest)
  {
    assert ([first] + rest)[1..] == rest;
  }

  lemma JoinOne(only: string)
    ensures Join([only]) == only
  {
    JoinUnfold(only, []);
  }

  function LowerAll(segments: seq<string>): seq<string>
  {
    seq(|segments|, i requires 0 <= i < |segments| => ToLower(segments[i]))
  }

  lemma LowerAllCons(first: string, rest: seq<string>)
    ensures LowerAll([first] + rest) == [ToLower(first)] + LowerAll(rest)
  {
  }

  lemma ToLowerSlash(a: string, b: string)
    ensures ToLower(a + "/" + b) == ToLower(a) + "/" + ToLower(b)
  {
    ToLowerConcat(a + "/", b);
    ToLowerConcat(a, "/");
  }

  lemma ToLowerKeepsLength(s: string)
    ensures |ToLower(s)| == |s|
  {
  }

  /** Lower-casing a joined path is joining the lower-cased segments. */
  lemma {:induction false} ToLowerJoin(segments: seq<string>)
    ensures ToLower(Join(segments)) == Join(LowerAll(segments))
    decreases |segments|
  {
    if segments != [] {
      var first, rest := segments[0], segments[1..];
      assert segments == [first] + rest;
      LowerAllCons(first, rest);
      ToLowerJoin(rest);
      JoinUnfold(first, rest);
      JoinUnfold(ToLower(first), LowerAll(rest));
      ToLowerKeepsLength(first);
      ToLowerKeepsLength(Join(rest));
      ToLowerSlash(first, Join(rest));
    }
  }

  /** getFileNameFromResource: "<kind>.<name>.yaml", lower-cased. */
  function FileNameFromResource(resource: KubeResource): (name: string)
    ensures IsLower(name) && name != ""
  {
    ToLower(resource.kind + "." + resource.name + ".yaml")
  }

  /** getPlatformResourcesPath: "stages/<stage>/kube-resources/riser-managed". */
  function PlatformResourcesPath(stage: string): (path: string)
    ensures IsLower(path)
  {
    ToLower(Join(["stages", stage, "kube-resources", "riser-managed"]))
  }

  /** getGenericResourcesPath: the resource's file in its namespace's folder. */
  function GenericResourcesPath(stage: string, resource: KubeResource): (path: string)
    ensures IsLower(path)
  {
    ToLower(Join([PlatformResourcesPath(stage), resource.namespace, FileNameFromResource(resource)]))
  }

  /** getDeploymentScmPath: the resource's file in the deployment's folder. */
  function DeploymentScmPath(meta: DeploymentMeta, resource: KubeResource): (path: string)
    ensures IsLower(path)
  {
    ToLower(Join([PlatformResourcesPath(meta.stage), meta.namespace, "deployments", meta.name, FileNameFromResource(resource)]))
  }

  /** getSecretScmPath: the secret's file in the app's secrets folder of the secret's namespace. */
  function SecretScmPath(app: string, stage: string, sealedSecret: KubeResource): (path: string)
    ensures IsLower(path)
  {
    ToLower(Join([PlatformResourcesPath(stage), sealedSecret.namespace, "secrets", app, FileNameFromResource(sealedSecret)]))
  }

  /** getAppConfigScmPath: "stages/<stage>/configs/<namespace>/<app>/<deployment>.yaml". */
  function AppConfigScmPath(deployment: Deployment): (path: string)
    ensures IsLower(path)
  {
    ToLower(Join(["stages", deployment.meta.stage, "configs", deployment.meta.namespace,
                  deployment.app.name, deployment.meta.name + ".yaml"]))
  }

  /** The path functions RenderGeneric, RenderSealedSecret and RenderDeployment hand to the loop. */
  datatype PathRule =
    | GenericPath(stage: string)
    | SecretPath(app: string, secretStage: string, sealedSecret: KubeResource)
    | DeploymentPath(meta: DeploymentMeta)
  {
    function PathOf(resource: KubeResource): string
    {
      match this
      case GenericPath(stage) => GenericResourcesPath(stage, resource)
      case SecretPath(app, stage, sealedSecret) => SecretScmPath(app, stage, sealedSecret)
      case DeploymentPath(meta) => DeploymentScmPath(meta, resource)
    }
  }

  // ---------------------------------------------------------------------
  // The layout of the paths

  /** A lower-case segment is unchanged by the outer ToLower. */
  lemma StaysLower(s: string)
    requires IsLower(s)
    ensures ToLower(s) == s
  {
    ToLowerLowers(s);
  }

  lemma Join2(a: string, b: string)
    requires a != "" && b != ""
    ensures Join([a, b]) == a + "/" + b
  {
    JoinOne(b);
    JoinUnfold(a, [b]);
    assert [a] + [b] == [a, b];
  }

  lemma Join3(a: string, b: string, c: string)
    requires a != "" && b != "" && c != ""
    ensures Join([a, b, c]) == a + "/" + b + "/" + c
  {
    Join2(b, c);
    JoinUnfold(a, [b, c]);
    assert [a] + [b, c] == [a, b, c];
  }

  lemma Join4(a: string, b: string, c: string, d: string)
    requires a != "" && b != "" && c != "" && d != ""
    ensures Join([a, b, c, d]) == a + "/" + b + "/" + c + "/" + d
  {
    Join3(b, c, d);
    JoinUnfold(a, [b, c, d]);
    assert [a] + [b, c, d] == [a, b, c, d];
  }

  lemma Join5(a: string, b: string, c: string, d: string, e: string)
    requires a != "" && b != "" && c != "" && d != "" && e != ""
    ensures Join([a, b, c, d, e]) == a + "/" + b + "/" + c + "/" + d + "/" + e
  {
    Join4(b, c, d, e);
    JoinUnfold(a, [b, c, d, e]);
    assert [a] + [b, c, d, e] == [a, b, c, d, e];
  }

  lemma Join6(a: string, b: string, c: string, d: string, e: string, f: string)
    requires a != "" && b != "" && c != "" && d != "" && e != "" && f != ""
    ensures Join([a, b, c, d, e, f]) == a + "/" + b + "/" + c + "/" + d + "/" + e + "/" + f
  {
    Join5(b, c, d, e, f);
    JoinUnfold(a, [b, c, d, e, f]);
    assert [a] + [b, c, d, e, f] == [a, b, c, d, e, f];
  }

  /** An empty middle segment is skipped, as filepath.Join skips it. */
  lemma JoinSkipsEmptyMiddle(a: string, c: string)
    requires a != "" && c != ""
    ensures Join([a, "", c]) == a + "/" + c
  {
    JoinOne(c);
    JoinUnfold("", [c]);
    assert [""] + [c] == ["", c];
    JoinUnfold(a, ["", c]);
    assert [a] + ["", c] == [a, "", c];
  }

  lemma PlatformSegmentsLowered(stage: string)
    ensures ToLower(Join(["stages", stage, "kube-resources", "riser-managed"]))
         == Join(["stages", ToLower(stage), "kube-resources", "riser-managed"])
  {
    var segs := ["stages", stage, "kube-resources", "riser-managed"];
    ToLowerJoin(segs);
    StaysLower("stages");
    StaysLower("kube-resources");
    StaysLower("riser-managed");
    assert LowerAll(segs) == ["stages", ToLower(stage), "kube-resources", "riser-managed"];
  }

  lemma PlatformLiteral(st: string)
    ensures "stages" + "/" + st + "/" + "kube-resources" + "/" + "riser-managed"
         == "stages/" + st + "/kube-resources/riser-managed"
  {
  }

  lemma PlatformResourcesPathShape(stage: string)
    requires stage != ""
    ensures PlatformResourcesPath(stage) == "stages/" + ToLower(stage) + "/kube-resources/riser-managed"
  {
    var st := ToLower(stage);
    PlatformSegmentsLowered(stage);
    ToLowerKeepsLength(stage);
    Join4("stages", st, "kube-resources", "riser-managed");
    PlatformLiteral(st);
  }

  lemma FileNameShape(resource: KubeResource)
    ensures FileNameFromResource(resource) == ToLower(resource.kind) + "." + ToLower(resource.name) + ".yaml"
  {
    ToLowerConcat(resource.kind, "." + resource.name + ".yaml");
    ToLowerConcat(".", resource.name + ".yaml");
    ToLowerConcat(resource.name, ".yaml");
    StaysLower(".");
    StaysLower(".yaml");
    assert resource.kind + "." + resource.name + ".yaml" == resource.kind + ("." + (resource.name + ".yaml"));
  }

  /** The platform root and a file name are lower case and non-empty. */
  lemma RootAndFileLower(stage: string, resource: KubeResource)
    ensures ToLower(PlatformResourcesPath(stage)) == PlatformResourcesPath(stage)
    ensures ToLower(FileNameFromResource(resource)) == FileNameFromResource(resource)
    ensures FileNameFromResource(resource) != ""
  {
    ToLowerLowers(Join(["stages", stage, "kube-resources", "riser-managed"]));
    ToLowerLowers(resource.kind + "." + resource.name + ".yaml");
    ToLowerKeepsLength(resource.kind + "." + resource.name + ".yaml");
  }

  /** A namespaced generic resource: stages/<stage>/kube-resources/riser-managed/<namespace>/<kind>.<name>.yaml. */
  lemma GenericResourcesPathShape(stage: string, resource: KubeResource)
    requires stage != "" && resource.namespace != ""
    ensures GenericResourcesPath(stage, resource) ==
      "stages/" + ToLower(stage) + "/kube-resources/riser-managed/" + ToLower(resource.namespace) + "/"
      + ToLower(resource.kind) + "." + ToLower(resource.name) + ".yaml"
  {
    var root, file := PlatformResourcesPath(stage), FileNameFromResource(resource);
    var ns := ToLower(resource.namespace);
    var segs := [root, resource.namespace, file];
    RootAndFileLower(stage, resource);
    ToLowerJoin(segs);
    assert LowerAll(segs) == [root, ns, file];
    ToLowerKeepsLength(resource.namespace);
    PlatformResourcesPathShape(stage);
    Join3(root, ns, file);
    FileNameShape(resource);
  }

  /** A cluster-scoped resource (no namespace) sits directly in the platform folder. */
  lemma ClusterScopedResourcePathShape(stage: string, resource: KubeResource)
    requires stage != "" && resource.namespace == ""
    ensures GenericResourcesPath(stage, resource) ==
      "stages/" + ToLower(stage) + "/kube-resources/riser-managed/" + ToLower(resource.kind) + "." + ToLower(resource.name) + ".yaml"
  {
    var root, file := PlatformResourcesPath(stage), FileNameFromResource(resource);
    var segs := [root, "", file];
    RootAndFileLower(stage, resource);
    ToLowerJoin(segs);
    assert LowerAll(segs) == segs;
    PlatformResourcesPathShape(stage);
    JoinSkipsEmptyMiddle(root, file);
    FileNameShape(resource);
  }

  lemma DeploymentSegmentsLowered(meta: DeploymentMeta, resource: KubeResource)
    ensures ToLower(Join([PlatformResourcesPath(meta.stage), meta.namespace, "deployments", meta.name, FileNameFromResource(resource)]))
         == Join([PlatformResourcesPath(meta.stage), ToLower(meta.namespace), "deployments", ToLower(meta.name), FileNameFromResource(resource)])
  {
    var segs := [PlatformResourcesPath(meta.stage), meta.namespace, "deployments", meta.name, FileNameFromResource(resource)];
    RootAndFileLower(meta.stage, resource);
    StaysLower("deployments");
    ToLowerJoin(segs);
    assert LowerAll(segs) == [PlatformResourcesPath(meta.stage), ToLower(meta.namespace), "deployments", ToLower(meta.name), FileNameFromResource(resource)];
  }

  lemma DeploymentLiteral(st: string, ns: string, name: string, kind: string, rname: string)
    ensures ("stages/" + st + "/kube-resources/riser-managed") + "/" + ns + "/" + "deployments" + "/" + name + "/"
            + (kind + "." + rname + ".yaml")
         == "stages/" + st + "/kube-resources/riser-managed/" + ns + "/deployments/" + name + "/" + kind + "." + rname + ".yaml"
  {
  }

  /** <platform root>/<namespace>/deployments/<deployment>/<kind>.<name>.yaml. */
  lemma DeploymentScmPathShape(meta: DeploymentMeta, resource: KubeResource)
    requires meta.stage != "" && meta.namespace != "" && meta.name != ""
    ensures DeploymentScmPath(meta, resource) ==
      "stages/" + ToLower(meta.stage) + "/kube-resources/riser-managed/" + ToLower(meta.namespace)
      + "/deployments/" + ToLower(meta.name) + "/" + ToLower(resource.kind) + "." + ToLower(resource.name) + ".yaml"
  {
    var root, file := PlatformResourcesPath(meta.stage), FileNameFromResource(resource);
    DeploymentSegmentsLowered(meta, resource);
    RootAndFileLower(meta.stage, resource);
    ToLowerKeepsLength(meta.namespace);
    ToLowerKeepsLength(meta.name);
    PlatformResourcesPathShape(meta.stage);
    Join5(root, ToLower(meta.namespace), "deployments", ToLower(meta.name), file);
    FileNameShape(resource);
    DeploymentLiteral(ToLower(meta.stage), ToLower(meta.namespace), ToLower(meta.name), ToLower(resource.kind), ToLower(resource.name));
  }

  lemma SecretSegmentsLowered(app: string, stage: string, sealedSecret: KubeResource)
    ensures ToLower(Join([PlatformResourcesPath(stage), sealedSecret.namespace, "secrets", app, FileNameFromResource(sealedSecret)]))
         == Join([PlatformResourcesPath(stage), ToLower(sealedSecret.namespace), "secrets", ToLower(app), FileNameFromResource(sealedSecret)])
  {
    var segs := [PlatformResourcesPath(stage), sealedSecret.namespace, "secrets", app, FileNameFromResource(sealedSecret)];
    RootAndFileLower(stage, sealedSecret);
    StaysLower("secrets");
    ToLowerJoin(segs);
    assert LowerAll(segs) == [PlatformResourcesPath(stage), ToLower(sealedSecret.namespace), "secrets", ToLower(app), FileNameFromResource(sealedSecret)];
  }

  lemma SecretLiteral(st: string, ns: string, app: string, kind: string, rname: string)
    ensures ("stages/" + st + "/kube-resources/riser-managed") + "/" + ns + "/" + "secrets" + "/" + app + "/"
            + (kind + "." + rname + ".yaml")
         == "stages/" + st + "/kube-resources/riser-managed/" + ns + "/secrets/" + app + "/" + kind + "." + rname + ".yaml"
  {
  }

  /** <platform root>/<secret's namespace>/secrets/<app>/<kind>.<name>.yaml. */
  lemma SecretScmPathShape(app: string, stage: string, sealedSecret: KubeResource)
    requires app != "" && stage != "" && sealedSecret.namespace != ""
    ensures SecretScmPath(app, stage, sealedSecret) ==
      "stages/" + ToLower(stage) + "/kube-resources/riser-managed/" + ToLower(sealedSecret.namespace)
      + "/secrets/" + ToLower(app) + "/" + ToLower(sealedSecret.kind) + "." + ToLower(sealedSecret.name) + ".yaml"
  {
    var root, file := PlatformResourcesPath(stage), FileNameFromResource(sealedSecret);
    SecretSegmentsLowered(app, stage, sealedSecret);
    RootAndFileLower(stage, sealedSecret);
    ToLowerKeepsLength(sealedSecret.namespace);
    ToLowerKeepsLength(app);
    PlatformResourcesPathShape(stage);
    Join5(root, ToLower(sealedSecret.namespace), "secrets", ToLower(app), file);
    FileNameShape(sealedSecret);
    SecretLiteral(ToLower(stage), ToLower(sealedSecret.namespace), ToLower(app), ToLower(sealedSecret.kind), ToLower(sealedSecret.name));
  }

  /** stages/<stage>/configs/<namespace>/<app>/<deployment>.yaml. */
  lemma AppConfigSegmentsLowered(deployment: Deployment)
    ensures AppConfigScmPath(deployment)
         == Join(["stages", ToLower(deployment.meta.stage), "configs", ToLower(deployment.meta.namespace),
                  ToLower(deployment.app.name), ToLower(deployment.meta.name) + ".yaml"])
  {
    var segs := ["stages", deployment.meta.stage, "configs", deployment.meta.namespace,
                 deployment.app.name, deployment.meta.name + ".yaml"];
    ToLowerConcat(deployment.meta.name, ".yaml");
    StaysLower(".yaml");
    StaysLower("stages");
    StaysLower("configs");
    ToLowerJoin(segs);
    assert LowerAll(segs) == ["stages", ToLower(deployment.meta.stage), "configs", ToLower(deployment.meta.namespace),
                              ToLower(deployment.app.name), ToLower(deployment.meta.name) + ".yaml"];
  }

  lemma AppConfigLiteral(st: string, ns: string, app: string, name: string)
    ensures "stages" + "/" + st + "/" + "configs" + "/" + ns + "/" + app + "/" + (name + ".yaml")
         == "stages/" + st + "/configs/" + ns + "/" + app + "/" + name + ".yaml"
  {
  }

  /** stages/<stage>/configs/<namespace>/<app>/<deployment>.yaml. */
  lemma AppConfigScmPathShape(deployment: Deployment)
    requires deployment.meta.stage != "" && deployment.meta.namespace != "" && deployment.app.name != ""
    ensures AppConfigScmPath(deployment) ==
      "stages/" + ToLower(deployment.meta.stage) + "/configs/" + ToLower(deployment.meta.namespace) + "/"
      + ToLower(deployment.app.name) + "/" + ToLower(deployment.meta.name) + ".yaml"
  {
    var st, ns, app := ToLower(deployment.meta.stage), ToLower(deployment.meta.namespace), ToLower(deployment.app.name);
    var name := ToLower(deployment.meta.name);
    AppConfigSegmentsLowered(deployment);
    ToLowerKeepsLength(deployment.meta.stage);
    ToLowerKeepsLength(deployment.meta.namespace);
    ToLowerKeepsLength(deployment.app.name);
    Join6("stages", st, "configs", ns, app, name + ".yaml");
    AppConfigLiteral(st, ns, app, name);
  }

  /** Every path rendering produces is entirely lower case. */
  lemma PathsAreLowerCase(rule: PathRule, resource: KubeResource, deployment: Deployment)
    ensures IsLower(rule.PathOf(resource))
    ensures IsLower(AppConfigScmPath(deployment))
  {
    match rule
    case GenericPath(stage) =>
      ToLowerLowers(Join([PlatformResourcesPath(stage), resource.namespace, FileNameFromResource(resource)]));
    case SecretPath(app, stage, sealedSecret) =>
      ToLowerLowers(Join([PlatformResourcesPath(stage), sealedSecret.namespace, "secrets", app, FileNameFromResource(sealedSecret)]));
    case DeploymentPath(meta) =>
      ToLowerLowers(Join([PlatformResourcesPath(meta.stage), meta.namespace, "deployments", meta.name, FileNameFromResource(resource)]));
    ToLowerLowers(Join(["stages", deployment.meta.stage, "configs", deployment.meta.namespace,
                        deployment.app.name, deployment.meta.name + ".yaml"]));
  }

  // ---------------------------------------------------------------------
  // Rendering

  /** What renderKubeResources returns: one file per resource, or the first serialization error. */
  function RenderedFiles(rule: PathRule, toYaml: Serializer<KubeResource>, resources: seq<KubeResource>): Result<seq<ResourceFile>, RenderError>
    decreases |resources|
  {
    if resources == [] then Success([])
    else
      var last := resources[|resources| - 1];
      match RenderedFiles(rule, toYaml, resources[..|resources| - 1])
      case Failure(e) => Failure(e)
      case Success(files) =>
        match toYaml(last)
        case Failure(cause) => Failure(ResourceNotSerialized(last.objectKindQuoted, cause))
        case Success(contents) => Success(files + [ResourceFile(rule.PathOf(last), contents)])
  }

  /** Every resource serializes. */
  predicate AllSerialize(toYaml: Serializer<KubeResource>, resources: seq<KubeResource>)
  {
    forall i :: 0 <= i < |resources| ==> toYaml(resources[i]).Success?
  }

  /** Rendering succeeds exactly when every resource serializes. */
  lemma {:induction false} RenderedFilesSucceedsIff(rule: PathRule, toYaml: Serializer<KubeResource>, resources: seq<KubeResource>)
    ensures RenderedFiles(rule, toYaml, resources).Success? <==> AllSerialize(toYaml, resources)
    decreases |resources|
  {
    if resources != [] {
      var init := resources[..|resources| - 1];
      RenderedFilesSucceedsIff(rule, toYaml, init);
      assert forall i :: 0 <= i < |init| ==> init[i] == resources[i];
    }
  }

  /**
   * A successful rendering yields one file per resource, in input order, at
   * the rule's path and with the resource's serialization.
   */
  lemma {:induction false} RenderedFilesContents(rule: PathRule, toYaml: Serializer<KubeResource>, resources: seq<KubeResource>)
    requires AllSerialize(toYaml, resources)
    ensures RenderedFiles(rule, toYaml, resources).Success?
    ensures |RenderedFiles(rule, toYaml, resources).value| == |resources|
    ensures forall i :: 0 <= i < |resources| ==>
      RenderedFiles(rule, toYaml, resources).value[i] == ResourceFile(rule.PathOf(resources[i]), toYaml(resources[i]).value)
    decreases |resources|
  {
    RenderedFilesSucceedsIff(rule, toYaml, resources);
    if resources != [] {
      var init, last := resources[..|resources| - 1], resources[|resources| - 1];
      assert forall i :: 0 <= i < |init| ==> init[i] == resources[i];
      RenderedFilesContents(rule, toYaml, init);
      var before := RenderedFiles(rule, toYaml, init).value;
      var files := RenderedFiles(rule, toYaml, resources).value;
      assert files == before + [ResourceFile(rule.PathOf(last), toYaml(last).value)];
      forall i | 0 <= i < |resources|
        ensures files[i] == ResourceFile(rule.PathOf(resources[i]), toYaml(resources[i]).value)
      {
        if i < |init| {
          assert files[i] == before[i];
        }
      }
    }
  }

  /** A failed rendering reports the first resource that did not serialize. */
  lemma {:induction false} RenderedFilesFirstFailure(rule: PathRule, toYaml: Serializer<KubeResource>, resources: seq<KubeResource>)
    requires RenderedFiles(rule, toYaml, resources).Failure?
    ensures exists k :: (0 <= k < |resources|
                         && AllSerialize(toYaml, resources[..k])
                         && toYaml(resources[k]).Failure?
                         && RenderedFiles(rule, toYaml, resources).error == ResourceNotSerialized(resources[k].objectKindQuoted, toYaml(resources[k]).error))
    decreases |resources|
  {
    var init := resources[..|resources| - 1];
    if RenderedFiles(rule, toYaml, init).Failure? {
      RenderedFilesFirstFailure(rule, toYaml, init);
      var k :| 0 <= k < |init| && AllSerialize(toYaml, init[..k]) && toYaml(init[k]).Failure?
        && RenderedFiles(rule, toYaml, init).error == ResourceNotSerialized(init[k].objectKindQuoted, toYaml(init[k]).error);
      assert init[..k] == resources[..k];
      assert init[k] == resources[k];
    } else {
      RenderedFilesSucceedsIff(rule, toYaml, init);
      var k := |resources| - 1;
      assert init == resources[..k];
    }
  }

  /** renderKubeResources. */
  method RenderKubeResources(rule: PathRule, toYaml: Serializer<KubeResource>, resources: seq<KubeResource>)
    returns (result: Result<seq<ResourceFile>, RenderError>)
    ensures result == RenderedFiles(rule, toYaml, resources)
  {
    var files: seq<ResourceFile> := [];
    var i := 0;
    while i < |resources|
      invariant 0 <= i <= |resources|
      invariant RenderedFiles(rule, toYaml, resources[..i]) == Success(files)
    {
      var resource := resources[i];
      var serialized := toYaml(resource);
      if serialized.Failure? {
        RenderedFailsAt(rule, toYaml, resources, i);
        return Failure(ResourceNotSerialized(resource.objectKindQuoted, serialized.error));
      }
      RenderedFilesStep(rule, toYaml, resources, i);
      files := files + [ResourceFile(rule.PathOf(resource), serialized.value)];
      i := i + 1;
    }
    assert resources[..i] == resources;
    return Success(files);
  }

  /** Rendering one more resource after a successful prefix. */
  lemma RenderedFilesStep(rule: PathRule, toYaml: Serializer<KubeResource>, resources: seq<KubeResource>, i: nat)
    requires i < |resources| && RenderedFiles(rule, toYaml, resources[..i]).Success?
    requires toYaml(resources[i]).Success?
    ensures RenderedFiles(rule, toYaml, resources[..i + 1])
         == Success(RenderedFiles(rule, toYaml, resources[..i]).value + [ResourceFile(rule.PathOf(resources[i]), toYaml(resources[i]).value)])
  {
    assert resources[..i + 1][..i] == resources[..i];
    assert resources[..i + 1][i] == resources[i];
  }

  /** The first resource that does not serialize decides the whole rendering. */
  lemma RenderedFailsAt(rule: PathRule, toYaml: Serializer<KubeResource>, resources: seq<KubeResource>, i: nat)
    requires i < |resources| && RenderedFiles(rule, toYaml, resources[..i]).Success?
    requires toYaml(resources[i]).Failure?
    ensures RenderedFiles(rule, toYaml, resources) == Failure(ResourceNotSerialized(resources[i].objectKindQuoted, toYaml(resources[i]).error))
  {
    assert resources[..i + 1][..i] == resources[..i];
    assert resources[..i + 1][i] == resources[i];
    RenderedFailurePropagates(rule, toYaml, resources, i + 1);
  }

  /** A failure on a prefix is the failure of the whole list. */
  lemma {:induction false} RenderedFailurePropagates(rule: PathRule, toYaml: Serializer<KubeResource>, resources: seq<KubeResource>, n: nat)
    requires n <= |resources|
    requires RenderedFiles(rule, toYaml, resources[..n]).Failure?
    ensures RenderedFiles(rule, toYaml, resources) == RenderedFiles(rule, toYaml, resources[..n])
    decreases |resources| - n
  {
    if n < |resources| {
      assert resources[..n + 1][..n] == resources[..n];
      RenderedFailurePropagates(rule, toYaml, resources, n + 1);
    } else {
      assert resources[..n] == resources;
    }
  }

  /** RenderGeneric: the resources at their generic paths for the stage. */
  method RenderGeneric(stage: string, toYaml: Serializer<KubeResource>, resources: seq<KubeResource>)
    returns (result: Result<seq<ResourceFile>, RenderError>)
    ensures result == RenderedFiles(GenericPath(stage), toYaml, resources)
  {
    result := RenderKubeResources(GenericPath(stage), toYaml, resources);
  }

  /**
   * RenderSealedSecret: exactly one file, whose path depends only on the app,
   * the stage and the sealed secret.
   */
  method RenderSealedSecret(app: string, stage: string, toYaml: Serializer<KubeResource>, sealedSecret: KubeResource)
    returns (result: Result<seq<ResourceFile>, RenderError>)
    ensures toYaml(sealedSecret).Success? ==>
      result == Success([ResourceFile(SecretScmPath(app, stage, sealedSecret), toYaml(sealedSecret).value)])
    ensures toYaml(sealedSecret).Failure? ==>
      result == Failure(ResourceNotSerialized(sealedSecret.objectKindQuoted, toYaml(sealedSecret).error))
  {
    result := RenderKubeResources(SecretPath(app, stage, sealedSecret), toYaml, [sealedSecret]);
    assert [sealedSecret][..0] == [];
    assert [sealedSecret][..|[sealedSecret]| - 1] == [];
    assert RenderedFiles(SecretPath(app, stage, sealedSecret), toYaml, []) == Success([]);
    assert SecretPath(app, stage, sealedSecret).PathOf(sealedSecret) == SecretScmPath(app, stage, sealedSecret);
    if toYaml(sealedSecret).Success? {
      var file := ResourceFile(SecretScmPath(app, stage, sealedSecret), toYaml(sealedSecret).value);
      assert [] + [file] == [file];
    }
  }

  /** renderAppConfig: the app config document at its config path. */
  method RenderAppConfig(deployment: Deployment, appToYaml: Serializer<AppConfig>)
    returns (result: Result<ResourceFile, RenderError>)
    ensures appToYaml(deployment.app).Success? ==>
      result == Success(ResourceFile(AppConfigScmPath(deployment), appToYaml(deployment.app).value))
    ensures appToYaml(deployment.app).Failure? ==>
      result == Failure(AppConfigNotSerialized(appToYaml(deployment.app).error))
  {
    var serialized := appToYaml(deployment.app);
    if serialized.Failure? {
      return Failure(AppConfigNotSerialized(serialized.error));
    }
    return Success(ResourceFile(AppConfigScmPath(deployment), serialized.value));
  }

  /**
   * RenderDeployment: the deployment's resources, then its app config last;
   * a failure in either stage yields no files.
   */
  method RenderDeployment(deployment: Deployment, toYaml: Serializer<KubeResource>, appToYaml: Serializer<AppConfig>,
                          resources: seq<KubeResource>)
    returns (result: Result<seq<ResourceFile>, RenderError>)
    ensures var owned := RenderedFiles(DeploymentPath(deployment.meta), toYaml, resources);
      && (owned.Failure? ==> result == Failure(owned.error))
      && (owned.Success? && appToYaml(deployment.app).Failure? ==>
            result == Failure(AppConfigNotSerialized(appToYaml(deployment.app).error)))
      && (owned.Success? && appToYaml(deployment.app).Success? ==>
            result == Success(owned.value + [ResourceFile(AppConfigScmPath(deployment), appToYaml(deployment.app).value)]))
  {
    var files := RenderKubeResources(DeploymentPath(deployment.meta), toYaml, resources);
    if files.Failure? {
      return Failure(files.error);
    }
    var appConfigFile := RenderAppConfig(deployment, appToYaml);
    if appConfigFile.Failure? {
      return Failure(appConfigFile.error);
    }
    return Success(files.value + [appConfigFile.value]);
  }

  /** For n resources that all serialize, with a serializable app config, n + 1 files, the app config last. */
  lemma RenderDeploymentCount(deployment: Deployment, toYaml: Serializer<KubeResource>, appToYaml: Serializer<AppConfig>,
                              resources: seq<KubeResource>)
    requires AllSerialize(toYaml, resources) && appToYaml(deployment.app).Success?
    ensures var owned := RenderedFiles(DeploymentPath(deployment.meta), toYaml, resources);
      && owned.Success?
      && |owned.value + [ResourceFile(AppConfigScmPath(deployment), appToYaml(deployment.app).value)]| == |resources| + 1
  {
    RenderedFilesContents(DeploymentPath(deployment.meta), toYaml, resources);
  }
}

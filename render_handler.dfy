/** The `POST /render` handler of src/index.ts (lines 25-74): validation,
    the workspace lifecycle, the three foreign stages and the response.

    The handler is modelled twice. `Run` is what the handler does, branch
    for branch, as a function of the filesystem, the request, the render id
    and the outcomes of the foreign stages: the workspace phase is
    `Execute` of the four workspace steps, the stage phase `RunStages`.
    `RenderServer.HandleRender` is the same code as a method on a mutable
    `FileSystem`, proved to compute `Run`. */
module RenderHandler {
  import opened Wrappers
  import opened JsValues
  import opened Paths
  import opened Files
  import opened Requests
  import opened Workspace
  import opened Steps

  /** The parts of the Express request the handler reads. */
  datatype HttpRequest = HttpRequest(body: Option<Json>, protocol: string, host: Option<string>)

  datatype ResponseBody =
    | MissingCode                                  // the 400 answer's error text
    | Rendered(videoUrl: string, renderId: string) // a success flag, the video's URL and the id
    | RenderFailed(error: string)                  // a failure flag and the error's text

  datatype Response = Response(status: int, body: ResponseBody)

  /** The response, the calls made, and the filesystem afterwards. */
  datatype Outcome = Outcome(response: Response, trace: seq<Step>, tree: Tree)

  const Codec: string := "h264"

  /** The seven steps of a request that has `code`, in source order: the
      workspace steps, then the stage steps. */
  function Plan(outputDir: Path, renderId: string, req: Request, stages: StageOutcomes): seq<Step>
    requires req.code.Some?
  {
    WorkspaceSteps(TempDir(outputDir, renderId), req, renderId) + StageSteps(outputDir, renderId, req, stages)
  }

  /** Lines 34-51: create the workspace, write the component, the entry
      module and the manifest. */
  function WorkspaceSteps(tempDir: Path, req: Request, renderId: string): seq<Step>
    requires req.code.Some?
  {
    [MakeDir(tempDir)]
      + [WriteFile(tempDir, ComponentFileName, ComponentArg(req.code.value))]
      + [EntryStep(tempDir, req)]
      + [WriteFile(tempDir, ManifestFileName, Accepted(PackageManifest(renderId)))]
  }

  /** Line 40: the entry file is written with the template's text, unless
      the template itself throws, in which case `writeFileSync` is never
      called. */
  function EntryStep(tempDir: Path, req: Request): (s: Step)
    ensures s.WriteFile? || s.ArgumentThrew?
    ensures s.WriteFile? <==> EntryModule(req).Returned?
    ensures s.WriteFile? ==> s.dir == tempDir && s.name == EntryFileName && s.data.Accepted?
    ensures s.WriteFile? ==> s.data.contents == Text(EntryModule(req).value)
    ensures s.ArgumentThrew? ==> s.thrown == ErrorObject(NoPrimitiveMessage)
  {
    match EntryModule(req)
    case Returned(text) => WriteFile(tempDir, EntryFileName, Accepted(Text(text)))
    case Threw(e) => ArgumentThrew(e)
  }

  /** Lines 54-62: bundle, select the composition, render. A stage's result
      feeds the next stage's arguments; where a stage throws, the
      placeholder "" stands for the result it never produced and is never
      used, since no later step is attempted. */
  function StageSteps(outputDir: Path, renderId: string, req: Request, stages: StageOutcomes): seq<Step> {
    var tempDir := TempDir(outputDir, renderId);
    var location := if stages.bundle.Returned? then stages.bundle.value else "";
    var composition := if stages.selectComposition.Returned? then stages.selectComposition.value else "";
    [Bundle(Join(tempDir, EntryFileName))]
      + [SelectComposition(location, req.compositionId)]
      + [RenderMedia(composition, location, Codec, OutputPath(outputDir, renderId))]
  }

  /** The `catch` block: remove the workspace if it exists, answer 500. */
  function Catch(t: Tree, trace: seq<Step>, tempDir: Path, e: Thrown): (r: Outcome)
    ensures r.response == Response(500, RenderFailed(ErrorText(e)))
    ensures tempDir !in r.tree
  {
    if tempDir in t then Outcome(Response(500, RenderFailed(ErrorText(e))), trace + [Remove(tempDir)], RemoveTree(t, tempDir))
    else Outcome(Response(500, RenderFailed(ErrorText(e))), trace, t)
  }

  /** The handler, branch for branch: destructuring, the `code` check,
      then the `try` block. */
  function Run(outputDir: Path, t: Tree, http: HttpRequest, renderId: string, stages: StageOutcomes): Outcome {
    var tempDir := TempDir(outputDir, renderId);
    match Destructure(http.body)
    case Threw(e) => Catch(t, [], tempDir, e)
    case Returned(req) =>
      if !req.HasCode() then Outcome(Response(400, MissingCode), [], t)
      else Attempt(outputDir, t, http, renderId, req, stages)
  }

  /** Lines 34-72 for a request with `code`: the workspace steps, stopping at
      the first call that throws, then the stages, or the `catch` block. */
  function Attempt(outputDir: Path, t: Tree, http: HttpRequest, renderId: string, req: Request,
                   stages: StageOutcomes): Outcome
    requires req.code.Some?
  {
    var tempDir := TempDir(outputDir, renderId);
    var w := Execute(WorkspaceSteps(tempDir, req, renderId), t, stages);
    if w.failure.Some? then Catch(w.tree, w.attempted, tempDir, w.failure.value)
    else RunStages(outputDir, w.tree, w.attempted, http, renderId, req, stages)
  }

  /** Lines 53-72 once the workspace is in place: bundle, select the
      composition, render, then clean up and answer 200, or answer 500 from
      the `catch` block. */
  function RunStages(outputDir: Path, t: Tree, trace: seq<Step>, http: HttpRequest, renderId: string,
                     req: Request, stages: StageOutcomes): Outcome
  {
    var tempDir := TempDir(outputDir, renderId);
    var s4 := Bundle(Join(tempDir, EntryFileName));
    match stages.bundle
    case Threw(e) => Catch(t, trace + [s4], tempDir, e)
    case Returned(location) =>
      var s5 := SelectComposition(location, req.compositionId);
      match stages.selectComposition
      case Threw(e) => Catch(t, trace + [s4] + [s5], tempDir, e)
      case Returned(composition) =>
        var outputPath := OutputPath(outputDir, renderId);
        var s6 := RenderMedia(composition, location, Codec, outputPath);
        match stages.renderMedia
        case Threw(e) => Catch(LeaveOutput(t, outputPath, stages.partialOutput), trace + [s4] + [s5] + [s6], tempDir, e)
        case Returned(_) =>
          var t1 := t[outputPath := File(Mp4)];
          var baseUrl := BaseUrl(http.protocol, http.host);
          Outcome(
            Response(200, Rendered(VideoUrl(baseUrl, renderId), renderId)),
            trace + [s4] + [s5] + [s6] + [Remove(tempDir)],
            RemoveTree(t1, tempDir))
  }

  /** The server: its output directory (injected configuration) and the
      filesystem it works on. */
  class RenderServer {
    const outputDir: Path
    const disk: FileSystem

    constructor (outputDir: Path, disk: FileSystem)
      ensures this.outputDir == outputDir && this.disk == disk
    {
      this.outputDir := outputDir;
      this.disk := disk;
    }

    /** Lines 34-51: the workspace builder. Creates `tempDir` and writes
        its three files, stopping at the first call that throws. (`stages`
        is ghost: no workspace step consults it.) */
    method Populate(tempDir: Path, req: Request, renderId: string, ghost stages: StageOutcomes)
      returns (trace: seq<Step>, failure: Option<Thrown>)
      requires req.code.Some?
      modifies disk
      ensures Execution(trace, disk.tree, failure) == Execute(WorkspaceSteps(tempDir, req, renderId), old(disk.tree), stages)
    {
      ExecuteFour(MakeDir(tempDir),
                  WriteFile(tempDir, ComponentFileName, ComponentArg(req.code.value)),
                  EntryStep(tempDir, req),
                  WriteFile(tempDir, ManifestFileName, Accepted(PackageManifest(renderId))),
                  disk.tree, stages);

      trace := [MakeDir(tempDir)];
      failure := disk.MakeDirectory(tempDir);
      if failure.Some? {
        return;
      }

      var data := ComponentArg(req.code.value);
      trace := trace + [WriteFile(tempDir, ComponentFileName, data)];
      failure := disk.WriteFile(tempDir, ComponentFileName, data);
      if failure.Some? {
        return;
      }

      var template := EntryModule(req);
      if template.Threw? {
        trace := trace + [ArgumentThrew(template.thrown)];
        failure := Some(template.thrown);
        return;
      }
      var entry := Accepted(Text(template.value));
      trace := trace + [WriteFile(tempDir, EntryFileName, entry)];
      failure := disk.WriteFile(tempDir, EntryFileName, entry);
      if failure.Some? {
        return;
      }

      var manifest := Accepted(PackageManifest(renderId));
      trace := trace + [WriteFile(tempDir, ManifestFileName, manifest)];
      failure := disk.WriteFile(tempDir, ManifestFileName, manifest);
    }

    /** The `catch` block of lines 69-72: remove the workspace if it
        exists and answer 500 with the error's message. */
    method Recover(trace: seq<Step>, tempDir: Path, caught: Thrown)
      returns (response: Response, trace': seq<Step>)
      modifies disk
      ensures Outcome(response, trace', disk.tree) == Catch(old(disk.tree), trace, tempDir, caught)
    {
      trace' := trace;
      var present := disk.Exists(tempDir);
      if present {
        disk.Remove(tempDir);
        trace' := trace' + [Remove(tempDir)];
      }
      response := Response(500, RenderFailed(ErrorText(caught)));
    }

    /** Lines 53-68 once the workspace is in place: the three foreign stages,
        the cleanup and the 200 response; a stage that throws goes to
        `Recover`. */
    method RunPipeline(trace: seq<Step>, http: HttpRequest, renderId: string, req: Request, stages: StageOutcomes)
      returns (response: Response, trace': seq<Step>)
      modifies disk
      ensures Outcome(response, trace', disk.tree)
        == RunStages(outputDir, old(disk.tree), trace, http, renderId, req, stages)
    {
      var tempDir := TempDir(outputDir, renderId);
      trace' := trace + [Bundle(Join(tempDir, EntryFileName))];
      if stages.bundle.Threw? {
        response, trace' := Recover(trace', tempDir, stages.bundle.thrown);
        return;
      }
      var bundleLocation := stages.bundle.value;

      trace' := trace' + [SelectComposition(bundleLocation, req.compositionId)];
      if stages.selectComposition.Threw? {
        response, trace' := Recover(trace', tempDir, stages.selectComposition.thrown);
        return;
      }
      var composition := stages.selectComposition.value;

      var outputPath := OutputPath(outputDir, renderId);
      trace' := trace' + [RenderMedia(composition, bundleLocation, Codec, outputPath)];
      if stages.renderMedia.Threw? {
        if stages.partialOutput.Some? {
          disk.PlaceArtifact(outputPath, stages.partialOutput.value);
        }
        response, trace' := Recover(trace', tempDir, stages.renderMedia.thrown);
        return;
      }
      disk.PlaceArtifact(outputPath, Mp4);

      var baseUrl := BaseUrl(http.protocol, http.host);
      disk.Remove(tempDir);
      trace' := trace' + [Remove(tempDir)];
      response := Response(200, Rendered(VideoUrl(baseUrl, renderId), renderId));
    }

    /** `POST /render` with a render id that the caller generated. Each
        point where the `try` block throws hands over to `Recover`. */
    method HandleRender(http: HttpRequest, renderId: string, stages: StageOutcomes)
      returns (response: Response, trace: seq<Step>)
      modifies disk
      ensures Outcome(response, trace, disk.tree) == Run(outputDir, old(disk.tree), http, renderId, stages)
    {
      var tempDir := TempDir(outputDir, renderId);
      var destructured := Destructure(http.body);
      if destructured.Threw? {
        response, trace := Recover([], tempDir, destructured.thrown);
        return;
      }
      var req := destructured.value;
      if !req.HasCode() {
        response, trace := Response(400, MissingCode), [];
        return;
      }

      var failure;
      trace, failure := Populate(tempDir, req, renderId, stages);
      if failure.Some? {
        response, trace := Recover(trace, tempDir, failure.value);
        return;
      }
      response, trace := RunPipeline(trace, http, renderId, req, stages);
    }
  }
}

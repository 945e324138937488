/** Properties of the `POST /render` handler, stated about `Run`, which
    `RenderServer.HandleRender` computes. Most are proved first about
    `Attempt`, the part of the handler after the `code` check, for any
    destructured request. */
module HandlerProperties {
  import opened Wrappers
  import opened JsValues
  import opened Paths
  import opened Files
  import opened Requests
  import opened Workspace
  import opened Steps
  import opened RenderHandler

  /** What the handler does once `Execute` has run a plan: the `catch`
      block if a step threw, otherwise the cleanup and the 200 response. */
  function Conclude(outputDir: Path, trace: seq<Step>, http: HttpRequest, renderId: string, e: Execution): Outcome {
    var tempDir := TempDir(outputDir, renderId);
    if e.failure.Some? then Catch(e.tree, trace + e.attempted, tempDir, e.failure.value)
    else
      Outcome(Response(200, Rendered(VideoUrl(BaseUrl(http.protocol, http.host), renderId), renderId)),
              trace + e.attempted + [Remove(tempDir)],
              RemoveTree(e.tree, tempDir))
  }

  /** The stage steps, performed: each stage runs only if the one before it
      returned, and only `renderMedia` changes the filesystem: it writes
      the video, or leaves its partial output when it throws. */
  lemma StageStepsUnfold(outputDir: Path, t: Tree, renderId: string, req: Request, stages: StageOutcomes)
    ensures
      var w := StageSteps(outputDir, renderId, req, stages);
      var e := Execute(w, t, stages);
      |w| == 3 &&
      (stages.bundle.Threw? ==> e == Execution([w[0]], t, Some(stages.bundle.thrown))) &&
      (stages.bundle.Returned? && stages.selectComposition.Threw? ==>
        e == Execution([w[0]] + [w[1]], t, Some(stages.selectComposition.thrown))) &&
      (stages.bundle.Returned? && stages.selectComposition.Returned? && stages.renderMedia.Threw? ==>
        e == Execution(w, LeaveOutput(t, OutputPath(outputDir, renderId), stages.partialOutput),
                       Some(stages.renderMedia.thrown))) &&
      (stages.bundle.Returned? && stages.selectComposition.Returned? && stages.renderMedia.Returned? ==>
        e == Execution(w, t[OutputPath(outputDir, renderId) := File(Mp4)], None))
  {
    var w := StageSteps(outputDir, renderId, req, stages);
    ExecuteThree(w[0], w[1], w[2], t, stages);
  }

  /** `RunStages` performs the stage steps and concludes. */
  lemma RunStagesIsExecute(outputDir: Path, t: Tree, trace: seq<Step>, http: HttpRequest, renderId: string,
                           req: Request, stages: StageOutcomes)
    ensures RunStages(outputDir, t, trace, http, renderId, req, stages)
      == Conclude(outputDir, trace, http, renderId, Execute(StageSteps(outputDir, renderId, req, stages), t, stages))
  {
    StageStepsUnfold(outputDir, t, renderId, req, stages);
    var w := StageSteps(outputDir, renderId, req, stages);
    assert trace + ([w[0]] + [w[1]]) == trace + [w[0]] + [w[1]];
    assert trace + ([w[0]] + [w[1]] + [w[2]]) == trace + [w[0]] + [w[1]] + [w[2]];
  }

  /** `t1` agrees with `t` everywhere except perhaps at `p`. */
  ghost predicate SameBesides(t: Tree, t1: Tree, p: Path) {
    forall q :: q != p ==> (q in t1 <==> q in t) && (q in t1 ==> t1[q] == t[q])
  }

  /** The stage steps change the filesystem only at the output path, where
      a successful render places the video. */
  lemma StageStepsEffects(outputDir: Path, t: Tree, renderId: string, req: Request, stages: StageOutcomes)
    ensures
      var e := Execute(StageSteps(outputDir, renderId, req, stages), t, stages);
      SameBesides(t, e.tree, OutputPath(outputDir, renderId))
    ensures
      var e := Execute(StageSteps(outputDir, renderId, req, stages), t, stages);
      e.failure.None? ==> e.tree == t[OutputPath(outputDir, renderId) := File(Mp4)]
  {
    StageStepsUnfold(outputDir, t, renderId, req, stages);
  }

  /** `Attempt` is the seven steps of `Plan` followed by `Conclude`. */
  lemma AttemptFollowsPlan(outputDir: Path, t: Tree, http: HttpRequest, renderId: string, req: Request,
                           stages: StageOutcomes)
    requires req.code.Some?
    ensures Attempt(outputDir, t, http, renderId, req, stages)
      == Conclude(outputDir, [], http, renderId, Execute(Plan(outputDir, renderId, req, stages), t, stages))
  {
    var tempDir := TempDir(outputDir, renderId);
    var ws := WorkspaceSteps(tempDir, req, renderId);
    var ss := StageSteps(outputDir, renderId, req, stages);
    ExecuteAppend(ws, ss, t, stages);
    var w := Execute(ws, t, stages);
    assert [] + w.attempted == w.attempted;
    if w.failure.None? {
      RunStagesIsExecute(outputDir, w.tree, w.attempted, http, renderId, req, stages);
      var es := Execute(ss, w.tree, stages);
      assert [] + (w.attempted + es.attempted) == w.attempted + es.attempted;
    }
  }

  /** A request that destructures and has `code` runs the plan and
      concludes: the handler is "perform the seven steps in order, stopping
      at the first that throws", then the `catch` block or the cleanup. */
  lemma RunFollowsPlan(outputDir: Path, t: Tree, http: HttpRequest, renderId: string, stages: StageOutcomes)
    requires Destructure(http.body).Returned? && Destructure(http.body).value.HasCode()
    ensures
      var req := Destructure(http.body).value;
      Run(outputDir, t, http, renderId, stages)
        == Conclude(outputDir, [], http, renderId, Execute(Plan(outputDir, renderId, req, stages), t, stages))
  {
    AttemptFollowsPlan(outputDir, t, http, renderId, Destructure(http.body).value, stages);
  }

  /** `t1` differs from `t` only inside the subtree of `d`, and by new
      directories above `d`. */
  ghost predicate Confined(t: Tree, t1: Tree, d: Path) {
    (forall q :: q in t && !InSubtree(q, d) ==> q in t1 && t1[q] == t[q]) &&
    (forall q :: q in t1 && q !in t && !InSubtree(q, d) ==> q in Ancestors(d) && t1[q] == Dir)
  }

  /** `t1` differs from `t` only inside the subtree of `d`, at `out`, and by
      new directories above `d`. */
  ghost predicate ConfinedBesides(t: Tree, t1: Tree, d: Path, out: Path) {
    (forall q :: q in t && !InSubtree(q, d) && q != out ==> q in t1 && t1[q] == t[q]) &&
    (forall q :: q in t1 && q !in t && !InSubtree(q, d) && q != out ==> q in Ancestors(d) && t1[q] == Dir)
  }

  /** The `catch` block removes the workspace and nothing else. */
  lemma CatchConfined(t: Tree, trace: seq<Step>, tempDir: Path, e: Thrown, out: Path)
    ensures ConfinedBesides(t, Catch(t, trace, tempDir, e).tree, tempDir, out)
  {
  }

  lemma ConfinedTrans(t: Tree, t1: Tree, t2: Tree, d: Path)
    requires Confined(t, t1, d) && Confined(t1, t2, d)
    ensures Confined(t, t2, d)
  {
  }

  lemma MkdirConfined(t: Tree, d: Path)
    requires MkdirAll(t, d).Returned?
    ensures Confined(t, MkdirAll(t, d).value, d)
  {
  }

  /** A write into `d` keeps `d` and changes nothing outside it. */
  lemma WriteConfined(t: Tree, d: Path, name: string, data: WriteArg)
    requires d in t && t[d] == Dir
    requires WriteData(t, d, name, data).Returned?
    ensures Confined(t, WriteData(t, d, name, data).value, d)
    ensures d in WriteData(t, d, name, data).value && WriteData(t, d, name, data).value[d] == Dir
  {
  }

  /** `mkdirSync` of the workspace, as a step: it changes nothing if it
      throws, leaves the workspace directory in place if it returns, and
      changes nothing outside it but new directories above it. */
  lemma MakeDirStep(t: Tree, d: Path, stages: StageOutcomes)
    ensures
      var p := Perform(MakeDir(d), t, stages);
      Confined(t, p.tree, d) &&
      (p.failure.Some? ==> p.tree == t && MkdirAll(t, d).Threw?) &&
      (p.failure.None? ==> d in p.tree && p.tree[d] == Dir)
  {
    if MkdirAll(t, d).Returned? {
      MkdirConfined(t, d);
    }
  }

  /** A step that writes into the existing workspace, or an argument that
      throws, keeps the workspace and changes nothing outside it. */
  lemma WorkspaceStep(s: Step, t: Tree, d: Path, stages: StageOutcomes)
    requires (s.WriteFile? && s.dir == d) || s.ArgumentThrew?
    requires d in t && t[d] == Dir
    ensures
      var p := Perform(s, t, stages);
      Confined(t, p.tree, d) && d in p.tree && p.tree[d] == Dir
  {
    if s.WriteFile? && WriteData(t, d, s.name, s.data).Returned? {
      WriteConfined(t, d, s.name, s.data);
    }
  }

  /** What the workspace steps leave behind: the filesystem is untouched if
      `mkdirSync` threw; otherwise the workspace directory exists, and in
      every case nothing outside it changed but new directories above it. */
  lemma WorkspaceEffects(t: Tree, tempDir: Path, req: Request, renderId: string, stages: StageOutcomes)
    requires req.code.Some?
    ensures
      var w := Execute(WorkspaceSteps(tempDir, req, renderId), t, stages);
      (w.tree == t && MkdirAll(t, tempDir).Threw? && w.failure.Some?) || (tempDir in w.tree && w.tree[tempDir] == Dir)
    ensures Confined(t, Execute(WorkspaceSteps(tempDir, req, renderId), t, stages).tree, tempDir)
  {
    var s0, s1 := MakeDir(tempDir), WriteFile(tempDir, ComponentFileName, ComponentArg(req.code.value));
    var s2, s3 := EntryStep(tempDir, req), WriteFile(tempDir, ManifestFileName, Accepted(PackageManifest(renderId)));
    ExecuteFour(s0, s1, s2, s3, t, stages);
    MakeDirStep(t, tempDir, stages);
    var p0 := Perform(s0, t, stages);
    if p0.failure.None? {
      WorkspaceStep(s1, p0.tree, tempDir, stages);
      var p1 := Perform(s1, p0.tree, stages);
      ConfinedTrans(t, p0.tree, p1.tree, tempDir);
      if p1.failure.None? {
        WorkspaceStep(s2, p1.tree, tempDir, stages);
        var p2 := Perform(s2, p1.tree, stages);
        ConfinedTrans(t, p1.tree, p2.tree, tempDir);
        if p2.failure.None? {
          WorkspaceStep(s3, p2.tree, tempDir, stages);
          var p3 := Perform(s3, p2.tree, stages);
          ConfinedTrans(t, p2.tree, p3.tree, tempDir);
        }
      }
    }
  }

  /** Lines 34-51: once the workspace steps have returned, `code` was a
      string, the workspace is a directory and its three files hold the
      component verbatim, the entry module and the manifest. */
  lemma WorkspaceBeforeBundle(t: Tree, tempDir: Path, req: Request, renderId: string, stages: StageOutcomes)
    requires req.code.Some?
    requires Execute(WorkspaceSteps(tempDir, req, renderId), t, stages).failure.None?
    ensures
      var m := Execute(WorkspaceSteps(tempDir, req, renderId), t, stages).tree;
      var component := Join(tempDir, ComponentFileName);
      var entry := Join(tempDir, EntryFileName);
      var manifest := Join(tempDir, ManifestFileName);
      req.code.value.JString? &&
      tempDir in m && m[tempDir] == Dir &&
      component in m && m[component] == File(Text(req.code.value.s)) &&
      EntryModule(req).Returned? &&
      entry in m && m[entry] == File(Text(EntryModule(req).value)) &&
      manifest in m && m[manifest] == File(PackageManifest(renderId))
  {
    var s1 := WriteFile(tempDir, ComponentFileName, ComponentArg(req.code.value));
    var s3 := WriteFile(tempDir, ManifestFileName, Accepted(PackageManifest(renderId)));
    assert |Join(tempDir, ComponentFileName)| != |Join(tempDir, EntryFileName)|;
    assert |Join(tempDir, ComponentFileName)| != |Join(tempDir, ManifestFileName)|;
    assert |Join(tempDir, EntryFileName)| != |Join(tempDir, ManifestFileName)|;
    WritesPlaced(tempDir, s1, EntryFileName, EntryStep(tempDir, req), s3, t, stages);
  }

  /** `mkdirSync` followed by three writes into the new directory, the
      middle one possibly replaced by an argument that throws: if none of
      them threw, the middle one was a write too, every write accepted its
      data, and the directory holds the three files. */
  lemma WritesPlaced(d: Path, s1: Step, name2: string, s2: Step, s3: Step, t: Tree, stages: StageOutcomes)
    requires s1.WriteFile? && s1.dir == d && s3.WriteFile? && s3.dir == d
    requires (s2.WriteFile? && s2.dir == d && s2.name == name2) || s2.ArgumentThrew?
    requires Join(d, s1.name) != Join(d, name2) && Join(d, s1.name) != Join(d, s3.name) && Join(d, name2) != Join(d, s3.name)
    requires Execute([MakeDir(d)] + [s1] + [s2] + [s3], t, stages).failure.None?
    ensures
      var m := Execute([MakeDir(d)] + [s1] + [s2] + [s3], t, stages).tree;
      s2.WriteFile? && s1.data.Accepted? && s2.data.Accepted? && s3.data.Accepted? &&
      d in m && m[d] == Dir &&
      Join(d, s1.name) in m && m[Join(d, s1.name)] == File(s1.data.contents) &&
      Join(d, name2) in m && m[Join(d, name2)] == File(s2.data.contents) &&
      Join(d, s3.name) in m && m[Join(d, s3.name)] == File(s3.data.contents)
  {
    var s0 := MakeDir(d);
    ExecuteFourReturned(s0, s1, s2, s3, t, stages);
    var p0 := Perform(s0, t, stages);
    var p1 := Perform(s1, p0.tree, stages);
    var p2 := Perform(s2, p1.tree, stages);
    MakeDirStep(t, d, stages);
    WorkspaceStep(s1, p0.tree, d, stages);
    WorkspaceStep(s2, p1.tree, d, stages);
    WorkspaceStep(s3, p2.tree, d, stages);
    WriteStepPlaces(s1, p0.tree, stages);
    WriteStepPlaces(s2, p1.tree, stages);
    WriteStepPlaces(s3, p2.tree, stages);
  }

  /** A write step that returned has accepted its data and placed it at its
      path, and kept every other entry. */
  lemma WriteStepPlaces(s: Step, t: Tree, stages: StageOutcomes)
    requires s.WriteFile? && Perform(s, t, stages).failure.None?
    ensures
      var p := Perform(s, t, stages).tree;
      var f := Join(s.dir, s.name);
      s.data.Accepted? && f in p && p[f] == File(s.data.contents) &&
      forall q :: q in t && q != f ==> q in p && p[q] == t[q]
  {
  }

  /** `d` is gone from `t1`, and whatever lies below it in `t1` was in `t`,
      unchanged. */
  ghost predicate Cleared(t: Tree, t1: Tree, d: Path) {
    d !in t1 && forall q :: q in t1 && InSubtree(q, d) ==> q in t && t1[q] == t[q]
  }

  /** The `catch` block clears a workspace that exists, and leaves a tree
      without one as it is. */
  lemma CatchClears(t0: Tree, t: Tree, trace: seq<Step>, d: Path, e: Thrown)
    requires d in t || t == t0
    ensures Cleared(t0, Catch(t, trace, d, e).tree, d)
    ensures d !in t ==> Catch(t, trace, d, e).tree == t
  {
  }

  lemma RemoveTreeClears(t0: Tree, t: Tree, d: Path)
    ensures Cleared(t0, RemoveTree(t, d), d)
  {
  }

  /** Two changes confined to `d` and `out` make a change confined to
      them. */
  lemma ConfinedBesidesTrans(t: Tree, t1: Tree, t2: Tree, d: Path, out: Path)
    requires ConfinedBesides(t, t1, d, out) && ConfinedBesides(t1, t2, d, out)
    ensures ConfinedBesides(t, t2, d, out)
  {
  }

  /** A change confined to `d` is confined to `d` and `out`. */
  lemma ConfinedWithin(t: Tree, t1: Tree, d: Path, out: Path)
    requires Confined(t, t1, d)
    ensures ConfinedBesides(t, t1, d, out)
  {
  }

  /** A change only at `out` is confined to `d` and `out`. */
  lemma SameBesidesConfined(t: Tree, t1: Tree, d: Path, out: Path)
    requires SameBesides(t, t1, out)
    ensures ConfinedBesides(t, t1, d, out)
  {
  }

  /** The cleanup after a successful render removes the workspace and keeps
      the video. */
  lemma CleanupConfined(t: Tree, d: Path, out: Path)
    ensures ConfinedBesides(t, RemoveTree(t[out := File(Mp4)], d), d, out)
  {
  }

  /** After `Attempt` the workspace is gone and whatever remains below its
      path was there before, unchanged; the answer is 200 or 500. */
  lemma AttemptRemovesWorkspace(outputDir: Path, t: Tree, http: HttpRequest, renderId: string, req: Request,
                                stages: StageOutcomes)
    requires req.code.Some?
    ensures
      var r := Attempt(outputDir, t, http, renderId, req, stages);
      Cleared(t, r.tree, TempDir(outputDir, renderId)) &&
      (r.response.status == 200 || r.response.status == 500)
  {
    var tempDir := TempDir(outputDir, renderId);
    var w := Execute(WorkspaceSteps(tempDir, req, renderId), t, stages);
    WorkspaceEffects(t, tempDir, req, renderId, stages);
    if w.failure.Some? {
      CatchClears(t, w.tree, w.attempted, tempDir, w.failure.value);
    } else {
      RunStagesIsExecute(outputDir, w.tree, w.attempted, http, renderId, req, stages);
      StageStepsEffects(outputDir, w.tree, renderId, req, stages);
      var es := Execute(StageSteps(outputDir, renderId, req, stages), w.tree, stages);
      if es.failure.Some? {
        OutputOutsideTempDirs(outputDir, renderId, renderId);
        assert tempDir in es.tree;
        CatchClears(t, es.tree, w.attempted + es.attempted, tempDir, es.failure.value);
      } else {
        RemoveTreeClears(t, es.tree, tempDir);
      }
    }
  }

  /** Outside the workspace and the output path, `Attempt` changes nothing
      but creating missing directories above the workspace. */
  lemma AttemptStaysInside(outputDir: Path, t: Tree, http: HttpRequest, renderId: string, req: Request,
                           stages: StageOutcomes)
    requires req.code.Some?
    ensures
      var r := Attempt(outputDir, t, http, renderId, req, stages);
      ConfinedBesides(t, r.tree, TempDir(outputDir, renderId), OutputPath(outputDir, renderId))
  {
    var tempDir := TempDir(outputDir, renderId);
    var out := OutputPath(outputDir, renderId);
    var r := Attempt(outputDir, t, http, renderId, req, stages);
    var w := Execute(WorkspaceSteps(tempDir, req, renderId), t, stages);
    WorkspaceEffects(t, tempDir, req, renderId, stages);
    if w.failure.Some? {
      CatchConfined(w.tree, w.attempted, tempDir, w.failure.value, out);
    } else {
      RunStagesIsExecute(outputDir, w.tree, w.attempted, http, renderId, req, stages);
      StageStepsEffects(outputDir, w.tree, renderId, req, stages);
      var es := Execute(StageSteps(outputDir, renderId, req, stages), w.tree, stages);
      if es.failure.Some? {
        CatchConfined(es.tree, w.attempted + es.attempted, tempDir, es.failure.value, out);
        SameBesidesConfined(w.tree, es.tree, tempDir, out);
        ConfinedBesidesTrans(w.tree, es.tree, r.tree, tempDir, out);
      } else {
        CleanupConfined(w.tree, tempDir, out);
      }
    }
    ConfinedWithin(t, w.tree, tempDir, out);
    ConfinedBesidesTrans(t, w.tree, r.tree, tempDir, out);
  }

  /** Lines 30-31: the 400 response is given exactly when the body
      destructures and `code` is falsy, and then nothing was called and the
      filesystem is unchanged. */
  lemma MissingCodeHasNoEffect(outputDir: Path, t: Tree, http: HttpRequest, renderId: string, stages: StageOutcomes)
    ensures
      var r := Run(outputDir, t, http, renderId, stages);
      (r.response.status == 400) == (Destructure(http.body).Returned? && !Destructure(http.body).value.HasCode())
    ensures
      var r := Run(outputDir, t, http, renderId, stages);
      r.response.status == 400 ==> r.response.body == MissingCode && r.trace == [] && r.tree == t
  {
    var d := Destructure(http.body);
    if d.Returned? && d.value.HasCode() {
      AttemptRemovesWorkspace(outputDir, t, http, renderId, d.value, stages);
    }
  }

  /** Lines 66 and 71: on every exit but the 400 one the workspace is gone;
      whatever remains below its path was already there, unchanged, before
      the request (which happens only when `mkdirSync` itself threw). */
  lemma WorkspaceRemoved(outputDir: Path, t: Tree, http: HttpRequest, renderId: string, stages: StageOutcomes)
    requires Run(outputDir, t, http, renderId, stages).response.status != 400
    ensures
      var r := Run(outputDir, t, http, renderId, stages);
      var tempDir := TempDir(outputDir, renderId);
      tempDir !in r.tree &&
      forall q :: q in r.tree && InSubtree(q, tempDir) ==> q in t && r.tree[q] == t[q]
  {
    var d := Destructure(http.body);
    if d.Returned? && d.value.HasCode() {
      AttemptRemovesWorkspace(outputDir, t, http, renderId, d.value, stages);
    }
  }

  /** Lines 34-71: outside the workspace and the output path, the request
      changes nothing but creating missing directories above the workspace. */
  lemma OutsideWorkspaceUnchanged(outputDir: Path, t: Tree, http: HttpRequest, renderId: string, stages: StageOutcomes)
    ensures
      var r := Run(outputDir, t, http, renderId, stages);
      var tempDir := TempDir(outputDir, renderId);
      var outputPath := OutputPath(outputDir, renderId);
      ConfinedBesides(t, r.tree, tempDir, outputPath)
  {
    var r := Run(outputDir, t, http, renderId, stages);
    var tempDir := TempDir(outputDir, renderId);
    match Destructure(http.body)
    case Threw(e) =>
      CatchConfined(t, [], tempDir, e, OutputPath(outputDir, renderId));
    case Returned(req) =>
      if req.HasCode() {
        AttemptStaysInside(outputDir, t, http, renderId, req, stages);
      }
  }

  /** Lines 27, 59, 66 and 71: a request never touches the workspace or the
      video of a request with another uuid. */
  lemma RendersDoNotInterfere(outputDir: Path, t: Tree, http: HttpRequest, a: string, b: string, stages: StageOutcomes)
    requires IsUuid(a) && IsUuid(b) && a != b
    ensures
      var r := Run(outputDir, t, http, a, stages);
      forall q :: InSubtree(q, TempDir(outputDir, b)) || q == OutputPath(outputDir, b) ==>
        (q in r.tree <==> q in t) && (q in t ==> r.tree[q] == t[q])
  {
    var r := Run(outputDir, t, http, a, stages);
    OutsideWorkspaceUnchanged(outputDir, t, http, a, stages);
    UuidHasNoSeparator(a);
    OutputOutsideTempDirs(outputDir, a, b);
    OutputOutsideTempDirs(outputDir, b, a);
    forall q | InSubtree(q, TempDir(outputDir, b)) || q == OutputPath(outputDir, b)
      ensures (q in r.tree <==> q in t) && (q in t ==> r.tree[q] == t[q])
    {
      TempDirsDisjoint(outputDir, a, b, q);
      if q == OutputPath(outputDir, a) {
        OutputPathInjective(outputDir, a, b);
      }
      assert |q| > |outputDir|;
      if q in r.tree && q !in t {
        TempDirAncestorsAboveOutput(outputDir, a, q);
      }
    }
  }

  /** `Conclude` after `Execute` reports the first failure: the trace is
      the steps attempted, with the cleanup after them when the workspace is
      removed; the answer is 500 exactly when a step threw, with the thrown
      error's text, and every step before that one returned. */
  lemma ConcludeReportsFirstFailure(outputDir: Path, http: HttpRequest, renderId: string, plan: seq<Step>,
                                    t: Tree, stages: StageOutcomes)
    ensures
      var e := Execute(plan, t, stages);
      var r := Conclude(outputDir, [], http, renderId, e);
      var tempDir := TempDir(outputDir, renderId);
      (r.trace == e.attempted || r.trace == e.attempted + [Remove(tempDir)]) &&
      (r.response.status == 500 <==> e.failure.Some?) &&
      (e.failure.Some? ==>
        r.response.body == RenderFailed(ErrorText(e.failure.value)) &&
        var k := |e.attempted| - 1;
        var before := Execute(e.attempted[..k], t, stages);
        before.failure.None? && Perform(e.attempted[k], before.tree, stages).failure == Some(e.failure.value))
  {
    var e := Execute(plan, t, stages);
    assert [] + e.attempted == e.attempted;
    ExecuteStopsAtFailure(plan, t, stages);
  }

  /** Lines 34-62: a request with `code` attempts a prefix of the seven
      steps in order; it answers 500 exactly when one of them threw, the
      steps before it all returned, and the error text is the one thrown. */
  lemma StagesStopAtFirstFailure(outputDir: Path, t: Tree, http: HttpRequest, renderId: string, stages: StageOutcomes)
    requires Destructure(http.body).Returned? && Destructure(http.body).value.HasCode()
    ensures
      var req := Destructure(http.body).value;
      var plan := Plan(outputDir, renderId, req, stages);
      var e := Execute(plan, t, stages);
      var r := Run(outputDir, t, http, renderId, stages);
      var tempDir := TempDir(outputDir, renderId);
      e.attempted <= plan &&
      (r.trace == e.attempted || r.trace == e.attempted + [Remove(tempDir)]) &&
      (r.response.status == 500 <==> e.failure.Some?) &&
      (e.failure.Some? ==>
        r.response.body == RenderFailed(ErrorText(e.failure.value)) &&
        var k := |e.attempted| - 1;
        var before := Execute(e.attempted[..k], t, stages);
        before.failure.None? && Perform(e.attempted[k], before.tree, stages).failure == Some(e.failure.value))
  {
    RunFollowsPlan(outputDir, t, http, renderId, stages);
    var req := Destructure(http.body).value;
    ConcludeReportsFirstFailure(outputDir, http, renderId, Plan(outputDir, renderId, req, stages), t, stages);
  }

  /** `Attempt` answers 200 exactly when every step returned, and then
      after all seven steps and the cleanup, with the video in place. */
  lemma AttemptSucceeds(outputDir: Path, t: Tree, http: HttpRequest, renderId: string, req: Request,
                        stages: StageOutcomes)
    requires req.code.Some?
    ensures
      var r := Attempt(outputDir, t, http, renderId, req, stages);
      var tempDir := TempDir(outputDir, renderId);
      var outputPath := OutputPath(outputDir, renderId);
      (r.response.status == 200 <==>
        Execute(WorkspaceSteps(tempDir, req, renderId), t, stages).failure.None? &&
        stages.bundle.Returned? && stages.selectComposition.Returned? && stages.renderMedia.Returned?) &&
      (r.response.status == 200 ==>
        r.response == Response(200, Rendered(VideoUrl(BaseUrl(http.protocol, http.host), renderId), renderId)) &&
        r.trace == Plan(outputDir, renderId, req, stages) + [Remove(tempDir)] &&
        outputPath in r.tree && r.tree[outputPath] == File(Mp4))
  {
    var tempDir := TempDir(outputDir, renderId);
    var w := Execute(WorkspaceSteps(tempDir, req, renderId), t, stages);
    if w.failure.None? {
      var ss := StageSteps(outputDir, renderId, req, stages);
      assert w.attempted + [ss[0]] + [ss[1]] + [ss[2]] == w.attempted + ss;
      OutputOutsideTempDirs(outputDir, renderId, renderId);
    }
  }

  /** Lines 59-68: the 200 response needs every step to have returned, and
      then it carries the video URL of this render after all seven steps
      and the cleanup, with the video in place. */
  lemma SuccessOnlyAfterRender(outputDir: Path, t: Tree, http: HttpRequest, renderId: string, stages: StageOutcomes)
    ensures
      var r := Run(outputDir, t, http, renderId, stages);
      var d := Destructure(http.body);
      (r.response.status == 200) ==
        (d.Returned? && d.value.HasCode() &&
         Execute(WorkspaceSteps(TempDir(outputDir, renderId), d.value, renderId), t, stages).failure.None? &&
         stages.bundle.Returned? && stages.selectComposition.Returned? && stages.renderMedia.Returned?)
    ensures
      var r := Run(outputDir, t, http, renderId, stages);
      var d := Destructure(http.body);
      var outputPath := OutputPath(outputDir, renderId);
      r.response.status == 200 ==>
        r.response == Response(200, Rendered(VideoUrl(BaseUrl(http.protocol, http.host), renderId), renderId)) &&
        r.trace == Plan(outputDir, renderId, d.value, stages) + [Remove(TempDir(outputDir, renderId))] &&
        outputPath in r.tree && r.tree[outputPath] == File(Mp4)
  {
    var d := Destructure(http.body);
    if d.Returned? && d.value.HasCode() {
      AttemptSucceeds(outputDir, t, http, renderId, d.value, stages);
    }
  }

  /** Once bundling returned, the trace goes on with the bundle and the
      selection of `compositionId` from the bundle's location. */
  lemma RunStagesExtendsTrace(outputDir: Path, t: Tree, trace: seq<Step>, http: HttpRequest, renderId: string,
                              req: Request, stages: StageOutcomes)
    requires stages.bundle.Returned?
    ensures
      var r := RunStages(outputDir, t, trace, http, renderId, req, stages);
      var tempDir := TempDir(outputDir, renderId);
      |r.trace| >= |trace| + 2 && r.trace[..|trace|] == trace &&
      r.trace[|trace|] == Bundle(Join(tempDir, EntryFileName)) &&
      r.trace[|trace| + 1] == SelectComposition(stages.bundle.value, req.compositionId)
  {
  }

  /** An `Attempt` that reaches `selectComposition` wrote the component and
      the entry module, bundled the entry module and selected
      `compositionId`. */
  lemma AttemptPassesCompositionId(outputDir: Path, t: Tree, http: HttpRequest, renderId: string, req: Request,
                                   stages: StageOutcomes)
    requires req.code.Some?
    requires Execute(WorkspaceSteps(TempDir(outputDir, renderId), req, renderId), t, stages).failure.None?
    requires stages.bundle.Returned?
    ensures
      var r := Attempt(outputDir, t, http, renderId, req, stages);
      var tempDir := TempDir(outputDir, renderId);
      req.code.value.JString? &&
      |r.trace| >= 6 &&
      r.trace[1] == WriteFile(tempDir, ComponentFileName, Accepted(Text(req.code.value.s))) &&
      EntryModule(req).Returned? &&
      r.trace[2] == WriteFile(tempDir, EntryFileName, Accepted(Text(EntryModule(req).value))) &&
      r.trace[4] == Bundle(Join(tempDir, EntryFileName)) &&
      r.trace[5] == SelectComposition(stages.bundle.value, req.compositionId)
  {
    var tempDir := TempDir(outputDir, renderId);
    var ws := WorkspaceSteps(tempDir, req, renderId);
    var w := Execute(ws, t, stages);
    WorkspaceBeforeBundle(t, tempDir, req, renderId, stages);
    RunStagesExtendsTrace(outputDir, w.tree, ws, http, renderId, req, stages);
    var r := Attempt(outputDir, t, http, renderId, req, stages);
    assert r.trace[..4] == ws;
    assert r.trace[1] == ws[1];
    assert r.trace[2] == ws[2];
  }

  /** Lines 39-49 and 57: a request that reaches `selectComposition` wrote
      the component and the entry module generated from it, bundled that
      entry module, and passed `compositionId` to `selectComposition`. */
  lemma CompositionIdFlows(outputDir: Path, t: Tree, http: HttpRequest, renderId: string, stages: StageOutcomes)
    requires Destructure(http.body).Returned? && Destructure(http.body).value.HasCode()
    requires Execute(WorkspaceSteps(TempDir(outputDir, renderId), Destructure(http.body).value, renderId), t, stages).failure.None?
    requires stages.bundle.Returned?
    ensures
      var req := Destructure(http.body).value;
      var r := Run(outputDir, t, http, renderId, stages);
      var tempDir := TempDir(outputDir, renderId);
      req.code.value.JString? &&
      |r.trace| >= 6 &&
      r.trace[1] == WriteFile(tempDir, ComponentFileName, Accepted(Text(req.code.value.s))) &&
      EntryModule(req).Returned? &&
      r.trace[2] == WriteFile(tempDir, EntryFileName, Accepted(Text(EntryModule(req).value))) &&
      r.trace[4] == Bundle(Join(tempDir, EntryFileName)) &&
      r.trace[5] == SelectComposition(stages.bundle.value, req.compositionId)
  {
    AttemptPassesCompositionId(outputDir, t, http, renderId, Destructure(http.body).value, stages);
  }

  /** The same `compositionId` names the composition in the entry module and
      is looked up by `selectComposition`, for a string id without quotes or
      `&` and numeric attributes; the entry module's attributes are the decimal
      forms of the four numbers, which `EntryModuleDeclaresRequest` reads
      back. */
  lemma EntryModuleMatchesSelection(outputDir: Path, t: Tree, http: HttpRequest, renderId: string, stages: StageOutcomes)
    requires Destructure(http.body).Returned? && Destructure(http.body).value.HasCode()
    requires Execute(WorkspaceSteps(TempDir(outputDir, renderId), Destructure(http.body).value, renderId), t, stages).failure.None?
    requires stages.bundle.Returned?
    requires
      var req := Destructure(http.body).value;
      req.compositionId.JString? && '"' !in req.compositionId.s && '&' !in req.compositionId.s &&
      req.durationInFrames.JNumber? && req.fps.JNumber? && req.width.JNumber? && req.height.JNumber?
    ensures
      var req := Destructure(http.body).value;
      var r := Run(outputDir, t, http, renderId, stages);
      |r.trace| >= 6 && r.trace[2].WriteFile? && r.trace[2].data.Accepted? && r.trace[2].data.contents.Text? &&
      var declared := ParseEntry(r.trace[2].data.contents.text);
      declared == Some(Declaration(req.compositionId.s,
        IntToString(req.durationInFrames.n), IntToString(req.fps.n), IntToString(req.width.n), IntToString(req.height.n))) &&
      r.trace[5].SelectComposition? && r.trace[5].id == JString(declared.value.id)
  {
    var req := Destructure(http.body).value;
    var r := Run(outputDir, t, http, renderId, stages);
    CompositionIdFlows(outputDir, t, http, renderId, stages);
    assert r.trace[2].data.contents.text == EntryModule(req).value;
    EntryModuleDeclaresRequest(req);
  }

  /** An `Attempt` whose `code` is not a string stops at the component
      write once the workspace exists, and removes the workspace. */
  lemma AttemptRejectsNonString(outputDir: Path, t: Tree, http: HttpRequest, renderId: string, req: Request,
                                stages: StageOutcomes)
    requires req.code.Some? && !req.code.value.JString?
    requires MkdirAll(t, TempDir(outputDir, renderId)).Returned?
    ensures
      var r := Attempt(outputDir, t, http, renderId, req, stages);
      var tempDir := TempDir(outputDir, renderId);
      r.response == Response(500, RenderFailed(ErrorText(InvalidDataError(req.code.value)))) &&
      r.trace == [MakeDir(tempDir), WriteFile(tempDir, ComponentFileName, Rejected(req.code.value)), Remove(tempDir)]
  {
    var tempDir := TempDir(outputDir, renderId);
    var s0, s1 := MakeDir(tempDir), WriteFile(tempDir, ComponentFileName, Rejected(req.code.value));
    ExecuteFour(s0, s1, EntryStep(tempDir, req),
                WriteFile(tempDir, ManifestFileName, Accepted(PackageManifest(renderId))), t, stages);
    Triple(s0, s1, Remove(tempDir));
  }

  lemma Triple(a: Step, b: Step, c: Step)
    ensures [a] + [b] + [c] == [a, b, c]
  {
  }

  lemma Quadruple(a: Step, b: Step, c: Step, d: Step)
    ensures [a] + [b] + [c] + [d] == [a, b, c, d]
  {
  }

  /** Line 39: a truthy `code` that is not a string makes `writeFileSync`
      throw once the workspace exists; the handler removes the workspace and
      answers 500 with Node's message. */
  lemma NonStringCodeRejected(outputDir: Path, t: Tree, http: HttpRequest, renderId: string, stages: StageOutcomes)
    requires Destructure(http.body).Returned? && Destructure(http.body).value.HasCode()
    requires !Destructure(http.body).value.code.value.JString?
    requires MkdirAll(t, TempDir(outputDir, renderId)).Returned?
    ensures
      var code := Destructure(http.body).value.code.value;
      var r := Run(outputDir, t, http, renderId, stages);
      var tempDir := TempDir(outputDir, renderId);
      r.response == Response(500, RenderFailed(ErrorText(InvalidDataError(code)))) &&
      r.trace == [MakeDir(tempDir), WriteFile(tempDir, ComponentFileName, Rejected(code)), Remove(tempDir)]
  {
    AttemptRejectsNonString(outputDir, t, http, renderId, Destructure(http.body).value, stages);
  }

  /** An `Attempt` whose template cannot convert one of its parameters to
      text stops after the component write, before the entry file is
      written, and removes the workspace. */
  lemma AttemptRejectsUnprintable(outputDir: Path, t: Tree, http: HttpRequest, renderId: string, req: Request,
                                  stages: StageOutcomes)
    requires req.code.Some? && req.code.value.JString?
    requires MkdirAll(t, TempDir(outputDir, renderId)).Returned?
    requires Write(MkdirAll(t, TempDir(outputDir, renderId)).value, TempDir(outputDir, renderId),
                   ComponentFileName, Text(req.code.value.s)).Returned?
    requires EntryModule(req).Threw?
    ensures
      var r := Attempt(outputDir, t, http, renderId, req, stages);
      var tempDir := TempDir(outputDir, renderId);
      r.response == Response(500, RenderFailed(NoPrimitiveMessage)) &&
      r.trace == [MakeDir(tempDir), WriteFile(tempDir, ComponentFileName, Accepted(Text(req.code.value.s))),
                  ArgumentThrew(ErrorObject(NoPrimitiveMessage)), Remove(tempDir)]
  {
    var tempDir := TempDir(outputDir, renderId);
    var s0, s1 := MakeDir(tempDir), WriteFile(tempDir, ComponentFileName, Accepted(Text(req.code.value.s)));
    var s2 := ArgumentThrew(ErrorObject(NoPrimitiveMessage));
    assert EntryStep(tempDir, req) == s2;
    var p0 := Perform(s0, t, stages);
    assert p0.failure.None? && tempDir in p0.tree;
    var p1 := Perform(s1, p0.tree, stages);
    assert p1.failure.None? && tempDir in p1.tree;
    ExecuteFour(s0, s1, s2, WriteFile(tempDir, ManifestFileName, Accepted(PackageManifest(renderId))), t, stages);
    var w := Execute(WorkspaceSteps(tempDir, req, renderId), t, stages);
    assert w == Execution([s0] + [s1] + [s2], p1.tree, Some(ErrorObject(NoPrimitiveMessage)));
    Quadruple(s0, s1, s2, Remove(tempDir));
  }

  /** Line 40: a string `code`, but a `compositionId`, `durationInFrames`,
      `fps`, `width` or `height` that is an object with its own `toString`
      key (or an array holding one), makes the template throw V8's
      TypeError once the component is written; the entry file is never
      written, the workspace is removed and the answer is 500. */
  lemma UnprintableParameterRejected(outputDir: Path, t: Tree, http: HttpRequest, renderId: string,
                                     stages: StageOutcomes)
    requires Destructure(http.body).Returned? && Destructure(http.body).value.HasCode()
    requires Destructure(http.body).value.code.value.JString?
    requires MkdirAll(t, TempDir(outputDir, renderId)).Returned?
    requires Write(MkdirAll(t, TempDir(outputDir, renderId)).value, TempDir(outputDir, renderId),
                   ComponentFileName, Text(Destructure(http.body).value.code.value.s)).Returned?
    requires
      var req := Destructure(http.body).value;
      !(Printable(req.compositionId) && Printable(req.durationInFrames) && Printable(req.fps) &&
        Printable(req.width) && Printable(req.height))
    ensures
      var code := Destructure(http.body).value.code.value;
      var r := Run(outputDir, t, http, renderId, stages);
      var tempDir := TempDir(outputDir, renderId);
      r.response == Response(500, RenderFailed(NoPrimitiveMessage)) &&
      r.trace == [MakeDir(tempDir), WriteFile(tempDir, ComponentFileName, Accepted(Text(code.s))),
                  ArgumentThrew(ErrorObject(NoPrimitiveMessage)), Remove(tempDir)]
  {
    EntryModuleThrowsIff(Destructure(http.body).value);
    AttemptRejectsUnprintable(outputDir, t, http, renderId, Destructure(http.body).value, stages);
  }

  /** Line 30: a body that is `undefined` or `null` cannot be destructured;
      the TypeError is caught, nothing is created, and the answer is 500
      rather than the 400 of a missing `code`. */
  lemma UnreadableBodyFails(outputDir: Path, t: Tree, http: HttpRequest, renderId: string, stages: StageOutcomes)
    requires http.body.None? || http.body.value.JNull?
    ensures
      var r := Run(outputDir, t, http, renderId, stages);
      var tempDir := TempDir(outputDir, renderId);
      r.response == Response(500, RenderFailed(
        if http.body.None? then UndefinedBodyMessage else NullBodyMessage)) &&
      r.trace == (if tempDir in t then [Remove(tempDir)] else []) &&
      r.tree == (if tempDir in t then RemoveTree(t, tempDir) else t)
  {
  }
}

/** The side-effecting calls the `POST /render` handler makes, what each
    does to the filesystem, and `Execute`: perform a sequence of them in
    order, stopping at the first one that throws, as the handler's `try`
    block does. */
module Steps {
  import opened Wrappers
  import opened JsValues
  import opened Paths
  import opened Files

  /** How the three foreign calls turn out in one request: `bundle` returns
      the bundle's location, `selectComposition` an opaque composition and
      `renderMedia` writes the video; each may throw instead. A
      `renderMedia` that throws may leave a partial file at its output
      location: `partialOutput` is what it leaves there, if anything. */
  datatype StageOutcomes = StageOutcomes(
    bundle: Completion<string>,
    selectComposition: Completion<string>,
    renderMedia: Completion<()>,
    partialOutput: Option<Contents>)

  /** A step of the handler: a side-effecting call with its arguments, or
      the evaluation of a call's argument that throws before the call is
      made (the entry module template). */
  datatype Step =
    | MakeDir(path: Path)
    | WriteFile(dir: Path, name: string, data: WriteArg)
    | ArgumentThrew(thrown: Thrown)
    | Bundle(entryPoint: Path)
    | SelectComposition(serveUrl: string, id: Json)
    | RenderMedia(composition: string, serveUrl: string, codec: string, outputLocation: Path)
    | Remove(path: Path)

  /** The filesystem after a step, and what the step threw, if it threw. */
  datatype Effect = Effect(tree: Tree, failure: Option<Thrown>)

  /** A filesystem call that either changes the tree or throws and leaves
      it as it was. */
  function Settle(t: Tree, c: Completion<Tree>): (r: Effect)
    ensures r.failure.Some? <==> c.Threw?
    ensures r.failure.Some? ==> r.tree == t && r.failure.value == c.thrown
    ensures r.failure.None? ==> r.tree == c.value
  {
    match c
    case Threw(e) => Effect(t, Some(e))
    case Returned(t1) => Effect(t1, None)
  }

  /** The tree after a `renderMedia` that threw, with its partial output. */
  function LeaveOutput(t: Tree, output: Path, partial: Option<Contents>): Tree {
    if partial.Some? then t[output := File(partial.value)] else t
  }

  /** The effect of one step on the filesystem, and what it throws. */
  function Perform(s: Step, t: Tree, stages: StageOutcomes): Effect {
    match s
    case MakeDir(p) => Settle(t, MkdirAll(t, p))
    case WriteFile(dir, name, data) => Settle(t, WriteData(t, dir, name, data))
    case ArgumentThrew(e) => Effect(t, Some(e))
    case Bundle(_) =>
      if stages.bundle.Threw? then Effect(t, Some(stages.bundle.thrown)) else Effect(t, None)
    case SelectComposition(_, _) =>
      if stages.selectComposition.Threw? then Effect(t, Some(stages.selectComposition.thrown)) else Effect(t, None)
    case RenderMedia(_, _, _, output) =>
      if stages.renderMedia.Threw? then Effect(LeaveOutput(t, output, stages.partialOutput), Some(stages.renderMedia.thrown))
      else Effect(t[output := File(Mp4)], None)
    case Remove(p) => Effect(RemoveTree(t, p), None)
  }

  /** The steps attempted, the filesystem after them, and what the last one
      threw, if it threw. */
  datatype Execution = Execution(attempted: seq<Step>, tree: Tree, failure: Option<Thrown>)

  /** Performs `plan` in order and stops at the first step that throws: the
      last step is attempted only when every step before it returned. */
  function Execute(plan: seq<Step>, t: Tree, stages: StageOutcomes): (r: Execution)
    ensures r.attempted <= plan
    ensures r.failure.None? ==> r.attempted == plan
    ensures |r.attempted| < |plan| ==> r.failure.Some?
    ensures r.failure.Some? ==> r.attempted != []
    decreases |plan|
  {
    if plan == [] then Execution([], t, None)
    else
      var before := Execute(plan[..|plan| - 1], t, stages);
      if before.failure.Some? then before
      else
        var p := Perform(plan[|plan| - 1], before.tree, stages);
        Execution(plan, p.tree, p.failure)
  }

  /** `Execute` on a plan with one more step at the end. */
  lemma ExecuteSnoc(a: seq<Step>, s: Step, t: Tree, stages: StageOutcomes)
    ensures Execute(a + [s], t, stages)
      == (var e := Execute(a, t, stages);
          if e.failure.Some? then e
          else
            var p := Perform(s, e.tree, stages);
            Execution(a + [s], p.tree, p.failure))
  {
    assert (a + [s])[..|a|] == a;
  }

  /** Performing two plans one after the other is performing their
      concatenation. */
  lemma {:induction false} ExecuteAppend(a: seq<Step>, b: seq<Step>, t: Tree, stages: StageOutcomes)
    ensures
      var ea := Execute(a, t, stages);
      Execute(a + b, t, stages)
        == if ea.failure.Some? then ea
           else
             var eb := Execute(b, ea.tree, stages);
             Execution(ea.attempted + eb.attempted, eb.tree, eb.failure)
    decreases |b|
  {
    if b == [] {
      assert a + b == a;
      assert a + [] == a;
    } else {
      var b' := b[..|b| - 1];
      var s := b[|b| - 1];
      assert b == b' + [s];
      assert a + b == (a + b') + [s];
      ExecuteAppend(a, b', t, stages);
      ExecuteSnoc(a + b', s, t, stages);
      var ea := Execute(a, t, stages);
      if ea.failure.None? {
        ExecuteSnoc(b', s, ea.tree, stages);
      }
    }
  }

  /** `Execute` on three steps, unrolled. */
  lemma ExecuteThree(s0: Step, s1: Step, s2: Step, t: Tree, stages: StageOutcomes)
    ensures Execute([s0] + [s1] + [s2], t, stages)
      == (var p0 := Perform(s0, t, stages);
          if p0.failure.Some? then Execution([s0], p0.tree, p0.failure)
          else
            var p1 := Perform(s1, p0.tree, stages);
            if p1.failure.Some? then Execution([s0] + [s1], p1.tree, p1.failure)
            else
              var p2 := Perform(s2, p1.tree, stages);
              Execution([s0] + [s1] + [s2], p2.tree, p2.failure))
  {
    assert [] + [s0] == [s0];
    ExecuteSnoc([], s0, t, stages);
    ExecuteSnoc([s0], s1, t, stages);
    ExecuteSnoc([s0] + [s1], s2, t, stages);
  }

  /** `Execute` on four steps, unrolled. */
  lemma ExecuteFour(s0: Step, s1: Step, s2: Step, s3: Step, t: Tree, stages: StageOutcomes)
    ensures Execute([s0] + [s1] + [s2] + [s3], t, stages)
      == (var p0 := Perform(s0, t, stages);
          if p0.failure.Some? then Execution([s0], p0.tree, p0.failure)
          else
            var p1 := Perform(s1, p0.tree, stages);
            if p1.failure.Some? then Execution([s0] + [s1], p1.tree, p1.failure)
            else
              var p2 := Perform(s2, p1.tree, stages);
              if p2.failure.Some? then Execution([s0] + [s1] + [s2], p2.tree, p2.failure)
              else
                var p3 := Perform(s3, p2.tree, stages);
                Execution([s0] + [s1] + [s2] + [s3], p3.tree, p3.failure))
  {
    ExecuteThree(s0, s1, s2, t, stages);
    ExecuteSnoc([s0] + [s1] + [s2], s3, t, stages);
  }

  /** Four steps that all returned: each returned on the filesystem the
      one before it left. */
  lemma ExecuteFourReturned(s0: Step, s1: Step, s2: Step, s3: Step, t: Tree, stages: StageOutcomes)
    requires Execute([s0] + [s1] + [s2] + [s3], t, stages).failure.None?
    ensures
      var p0 := Perform(s0, t, stages);
      var p1 := Perform(s1, p0.tree, stages);
      var p2 := Perform(s2, p1.tree, stages);
      var p3 := Perform(s3, p2.tree, stages);
      p0.failure.None? && p1.failure.None? && p2.failure.None? && p3.failure.None? &&
      Execute([s0] + [s1] + [s2] + [s3], t, stages).tree == p3.tree
  {
    ExecuteFour(s0, s1, s2, s3, t, stages);
  }

  /** Executing exactly the steps an execution attempted reproduces it. */
  lemma {:induction false} ExecuteReplaysAttempted(plan: seq<Step>, t: Tree, stages: StageOutcomes)
    ensures Execute(Execute(plan, t, stages).attempted, t, stages) == Execute(plan, t, stages)
    decreases |plan|
  {
    if plan != [] {
      var before := Execute(plan[..|plan| - 1], t, stages);
      if before.failure.Some? {
        ExecuteReplaysAttempted(plan[..|plan| - 1], t, stages);
      }
    }
  }

  /** When `Execute` stops on a failure, every step before the last one
      attempted returned, and the last one threw the failure reported and
      left the filesystem reported. */
  lemma ExecuteStopsAtFailure(plan: seq<Step>, t: Tree, stages: StageOutcomes)
    ensures
      var r := Execute(plan, t, stages);
      r.failure.Some? ==>
        var k := |r.attempted| - 1;
        var before := Execute(r.attempted[..k], t, stages);
        before.failure.None? && Perform(r.attempted[k], before.tree, stages) == Effect(r.tree, r.failure)
  {
    var r := Execute(plan, t, stages);
    if r.failure.Some? {
      var k := |r.attempted| - 1;
      var a, s := r.attempted[..k], r.attempted[k];
      ExecuteReplaysAttempted(plan, t, stages);
      assert r.attempted == a + [s];
      ExecuteSnoc(a, s, t, stages);
      var before := Execute(a, t, stages);
      assert |before.attempted| <= |a|;
    }
  }
}

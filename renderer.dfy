/** The body of main's frame loop as the stream of GL commands it issues:
    clears, colour masks and one render call per scene entry. What the stream
    does to the framebuffer is read off it by folding the colour mask and the
    depth-buffer generation over it. */
module Renderer {
  import opened Linear
  import opened Loops
  import opened Stereo
  import opened App

  /** glColorMask(red, green, blue, alpha) */
  datatype Mask = Mask(red: bool, green: bool, blue: bool, alpha: bool)

  const Full := Mask(true, true, true, true)
  /** The left eye's filter: red only. */
  const RedOnly := Mask(true, false, false, true)
  /** The right eye's filter: green and blue. */
  const Cyan := Mask(false, true, true, true)

  /** box.render or sphere.render */
  datatype Mesh = BoxDraw | SphereDraw

  datatype Op =
    | ClearColorDepth            // glClear(GL_COLOR_BUFFER_BIT | GL_DEPTH_BUFFER_BIT)
    | ClearDepth                 // glClear(GL_DEPTH_BUFFER_BIT)
    | SetMask(mask: Mask)        // glColorMask
    | Draw(mesh: Mesh, vp: Mat4, model: Mat4)

  // ---------------------------------------------------------------------------
  // What a command stream does

  /** The GL state the commands depend on: the colour mask, and how many
      times the depth buffer has been cleared (draws in different generations
      never hide each other). */
  datatype GlState = GlState(mask: Mask, depthGeneration: nat)

  /** A draw as it reaches the framebuffer. */
  datatype Fragment = Fragment(mask: Mask, depthGeneration: nat, mesh: Mesh, vp: Mat4, model: Mat4)

  function Step(g: GlState, op: Op): GlState
  {
    match op
    case ClearColorDepth => g.(depthGeneration := g.depthGeneration + 1)
    case ClearDepth => g.(depthGeneration := g.depthGeneration + 1)
    case SetMask(m) => g.(mask := m)
    case Draw(_, _, _) => g
  }

  function After(g: GlState, ops: seq<Op>): GlState
    decreases |ops|
  {
    if ops == [] then g else After(Step(g, ops[0]), ops[1..])
  }

  /** The draws of ops, each with the mask and depth generation it runs under. */
  function Fragments(g: GlState, ops: seq<Op>): seq<Fragment>
    decreases |ops|
  {
    if ops == [] then []
    else
      (match ops[0]
       case Draw(mesh, vp, model) => [Fragment(g.mask, g.depthGeneration, mesh, vp, model)]
       case _ => [])
      + Fragments(Step(g, ops[0]), ops[1..])
  }

  /** The mask in effect at each clear of the colour buffer. */
  function ColourClears(g: GlState, ops: seq<Op>): seq<Mask>
    decreases |ops|
  {
    if ops == [] then []
    else (if ops[0] == ClearColorDepth then [g.mask] else []) + ColourClears(Step(g, ops[0]), ops[1..])
  }

  /** A stream that starts with op: op's own effect, then the rest from
      the state op leaves. */
  lemma Cons(g: GlState, op: Op, rest: seq<Op>)
    ensures After(g, [op] + rest) == After(Step(g, op), rest)
    ensures Fragments(g, [op] + rest)
            == (if op.Draw? then [Fragment(g.mask, g.depthGeneration, op.mesh, op.vp, op.model)] else [])
               + Fragments(Step(g, op), rest)
    ensures ColourClears(g, [op] + rest)
            == (if op == ClearColorDepth then [g.mask] else []) + ColourClears(Step(g, op), rest)
  {
    assert ([op] + rest)[1..] == rest;
  }

  lemma {:induction false} AfterAppend(g: GlState, a: seq<Op>, b: seq<Op>)
    ensures After(g, a + b) == After(After(g, a), b)
    decreases |a|
  {
    if a != [] {
      assert (a + b)[1..] == a[1..] + b;
      AfterAppend(Step(g, a[0]), a[1..], b);
    } else {
      assert a + b == b;
    }
  }

  lemma {:induction false} FragmentsAppend(g: GlState, a: seq<Op>, b: seq<Op>)
    ensures Fragments(g, a + b) == Fragments(g, a) + Fragments(After(g, a), b)
    ensures ColourClears(g, a + b) == ColourClears(g, a) + ColourClears(After(g, a), b)
    decreases |a|
  {
    if a != [] {
      assert (a + b)[1..] == a[1..] + b;
      FragmentsAppend(Step(g, a[0]), a[1..], b);
    } else {
      assert a + b == b;
    }
  }

  // ---------------------------------------------------------------------------
  // The frame

  /** for (int i = 0; i < numBoxes; ++i) mesh.render(vp, boxTransforms[i]); */
  function Pass(mesh: Mesh, vp: Mat4, models: seq<Mat4>): seq<Op>
  {
    seq(|models|, i requires 0 <= i < |models| => Draw(mesh, vp, models[i]))
  }

  /** Every model of the pass is drawn once, in order, under the state the
      pass starts in, and the pass changes no state and clears nothing. */
  lemma {:induction false} PassEffects(g: GlState, mesh: Mesh, vp: Mat4, models: seq<Mat4>)
    ensures After(g, Pass(mesh, vp, models)) == g
    ensures Fragments(g, Pass(mesh, vp, models))
            == seq(|models|, i requires 0 <= i < |models| => Fragment(g.mask, g.depthGeneration, mesh, vp, models[i]))
    ensures ColourClears(g, Pass(mesh, vp, models)) == []
  {
    if models != [] {
      var p := Pass(mesh, vp, models);
      assert p[1..] == Pass(mesh, vp, models[1..]);
      PassEffects(g, mesh, vp, models[1..]);
    }
  }

  /** The mono branch: full mask, clear, one pass. */
  function MonoBranch(mesh: Mesh, vp: Mat4, models: seq<Mat4>): seq<Op>
  {
    [SetMask(Full), ClearColorDepth] + Pass(mesh, vp, models)
  }

  /** One eye's pass of the stereo branch: its colour mask, a depth clear
      that keeps the colour, the pass. */
  function EyePass(mask: Mask, mesh: Mesh, vp: Mat4, models: seq<Mat4>): seq<Op>
  {
    [SetMask(mask), ClearDepth] + Pass(mesh, vp, models)
  }

  /** The stereo branch: the red pass, the cyan pass, the full mask again. */
  function StereoBranch(mesh: Mesh, vpLeft: Mat4, vpRight: Mat4, models: seq<Mat4>): seq<Op>
  {
    EyePass(RedOnly, mesh, vpLeft, models) + EyePass(Cyan, mesh, vpRight, models) + [SetMask(Full)]
  }

  /** A mono frame: the loop's first clear, then the mono branch. */
  function MonoFrame(mesh: Mesh, vp: Mat4, models: seq<Mat4>): seq<Op>
  {
    [ClearColorDepth] + MonoBranch(mesh, vp, models)
  }

  /** A stereo frame: the loop's first clear, then the stereo branch. */
  function StereoFrame(mesh: Mesh, vpLeft: Mat4, vpRight: Mat4, models: seq<Mat4>): seq<Op>
  {
    [ClearColorDepth] + StereoBranch(mesh, vpLeft, vpRight, models)
  }

  function SceneMesh(useSphereScene: bool): Mesh
  {
    if useSphereScene then SphereDraw else BoxDraw
  }

  /** One pass of the frame loop for the current settings and scene. */
  function FrameOps(s: Settings, models: seq<Mat4>, lens: Lens): seq<Op>
    requires s.mode != AnaglyphModeCount
  {
    var mesh := SceneMesh(s.useSphereScene);
    match s.mode
    case None => MonoFrame(mesh, MonoViewProjection(s.eyeCenter), models)
    case ToeIn =>
      var (l, r) := ToeInViews(s.eyeCenter, s.ipd, lens);
      StereoFrame(mesh, l, r, models)
    case Asymmetric =>
      var (l, r) := AsymmetricViews(s.eyeCenter, s.ipd, lens);
      StereoFrame(mesh, l, r, models)
  }

  /** Mono: the colour buffer is cleared twice, the second time with the full
      mask; every model is drawn once under the full mask against a fresh
      depth buffer; the full mask stays set. */
  lemma MonoFrameEffects(g: GlState, mesh: Mesh, vp: Mat4, models: seq<Mat4>)
    ensures After(g, MonoFrame(mesh, vp, models)) == GlState(Full, g.depthGeneration + 2)
    ensures ColourClears(g, MonoFrame(mesh, vp, models)) == [g.mask, Full]
    ensures Fragments(g, MonoFrame(mesh, vp, models))
            == seq(|models|, i requires 0 <= i < |models| => Fragment(Full, g.depthGeneration + 2, mesh, vp, models[i]))
  {
    Cons(g, ClearColorDepth, MonoBranch(mesh, vp, models));
    MonoBranchEffects(Step(g, ClearColorDepth), mesh, vp, models);
  }

  /** The mono branch clears the colour under the full mask and draws every
      model once under it against a fresh depth buffer. */
  lemma MonoBranchEffects(g: GlState, mesh: Mesh, vp: Mat4, models: seq<Mat4>)
    ensures After(g, MonoBranch(mesh, vp, models)) == GlState(Full, g.depthGeneration + 1)
    ensures ColourClears(g, MonoBranch(mesh, vp, models)) == [Full]
    ensures Fragments(g, MonoBranch(mesh, vp, models))
            == seq(|models|, i requires 0 <= i < |models| => Fragment(Full, g.depthGeneration + 1, mesh, vp, models[i]))
  {
    var p := Pass(mesh, vp, models);
    var g1 := Step(g, SetMask(Full));
    assert MonoBranch(mesh, vp, models) == [SetMask(Full)] + ([ClearColorDepth] + p);
    Cons(g, SetMask(Full), [ClearColorDepth] + p);
    Cons(g1, ClearColorDepth, p);
    PassEffects(Step(g1, ClearColorDepth), mesh, vp, models);
  }

  /** An eye's pass draws every model once under that eye's mask, in a depth
      generation of its own, and clears no colour. */
  lemma EyePassEffects(g: GlState, mask: Mask, mesh: Mesh, vp: Mat4, models: seq<Mat4>)
    ensures After(g, EyePass(mask, mesh, vp, models)) == GlState(mask, g.depthGeneration + 1)
    ensures ColourClears(g, EyePass(mask, mesh, vp, models)) == []
    ensures Fragments(g, EyePass(mask, mesh, vp, models))
            == seq(|models|, i requires 0 <= i < |models| => Fragment(mask, g.depthGeneration + 1, mesh, vp, models[i]))
  {
    var p := Pass(mesh, vp, models);
    var g1 := Step(g, SetMask(mask));
    assert EyePass(mask, mesh, vp, models) == [SetMask(mask)] + ([ClearDepth] + p);
    Cons(g, SetMask(mask), [ClearDepth] + p);
    Cons(g1, ClearDepth, p);
    PassEffects(Step(g1, ClearDepth), mesh, vp, models);
  }

  /** Stereo: the colour buffer is cleared once, before both passes, so the
      right eye's image is added to the left eye's. The left eye draws every
      model under the red mask, then the right eye every model under the cyan
      mask, each against its own fresh depth buffer; the full mask is set
      again at the end. */
  lemma StereoFrameEffects(g: GlState, mesh: Mesh, vpLeft: Mat4, vpRight: Mat4, models: seq<Mat4>)
    ensures After(g, StereoFrame(mesh, vpLeft, vpRight, models)) == GlState(Full, g.depthGeneration + 3)
    ensures ColourClears(g, StereoFrame(mesh, vpLeft, vpRight, models)) == [g.mask]
    ensures Fragments(g, StereoFrame(mesh, vpLeft, vpRight, models))
            == seq(|models|, i requires 0 <= i < |models| => Fragment(RedOnly, g.depthGeneration + 2, mesh, vpLeft, models[i]))
               + seq(|models|, i requires 0 <= i < |models| => Fragment(Cyan, g.depthGeneration + 3, mesh, vpRight, models[i]))
  {
    Cons(g, ClearColorDepth, StereoBranch(mesh, vpLeft, vpRight, models));
    StereoBranchEffects(Step(g, ClearColorDepth), mesh, vpLeft, vpRight, models);
  }

  /** The stereo branch clears no colour: the red pass, then the cyan pass,
      each in a depth generation of its own, then the full mask again. */
  lemma StereoBranchEffects(g: GlState, mesh: Mesh, vpLeft: Mat4, vpRight: Mat4, models: seq<Mat4>)
    ensures After(g, StereoBranch(mesh, vpLeft, vpRight, models)) == GlState(Full, g.depthGeneration + 2)
    ensures ColourClears(g, StereoBranch(mesh, vpLeft, vpRight, models)) == []
    ensures Fragments(g, StereoBranch(mesh, vpLeft, vpRight, models))
            == seq(|models|, i requires 0 <= i < |models| => Fragment(RedOnly, g.depthGeneration + 1, mesh, vpLeft, models[i]))
               + seq(|models|, i requires 0 <= i < |models| => Fragment(Cyan, g.depthGeneration + 2, mesh, vpRight, models[i]))
  {
    var left := EyePass(RedOnly, mesh, vpLeft, models);
    var right := EyePass(Cyan, mesh, vpRight, models);
    var gl := GlState(RedOnly, g.depthGeneration + 1);
    var gr := GlState(Cyan, g.depthGeneration + 2);
    assert StereoBranch(mesh, vpLeft, vpRight, models) == left + (right + [SetMask(Full)]);
    EyePassEffects(g, RedOnly, mesh, vpLeft, models);
    AfterAppend(g, left, right + [SetMask(Full)]);
    FragmentsAppend(g, left, right + [SetMask(Full)]);
    EyePassEffects(gl, Cyan, mesh, vpRight, models);
    AfterAppend(gl, right, [SetMask(Full)]);
    FragmentsAppend(gl, right, [SetMask(Full)]);
    Cons(gr, SetMask(Full), []);
    assert [SetMask(Full)] + [] == [SetMask(Full)];
  }

  /** Every frame, whatever the mode, leaves the full mask set; so if the
      loop starts with the full mask, every colour clear of every frame
      clears all channels. */
  lemma FrameKeepsFullMask(g: GlState, s: Settings, models: seq<Mat4>, lens: Lens)
    requires s.mode != AnaglyphModeCount
    ensures After(g, FrameOps(s, models, lens)).mask == Full
    ensures g.mask == Full ==> forall m <- ColourClears(g, FrameOps(s, models, lens)) :: m == Full
    ensures |Fragments(g, FrameOps(s, models, lens))| == if s.mode == None then |models| else 2 * |models|
  {
    var mesh := SceneMesh(s.useSphereScene);
    match s.mode
    case None => MonoFrameEffects(g, mesh, MonoViewProjection(s.eyeCenter), models);
    case ToeIn =>
      var (l, r) := ToeInViews(s.eyeCenter, s.ipd, lens);
      StereoFrameEffects(g, mesh, l, r, models);
    case Asymmetric =>
      var (l, r) := AsymmetricViews(s.eyeCenter, s.ipd, lens);
      StereoFrameEffects(g, mesh, l, r, models);
  }

  /** With ipd = 0, toe-in draws both passes with the mono camera. */
  lemma ToeInWithoutSeparation(g: GlState, s: Settings, models: seq<Mat4>, lens: Lens)
    requires s.mode == ToeIn && s.ipd == 0.0
    ensures forall f <- Fragments(g, FrameOps(s, models, lens)) :: f.vp == MonoViewProjection(s.eyeCenter)
  {
    ToeInConverges(s.eyeCenter, s.ipd, lens);
    var (l, r) := ToeInViews(s.eyeCenter, s.ipd, lens);
    StereoFrameEffects(g, SceneMesh(s.useSphereScene), l, r, models);
  }

  // ---------------------------------------------------------------------------
  // The GL context and the frame loop body

  /** The GL context, as the commands it has been sent. */
  class Gl {
    var commands: seq<Op>

    constructor ()
      ensures commands == []
    {
      commands := [];
    }

    method Clear(colour: bool)
      modifies this
      ensures commands == old(commands) + [if colour then ClearColorDepth else ClearDepth]
    {
      commands := commands + [if colour then ClearColorDepth else ClearDepth];
    }

    method ColorMask(red: bool, green: bool, blue: bool, alpha: bool)
      modifies this
      ensures commands == old(commands) + [SetMask(Mask(red, green, blue, alpha))]
    {
      commands := commands + [SetMask(Mask(red, green, blue, alpha))];
    }

    method Render(mesh: Mesh, vp: Mat4, model: Mat4)
      modifies this
      ensures commands == old(commands) + [Draw(mesh, vp, model)]
    {
      commands := commands + [Draw(mesh, vp, model)];
    }
  }

  /** The loop over the scene list that draws the first numBoxes entries. */
  method RenderScene(gl: Gl, useSphereScene: bool, vp: Mat4, boxTransforms: seq<Mat4>, numBoxes: int)
    requires numBoxes <= |boxTransforms|
    modifies gl
    ensures gl.commands == old(gl.commands) + Pass(SceneMesh(useSphereScene), vp, boxTransforms[..Iterations(numBoxes)])
  {
    var mesh := SceneMesh(useSphereScene);
    ghost var models := boxTransforms[..Iterations(numBoxes)];
    var i := 0;
    while i < numBoxes
      invariant 0 <= i <= Iterations(numBoxes)
      invariant gl.commands == old(gl.commands) + Pass(mesh, vp, models[..i])
    {
      gl.Render(mesh, vp, boxTransforms[i]);
      assert Pass(mesh, vp, models[..i + 1]) == Pass(mesh, vp, models[..i]) + [Draw(mesh, vp, boxTransforms[i])];
      i := i + 1;
    }
    assert models[..i] == models;
  }

  /** The mono branch of the frame loop. */
  method RenderMono(gl: Gl, useSphereScene: bool, vp: Mat4, boxTransforms: seq<Mat4>, numBoxes: int)
    requires numBoxes <= |boxTransforms|
    modifies gl
    ensures gl.commands == old(gl.commands) + MonoBranch(SceneMesh(useSphereScene), vp, boxTransforms[..Iterations(numBoxes)])
  {
    gl.ColorMask(true, true, true, true);
    gl.Clear(true);
    RenderScene(gl, useSphereScene, vp, boxTransforms, numBoxes);
  }

  /** One eye's pass: its colour mask, a depth clear, the scene. */
  method RenderEye(gl: Gl, red: bool, green: bool, blue: bool, useSphereScene: bool, vp: Mat4,
                   boxTransforms: seq<Mat4>, numBoxes: int)
    requires numBoxes <= |boxTransforms|
    modifies gl
    ensures gl.commands == old(gl.commands)
                           + EyePass(Mask(red, green, blue, true), SceneMesh(useSphereScene), vp, boxTransforms[..Iterations(numBoxes)])
  {
    gl.ColorMask(red, green, blue, true);
    gl.Clear(false);
    RenderScene(gl, useSphereScene, vp, boxTransforms, numBoxes);
  }

  /** The two passes of the stereo branch. */
  method RenderStereo(gl: Gl, useSphereScene: bool, vpLeft: Mat4, vpRight: Mat4, boxTransforms: seq<Mat4>, numBoxes: int)
    requires numBoxes <= |boxTransforms|
    modifies gl
    ensures gl.commands == old(gl.commands)
                           + StereoBranch(SceneMesh(useSphereScene), vpLeft, vpRight, boxTransforms[..Iterations(numBoxes)])
  {
    RenderEye(gl, true, false, false, useSphereScene, vpLeft, boxTransforms, numBoxes);   // left eye: red only
    RenderEye(gl, false, true, true, useSphereScene, vpRight, boxTransforms, numBoxes);   // right eye: green and blue
    gl.ColorMask(true, true, true, true);
  }

  /** One iteration of main's do-while loop up to the animation step. */
  method RenderFrame(gl: Gl, app: AppState, lens: Lens)
    requires app.Valid()
    modifies gl
    ensures gl.commands == old(gl.commands) + FrameOps(app.Snapshot(), app.boxTransforms, lens)
  {
    var models := app.boxTransforms;
    assert models[..Iterations(app.numBoxes)] == models;
    gl.Clear(true);
    if app.anaglyphMode == None {
      RenderMono(gl, app.useSphereScene, MonoViewProjection(app.eyeCenter), models, app.numBoxes);
    } else {
      var (vpLeft, vpRight) :=
        if app.anaglyphMode == ToeIn then ToeInViews(app.eyeCenter, app.ipd, lens)
        else AsymmetricViews(app.eyeCenter, app.ipd, lens);
      RenderStereo(gl, app.useSphereScene, vpLeft, vpRight, models, app.numBoxes);
    }
  }
}

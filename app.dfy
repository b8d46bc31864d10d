/** The application state of the renderer: the anaglyph mode cycle, the key
    bindings, and the scene list of box transforms. The source keeps these as
    process-wide globals mutated by the key callback; here they are the fields
    of one AppState object, and a pure Settings value with the function OnKey
    specifies what one key event does to them. */
module App {
  import opened Linear
  import Stereo

  // ---------------------------------------------------------------------------
  // Anaglyph mode

  /** The enum including its count sentinel, whose display name is "Invalid". */
  datatype AnaglyphMode = None | ToeIn | Asymmetric | AnaglyphModeCount

  /** (int)AnaglyphModeCount */
  const ModeCount: nat := 3

  function Ordinal(m: AnaglyphMode): (k: nat)
    ensures k <= ModeCount
    ensures k == ModeCount <==> m == AnaglyphModeCount
  {
    match m
    case None => 0
    case ToeIn => 1
    case Asymmetric => 2
    case AnaglyphModeCount => 3
  }

  /** The cast (AnaglyphMode)k. */
  function FromOrdinal(k: nat): (m: AnaglyphMode)
    requires k <= ModeCount
    ensures Ordinal(m) == k
  {
    if k == 0 then None else if k == 1 then ToeIn else if k == 2 then Asymmetric else AnaglyphModeCount
  }

  /** nextAnaglyphMode: (mode + 1) % AnaglyphModeCount. The result is always a
      real mode, never the count sentinel, even when started from it. */
  function NextMode(m: AnaglyphMode): (n: AnaglyphMode)
    ensures n != AnaglyphModeCount
    ensures Ordinal(n) == (Ordinal(m) + 1) % ModeCount
  {
    FromOrdinal((Ordinal(m) + 1) % ModeCount)
  }

  /** The modes cycle None -> ToeIn -> Asymmetric -> None, so three steps
      return to the start and no fewer do. */
  lemma ModeCycle(m: AnaglyphMode)
    requires m != AnaglyphModeCount
    ensures NextMode(NextMode(NextMode(m))) == m
    ensures NextMode(m) != m && NextMode(NextMode(m)) != m
    ensures NextMode(None) == ToeIn && NextMode(ToeIn) == Asymmetric && NextMode(Asymmetric) == None
  {
    assert NextMode(None) == ToeIn by { assert Ordinal(NextMode(None)) == 1; }
    assert NextMode(ToeIn) == Asymmetric by { assert Ordinal(NextMode(ToeIn)) == 2; }
    assert NextMode(Asymmetric) == None by { assert Ordinal(NextMode(Asymmetric)) == 0; }
  }

  // ---------------------------------------------------------------------------
  // Key events

  /** GLFW_RELEASE, GLFW_PRESS and GLFW_REPEAT. */
  datatype Action = Release | Press | Repeat

  /** The keys the callback inspects; any other key code is OtherKey. */
  datatype Key =
    | Space | KeyR | ArrowUp | ArrowDown | ArrowLeft | ArrowRight | KeyM
    | Comma | Period | Digit1 | Digit0 | Digit2 | Escape
    | OtherKey(code: int)

  datatype KeyEvent = KeyEvent(key: Key, action: Action)

  /** cos and sin of the orbit update, left uninterpreted. */
  datatype Trig = Trig(cos: real -> real, sin: real -> real)

  const OriginalEyeCenter: Vec3 := Vec3(0.0, 0.0, 100.0)
  /** M_PI / 2, the initial and reset orbit angles */
  const HalfPi: real := 1.5707963267948966
  /** the 0.1f step of the orbit angles */
  const OrbitStep: real := 0.1
  /** the 0.1f step of the interpupillary distance */
  const IpdStep: real := 0.1
  const InitialIpd: real := 2.0
  const FewBoxes: int := 1
  const ManyBoxes: int := 100

  /** The globals key_callback reads and writes (all but the scene list). */
  datatype Settings = Settings(
    mode: AnaglyphMode,
    ipd: real,
    numBoxes: int,
    useSphereScene: bool,
    rotating: bool,
    eyeCenter: Vec3,
    viewAzimuth: real,
    viewPolar: real,
    shouldClose: bool)

  const InitialSettings: Settings :=
    Settings(None, InitialIpd, FewBoxes, false, false, OriginalEyeCenter, HalfPi, HalfPi, false)

  /** What every reachable state satisfies: a real mode, a non-negative ipd,
      and one of the two scene sizes. */
  predicate SettingsValid(s: Settings)
  {
    s.mode != AnaglyphModeCount && s.ipd >= 0.0 && (s.numBoxes == FewBoxes || s.numBoxes == ManyBoxes)
  }

  function Max(a: real, b: real): real
  {
    if a >= b then a else b
  }

  /** Arrow keys fire on press and on auto-repeat. */
  predicate Held(action: Action)
  {
    action == Repeat || action == Press
  }

  /** Set the orbit's azimuth and move the eye on the horizontal circle. */
  function Orbit(s: Settings, azimuth: real, trig: Trig): Settings
  {
    s.(viewAzimuth := azimuth,
       eyeCenter := s.eyeCenter.(x := Stereo.ViewDistance * trig.cos(azimuth),
                                 z := Stereo.ViewDistance * trig.sin(azimuth)))
  }

  /** Set the orbit's polar angle and move the eye vertically. */
  function Tilt(s: Settings, polar: real, trig: Trig): Settings
  {
    s.(viewPolar := polar, eyeCenter := s.eyeCenter.(y := Stereo.ViewDistance * trig.cos(polar)))
  }

  /** The keys whose bindings move the camera or change the mode. */
  predicate IsCameraKey(k: Key)
  {
    k in {Space, KeyR, ArrowUp, ArrowDown, ArrowLeft, ArrowRight, KeyM}
  }

  /** The effect of one key event on the settings. At most one binding
      matches a key. */
  function OnKey(s: Settings, e: KeyEvent, trig: Trig): Settings
  {
    if IsCameraKey(e.key) then OnCameraKey(s, e, trig) else OnSceneKey(s, e)
  }

  /** The camera and mode bindings. */
  function OnCameraKey(s: Settings, e: KeyEvent, trig: Trig): Settings
  {
    match e.key
    case Space => if e.action == Press then s.(rotating := !s.rotating) else s
    case KeyR =>
      if e.action == Press
      then s.(rotating := false, eyeCenter := OriginalEyeCenter, viewAzimuth := HalfPi, viewPolar := HalfPi)
      else s
    case ArrowUp => if Held(e.action) then Tilt(s, s.viewPolar - OrbitStep, trig) else s
    case ArrowDown => if Held(e.action) then Tilt(s, s.viewPolar + OrbitStep, trig) else s
    case ArrowLeft => if Held(e.action) then Orbit(s, s.viewAzimuth - OrbitStep, trig) else s
    case ArrowRight => if Held(e.action) then Orbit(s, s.viewAzimuth + OrbitStep, trig) else s
    case KeyM => if e.action == Press then s.(mode := NextMode(s.mode)) else s
    case _ => s
  }

  /** The ipd, scene and quit bindings. COMMA, PERIOD, 1 and 0 are not
      filtered by action and so also fire on release and repeat. */
  function OnSceneKey(s: Settings, e: KeyEvent): Settings
  {
    match e.key
    case Comma => s.(ipd := Max(s.ipd - IpdStep, 0.0))
    case Period => s.(ipd := s.ipd + IpdStep)
    case Digit1 => s.(numBoxes := FewBoxes)
    case Digit0 => s.(numBoxes := ManyBoxes)
    case Digit2 => if e.action == Press then s.(useSphereScene := !s.useSphereScene) else s
    case Escape => if e.action == Press then s.(shouldClose := true) else s
    case _ => s
  }

  /** The events after which the callback rebuilds the scene list. */
  predicate Regenerates(e: KeyEvent)
  {
    e.key == Digit1 || e.key == Digit0 || (e.key == Digit2 && e.action == Press)
  }

  /** The settings after a whole sequence of events, in order. */
  function OnKeys(s: Settings, events: seq<KeyEvent>, trig: Trig): Settings
    decreases |events|
  {
    if events == [] then s else OnKeys(OnKey(s, events[0], trig), events[1..], trig)
  }

  /** Every key event keeps the settings valid. */
  lemma OnKeyPreservesValid(s: Settings, e: KeyEvent, trig: Trig)
    requires SettingsValid(s)
    ensures SettingsValid(OnKey(s, e, trig))
  {
  }

  /** Starting from any valid settings, in particular the initial ones with
      ipd 2.0, every event sequence keeps ipd >= 0 and the mode a real one. */
  lemma {:induction false} OnKeysPreservesValid(s: Settings, events: seq<KeyEvent>, trig: Trig)
    requires SettingsValid(s)
    ensures SettingsValid(OnKeys(s, events, trig))
    ensures OnKeys(s, events, trig).ipd >= 0.0
    decreases |events|
  {
    if events != [] {
      OnKeyPreservesValid(s, events[0], trig);
      OnKeysPreservesValid(OnKey(s, events[0], trig), events[1..], trig);
    }
  }

  lemma InitialSettingsValid()
    ensures SettingsValid(InitialSettings) && InitialSettings.ipd == 2.0
  {
  }

  /** COMMA lowers ipd by 0.1 clamped at 0 and PERIOD raises it by 0.1 with no
      upper bound, whatever the action; nothing else changes and the scene is
      not rebuilt. */
  lemma IpdKeys(s: Settings, a: Action, trig: Trig)
    ensures OnKey(s, KeyEvent(Comma, a), trig) == s.(ipd := if s.ipd >= IpdStep then s.ipd - IpdStep else 0.0)
    ensures OnKey(s, KeyEvent(Period, a), trig) == s.(ipd := s.ipd + IpdStep)
    ensures OnKey(s, KeyEvent(Comma, a), trig).ipd >= 0.0
    ensures !Regenerates(KeyEvent(Comma, a)) && !Regenerates(KeyEvent(Period, a))
  {
  }

  function Repeated(e: KeyEvent, n: nat): (r: seq<KeyEvent>)
    ensures |r| == n && forall k :: 0 <= k < n ==> r[k] == e
  {
    seq(n, _ => e)
  }

  /** n COMMA events lower ipd by n steps but never below 0: from the initial
      2.0, twenty-one presses land exactly on 0. */
  lemma {:induction false} RepeatedComma(s: Settings, a: Action, n: nat, trig: Trig)
    requires s.ipd >= 0.0
    ensures OnKeys(s, Repeated(KeyEvent(Comma, a), n), trig) == s.(ipd := Max(s.ipd - (n as real) * IpdStep, 0.0))
    decreases n
  {
    var e := KeyEvent(Comma, a);
    if n > 0 {
      var s1 := OnKey(s, e, trig);
      assert Repeated(e, n)[1..] == Repeated(e, n - 1);
      RepeatedComma(s1, a, n - 1, trig);
    }
  }

  /** n PERIOD events raise ipd by exactly n steps: there is no upper bound. */
  lemma {:induction false} RepeatedPeriod(s: Settings, a: Action, n: nat, trig: Trig)
    ensures OnKeys(s, Repeated(KeyEvent(Period, a), n), trig) == s.(ipd := s.ipd + (n as real) * IpdStep)
    decreases n
  {
    var e := KeyEvent(Period, a);
    if n > 0 {
      assert Repeated(e, n)[1..] == Repeated(e, n - 1);
      RepeatedPeriod(OnKey(s, e, trig), a, n - 1, trig);
    }
  }

  lemma DecreaseFromInitialClampsAtZero(a: Action, trig: Trig)
    ensures OnKeys(InitialSettings, Repeated(KeyEvent(Comma, a), 21), trig).ipd == 0.0
  {
    RepeatedComma(InitialSettings, a, 21, trig);
  }

  /** Because COMMA and PERIOD ignore the action, one tap (press then
      release) moves ipd by two steps. */
  lemma TapMovesIpdTwice(s: Settings, trig: Trig)
    ensures OnKeys(s, [KeyEvent(Period, Press), KeyEvent(Period, Release)], trig).ipd == s.ipd + 2.0 * IpdStep
  {
    assert [KeyEvent(Period, Press), KeyEvent(Period, Release)][1..] == [KeyEvent(Period, Release)];
  }

  /** Key 1 and key 0 pick the scene size and rebuild the scene on any action;
      key 2 toggles the sphere scene and rebuilds it only on press, keeping
      the size. */
  lemma SceneKeys(s: Settings, a: Action, trig: Trig)
    ensures OnKey(s, KeyEvent(Digit1, a), trig) == s.(numBoxes := 1) && Regenerates(KeyEvent(Digit1, a))
    ensures OnKey(s, KeyEvent(Digit0, a), trig) == s.(numBoxes := 100) && Regenerates(KeyEvent(Digit0, a))
    ensures a == Press ==> OnKey(s, KeyEvent(Digit2, a), trig) == s.(useSphereScene := !s.useSphereScene)
                           && Regenerates(KeyEvent(Digit2, a))
    ensures a != Press ==> OnKey(s, KeyEvent(Digit2, a), trig) == s && !Regenerates(KeyEvent(Digit2, a))
  {
  }

  /** SPACE toggles rotation, R stops it and restores the original eye and
      orbit angles, M advances the mode; each only on press. */
  lemma CommandKeys(s: Settings, trig: Trig)
    ensures OnKey(s, KeyEvent(Space, Press), trig) == s.(rotating := !s.rotating)
    ensures var r := OnKey(s, KeyEvent(KeyR, Press), trig);
            !r.rotating && r.eyeCenter == OriginalEyeCenter && r.viewAzimuth == r.viewPolar == HalfPi
            && r.(rotating := s.rotating, eyeCenter := s.eyeCenter, viewAzimuth := s.viewAzimuth, viewPolar := s.viewPolar) == s
    ensures OnKey(s, KeyEvent(KeyM, Press), trig) == s.(mode := NextMode(s.mode))
  {
  }

  /** Events no binding matches change nothing and rebuild nothing: other
      keys on any action, the press-only keys on release or repeat, and the
      arrows on release. */
  lemma UnboundEventsAreIgnored(s: Settings, e: KeyEvent, trig: Trig)
    requires || e.key.OtherKey?
             || (e.action != Press && e.key in {Space, KeyR, KeyM, Digit2, Escape})
             || (e.action == Release && e.key in {ArrowUp, ArrowDown, ArrowLeft, ArrowRight})
    ensures OnKey(s, e, trig) == s && !Regenerates(e)
  {
  }

  // ---------------------------------------------------------------------------
  // Scene list

  /** rand() calls made per random box: three for the position, one for the
      scale, one for the angle and three for the axis. */
  const DrawsPerBox: nat := 8

  /** The single debugging box: translate by 0, then scale by 16. */
  const DebugBox: Mat4 := ScaleBy(Translate(Identity, Vec3(0.0, 0.0, 0.0)), Vec3(16.0, 16.0, 16.0))

  /** The transforms generateScene builds for numBoxes, the random ones drawing
      from the rand() stream starting at firstDraw. */
  function SceneTransforms(numBoxes: int, firstDraw: nat): (r: seq<Mat4>)
    ensures |r| == if numBoxes < 0 then 0 else numBoxes
  {
    if numBoxes == 1 then [DebugBox]
    else seq(if numBoxes < 0 then 0 else numBoxes, k requires 0 <= k => RandomModel(firstDraw + DrawsPerBox * k))
  }

  /** The rand() calls generateScene makes for numBoxes. */
  function SceneDraws(numBoxes: int): nat
  {
    if numBoxes == 1 || numBoxes < 0 then 0 else DrawsPerBox * numBoxes
  }

  /** The scene has exactly numBoxes entries, whatever was there before; every
      random box uses its own eight draws, disjoint from the others'. */
  lemma SceneShape(numBoxes: int, firstDraw: nat)
    requires numBoxes >= 0
    ensures |SceneTransforms(numBoxes, firstDraw)| == numBoxes
    ensures numBoxes == 1 ==> SceneTransforms(numBoxes, firstDraw) == [DebugBox]
    ensures numBoxes != 1 ==> forall i, j :: 0 <= i < j < numBoxes ==>
              SceneTransforms(numBoxes, firstDraw)[i].RandomModel?
              && SceneTransforms(numBoxes, firstDraw)[i].firstDraw + DrawsPerBox <= SceneTransforms(numBoxes, firstDraw)[j].firstDraw
    ensures numBoxes != 1 ==> forall i :: 0 <= i < numBoxes ==>
              firstDraw <= SceneTransforms(numBoxes, firstDraw)[i].firstDraw
              && SceneTransforms(numBoxes, firstDraw)[i].firstDraw + DrawsPerBox <= firstDraw + SceneDraws(numBoxes)
  {
  }

  // ---------------------------------------------------------------------------
  // The application globals

  class AppState {
    var anaglyphMode: AnaglyphMode
    var ipd: real
    var numBoxes: int
    var useSphereScene: bool
    var rotating: bool
    var eyeCenter: Vec3
    var viewAzimuth: real
    var viewPolar: real
    var shouldClose: bool
    var boxTransforms: seq<Mat4>
    /** rand() calls made so far */
    var randDraws: nat

    function Snapshot(): Settings
      reads this
    {
      Settings(anaglyphMode, ipd, numBoxes, useSphereScene, rotating, eyeCenter, viewAzimuth, viewPolar, shouldClose)
    }

    /** The settings are valid and the scene list holds numBoxes transforms. */
    ghost predicate Valid()
      reads this
    {
      && anaglyphMode != AnaglyphModeCount && ipd >= 0.0 && (numBoxes == FewBoxes || numBoxes == ManyBoxes)
      && |boxTransforms| == numBoxes
    }

    /** The globals' initial values, followed by main's first generateScene;
        firstDraw is the number of rand() calls made before it. */
    constructor (firstDraw: nat)
      ensures Valid()
      ensures Snapshot() == InitialSettings
      ensures boxTransforms == SceneTransforms(FewBoxes, firstDraw) == [DebugBox]
      ensures randDraws == firstDraw
    {
      anaglyphMode := None;
      ipd := InitialIpd;
      numBoxes := FewBoxes;
      useSphereScene := false;
      rotating := false;
      eyeCenter := OriginalEyeCenter;
      viewAzimuth := HalfPi;
      viewPolar := HalfPi;
      shouldClose := false;
      boxTransforms := [];
      randDraws := firstDraw;
      new;
      GenerateScene();
    }

    method NextAnaglyphMode()
      modifies this`anaglyphMode
      ensures anaglyphMode == NextMode(old(anaglyphMode))
      ensures anaglyphMode != AnaglyphModeCount
    {
      anaglyphMode := FromOrdinal((Ordinal(anaglyphMode) + 1) % ModeCount);
    }

    /** Clears the scene list and appends numBoxes transforms. */
    method GenerateScene()
      modifies this`boxTransforms, this`randDraws
      ensures boxTransforms == SceneTransforms(numBoxes, old(randDraws))
      ensures randDraws == old(randDraws) + SceneDraws(numBoxes)
    {
      boxTransforms := [];
      if numBoxes == 1 {
        boxTransforms := boxTransforms + [DebugBox];
      } else {
        var i := 0;
        while i < numBoxes
          invariant 0 <= i && (numBoxes >= 0 ==> i <= numBoxes) && (numBoxes < 0 ==> i == 0)
          invariant boxTransforms == seq(i, k requires 0 <= k => RandomModel(old(randDraws) + DrawsPerBox * k))
          invariant randDraws == old(randDraws) + DrawsPerBox * i
        {
          boxTransforms := boxTransforms + [RandomModel(randDraws)];
          randDraws := randDraws + DrawsPerBox;
          i := i + 1;
        }
        assert i == if numBoxes < 0 then 0 else numBoxes;
      }
    }

    /** The UP/DOWN update: viewPolar := polar; eyeCenter.y := viewDistance * cos(viewPolar). */
    method TiltTo(polar: real, trig: Trig)
      modifies this`viewPolar, this`eyeCenter
      ensures Snapshot() == Tilt(old(Snapshot()), polar, trig)
    {
      viewPolar := polar;
      eyeCenter := eyeCenter.(y := Stereo.ViewDistance * trig.cos(viewPolar));
    }

    /** The LEFT/RIGHT update: viewAzimuth := azimuth, then the eye's x and z
        from cos and sin of it. */
    method OrbitTo(azimuth: real, trig: Trig)
      modifies this`viewAzimuth, this`eyeCenter
      ensures Snapshot() == Orbit(old(Snapshot()), azimuth, trig)
    {
      viewAzimuth := azimuth;
      eyeCenter := eyeCenter.(x := Stereo.ViewDistance * trig.cos(viewAzimuth));
      eyeCenter := eyeCenter.(z := Stereo.ViewDistance * trig.sin(viewAzimuth));
    }

    /** key_callback: its bindings for the camera and mode (SPACE, R, the
        arrows, M), then those for the ipd, the scene and quitting. */
    method KeyCallback(e: KeyEvent, trig: Trig)
      requires Valid()
      modifies this
      ensures Snapshot() == OnKey(old(Snapshot()), e, trig)
      ensures Regenerates(e) ==> boxTransforms == SceneTransforms(numBoxes, old(randDraws))
                                 && randDraws == old(randDraws) + SceneDraws(numBoxes)
      ensures !Regenerates(e) ==> boxTransforms == old(boxTransforms) && randDraws == old(randDraws)
      ensures Valid()
    {
      CameraKeys(e, trig);
      StereoAndSceneKeys(e);
      OnKeyPreservesValid(old(Snapshot()), e, trig);
    }

    /** The camera and mode bindings of key_callback. Each tests a different
        key, so at most one fires. */
    method CameraKeys(e: KeyEvent, trig: Trig)
      modifies this`rotating, this`eyeCenter, this`viewAzimuth, this`viewPolar, this`anaglyphMode
      ensures IsCameraKey(e.key) ==> Snapshot() == OnCameraKey(old(Snapshot()), e, trig)
      ensures !IsCameraKey(e.key) ==> Snapshot() == old(Snapshot())
    {
      var key, action := e.key, e.action;
      if key == Space && action == Press {
        rotating := !rotating;
      }
      if key == KeyR && action == Press {
        rotating := false;
        eyeCenter := OriginalEyeCenter;
        viewAzimuth := HalfPi;
        viewPolar := HalfPi;
      }
      if key == ArrowUp && (action == Repeat || action == Press) {
        TiltTo(viewPolar - OrbitStep, trig);
      }
      if key == ArrowDown && (action == Repeat || action == Press) {
        TiltTo(viewPolar + OrbitStep, trig);
      }
      if key == ArrowLeft && (action == Repeat || action == Press) {
        OrbitTo(viewAzimuth - OrbitStep, trig);
      }
      if key == ArrowRight && (action == Repeat || action == Press) {
        OrbitTo(viewAzimuth + OrbitStep, trig);
      }
      if key == KeyM && action == Press {
        NextAnaglyphMode();
      }
    }

    /** The ipd, scene and quit bindings of key_callback. COMMA, PERIOD, 1 and
        0 have no action filter. */
    method StereoAndSceneKeys(e: KeyEvent)
      modifies this`ipd, this`numBoxes, this`useSphereScene, this`shouldClose, this`boxTransforms, this`randDraws
      ensures !IsCameraKey(e.key) ==> Snapshot() == OnSceneKey(old(Snapshot()), e)
      ensures IsCameraKey(e.key) ==> Snapshot() == old(Snapshot())
      ensures Regenerates(e) ==> boxTransforms == SceneTransforms(numBoxes, old(randDraws))
                                 && randDraws == old(randDraws) + SceneDraws(numBoxes)
      ensures !Regenerates(e) ==> boxTransforms == old(boxTransforms) && randDraws == old(randDraws)
    {
      var key, action := e.key, e.action;
      if key == Comma {
        ipd := ipd - IpdStep;
        ipd := Max(ipd, 0.0);
      }
      if key == Period {
        ipd := ipd + IpdStep;
      }
      if key == Digit1 {
        numBoxes := 1;
        GenerateScene();
      }
      if key == Digit0 {
        numBoxes := 100;
        GenerateScene();
      }
      if key == Digit2 && action == Press {
        useSphereScene := !useSphereScene;
        if useSphereScene {
          GenerateScene();
        } else {
          GenerateScene();
        }
      }
      if key == Escape && action == Press {
        shouldClose := true;
      }
    }
  }
}

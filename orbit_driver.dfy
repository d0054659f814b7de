/**
 * The rotation driver of the skills sphere: auto-spin, pointer drag, momentum
 * after release and the cooldown timer that hands control back to auto-spin.
 *
 * `State` is the driver's whole state as a value and the `After...` functions
 * are its transitions; the class `SkillsOrbit` holds the same state in mutable
 * fields and its handlers are proved to perform exactly those transitions.
 * Numbers are JavaScript doubles in the source and reals here.
 */
module OrbitDriver {

  /** A pair of numbers: a rotation or a velocity in degrees, or a pointer position in pixels. */
  datatype Vec = Vec(x: real, y: real)

  /** Auto-spin rate, in degrees of Y rotation per millisecond. */
  const AutoSpinRate: real := 0.018
  /** Per-frame factor applied to the velocity while coasting. */
  const Decay: real := 0.95
  /** Coasting continues while some velocity component exceeds this. */
  const CoastThreshold: real := 0.01
  /** Degrees of rotation per pixel of pointer movement. */
  const Sensitivity: real := 0.45
  /** The cooldown resumes auto-spin only when both velocity components are below this. */
  const ResumeThreshold: real := 0.1

  function Abs(r: real): real
  {
    if r < 0.0 then -r else r
  }

  /**
   * The driver's state. `lastTime` is the previous frame's timestamp held by
   * the animation loop (0 when the loop has just started); `pendingCooldowns`
   * counts the cooldown timers scheduled and not yet fired.
   */
  datatype State = State(
    rotation: Vec,
    velocity: Vec,
    autoRotate: bool,
    dragging: bool,
    lastPointer: Vec,
    lastTime: real,
    pendingCooldowns: nat)

  /** At mount: tilted by -20 degrees about X, at rest, auto-spinning. */
  function Initial(): State
  {
    State(Vec(-20.0, 0.0), Vec(0.0, 0.0), true, false, Vec(0.0, 0.0), 0.0, 0)
  }

  /** Some velocity component is still large enough to keep coasting. */
  predicate Coasting(v: Vec)
  {
    Abs(v.x) > CoastThreshold || Abs(v.y) > CoastThreshold
  }

  /** One animation frame at timestamp `now`. */
  function AfterFrame(s: State, now: real): State
  {
    var start := if s.lastTime == 0.0 then now else s.lastTime;
    var dt := now - start;
    var s' := s.(lastTime := now);
    if s.autoRotate && !s.dragging then
      s'.(rotation := Vec(s.rotation.x, s.rotation.y + dt * AutoSpinRate))
    else if !s.dragging && Coasting(s.velocity) then
      s'.(rotation := Vec(s.rotation.x + s.velocity.x, s.rotation.y + s.velocity.y),
          velocity := Vec(s.velocity.x * Decay, s.velocity.y * Decay))
    else
      s'
  }

  /** The animation loop is restarted whenever the dragging flag changes; a restarted loop has no previous timestamp. */
  function LoopTime(s: State, dragging: bool): real
  {
    if s.dragging == dragging then s.lastTime else 0.0
  }

  /** Pointer down at (`px`, `py`). */
  function AfterStartDrag(s: State, px: real, py: real): State
  {
    s.(dragging := true, autoRotate := false, lastPointer := Vec(px, py),
       velocity := Vec(0.0, 0.0), lastTime := LoopTime(s, true))
  }

  /** Pointer moved to (`px`, `py`). */
  function AfterMoveDrag(s: State, px: real, py: real): State
  {
    if !s.dragging then s
    else
      var dx := px - s.lastPointer.x;
      var dy := py - s.lastPointer.y;
      s.(velocity := Vec(-dy * Sensitivity, dx * Sensitivity),
         rotation := Vec(s.rotation.x - dy * Sensitivity, s.rotation.y + dx * Sensitivity),
         lastPointer := Vec(px, py))
  }

  /** Pointer up or leaving the widget: stop dragging and schedule a cooldown check. */
  function AfterEndDrag(s: State): State
  {
    s.(dragging := false, pendingCooldowns := s.pendingCooldowns + 1, lastTime := LoopTime(s, false))
  }

  /** A scheduled cooldown check fires. */
  function AfterCooldown(s: State): State
    requires s.pendingCooldowns > 0
  {
    var slow := Abs(s.velocity.x) < ResumeThreshold && Abs(s.velocity.y) < ResumeThreshold;
    s.(pendingCooldowns := s.pendingCooldowns - 1, autoRotate := if slow then true else s.autoRotate)
  }

  // ---------------------------------------------------------------------------
  // The component, with the state held in mutable fields
  // ---------------------------------------------------------------------------

  class SkillsOrbit {
    var rotation: Vec
    var velocity: Vec
    var autoRotate: bool
    var isDragging: bool
    var lastMouse: Vec
    var lastTime: real
    var pendingCooldowns: nat

    function Snapshot(): State
      reads this
    {
      State(rotation, velocity, autoRotate, isDragging, lastMouse, lastTime, pendingCooldowns)
    }

    constructor ()
      ensures Snapshot() == Initial()
    {
      rotation := Vec(-20.0, 0.0);
      velocity := Vec(0.0, 0.0);
      autoRotate := true;
      isDragging := false;
      lastMouse := Vec(0.0, 0.0);
      lastTime := 0.0;
      pendingCooldowns := 0;
    }

    /** The animation-frame callback. */
    method Frame(currentTime: real)
      modifies this
      ensures Snapshot() == AfterFrame(old(Snapshot()), currentTime)
    {
      if lastTime == 0.0 {
        lastTime := currentTime;
      }
      var dt := currentTime - lastTime;
      lastTime := currentTime;

      if autoRotate && !isDragging {
        rotation := Vec(rotation.x, rotation.y + dt * AutoSpinRate);
      } else if !isDragging {
        var vx := velocity.x;
        var vy := velocity.y;
        if Abs(vx) > CoastThreshold || Abs(vy) > CoastThreshold {
          rotation := Vec(rotation.x + vx, rotation.y + vy);
          velocity := velocity.(x := velocity.x * Decay);
          velocity := velocity.(y := velocity.y * Decay);
        }
      }
    }

    method StartDrag(clientX: real, clientY: real)
      modifies this
      ensures Snapshot() == AfterStartDrag(old(Snapshot()), clientX, clientY)
    {
      if !isDragging {
        lastTime := 0.0;
      }
      isDragging := true;
      autoRotate := false;
      lastMouse := Vec(clientX, clientY);
      velocity := Vec(0.0, 0.0);
    }

    method MoveDrag(clientX: real, clientY: real)
      modifies this
      ensures Snapshot() == AfterMoveDrag(old(Snapshot()), clientX, clientY)
    {
      if !isDragging {
        return;
      }
      var dx := clientX - lastMouse.x;
      var dy := clientY - lastMouse.y;
      velocity := Vec(-dy * Sensitivity, dx * Sensitivity);
      rotation := Vec(rotation.x - dy * Sensitivity, rotation.y + dx * Sensitivity);
      lastMouse := Vec(clientX, clientY);
    }

    method EndDrag()
      modifies this
      ensures Snapshot() == AfterEndDrag(old(Snapshot()))
    {
      if isDragging {
        lastTime := 0.0;
      }
      isDragging := false;
      pendingCooldowns := pendingCooldowns + 1;
    }

    /** The callback of the timer that `EndDrag` schedules, run 1200 ms later. */
    method CooldownFired()
      requires pendingCooldowns > 0
      modifies this
      ensures Snapshot() == AfterCooldown(old(Snapshot()))
    {
      pendingCooldowns := pendingCooldowns - 1;
      if Abs(velocity.x) < ResumeThreshold && Abs(velocity.y) < ResumeThreshold {
        autoRotate := true;
      }
    }
  }

  // ---------------------------------------------------------------------------
  // Properties of single transitions
  // ---------------------------------------------------------------------------

  /** An auto-spin frame turns about Y by the elapsed time times the rate and leaves X alone. */
  lemma AutoSpinFrame(s: State, now: real)
    requires s.autoRotate && !s.dragging
    ensures var t := AfterFrame(s, now);
      && t.rotation.x == s.rotation.x
      && t.rotation.y == s.rotation.y + (if s.lastTime == 0.0 then 0.0 else now - s.lastTime) * AutoSpinRate
      && t.velocity == s.velocity && t.lastTime == now
  {
  }

  /** The first frame after the loop (re)starts measures no elapsed time and adds no spin. */
  lemma FirstFrameAddsNoSpin(s: State, now: real)
    requires s.lastTime == 0.0 && s.autoRotate && !s.dragging
    ensures AfterFrame(s, now) == s.(lastTime := now)
  {
  }

  /**
   * A frame without auto-spin and without dragging: while coasting the velocity
   * is added to the rotation and then shrinks by `Decay`; otherwise only the
   * frame's timestamp is recorded.
   */
  lemma MomentumFrame(s: State, now: real)
    requires !s.autoRotate && !s.dragging
    ensures var t := AfterFrame(s, now);
      && (Coasting(s.velocity) ==>
            && t.rotation == Vec(s.rotation.x + s.velocity.x, s.rotation.y + s.velocity.y)
            && t.velocity == Vec(Decay * s.velocity.x, Decay * s.velocity.y))
      && (!Coasting(s.velocity) ==> t == s.(lastTime := now))
      && t.autoRotate == s.autoRotate && t.dragging == s.dragging
  {
  }

  /** Coasting strictly shrinks every nonzero velocity component and never flips its sign. */
  lemma DecayShrinks(s: State, now: real)
    requires !s.autoRotate && !s.dragging && Coasting(s.velocity)
    ensures var v := AfterFrame(s, now).velocity;
      && (s.velocity.x != 0.0 ==> Abs(v.x) < Abs(s.velocity.x))
      && (s.velocity.y != 0.0 ==> Abs(v.y) < Abs(s.velocity.y))
      && (v.x < 0.0 <==> s.velocity.x < 0.0) && (v.y < 0.0 <==> s.velocity.y < 0.0)
  {
  }

  /** While dragging a frame changes nothing but the loop's timestamp. */
  lemma DraggingFrameHoldsRotation(s: State, now: real)
    requires s.dragging
    ensures AfterFrame(s, now) == s.(lastTime := now)
  {
  }

  /** Pressing the pointer: dragging, no auto-spin, at rest, anchored at the pointer, rotation kept. */
  lemma StartDragSpec(s: State, px: real, py: real)
    ensures var t := AfterStartDrag(s, px, py);
      && t.dragging && !t.autoRotate && t.velocity == Vec(0.0, 0.0)
      && t.lastPointer == Vec(px, py) && t.rotation == s.rotation
      && t.pendingCooldowns == s.pendingCooldowns
  {
  }

  /**
   * Moving the pointer changes nothing unless dragging; while dragging the
   * velocity becomes the pointer step times the sensitivity (vertical motion
   * tilts about X with opposite sign, horizontal motion turns about Y), the
   * rotation advances by that velocity and the pointer is recorded.
   */
  lemma MoveDragSpec(s: State, px: real, py: real)
    ensures var t := AfterMoveDrag(s, px, py);
      && (!s.dragging ==> t == s)
      && (s.dragging ==>
            && t.velocity == Vec(-(py - s.lastPointer.y) * Sensitivity, (px - s.lastPointer.x) * Sensitivity)
            && t.rotation == Vec(s.rotation.x + t.velocity.x, s.rotation.y + t.velocity.y)
            && t.lastPointer == Vec(px, py)
            && t.autoRotate == s.autoRotate && t.dragging
            && t.lastTime == s.lastTime && t.pendingCooldowns == s.pendingCooldowns)
  {
  }

  /**
   * Releasing the pointer, or the pointer leaving the widget: dragging stops,
   * one more cooldown check is pending, the loop restarts if a drag was in
   * progress, and rotation, velocity and auto-spin are kept, so momentum takes
   * over from the drag's last velocity.
   */
  lemma EndDragSpec(s: State)
    ensures var t := AfterEndDrag(s);
      && !t.dragging && t.pendingCooldowns == s.pendingCooldowns + 1
      && (s.dragging ==> t.lastTime == 0.0) && (!s.dragging ==> t.lastTime == s.lastTime)
      && t.rotation == s.rotation && t.velocity == s.velocity
      && t.autoRotate == s.autoRotate && t.lastPointer == s.lastPointer
  {
  }

  /** The cooldown turns auto-spin on exactly when both velocity components are below the threshold, and never off. */
  lemma CooldownSpec(s: State)
    requires s.pendingCooldowns > 0
    ensures var t := AfterCooldown(s);
      && (t.autoRotate <==> s.autoRotate || (Abs(s.velocity.x) < ResumeThreshold && Abs(s.velocity.y) < ResumeThreshold))
      && t == s.(pendingCooldowns := s.pendingCooldowns - 1, autoRotate := t.autoRotate)
  {
  }

  /** No transition but the cooldown check turns auto-spin on. */
  lemma OnlyCooldownResumesAutoSpin(s: State, now: real, px: real, py: real)
    requires !s.autoRotate
    ensures !AfterFrame(s, now).autoRotate
    ensures !AfterStartDrag(s, px, py).autoRotate
    ensures !AfterMoveDrag(s, px, py).autoRotate
    ensures !AfterEndDrag(s).autoRotate
  {
  }

  // ---------------------------------------------------------------------------
  // Properties of runs
  // ---------------------------------------------------------------------------

  function Last<T>(s: seq<T>): T
    requires |s| > 0
  {
    s[|s| - 1]
  }

  /** Animation frames at the timestamps `times`, in order, with no input event in between. */
  function Frames(s: State, times: seq<real>): State
    decreases |times|
  {
    if times == [] then s else Frames(AfterFrame(s, times[0]), times[1..])
  }

  /**
   * Auto-spin is time-based: over frames at positive timestamps the Y rotation
   * grows by the rate times the time from the loop's first timestamp to the
   * last frame, however many frames there were; X and the flags stay put.
   */
  lemma {:induction false} AutoSpinIsTimeBased(s: State, times: seq<real>)
    requires s.autoRotate && !s.dragging && |times| > 0
    requires forall i :: 0 <= i < |times| ==> times[i] > 0.0
    ensures var start := if s.lastTime == 0.0 then times[0] else s.lastTime;
      var t := Frames(s, times);
      && t.rotation == Vec(s.rotation.x, s.rotation.y + (Last(times) - start) * AutoSpinRate)
      && t.autoRotate && !t.dragging && t.velocity == s.velocity && t.lastTime == Last(times)
    decreases |times|
  {
    var s1 := AfterFrame(s, times[0]);
    if |times| > 1 {
      AutoSpinIsTimeBased(s1, times[1..]);
      assert Last(times[1..]) == Last(times);
    }
  }

  /** One second of auto-spin turns the sphere by 18 degrees about Y. */
  lemma {:induction false} OneSecondOfAutoSpin(s: State, times: seq<real>)
    requires s.autoRotate && !s.dragging && s.lastTime == 0.0 && |times| > 0
    requires forall i :: 0 <= i < |times| ==> times[i] > 0.0
    requires Last(times) == times[0] + 1000.0
    ensures Frames(s, times).rotation == Vec(s.rotation.x, s.rotation.y + 18.0)
  {
    AutoSpinIsTimeBased(s, times);
  }

  /** Once coasting has stopped, further frames change nothing but the timestamp. */
  lemma {:induction false} SettledStaysSettled(s: State, times: seq<real>)
    requires !s.autoRotate && !s.dragging && !Coasting(s.velocity)
    ensures var t := Frames(s, times);
      t.rotation == s.rotation && t.velocity == s.velocity && !t.autoRotate && !t.dragging
    decreases |times|
  {
    if times != [] {
      SettledStaysSettled(AfterFrame(s, times[0]), times[1..]);
    }
  }

  function Pow(b: real, n: nat): real
  {
    if n == 0 then 1.0 else b * Pow(b, n - 1)
  }

  /** Bernoulli's inequality for the decay factor: `Decay^n * (1 + n/19) <= 1`. */
  lemma {:induction false} DecayPowBound(n: nat)
    ensures 0.0 < Pow(Decay, n) <= 1.0
    ensures Pow(Decay, n) * (1.0 + n as real / 19.0) <= 1.0
  {
    if n > 0 {
      DecayPowBound(n - 1);
      var p := Pow(Decay, n - 1);
      var m := (n - 1) as real;
      assert Pow(Decay, n) == Decay * p;
      calc {
        Pow(Decay, n) * (1.0 + n as real / 19.0);
        Decay * p * (1.0 + m / 19.0) + Decay * p / 19.0;
        Decay * (p * (1.0 + m / 19.0)) + 0.05 * p;
      <= 0.95 + 0.05 * p;
      <= 1.0;
      }
    }
  }

  /** One frame's worth of velocity decay. */
  function Decayed(v: Vec): Vec
  {
    Vec(v.x * Decay, v.y * Decay)
  }

  /** The velocity after `n` frames of coasting from `v`: it shrinks by `Decay` per frame until coasting stops. */
  function Coast(v: Vec, n: nat): Vec
    decreases n
  {
    if n == 0 || !Coasting(v) then v else Coast(Decayed(v), n - 1)
  }

  /** Without auto-spin and without dragging, frames only coast. */
  lemma {:induction false} FramesCoast(s: State, times: seq<real>)
    requires !s.autoRotate && !s.dragging
    ensures var t := Frames(s, times);
      !t.autoRotate && !t.dragging && t.velocity == Coast(s.velocity, |times|)
    decreases |times|
  {
    if times != [] {
      FramesCoast(AfterFrame(s, times[0]), times[1..]);
    }
  }

  /** Either coasting has stopped or both velocity components are bounded by `b`. */
  predicate SettledOrWithin(v: Vec, b: real)
  {
    !Coasting(v) || (Abs(v.x) <= b && Abs(v.y) <= b)
  }

  /** `Decay^n * m`, unfolded the way coasting proceeds. */
  function DecayedBound(n: nat, m: real): real
  {
    if n == 0 then m else DecayedBound(n - 1, Decay * m)
  }

  /** Coasting from velocities bounded by `m` for `n` frames: stopped, or bounded by `Decay^n * m`. */
  lemma {:induction false} CoastBound(v: Vec, n: nat, m: real)
    requires Abs(v.x) <= m && Abs(v.y) <= m
    ensures SettledOrWithin(Coast(v, n), DecayedBound(n, m))
    decreases n
  {
    if n > 0 && Coasting(v) {
      var v1 := Decayed(v);
      assert Coast(v, n) == Coast(v1, n - 1);
      DecayedAbs(v.x, m);
      DecayedAbs(v.y, m);
      CoastBound(v1, n - 1, Decay * m);
    }
  }

  lemma {:induction false} DecayedBoundIsPow(n: nat, m: real)
    ensures DecayedBound(n, m) == Pow(Decay, n) * m
  {
    if n > 0 {
      DecayedBoundIsPow(n - 1, Decay * m);
      PowStep(n, m);
    }
  }

  lemma DecayedAbs(a: real, m: real)
    requires Abs(a) <= m
    ensures Abs(a * Decay) <= Decay * m
  {
    if a < 0.0 {
      assert Abs(a * Decay) == -a * 0.95;
    } else {
      assert Abs(a * Decay) == a * 0.95;
    }
  }

  lemma {:induction false} PowStep(n: nat, m: real)
    requires n > 0
    ensures Pow(Decay, n) * m == Pow(Decay, n - 1) * (Decay * m)
  {
    var p := Pow(Decay, n - 1);
    assert Pow(Decay, n) == 0.95 * p;
    assert 0.95 * p * m == p * (0.95 * m);
  }

  /** The number of frames after which coasting from velocity `v` has surely stopped. */
  function SettleFrames(v: Vec): nat
  {
    var m := if Abs(v.x) < Abs(v.y) then Abs(v.y) else Abs(v.x);
    19 * ((100.0 * m).Floor + 1) as nat
  }

  lemma ScaledBelow(p: real, m: real, q: real)
    requires p >= 0.0 && 100.0 * m <= q && p * q <= 1.0
    ensures p * m <= CoastThreshold
  {
    assert p * (100.0 * m) <= p * q;
  }

  /** `SettleFrames` frames of decay bring a bound `m` down to the coasting threshold. */
  lemma {:induction false} SettleBound(n: nat, m: real)
    requires m >= 0.0 && n >= 19 * ((100.0 * m).Floor + 1)
    ensures Pow(Decay, n) * m <= CoastThreshold
  {
    var q := 1.0 + n as real / 19.0;
    assert 100.0 * m <= q by {
      var k := (100.0 * m).Floor;
      assert 100.0 * m < k as real + 1.0;
      assert n as real >= 19.0 * (k as real + 1.0);
    }
    assert Pow(Decay, n) >= 0.0 && Pow(Decay, n) * q <= 1.0 by {
      DecayPowBound(n);
    }
    ScaledBelow(Pow(Decay, n), m, q);
  }

  /** Momentum dies out: after `SettleFrames(v)` frames or more, coasting has stopped, wherever it started. */
  lemma {:induction false} MomentumSettles(s: State, times: seq<real>)
    requires !s.autoRotate && !s.dragging
    requires |times| >= SettleFrames(s.velocity)
    ensures !Coasting(Frames(s, times).velocity)
  {
    var m := if Abs(s.velocity.x) < Abs(s.velocity.y) then Abs(s.velocity.y) else Abs(s.velocity.x);
    var n := |times|;
    FramesCoast(s, times);
    CoastBound(s.velocity, n, m);
    assert DecayedBound(n, m) <= CoastThreshold by {
      DecayedBoundIsPow(n, m);
      SettleBound(n, m);
    }
  }

  /** Pointer moves to the points of `path`, in order. */
  function Moves(s: State, path: seq<Vec>): State
    decreases |path|
  {
    if path == [] then s else Moves(AfterMoveDrag(s, path[0].x, path[0].y), path[1..])
  }

  /**
   * A drag follows the pointer: after any number of moves the rotation has
   * advanced by the sensitivity times the total pointer displacement, however
   * the pointer got there.
   */
  lemma {:induction false} DragFollowsPointer(s: State, path: seq<Vec>)
    requires s.dragging && |path| > 0
    ensures var t := Moves(s, path);
      && t.rotation == Vec(s.rotation.x - (Last(path).y - s.lastPointer.y) * Sensitivity,
                           s.rotation.y + (Last(path).x - s.lastPointer.x) * Sensitivity)
      && t.lastPointer == Last(path) && t.dragging && t.autoRotate == s.autoRotate
    decreases |path|
  {
    var s1 := AfterMoveDrag(s, path[0].x, path[0].y);
    if |path| > 1 {
      DragFollowsPointer(s1, path[1..]);
      assert Last(path[1..]) == Last(path);
    }
  }

  /**
   * A cooldown scheduled by an earlier release is not cancelled by a new
   * press: if it fires before the pointer moves, it turns auto-spin back on in
   * the middle of the new drag, and the spin resumes the moment the pointer is
   * released, whatever velocity the drag left.
   */
  lemma StaleCooldownResumesDuringDrag(s: State, px: real, py: real, qx: real, qy: real, now: real)
    requires s.dragging
    ensures var released := AfterEndDrag(s);
      var pressed := AfterStartDrag(released, px, py);
      var fired := AfterCooldown(pressed);
      var moved := AfterMoveDrag(fired, qx, qy);
      && fired.autoRotate && fired.dragging
      && AfterEndDrag(moved).autoRotate && !AfterEndDrag(moved).dragging && AfterEndDrag(moved).lastTime == 0.0
      && AfterFrame(AfterEndDrag(moved), now).rotation.x == moved.rotation.x
  {
  }

  /** Frames never fire or schedule a cooldown check. */
  lemma {:induction false} FramesKeepTimers(s: State, times: seq<real>)
    ensures Frames(s, times).pendingCooldowns == s.pendingCooldowns
    decreases |times|
  {
    if times != [] {
      FramesKeepTimers(AfterFrame(s, times[0]), times[1..]);
    }
  }

  /**
   * A check that found the sphere still too fast is not the end: any later
   * release, including the pointer merely leaving the widget or a click, schedules
   * another check, and if that one fires once coasting has stopped it turns
   * auto-spin back on.
   */
  lemma LaterReleaseResumesAutoSpin(s: State, times: seq<real>)
    requires !s.autoRotate && !s.dragging
    requires |times| >= SettleFrames(s.velocity)
    ensures var t := Frames(AfterEndDrag(s), times);
      t.pendingCooldowns > 0 && AfterCooldown(t).autoRotate
  {
    var released := AfterEndDrag(s);
    FramesKeepTimers(released, times);
    MomentumSettles(released, times);
  }
}

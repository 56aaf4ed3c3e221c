/**
 * The free-fly camera's discrete input logic: key axes built from two
 * pressed flags, the controller that feeds keyboard and wheel events to its
 * five axes, and the rule that decides whether the eye moves.
 */
module Camera {
  import opened Gpu
  import opened Winit

  /** The camera state the uniform buffer is computed from (direction and up are not modelled). */
  datatype CameraState = CameraState(eye: Vec3, near: real, far: real, aspect: real)

  class Camera {
    var eye: Vec3
    var near: real
    var far: real
    var aspect: real

    /** `Camera::new`. */
    constructor (aspect: real)
      ensures eye == Vec3(0.0, 0.0, 1.0) && near == 0.1 && far == 40000.0 && this.aspect == aspect
    {
      eye := Vec3(0.0, 0.0, 1.0);
      near := 0.1;
      far := 40000.0;
      this.aspect := aspect;
    }

    function State(): CameraState
      reads this
    {
      CameraState(eye, near, far, aspect)
    }
  }

  /** The two pressed flags of an axis. */
  datatype Flags = Flags(negative: bool, positive: bool)

  /**
   * `Axis::process` on the flags: the positive button is tested first, so a
   * key bound to both directions only ever drives the positive flag; any other
   * key changes nothing.
   */
  function Step(f: Flags, negativeButton: KeyCode, positiveButton: KeyCode, e: KeyEvent): (r: Flags)
    ensures e.IsKey(positiveButton) ==> r.positive == e.IsPressed() && r.negative == f.negative
    ensures r.negative != f.negative ==> e.IsKey(negativeButton) && !e.IsKey(positiveButton)
    ensures r.positive != f.positive ==> e.IsKey(positiveButton)
    ensures e.IsKey(negativeButton) && !e.IsKey(positiveButton) ==> r.negative == e.IsPressed()
  {
    if e.IsKey(positiveButton) then f.(positive := e.IsPressed())
    else if e.IsKey(negativeButton) then f.(negative := e.IsPressed())
    else f
  }

  /** Processing the same key event twice is processing it once. */
  lemma StepIdempotent(f: Flags, negativeButton: KeyCode, positiveButton: KeyCode, e: KeyEvent)
    ensures Step(Step(f, negativeButton, positiveButton, e), negativeButton, positiveButton, e)
         == Step(f, negativeButton, positiveButton, e)
  {
  }

  /** An event for a key bound to neither direction leaves both flags alone. */
  lemma StepOtherKey(f: Flags, negativeButton: KeyCode, positiveButton: KeyCode, e: KeyEvent)
    requires !e.IsKey(negativeButton) && !e.IsKey(positiveButton)
    ensures Step(f, negativeButton, positiveButton, e) == f
  {
  }

  /** With the same key on both sides the negative flag can never change. */
  lemma {:induction false} StepSameButton(f: Flags, button: KeyCode, events: seq<KeyEvent>)
    ensures StepAll(f, button, button, events).negative == f.negative
    decreases |events|
  {
    if events != [] {
      StepSameButton(Step(f, button, button, events[0]), button, events[1..]);
    }
  }

  function StepAll(f: Flags, negativeButton: KeyCode, positiveButton: KeyCode, events: seq<KeyEvent>): Flags
    decreases |events|
  {
    if events == [] then f
    else StepAll(Step(f, negativeButton, positiveButton, events[0]), negativeButton, positiveButton, events[1..])
  }

  /** `Axis`: two keys and whether each is held. */
  class Axis {
    const negativeButton: KeyCode
    const positiveButton: KeyCode
    var negativePressed: bool
    var positivePressed: bool

    /** `Axis::new`: nothing held, so the axis reads 0. */
    constructor (negativeButton: KeyCode, positiveButton: KeyCode)
      ensures this.negativeButton == negativeButton && this.positiveButton == positiveButton
      ensures !negativePressed && !positivePressed
      ensures Get() == 0
    {
      this.negativeButton := negativeButton;
      this.positiveButton := positiveButton;
      negativePressed := false;
      positivePressed := false;
    }

    function Pressed(): Flags
      reads this
    {
      Flags(negativePressed, positivePressed)
    }

    /** The flags after this axis processes `e`. */
    function Next(e: KeyEvent): Flags
      reads this
    {
      Step(Pressed(), negativeButton, positiveButton, e)
    }

    /** `Axis::process`. */
    method Process(e: KeyEvent)
      modifies this
      ensures Pressed() == old(Next(e))
    {
      if e.IsKey(positiveButton) {
        positivePressed := e.IsPressed();
      } else if e.IsKey(negativeButton) {
        negativePressed := e.IsPressed();
      }
    }

    /** `Axis::get`: -1, 0 or 1; 0 exactly when both or neither key is held. */
    function Get(): (r: int)
      reads this
      ensures -1 <= r <= 1
      ensures r == 0 <==> negativePressed == positivePressed
      ensures r == 1 <==> positivePressed && !negativePressed
      ensures r == -1 <==> negativePressed && !positivePressed
    {
      (if negativePressed then -1 else 0) + (if positivePressed then 1 else 0)
    }
  }

  class CameraController {
    var speed: real
    const sensitivity: real
    var cameraMotion: (real, real)
    const horizontal: Axis
    const vertical: Axis
    const qeAxis: Axis
    const updownAxis: Axis
    const arrowkeyAxis: Axis

    /** The five axes are five distinct objects. */
    ghost predicate Valid() {
      && horizontal != vertical && horizontal != qeAxis && horizontal != updownAxis && horizontal != arrowkeyAxis
      && vertical != qeAxis && vertical != updownAxis && vertical != arrowkeyAxis
      && qeAxis != updownAxis && qeAxis != arrowkeyAxis
      && updownAxis != arrowkeyAxis
    }

    /** `CameraController::new`: no motion, nothing held, the five key bindings. */
    constructor (speed: real, sensitivity: real)
      ensures Valid()
      ensures this.speed == speed && this.sensitivity == sensitivity && cameraMotion == (0.0, 0.0)
      ensures fresh(horizontal) && fresh(vertical) && fresh(qeAxis) && fresh(updownAxis) && fresh(arrowkeyAxis)
      ensures horizontal.negativeButton == KeyA && horizontal.positiveButton == KeyD
      ensures vertical.negativeButton == KeyW && vertical.positiveButton == KeyS
      ensures qeAxis.negativeButton == KeyQ && qeAxis.positiveButton == KeyE
      ensures updownAxis.negativeButton == ShiftLeft && updownAxis.positiveButton == Space
      ensures arrowkeyAxis.negativeButton == ArrowDown && arrowkeyAxis.positiveButton == ArrowUp
      ensures horizontal.Pressed() == vertical.Pressed() == qeAxis.Pressed() == Flags(false, false)
      ensures updownAxis.Pressed() == arrowkeyAxis.Pressed() == Flags(false, false)
    {
      this.speed := speed;
      this.sensitivity := sensitivity;
      cameraMotion := (0.0, 0.0);
      horizontal := new Axis(KeyA, KeyD);
      vertical := new Axis(KeyW, KeyS);
      qeAxis := new Axis(KeyQ, KeyE);
      updownAxis := new Axis(ShiftLeft, Space);
      arrowkeyAxis := new Axis(ArrowDown, ArrowUp);
    }

    /**
     * What `process_window_events` does: a key event goes to all five axes,
     * then the speed is scaled by 1 + 0.2 * (arrow axis); a line-wheel event
     * scales the speed by 1 + 0.1 * lines; nothing else changes anything.
     */
    twostate predicate Processed(event: WindowEvent)
      reads this, horizontal, vertical, qeAxis, updownAxis, arrowkeyAxis
    {
      && cameraMotion == old(cameraMotion)
      && match event
         case KeyboardInput(e) =>
           && horizontal.Pressed() == old(horizontal.Next(e))
           && vertical.Pressed() == old(vertical.Next(e))
           && qeAxis.Pressed() == old(qeAxis.Next(e))
           && updownAxis.Pressed() == old(updownAxis.Next(e))
           && arrowkeyAxis.Pressed() == old(arrowkeyAxis.Next(e))
           && speed == old(speed) * (1.0 + (arrowkeyAxis.Get() as real) * 0.2)
         case MouseWheel(delta) =>
           && AxesUnchanged()
           && speed == (if delta.LineDelta? then old(speed) * (1.0 + delta.lines * 0.1) else old(speed))
         case _ =>
           && AxesUnchanged()
           && speed == old(speed)
    }

    twostate predicate AxesUnchanged()
      reads horizontal, vertical, qeAxis, updownAxis, arrowkeyAxis
    {
      && horizontal.Pressed() == old(horizontal.Pressed())
      && vertical.Pressed() == old(vertical.Pressed())
      && qeAxis.Pressed() == old(qeAxis.Pressed())
      && updownAxis.Pressed() == old(updownAxis.Pressed())
      && arrowkeyAxis.Pressed() == old(arrowkeyAxis.Pressed())
    }

    /** `CameraController::process_window_events`. */
    method ProcessWindowEvent(event: WindowEvent)
      requires Valid()
      modifies this, horizontal, vertical, qeAxis, updownAxis, arrowkeyAxis
      ensures Processed(event)
    {
      match event {
        case KeyboardInput(e) =>
          horizontal.Process(e);
          vertical.Process(e);
          qeAxis.Process(e);
          updownAxis.Process(e);
          arrowkeyAxis.Process(e);
          speed := speed * (1.0 + (arrowkeyAxis.Get() as real) * 0.2);
        case MouseWheel(delta) =>
          if delta.LineDelta? {
            speed := speed * (1.0 + delta.lines * 0.1);
          }
        case _ =>
      }
    }

    /** The condition under which `update` moves the eye; the Q/E axis plays no part. */
    predicate Moves()
      reads horizontal, vertical, updownAxis
    {
      horizontal.Get() != 0 || vertical.Get() != 0 || updownAxis.Get() != 0
    }

    /**
     * `CameraController::update`, for the eye: the eye moves by `movement`
     * (the normalised, speed- and delta-scaled direction, whose float
     * computation is not modelled) exactly when one of the three movement axes
     * is non-zero.
     */
    method Update(camera: Camera, movement: Vec3)
      modifies camera
      ensures camera.eye == if Moves() then old(camera.eye).Add(movement) else old(camera.eye)
      ensures camera.near == old(camera.near) && camera.far == old(camera.far) && camera.aspect == old(camera.aspect)
    {
      if horizontal.Get() != 0 || vertical.Get() != 0 || updownAxis.Get() != 0 {
        camera.eye := camera.eye.Add(movement);
      }
    }
  }

  /**
   * The eye stays put exactly when each of the three movement axes has both or
   * neither of its keys held; the Q/E axis is not consulted.
   */
  lemma StillIffBalanced(c: CameraController)
    ensures !c.Moves() <==>
      && c.horizontal.negativePressed == c.horizontal.positivePressed
      && c.vertical.negativePressed == c.vertical.positivePressed
      && c.updownAxis.negativePressed == c.updownAxis.positivePressed
  {
  }
}

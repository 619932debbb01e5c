/**
  * The vocabulary the two screen-mirroring front ends share: positions
  * and rectangles of the page, lodash's clamp, the scrcpy control messages
  * they send and the browser events they translate into them.
  *
  * Only the message fields the front ends fill in are modelled; how the
  * scrcpy library serialises them is not.
  */
module ScrcpyControl {
  import opened Util

  datatype Point = Point(x: real, y: real)

  /** What getBoundingClientRect reports. */
  datatype Rect = Rect(x: real, y: real, width: real, height: real)

  /** A rectangle that has an area, so that a position can be divided by
      its size. */
  predicate Proper(r: Rect)
  {
    r.width > 0.0 && r.height > 0.0
  }

  /** lodash `clamp(v, lo, hi)`: first capped at hi, then raised to lo, so
      lo wins when the bounds cross. */
  function Clamp(v: real, lo: real, hi: real): (r: real)
    ensures r >= lo
    ensures lo <= hi ==> r <= hi
    ensures lo <= v <= hi ==> r == v
    ensures v < lo ==> r == lo
    ensures lo <= hi < v ==> r == hi
  {
    var capped := if v <= hi then v else hi;
    if capped >= lo then capped else lo
  }

  /** The fraction of a rectangle's extent at which a client coordinate
      lies, clamped to [0, 1]. */
  function ViewFraction(client: real, origin: real, extent: real): (r: real)
    requires extent > 0.0
    ensures 0.0 <= r <= 1.0
  {
    Clamp((client - origin) / extent, 0.0, 1.0)
  }

  /** In the unit square. */
  predicate InUnitSquare(p: Point)
  {
    0.0 <= p.x <= 1.0 && 0.0 <= p.y <= 1.0
  }

  // ---------------------------------------------------------------------
  // Control messages

  /** AndroidMotionEventAction, the values the front ends use. */
  datatype MotionAction = Down | Up | Move | HoverMove | HoverExit

  /** AndroidMotionEventButton. */
  datatype MotionButton = Primary | Tertiary | Secondary | Back | Forward

  /** MOUSE_EVENT_BUTTON_TO_ANDROID_BUTTON, indexed by MouseEvent.button. */
  const MouseButtons: seq<MotionButton> := [Primary, Tertiary, Secondary, Back, Forward]

  /** `MOUSE_EVENT_BUTTON_TO_ANDROID_BUTTON[button]`: undefined (None)
      outside the table. */
  function MouseButton(button: int): (r: Option<MotionButton>)
    ensures r.Some? <==> 0 <= button < 5
  {
    if 0 <= button < |MouseButtons| then Some(MouseButtons[button]) else None
  }

  /** ScrcpyPointerId.Finger, or a numeric pointer id. */
  datatype PointerId = Finger | Id(n: int)

  datatype KeyAction = KeyDown | KeyUp

  /** The metaState of a key message: 0, or AndroidKeyEventMeta.NumLockOn. */
  datatype Meta = NoMeta | NumLockOn

  datatype TouchMessage = TouchMessage(action: MotionAction, pointerId: PointerId,
                                       videoWidth: int, videoHeight: int,
                                       pointerX: real, pointerY: real, pressure: real,
                                       actionButton: Option<MotionButton>, buttons: int)

  datatype KeyMessage = KeyMessage(action: KeyAction, keyCode: int, repeat: int, metaState: Meta)

  /** What a front end has sent to the device, in order. */
  datatype Message = Touch(touch: TouchMessage) | Key(key: KeyMessage)

  /** Which scrcpy client a front end holds: none yet, one without a
      controller, or a connected one. */
  datatype ClientState = NoClient | NoController | Connected

  /** The fields of a PointerEvent the front ends read. */
  datatype PointerEvent = PointerEvent(clientX: real, clientY: real, buttons: int, button: int,
                                       pointerType: string, pointerId: int, pressure: real)

  /** The fields of a KeyboardEvent the front ends read; `kind` is its
      `type`. */
  datatype KeyEvent = KeyEvent(kind: string, code: string, repeat: bool, defaultPrevented: bool)

  /** The scrcpy library's `AndroidKeyCode[code]` table: the Android key
      code for a KeyboardEvent.code, undefined (None) when there is none. */
  type KeyTable = string -> Option<int>

  /** A key code that passes `if (keyCode)`: present and not 0. */
  predicate IsKeyCode(k: Option<int>)
  {
    k.Some? && k.value != 0
  }

  /** The key messages of a list, wrapped as messages. */
  function Keys(keys: seq<KeyMessage>): (r: seq<Message>)
    ensures |r| == |keys|
    ensures forall i :: 0 <= i < |keys| ==> r[i] == Key(keys[i])
  {
    if keys == [] then [] else [Key(keys[0])] + Keys(keys[1..])
  }

  /** The touch messages of a list, wrapped as messages. */
  function Touches(touches: seq<TouchMessage>): (r: seq<Message>)
    ensures |r| == |touches|
    ensures forall i :: 0 <= i < |touches| ==> r[i] == Touch(touches[i])
  {
    if touches == [] then [] else [Touch(touches[0])] + Touches(touches[1..])
  }

  /** Wrapping one more touch message of a list adds one message. */
  lemma TouchesSnoc(touches: seq<TouchMessage>, i: nat)
    requires i < |touches|
    ensures Touches(touches[..i + 1]) == Touches(touches[..i]) + [Touch(touches[i])]
  {
  }
}

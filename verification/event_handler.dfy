/**
  * The reusable screen-mirroring controller (src/utils/eventHandler.js):
  * the same mapping from page to video as the mirroring page, written
  * against the render container only, with a hover helper between the
  * pointer events and the touch messages, and keys sent with NumLock on.
  *
  * The hover helper belongs to the scrcpy library: what it turns one touch
  * request into is an oracle here. The rectangle of the render container
  * is measured when an event comes in and is a parameter.
  */
module EventHandler {
  import opened Util
  import opened ScrcpyControl
  import ScrcpyLogic

  /** The controller object and the state it reads. */
  class ScrcpyController {
    const client: ClientState
    /** What `ScrcpyHoverHelper.process` returns for a touch request. */
    const hover: TouchMessage -> seq<TouchMessage>
    /** The values of the screen-size references; they are taken to stay
        put while the controller lives. */
    const width: nat
    const height: nat
    const rotation: int
    /** Every message sent to the device, in order. */
    var injected: seq<Message>

    /** The constructor, given the client, the hover helper and the
        screen size it reads from the shared store. */
    constructor(client: ClientState, hover: TouchMessage -> seq<TouchMessage>, width: nat, height: nat, rotation: int)
      ensures this.client == client && this.hover == hover
      ensures this.width == width && this.height == height && this.rotation == rotation
      ensures injected == []
    {
      this.client := client;
      this.hover := hover;
      this.width := width;
      this.height := height;
      this.rotation := rotation;
      injected := [];
    }

    /** adjustPositionForRotation, as this class writes it: swap the
        coordinates for a quarter turn, then flip one of them. */
    function AdjustPositionForRotation(pointerViewX: real, pointerViewY: real): (p: Point)
      ensures InUnitSquare(Point(pointerViewX, pointerViewY)) ==> InUnitSquare(p)
    {
      if rotation == 1 then
        var (adjustedX, adjustedY) := (pointerViewY, pointerViewX);
        Point(adjustedX, 1.0 - adjustedY)
      else if rotation == 2 then Point(1.0 - pointerViewX, 1.0 - pointerViewY)
      else if rotation == 3 then
        var (adjustedX, adjustedY) := (pointerViewY, pointerViewX);
        Point(1.0 - adjustedX, adjustedY)
      else Point(pointerViewX, pointerViewY)
    }

    /** clientPositionToDevicePosition: (0, 0) without a container, else
        the clamped fraction of the container, rotated, times the screen
        size. */
    function ClientPositionToDevicePosition(container: Option<Rect>, clientX: real, clientY: real): (p: Point)
      requires container.Some? ==> Proper(container.value)
      ensures container.None? ==> p == Point(0.0, 0.0)
    {
      match container
      case None => Point(0.0, 0.0)
      case Some(viewRect) =>
        var pointerViewX := Clamp((clientX - viewRect.x) / viewRect.width, 0.0, 1.0);
        var pointerViewY := Clamp((clientY - viewRect.y) / viewRect.height, 0.0, 1.0);
        var adjustedPosition := AdjustPositionForRotation(pointerViewX, pointerViewY);
        ScrcpyLogic.ScaleToVideo(adjustedPosition, width, height)
    }

    /** Both front ends turn positions the same way. */
    lemma AdjustAgrees(x: real, y: real)
      ensures AdjustPositionForRotation(x, y) == ScrcpyLogic.AdjustPositionForRotation(x, y, rotation)
    {
    }

    /** And map them the same way as the page does when it has no canvas,
        so a position lands inside the screen. */
    lemma {:induction false} PositionAgrees(container: Option<Rect>, clientX: real, clientY: real)
      requires container.Some? ==> Proper(container.value)
      ensures ClientPositionToDevicePosition(container, clientX, clientY)
              == ScrcpyLogic.ClientPositionToDevicePosition(None, container, clientX, clientY, rotation, width, height)
      ensures var p := ClientPositionToDevicePosition(container, clientX, clientY);
              0.0 <= p.x <= width as real && 0.0 <= p.y <= height as real
    {
      if container.Some? {
        var viewRect := container.value;
        var fx := ViewFraction(clientX, viewRect.x, viewRect.width);
        var fy := ViewFraction(clientY, viewRect.y, viewRect.height);
        AdjustAgrees(fx, fy);
        ScrcpyLogic.ContainerPositionInVideo(viewRect, clientX, clientY, rotation, width, height);
      }
    }

    /** The touch request injectTouch hands the hover helper. */
    function TouchRequest(action: MotionAction, event: PointerEvent, container: Option<Rect>): (t: TouchMessage)
      requires container.Some? ==> Proper(container.value)
      ensures t.action == action && t.pressure == event.pressure && t.buttons == event.buttons
      ensures t.pointerId == Finger <==> event.pointerType == "mouse"
      ensures t.pointerId != Finger ==> t.pointerId == Id(event.pointerId)
      ensures t.actionButton == MouseButton(event.button)
      ensures t.videoWidth == width && t.videoHeight == height
    {
      var pointerId := if event.pointerType == "mouse" then Finger else Id(event.pointerId);
      var p := ClientPositionToDevicePosition(container, event.clientX, event.clientY);
      TouchMessage(action, pointerId, width, height, p.x, p.y, event.pressure, MouseButton(event.button), event.buttons)
    }

    /** What sending a list of touch messages adds to what the device has
        received: all of them with a connected controller, nothing
        otherwise (the first send throws). */
    function Sent(messages: seq<TouchMessage>): seq<Message>
    {
      if client == Connected then Touches(messages) else []
    }

    /** injectTouch: every message the hover helper makes of the request,
        sent in order; the first send throws when there is no connected
        controller. */
    method InjectTouch(action: MotionAction, event: PointerEvent, container: Option<Rect>) returns (threw: bool)
      requires container.Some? ==> Proper(container.value)
      modifies this
      ensures var messages := hover(TouchRequest(action, event, container));
              && threw == (client != Connected && |messages| > 0)
              && injected == old(injected) + Sent(messages)
    {
      var request := TouchRequest(action, event, container);
      var messages := hover(request);
      for i := 0 to |messages|
        invariant injected == old(injected) + Touches(messages[..i])
        invariant i > 0 ==> client == Connected
      {
        if client != Connected {
          return true;
        }
        injected := injected + [Touch(messages[i])];
        TouchesSnoc(messages, i);
      }
      assert messages[..|messages|] == messages;
      return false;
    }

    /** handlePointerDown. */
    method HandlePointerDown(event: PointerEvent, container: Option<Rect>) returns (threw: bool)
      requires container.Some? ==> Proper(container.value)
      modifies this
      ensures var messages := hover(TouchRequest(Down, event, container));
              && threw == (client != Connected && |messages| > 0)
              && injected == old(injected) + Sent(messages)
    {
      threw := InjectTouch(Down, event, container);
    }

    /** handlePointerMove: a hover without buttons, a move with them. */
    method HandlePointerMove(event: PointerEvent, container: Option<Rect>) returns (threw: bool)
      requires container.Some? ==> Proper(container.value)
      modifies this
      ensures var messages := hover(TouchRequest(ScrcpyLogic.MoveAction(event.buttons), event, container));
              && threw == (client != Connected && |messages| > 0)
              && injected == old(injected) + Sent(messages)
    {
      var action := if event.buttons == 0 then HoverMove else Move;
      threw := InjectTouch(action, event, container);
    }

    /** handlePointerUp. */
    method HandlePointerUp(event: PointerEvent, container: Option<Rect>) returns (threw: bool)
      requires container.Some? ==> Proper(container.value)
      modifies this
      ensures var messages := hover(TouchRequest(Up, event, container));
              && threw == (client != Connected && |messages| > 0)
              && injected == old(injected) + Sent(messages)
    {
      threw := InjectTouch(Up, event, container);
    }

    /** handlePointerLeave: a hover exit and then a lift, whatever the
        buttons; the lift is not attempted when the exit throws. */
    method HandlePointerLeave(event: PointerEvent, container: Option<Rect>) returns (threw: bool)
      requires container.Some? ==> Proper(container.value)
      modifies this
      ensures var exit := hover(TouchRequest(HoverExit, event, container));
              var up := hover(TouchRequest(Up, event, container));
              && threw == (client != Connected && |exit| + |up| > 0)
              && injected == old(injected) + Sent(exit) + Sent(up)
    {
      threw := InjectTouch(HoverExit, event, container);
      if threw {
        return;
      }
      threw := InjectTouch(Up, event, container);
    }

    /** handleKeyCode: one key message, with NumLock on and no repeat, for
        a key that has an Android code; it throws when that message cannot
        be sent. */
    method HandleKeyCode(event: KeyEvent, table: KeyTable) returns (threw: bool)
      modifies this
      ensures threw == (IsKeyCode(table(event.code)) && client != Connected)
      ensures injected == old(injected) + (if client == Connected then Keys(KeyMessagesFor(event, table)) else [])
    {
      var keyCode := table(event.code);
      if IsKeyCode(keyCode) {
        if client != Connected {
          return true;
        }
        var action := if event.kind == "keydown" then KeyDown else KeyUp;
        injected := injected + [Key(KeyMessage(action, keyCode.value, 0, NumLockOn))];
      }
      return false;
    }
  }

  /** The key messages handleKeyCode sends for an event. */
  function KeyMessagesFor(event: KeyEvent, table: KeyTable): (r: seq<KeyMessage>)
    ensures |r| <= 1
    ensures r != [] <==> IsKeyCode(table(event.code))
    ensures r != [] ==> r[0].keyCode == table(event.code).value && r[0].repeat == 0 && r[0].metaState == NumLockOn
                        && (r[0].action == KeyDown <==> event.kind == "keydown")
  {
    var keyCode := table(event.code);
    if IsKeyCode(keyCode) then
      [KeyMessage(if event.kind == "keydown" then KeyDown else KeyUp, keyCode.value, 0, NumLockOn)]
    else []
  }

  /** The controller and the page send the same key for a keyboard event,
      except that the controller never repeats and always reports NumLock
      on. */
  lemma {:induction false} KeysMatchPage(event: KeyEvent, table: KeyTable)
    requires IsKeyCode(table(event.code)) && !event.defaultPrevented
    ensures var page := ScrcpyLogic.KeyMessages(Some(event), None, table).value;
            var mine := KeyMessagesFor(event, table);
            |page| == |mine| == 1
            && page[0] == mine[0].(repeat := page[0].repeat, metaState := NoMeta)
  {
    ScrcpyLogic.PhysicalKey(event, table);
  }
}

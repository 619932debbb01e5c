/**
  * The screen-mirroring page's input logic (src/pages/scrcpyShow/ScrcpyLogic.js):
  * the video size and orientation it keeps, the mapping from a pointer
  * position on the page to a position in the device's video, and the
  * touch and key messages it sends for pointer and keyboard events.
  *
  * The page's closure variables become the fields of a session object.
  * What the DOM reports (the canvas and container rectangles) and the
  * window height are read when needed and are parameters here; the video
  * decoder, the scrcpy client start-up and the rendering are not modelled.
  */
module ScrcpyLogic {
  import opened Util
  import opened ScrcpyControl

  /** adjustPositionForRotation: a position in the unit square of the view
      turned into one in the unit square of the video, for the video rotated
      by 90 (1), 180 (2) or 270 (3) degrees; any other value leaves the
      position alone. */
  function AdjustPositionForRotation(x: real, y: real, rotation: int): (p: Point)
    ensures InUnitSquare(Point(x, y)) ==> InUnitSquare(p)
    ensures rotation !in {1, 2, 3} ==> p == Point(x, y)
  {
    if rotation == 1 then Point(y, 1.0 - x)
    else if rotation == 2 then Point(1.0 - x, 1.0 - y)
    else if rotation == 3 then Point(1.0 - y, x)
    else Point(x, y)
  }

  /** A quarter turn one way is undone by a quarter turn the other way, and
      a half turn undoes itself. */
  lemma RotationsUndo(x: real, y: real)
    ensures var p := AdjustPositionForRotation(x, y, 1); AdjustPositionForRotation(p.x, p.y, 3) == Point(x, y)
    ensures var p := AdjustPositionForRotation(x, y, 3); AdjustPositionForRotation(p.x, p.y, 1) == Point(x, y)
    ensures var p := AdjustPositionForRotation(x, y, 2); AdjustPositionForRotation(p.x, p.y, 2) == Point(x, y)
  {
  }

  /** Two quarter turns make a half turn. */
  lemma QuarterTurnsCompose(x: real, y: real)
    ensures var p := AdjustPositionForRotation(x, y, 1); AdjustPositionForRotation(p.x, p.y, 1) == AdjustPositionForRotation(x, y, 2)
  {
  }

  /** A fraction of the unit interval times a non-negative length stays
      within the length. */
  lemma ScaleWithin(a: real, n: real)
    requires 0.0 <= a <= 1.0 && n >= 0.0
    ensures 0.0 <= a * n <= n
  {
    assert a * n <= 1.0 * n;
  }

  /** clientPositionToDevicePosition. With the decoder's canvas: the
      clamped fraction of the canvas, rotated, times the video size, clamped
      to the last pixel. Without it, the same on the render container but
      without the last clamp, and (0, 0) when there is no container either. */
  function ClientPositionToDevicePosition(canvas: Option<Rect>, container: Option<Rect>, clientX: real, clientY: real,
                                          rotation: int, width: int, height: int): (p: Point)
    requires canvas.Some? ==> Proper(canvas.value)
    requires canvas.None? && container.Some? ==> Proper(container.value)
    ensures canvas.None? && container.None? ==> p == Point(0.0, 0.0)
    ensures canvas.Some? ==> 0.0 <= p.x && 0.0 <= p.y
    ensures canvas.Some? && width >= 1 && height >= 1 ==> p.x <= (width - 1) as real && p.y <= (height - 1) as real
  {
    match canvas
    case None =>
      (match container
       case None => Point(0.0, 0.0)
       case Some(viewRect) =>
         var pointerViewX := ViewFraction(clientX, viewRect.x, viewRect.width);
         var pointerViewY := ViewFraction(clientY, viewRect.y, viewRect.height);
         var adjusted := AdjustPositionForRotation(pointerViewX, pointerViewY, rotation);
         ScaleToVideo(adjusted, width, height))
    case Some(canvasRect) =>
      var pointerViewX := ViewFraction(clientX, canvasRect.x, canvasRect.width);
      var pointerViewY := ViewFraction(clientY, canvasRect.y, canvasRect.height);
      var adjusted := AdjustPositionForRotation(pointerViewX, pointerViewY, rotation);
      Point(Clamp(adjusted.x * width as real, 0.0, (width - 1) as real),
            Clamp(adjusted.y * height as real, 0.0, (height - 1) as real))
  }

  /** A position in the unit square stretched to the video's size. */
  function ScaleToVideo(q: Point, width: int, height: int): Point
  {
    Point(q.x * width as real, q.y * height as real)
  }

  /** A point of the unit square scaled to a video stays within it. */
  lemma ScaledInVideo(q: Point, width: nat, height: nat)
    requires InUnitSquare(q)
    ensures var p := ScaleToVideo(q, width, height);
            0.0 <= p.x <= width as real && 0.0 <= p.y <= height as real
  {
    var p := ScaleToVideo(q, width, height);
    assert 0.0 <= p.x <= width as real by { ScaleWithin(q.x, width as real); }
    assert 0.0 <= p.y <= height as real by { ScaleWithin(q.y, height as real); }
  }

  /** Without the canvas the render container is measured instead, and
      the position, though not clamped to the last pixel, still lies within
      the video. */
  lemma ContainerPositionInVideo(container: Rect, clientX: real, clientY: real, rotation: int, width: nat, height: nat)
    requires Proper(container)
    ensures var p := ClientPositionToDevicePosition(None, Some(container), clientX, clientY, rotation, width, height);
            0.0 <= p.x <= width as real && 0.0 <= p.y <= height as real
  {
    var fraction := Point(ViewFraction(clientX, container.x, container.width),
                          ViewFraction(clientY, container.y, container.height));
    var adjusted := AdjustPositionForRotation(fraction.x, fraction.y, rotation);
    ScaledInVideo(adjusted, width, height);
  }

  /** Unrotated, a pointer inside the canvas lands at the same fraction of
      the video, up to the clamp to the last pixel. */
  lemma UnrotatedKeepsFraction(canvasRect: Rect, clientX: real, clientY: real, width: int, height: int)
    requires Proper(canvasRect) && width >= 1 && height >= 1
    requires canvasRect.x <= clientX <= canvasRect.x + canvasRect.width
    requires canvasRect.y <= clientY <= canvasRect.y + canvasRect.height
    ensures var p := ClientPositionToDevicePosition(Some(canvasRect), None, clientX, clientY, 0, width, height);
            var fx := (clientX - canvasRect.x) / canvasRect.width;
            var fy := (clientY - canvasRect.y) / canvasRect.height;
            p == Point(Clamp(fx * width as real, 0.0, (width - 1) as real), Clamp(fy * height as real, 0.0, (height - 1) as real))
  {
    var fx := (clientX - canvasRect.x) / canvasRect.width;
    var fy := (clientY - canvasRect.y) / canvasRect.height;
    assert 0.0 <= fx <= 1.0 by {
      assert clientX - canvasRect.x <= canvasRect.width;
    }
    assert 0.0 <= fy <= 1.0 by {
      assert clientY - canvasRect.y <= canvasRect.height;
    }
  }

  // ---------------------------------------------------------------------
  // Orientation and size

  /** `rotation & 1` on a 32-bit integer: 1 exactly for the odd values. */
  function LowBit(rotation: int): (b: int)
    ensures b == 0 || b == 1
  {
    rotation % 2
  }

  /** `width / height` when the video is taller than wide; otherwise the
      ratio stays what it was. */
  function NextAspectRatio(aspectRatio: Option<real>, width: nat, height: nat): (r: Option<real>)
    ensures height > width ==> r.Some? && 0.0 <= r.value < 1.0
    ensures height <= width ==> r == aspectRatio
  {
    if height > width then Some(width as real / height as real) else aspectRatio
  }

  /** `Number(((windowHeight - 145) * aspectRatio).toFixed(0))`: NaN while
      the ratio is undefined. */
  function WidthFor(windowHeight: int, aspectRatio: Option<real>): (w: Num)
    ensures w.Fin? <==> aspectRatio.Some?
    ensures w.Fin? ==> var target := (windowHeight - 145) as real * aspectRatio.value;
                       target - 0.5 <= w.v <= target + 0.5 && w.v.Floor as real == w.v
  {
    match aspectRatio
    case None => NaN
    case Some(ratio) => Fin(ToFixed0((windowHeight - 145) as real * ratio) as real)
  }

  /** A width computed from a portrait ratio is narrower than the height
      available for the video, up to the rounding of toFixed(0). */
  lemma {:induction false} PortraitWidthFits(windowHeight: int, ratio: real)
    requires windowHeight >= 145 && 0.0 <= ratio < 1.0
    ensures var w := WidthFor(windowHeight, Some(ratio));
            0.0 <= w.v <= (windowHeight - 145) as real + 0.5
  {
    var available := (windowHeight - 145) as real;
    var target := available * ratio;
    ScaleWithin(ratio, available);
    assert 0.0 <= target <= available;
    var w := ToFixed0(target);
    assert 0 <= w;
  }

  /** The state the page's closure keeps for one mirroring session. */
  class ScrcpySession {
    var width: nat
    var height: nat
    /** `let rotation = 0`: nothing in the page assigns it again. */
    const rotation: int
    var aspectRatio: Option<real>
    var client: ClientState
    /** Every message sent to the device, in order. */
    var injected: seq<Message>

    /** The fixed orientation, and a recorded ratio that came from a
        portrait video. */
    predicate Valid()
      reads this
    {
      rotation == 0 && (aspectRatio.Some? ==> 0.0 <= aspectRatio.value < 1.0)
    }

    constructor()
      ensures Valid()
      ensures width == 0 && height == 0 && rotation == 0 && aspectRatio.None? && client == NoClient && injected == []
    {
      width := 0;
      height := 0;
      rotation := 0;
      aspectRatio := None;
      client := NoClient;
      injected := [];
    }

    /** The client AdbScrcpyClient.start gave, recorded for the handlers. */
    method SetClient(state: ClientState)
      requires Valid()
      modifies this
      ensures Valid()
      ensures client == state
      ensures width == old(width) && height == old(height) && aspectRatio == old(aspectRatio) && injected == old(injected)
    {
      client := state;
    }

    /** The video size from the stream's metadata. */
    method SetVideoSize(metadataWidth: nat, metadataHeight: nat)
      requires Valid()
      modifies this
      ensures Valid()
      ensures width == metadataWidth && height == metadataHeight
      ensures client == old(client) && aspectRatio == old(aspectRatio) && injected == old(injected)
    {
      width := metadataWidth;
      height := metadataHeight;
    }

    /** rotatedWidth: the height when the rotation is odd, else the width. */
    function RotatedWidth(): (w: int)
      reads this
      ensures w == (if LowBit(rotation) == 1 then height else width)
    {
      if LowBit(rotation) == 1 then height else width
    }

    /** rotatedHeight: the width when the rotation is odd, else the height. */
    function RotatedHeight(): (h: int)
      reads this
      ensures h == (if LowBit(rotation) == 1 then width else height)
    {
      if LowBit(rotation) == 1 then width else height
    }

    /** calculateWidth: records the ratio of a portrait video, then scales
        the available window height by the ratio it has. */
    method CalculateWidth(windowHeight: int) returns (w: Num)
      requires Valid()
      modifies this
      ensures Valid()
      ensures aspectRatio == NextAspectRatio(old(aspectRatio), width, height)
      ensures w == WidthFor(windowHeight, aspectRatio)
      ensures width == old(width) && height == old(height) && client == old(client) && injected == old(injected)
    {
      if height > width {
        aspectRatio := Some(width as real / height as real);
      }
      w := WidthFor(windowHeight, aspectRatio);
    }

    /** swapWidthHeight: the computed width and the window height less 145,
        swapped when the given video is wider than tall. */
    method SwapWidthHeight(widthVal: int, heightVal: int, windowHeight: int) returns (first: Num, second: Num)
      requires Valid()
      modifies this
      ensures Valid()
      ensures aspectRatio == NextAspectRatio(old(aspectRatio), width, height)
      ensures widthVal > heightVal ==> first == Fin((windowHeight - 145) as real) && second == WidthFor(windowHeight, aspectRatio)
      ensures widthVal <= heightVal ==> first == WidthFor(windowHeight, aspectRatio) && second == Fin((windowHeight - 145) as real)
      ensures width == old(width) && height == old(height) && client == old(client) && injected == old(injected)
    {
      var w := CalculateWidth(windowHeight);
      var h := Fin((windowHeight - 145) as real);
      if widthVal > heightVal {
        first, second := h, w;
      } else {
        first, second := w, h;
      }
    }

    /** The page never turns the video, so the rotated size is the
        video's own. */
    lemma UnrotatedSize()
      requires Valid()
      ensures RotatedWidth() == width && RotatedHeight() == height
    {
    }

    /** The touch message injectTouch builds for an event. */
    function TouchFor(action: MotionAction, event: PointerEvent, canvas: Option<Rect>, container: Option<Rect>): (t: TouchMessage)
      reads this
      requires canvas.Some? ==> Proper(canvas.value)
      requires canvas.None? && container.Some? ==> Proper(container.value)
      ensures t.action == action && t.pointerId == Finger && t.buttons == event.buttons
      ensures t.pressure == 0.0 <==> event.buttons == 0
      ensures t.actionButton == Some(if 0 <= event.button < 5 then MouseButtons[event.button] else Primary)
    {
      var p := ClientPositionToDevicePosition(canvas, container, event.clientX, event.clientY, rotation, width, height);
      TouchMessage(action, Finger, width, height, p.x, p.y, if event.buttons == 0 then 0.0 else 1.0,
                   Some(match MouseButton(event.button) case Some(b) => b case None => MouseButtons[0]),
                   event.buttons)
    }

    /** injectTouch: one touch message when a client with a controller is
        there, nothing otherwise. */
    method InjectTouch(action: MotionAction, event: PointerEvent, canvas: Option<Rect>, container: Option<Rect>)
      requires canvas.Some? ==> Proper(canvas.value)
      requires canvas.None? && container.Some? ==> Proper(container.value)
      requires Valid()
      modifies this
      ensures Valid()
      ensures injected == old(injected) + (if client == Connected then [Touch(TouchFor(action, event, canvas, container))] else [])
      ensures width == old(width) && height == old(height) && client == old(client) && aspectRatio == old(aspectRatio)
    {
      if client != Connected {
        return;
      }
      var p := ClientPositionToDevicePosition(canvas, container, event.clientX, event.clientY, rotation, width, height);
      var pressure := if event.buttons == 0 then 0.0 else 1.0;
      var actionButton := MouseButton(event.button);
      if actionButton.None? {
        actionButton := Some(MouseButtons[0]);
      }
      injected := injected + [Touch(TouchMessage(action, Finger, width, height, p.x, p.y, pressure, actionButton, event.buttons))];
    }

    /** handlePointerDown. */
    method HandlePointerDown(event: PointerEvent, canvas: Option<Rect>, container: Option<Rect>)
      requires canvas.Some? ==> Proper(canvas.value)
      requires canvas.None? && container.Some? ==> Proper(container.value)
      requires Valid()
      modifies this
      ensures Valid()
      ensures injected == old(injected) + (if client == Connected then [Touch(TouchFor(Down, event, canvas, container))] else [])
      ensures width == old(width) && height == old(height) && client == old(client) && aspectRatio == old(aspectRatio)
    {
      InjectTouch(Down, event, canvas, container);
    }

    /** handlePointerMove: a hover when no button is held, a move (drag)
        otherwise. */
    method HandlePointerMove(event: PointerEvent, canvas: Option<Rect>, container: Option<Rect>)
      requires canvas.Some? ==> Proper(canvas.value)
      requires canvas.None? && container.Some? ==> Proper(container.value)
      requires Valid()
      modifies this
      ensures Valid()
      ensures injected == old(injected) + (if client == Connected then [Touch(TouchFor(MoveAction(event.buttons), event, canvas, container))] else [])
      ensures width == old(width) && height == old(height) && client == old(client) && aspectRatio == old(aspectRatio)
    {
      var action;
      if event.buttons == 0 {
        action := HoverMove;
      } else {
        action := Move;
      }
      InjectTouch(action, event, canvas, container);
    }

    /** handlePointerUp. */
    method HandlePointerUp(event: PointerEvent, canvas: Option<Rect>, container: Option<Rect>)
      requires canvas.Some? ==> Proper(canvas.value)
      requires canvas.None? && container.Some? ==> Proper(container.value)
      requires Valid()
      modifies this
      ensures Valid()
      ensures injected == old(injected) + (if client == Connected then [Touch(TouchFor(Up, event, canvas, container))] else [])
      ensures width == old(width) && height == old(height) && client == old(client) && aspectRatio == old(aspectRatio)
    {
      InjectTouch(Up, event, canvas, container);
    }

    /** handlePointerLeave: lifts the pointer only when a button is still
        held; no hover exit is sent. */
    method HandlePointerLeave(event: PointerEvent, canvas: Option<Rect>, container: Option<Rect>)
      requires canvas.Some? ==> Proper(canvas.value)
      requires canvas.None? && container.Some? ==> Proper(container.value)
      requires Valid()
      modifies this
      ensures Valid()
      ensures injected == old(injected) + (if client == Connected && event.buttons > 0 then [Touch(TouchFor(Up, event, canvas, container))] else [])
      ensures width == old(width) && height == old(height) && client == old(client) && aspectRatio == old(aspectRatio)
    {
      if event.buttons > 0 {
        InjectTouch(Up, event, canvas, container);
      }
    }

    /** handleKeyCode: the key messages when the client has a controller;
        none when it lacks one (`controller?.`); a TypeError, and nothing
        sent, when there is no client at all or no event to read a code
        from. */
    method HandleKeyCode(e: Option<KeyEvent>, code: Option<int>, table: KeyTable) returns (threw: bool)
      requires Valid()
      modifies this
      ensures Valid()
      ensures var keys := KeyMessages(e, code, table);
              && threw == (keys.None? || (keys.value != [] && client == NoClient))
              && injected == old(injected) + (if keys.Some? && client == Connected then Keys(keys.value) else [])
      ensures width == old(width) && height == old(height) && client == old(client) && aspectRatio == old(aspectRatio)
    {
      var action := KeyDown;
      var keyRepeat := false;
      if e.Some? {
        action := if e.value.kind == "keydown" then KeyDown else KeyUp;
        keyRepeat := e.value.repeat;
      }
      var finalKeyCode := code;
      if !IsKeyCode(code) {
        if e.None? {
          return true;
        }
        finalKeyCode := table(e.value.code);
      }
      if !IsKeyCode(finalKeyCode) {
        return false;
      }
      if e.Some? && e.value.defaultPrevented {
        return false;
      }
      if client == NoClient {
        return true;
      }
      var down := KeyMessage(action, finalKeyCode.value, if keyRepeat then 1 else 0, NoMeta);
      if client == Connected {
        injected := injected + [Key(down)];
      }
      if e.None? && client == Connected {
        injected := injected + [Key(KeyMessage(KeyUp, finalKeyCode.value, 0, NoMeta))];
      }
      ghost var keys := KeyMessages(e, code, table);
      assert client == Connected ==> Keys(keys.value) == [Key(keys.value[0])] + Keys(keys.value[1..]);
      assert |keys.value| == 2 ==> keys.value[1..] == [keys.value[1]];
      return false;
    }
  }

  /** The action handlePointerMove sends. */
  function MoveAction(buttons: int): (a: MotionAction)
    ensures a == HoverMove <==> buttons == 0
    ensures a == Move <==> buttons != 0
  {
    if buttons == 0 then HoverMove else Move
  }

  /** The key messages handleKeyCode sends for a keyboard event e or a
      virtual button's key code; None when it throws for want of both. */
  function KeyMessages(e: Option<KeyEvent>, code: Option<int>, table: KeyTable): (r: Option<seq<KeyMessage>>)
    ensures r.None? <==> e.None? && !IsKeyCode(code)
  {
    var action := if e.Some? && e.value.kind != "keydown" then KeyUp else KeyDown;
    var repeat := if e.Some? && e.value.repeat then 1 else 0;
    if !IsKeyCode(code) && e.None? then None
    else
      var finalKeyCode := if IsKeyCode(code) then code else table(e.value.code);
      if !IsKeyCode(finalKeyCode) || (e.Some? && e.value.defaultPrevented) then Some([])
      else if e.None? then Some([KeyMessage(KeyDown, finalKeyCode.value, 0, NoMeta), KeyMessage(KeyUp, finalKeyCode.value, 0, NoMeta)])
      else Some([KeyMessage(action, finalKeyCode.value, repeat, NoMeta)])
  }

  /** A virtual button press is a full key press: down, then up, no
      repeat, no meta state. */
  lemma VirtualPress(code: int, table: KeyTable)
    requires code != 0
    ensures KeyMessages(None, Some(code), table) == Some([KeyMessage(KeyDown, code, 0, NoMeta), KeyMessage(KeyUp, code, 0, NoMeta)])
  {
  }

  /** A keyboard event whose code maps to an Android key and that was not
      cancelled sends exactly one message: down for keydown, up otherwise,
      carrying the event's repeat flag. */
  lemma PhysicalKey(e: KeyEvent, table: KeyTable)
    requires IsKeyCode(table(e.code)) && !e.defaultPrevented
    ensures var r := KeyMessages(Some(e), None, table);
            && r.Some? && |r.value| == 1
            && (r.value[0].action == KeyDown <==> e.kind == "keydown")
            && r.value[0].keyCode == table(e.code).value
            && (r.value[0].repeat == 1 <==> e.repeat)
  {
  }

  /** Nothing is sent for a key with no Android code, or for an event the
      page already cancelled. */
  lemma IgnoredKeys(e: KeyEvent, code: Option<int>, table: KeyTable)
    requires e.defaultPrevented || (!IsKeyCode(code) && !IsKeyCode(table(e.code)))
    ensures KeyMessages(Some(e), code, table) == Some([])
  {
  }
}

/** Pointer dragging of the character (app/features/controls/DragControls.ts).
    Raycasting is outside the model: the point where the pointer ray hits the
    character, where it meets the drag plane, and the camera's viewing
    direction arrive as inputs. */
module DragControls {

  import opened Options

  datatype Vec2 = Vec2(x: real, y: real)
  datatype Vec3 = Vec3(x: real, y: real, z: real)

  const Origin: Vec3 := Vec3(0.0, 0.0, 0.0)

  function Add(a: Vec3, b: Vec3): Vec3 { Vec3(a.x + b.x, a.y + b.y, a.z + b.z) }
  function Sub(a: Vec3, b: Vec3): Vec3 { Vec3(a.x - b.x, a.y - b.y, a.z - b.z) }
  function Dot(a: Vec3, b: Vec3): real { a.x * b.x + a.y * b.y + a.z * b.z }

  /** A plane `normal . p + constant == 0`, as three.js stores it. */
  datatype Plane = Plane(normal: Vec3, constant: real)

  /** `new THREE.Plane()`: normal (1, 0, 0), constant 0. */
  const DefaultPlane: Plane := Plane(Vec3(1.0, 0.0, 0.0), 0.0)

  /** `setFromNormalAndCoplanarPoint`. */
  function PlaneThrough(normal: Vec3, point: Vec3): (r: Plane)
    ensures Dot(r.normal, point) + r.constant == 0.0
  {
    Plane(normal, -Dot(point, normal))
  }

  /** The canvas's bounding client rectangle. */
  datatype Rect = Rect(left: real, top: real, width: real, height: real)

  ghost predicate Visible(r: Rect) { r.width > 0.0 && r.height > 0.0 }

  datatype Touch = Touch(clientX: real, clientY: real)

  /** The two event kinds the controller listens to. */
  datatype PointerEvent = MouseEvent(clientX: real, clientY: real) | TouchEvent(touches: seq<Touch>)

  /** Normalised device coordinates of a client point: x from -1 at the left
      edge to +1 at the right edge, y from +1 at the top to -1 at the bottom. */
  function Ndc(clientX: real, clientY: real, rect: Rect): Vec2
    requires Visible(rect)
  {
    Vec2(((clientX - rect.left) / rect.width) * 2.0 - 1.0,
         -((clientY - rect.top) / rect.height) * 2.0 + 1.0)
  }

  /** The client point a pair of normalised device coordinates stands for. */
  function ClientPoint(ndc: Vec2, rect: Rect): (r: Vec2)
    requires Visible(rect)
  {
    Vec2(rect.left + (ndc.x + 1.0) / 2.0 * rect.width,
         rect.top + (1.0 - ndc.y) / 2.0 * rect.height)
  }

  /** `getMousePosition`: the first touch of a touch event, the pointer of a
      mouse event, and (0, 0) for a touch event without touches. */
  function MousePosition(event: PointerEvent, rect: Rect): (r: Vec2)
    requires Visible(rect)
    ensures event.MouseEvent? ==> ClientPoint(r, rect) == Vec2(event.clientX, event.clientY)
    ensures event.TouchEvent? && |event.touches| > 0 ==>
      ClientPoint(r, rect) == Vec2(event.touches[0].clientX, event.touches[0].clientY)
    ensures event.TouchEvent? && |event.touches| == 0 ==> r == Vec2(0.0, 0.0)
  {
    match event
    case TouchEvent(touches) =>
      if |touches| > 0 then
        NdcRoundTrip(rect, touches[0].clientX, touches[0].clientY);
        Ndc(touches[0].clientX, touches[0].clientY, rect)
      else Vec2(0.0, 0.0)
    case MouseEvent(x, y) =>
      NdcRoundTrip(rect, x, y);
      Ndc(x, y, rect)
  }

  /** The canvas edges map to the edges of the normalised square. */
  lemma NdcEdges(rect: Rect, clientX: real, clientY: real)
    requires Visible(rect)
    ensures Ndc(rect.left, clientY, rect).x == -1.0
    ensures Ndc(rect.left + rect.width, clientY, rect).x == 1.0
    ensures Ndc(clientX, rect.top, rect).y == 1.0
    ensures Ndc(clientX, rect.top + rect.height, rect).y == -1.0
  {
    assert (rect.left + rect.width - rect.left) / rect.width == 1.0;
    assert (rect.top + rect.height - rect.top) / rect.height == 1.0;
  }

  /** Moving right raises x and moving down lowers y, in proportion. */
  lemma NdcIsLinear(rect: Rect, x1: real, y1: real, x2: real, y2: real)
    requires Visible(rect)
    ensures Ndc(x2, y2, rect).x - Ndc(x1, y1, rect).x == 2.0 * (x2 - x1) / rect.width
    ensures Ndc(x2, y2, rect).y - Ndc(x1, y1, rect).y == -2.0 * (y2 - y1) / rect.height
  {
    var w, h := rect.width, rect.height;
    assert (x2 - rect.left) / w - (x1 - rect.left) / w == (x2 - x1) / w;
    assert (y2 - rect.top) / h - (y1 - rect.top) / h == (y2 - y1) / h;
  }

  /** A point inside the canvas lands inside the normalised square. */
  lemma NdcInsideCanvas(rect: Rect, clientX: real, clientY: real)
    requires Visible(rect)
    requires rect.left <= clientX <= rect.left + rect.width
    requires rect.top <= clientY <= rect.top + rect.height
    ensures -1.0 <= Ndc(clientX, clientY, rect).x <= 1.0
    ensures -1.0 <= Ndc(clientX, clientY, rect).y <= 1.0
  {
    UnitFraction(clientX - rect.left, rect.width);
    UnitFraction(clientY - rect.top, rect.height);
  }

  lemma UnitFraction(a: real, w: real)
    requires w > 0.0 && 0.0 <= a <= w
    ensures 0.0 <= a / w <= 1.0
  {
    assert a / w * w == a;
  }

  /** The normalised coordinates determine the client point. */
  lemma NdcRoundTrip(rect: Rect, clientX: real, clientY: real)
    requires Visible(rect)
    ensures ClientPoint(Ndc(clientX, clientY, rect), rect) == Vec2(clientX, clientY)
  {
    var fx := (clientX - rect.left) / rect.width;
    var fy := (clientY - rect.top) / rect.height;
    assert fx * rect.width == clientX - rect.left;
    assert fy * rect.height == clientY - rect.top;
    assert (fx * 2.0 - 1.0 + 1.0) / 2.0 == fx;
    assert (1.0 - (-fy * 2.0 + 1.0)) / 2.0 == fy;
  }

  /** Which `(event, handler)` pairs `setupEventListeners` registers. */
  datatype EventName = MouseDown | MouseMove | MouseUp | MouseLeave | TouchStart | TouchMove | TouchEnd
  datatype Handler = BoundMouseDown | BoundMouseMove | BoundMouseUp | BoundTouchStart | BoundTouchMove | BoundTouchEnd
  datatype Listener = Listener(event: EventName, handler: Handler)

  const SetupListeners: set<Listener> := {
    Listener(MouseDown, BoundMouseDown), Listener(MouseMove, BoundMouseMove),
    Listener(MouseUp, BoundMouseUp), Listener(MouseLeave, BoundMouseUp),
    Listener(TouchStart, BoundTouchStart), Listener(TouchMove, BoundTouchMove),
    Listener(TouchEnd, BoundTouchEnd)
  }

  /** The handler setup binds to each event name. */
  function HandlerFor(e: EventName): Handler
  {
    match e
    case MouseDown => BoundMouseDown
    case MouseMove => BoundMouseMove
    case MouseUp => BoundMouseUp
    case MouseLeave => BoundMouseUp
    case TouchStart => BoundTouchStart
    case TouchMove => BoundTouchMove
    case TouchEnd => BoundTouchEnd
  }

  /** Setup registers seven distinct listeners. */
  lemma SetupRegistersSeven()
    ensures |SetupListeners| == 7
  {
    var s1 := {Listener(MouseDown, BoundMouseDown)};
    var s2 := s1 + {Listener(MouseMove, BoundMouseMove)};
    assert |s2| == 2;
    var s3 := s2 + {Listener(MouseUp, BoundMouseUp)};
    assert |s3| == 3;
    var s4 := s3 + {Listener(MouseLeave, BoundMouseUp)};
    assert |s4| == 4;
    var s5 := s4 + {Listener(TouchStart, BoundTouchStart)};
    assert |s5| == 5;
    var s6 := s5 + {Listener(TouchMove, BoundTouchMove)};
    assert |s6| == 6;
    var s7 := s6 + {Listener(TouchEnd, BoundTouchEnd)};
    assert |s7| == 7;
    assert s7 == SetupListeners;
  }

  /** One listener per event name, each with its bound handler; `mouseleave`
      shares the `mouseup` handler. */
  lemma SetupBindsEachEvent()
    ensures forall e :: Listener(e, HandlerFor(e)) in SetupListeners
    ensures forall l :: l in SetupListeners ==> l.handler == HandlerFor(l.event)
  {
  }

  datatype Cursor = Unset | Grabbing | Default

  /** A scene object whose position the controller moves in place. */
  class Object3D {
    var position: Vec3

    constructor (position: Vec3)
      ensures this.position == position
    {
      this.position := position;
    }
  }

  /** The `DragControls` object. `listeners` is what is registered on the
      canvas; `notified` records every `onPositionChange` argument. */
  class DragControls {
    var character: Object3D?
    var isDragging: bool
    var dragPlane: Plane
    var intersectionPoint: Vec3
    var offset: Vec3
    var cursor: Cursor
    var listeners: set<Listener>
    var hasPositionCallback: bool
    var notified: seq<Vec3>

    constructor ()
      ensures character == null && !isDragging && offset == Origin && dragPlane == DefaultPlane
      ensures listeners == SetupListeners && !hasPositionCallback && notified == [] && cursor == Unset
    {
      character := null;
      isDragging := false;
      dragPlane := DefaultPlane;
      intersectionPoint := Origin;
      offset := Origin;
      cursor := Unset;
      listeners := SetupListeners;
      hasPositionCallback := false;
      notified := [];
    }

    method SetCharacter(c: Object3D)
      modifies this`character
      ensures character == c
    {
      character := c;
    }

    /** Assigning the public `onPositionChange` property. */
    method SetPositionCallback(present: bool)
      modifies this`hasPositionCallback
      ensures hasPositionCallback == present
    {
      hasPositionCallback := present;
    }

    /** `getCurrentPosition`: the origin without a character, else a copy of
        its position. */
    method GetCurrentPosition() returns (p: Vec3)
      ensures character == null ==> p == Origin
      ensures character != null ==> p == character.position
    {
      if character == null {
        return Origin;
      }
      p := character.position;
    }

    /** `onMouseDown`; `hit` is the first point where the pointer ray meets
        the character, if any, and `cameraDirection` the camera's view direction. */
    method OnMouseDown(hit: Option<Vec3>, cameraDirection: Vec3)
      modifies this
      ensures character == old(character) && listeners == old(listeners) && notified == old(notified)
      ensures hasPositionCallback == old(hasPositionCallback)
      ensures character != null && hit.Some? ==> Grabbed(hit.value, cameraDirection)
      ensures character == null || hit.None? ==> Untouched()
    {
      if character == null {
        return;
      }
      if hit.Some? {
        StartDrag(hit.value, cameraDirection);
      }
    }

    /** `onTouchStart`: only a single-finger touch can start a drag. */
    method OnTouchStart(touchCount: nat, hit: Option<Vec3>, cameraDirection: Vec3)
      modifies this
      ensures character == old(character) && listeners == old(listeners) && notified == old(notified)
      ensures hasPositionCallback == old(hasPositionCallback)
      ensures character != null && touchCount == 1 && hit.Some? ==> Grabbed(hit.value, cameraDirection)
      ensures character == null || touchCount != 1 || hit.None? ==> Untouched()
    {
      if character == null || touchCount != 1 {
        return;
      }
      if hit.Some? {
        StartDrag(hit.value, cameraDirection);
      }
    }

    /** The state `startDrag(point)` leaves: dragging, the drag plane faces
        the camera through `point`, and `offset` is `point` relative to the
        character's position. */
    twostate predicate Grabbed(point: Vec3, cameraDirection: Vec3)
      reads this, character
    {
      character != null && character == old(character) && isDragging && cursor == Grabbing &&
      dragPlane == PlaneThrough(cameraDirection, point) &&
      offset == Sub(point, character.position) &&
      character.position == old(character.position) && intersectionPoint == old(intersectionPoint)
    }

    twostate predicate Untouched()
      reads this
    {
      isDragging == old(isDragging) && dragPlane == old(dragPlane) && offset == old(offset) &&
      cursor == old(cursor) && intersectionPoint == old(intersectionPoint) &&
      hasPositionCallback == old(hasPositionCallback)
    }

    method StartDrag(point: Vec3, cameraDirection: Vec3)
      requires character != null
      modifies this
      ensures character == old(character) && listeners == old(listeners) && notified == old(notified)
      ensures hasPositionCallback == old(hasPositionCallback)
      ensures isDragging && cursor == Grabbing && intersectionPoint == old(intersectionPoint)
      ensures dragPlane == PlaneThrough(cameraDirection, point)
      ensures offset == Sub(point, character.position)
    {
      isDragging := true;
      dragPlane := PlaneThrough(cameraDirection, point);
      offset := Sub(point, character.position);
      cursor := Grabbing;
    }

    /** `onMouseMove`; `planeHit` is where the pointer ray meets the drag
        plane, if it does. */
    method OnMouseMove(planeHit: Option<Vec3>)
      modifies this, character
      ensures character == old(character) && isDragging == old(isDragging) && offset == old(offset)
      ensures dragPlane == old(dragPlane) && listeners == old(listeners) && cursor == old(cursor)
      ensures hasPositionCallback == old(hasPositionCallback)
      ensures old(isDragging) && character != null ==> Dragged(planeHit)
      ensures !old(isDragging) || character == null ==>
        notified == old(notified) && intersectionPoint == old(intersectionPoint)
      ensures !old(isDragging) && character != null ==> unchanged(character)
    {
      if !isDragging || character == null {
        return;
      }
      UpdateDrag(planeHit);
    }

    /** `onTouchMove`: only a single-finger move continues a drag. */
    method OnTouchMove(touchCount: nat, planeHit: Option<Vec3>)
      modifies this, character
      ensures character == old(character) && isDragging == old(isDragging) && offset == old(offset)
      ensures dragPlane == old(dragPlane) && listeners == old(listeners) && cursor == old(cursor)
      ensures hasPositionCallback == old(hasPositionCallback)
      ensures old(isDragging) && character != null && touchCount == 1 ==> Dragged(planeHit)
      ensures !old(isDragging) || character == null || touchCount != 1 ==>
        notified == old(notified) && intersectionPoint == old(intersectionPoint)
      ensures (!old(isDragging) || touchCount != 1) && character != null ==> unchanged(character)
    {
      if !isDragging || character == null || touchCount != 1 {
        return;
      }
      UpdateDrag(planeHit);
    }

    /** What `updateDrag` leaves: with a plane hit, the character sits at
        the hit minus the grab offset (so the grabbed point stays under the
        pointer) and the callback, if set, receives that position; without
        one, nothing changes. */
    twostate predicate Dragged(planeHit: Option<Vec3>)
      reads this, character
    {
      character != null && character == old(character) && hasPositionCallback == old(hasPositionCallback) &&
      (planeHit.Some? ==>
        character.position == Sub(planeHit.value, offset) &&
        Add(character.position, offset) == planeHit.value &&
        intersectionPoint == character.position &&
        notified == old(notified) + (if hasPositionCallback then [character.position] else [])) &&
      (planeHit.None? ==>
        character.position == old(character.position) && notified == old(notified) &&
        intersectionPoint == old(intersectionPoint))
    }

    method UpdateDrag(planeHit: Option<Vec3>)
      requires character != null
      modifies this, character
      ensures character == old(character) && isDragging == old(isDragging) && offset == old(offset)
      ensures dragPlane == old(dragPlane) && listeners == old(listeners) && cursor == old(cursor)
      ensures hasPositionCallback == old(hasPositionCallback)
      ensures Dragged(planeHit)
    {
      if planeHit.Some? {
        intersectionPoint := Sub(planeHit.value, offset);
        character.position := intersectionPoint;
        if hasPositionCallback {
          var p := GetCurrentPosition();
          notified := notified + [p];
        }
      }
    }

    /** `onMouseUp`, `onTouchEnd` and the `mouseleave` listener. */
    method EndDrag()
      modifies this
      ensures !isDragging
      ensures cursor == if old(isDragging) then Default else old(cursor)
      ensures character == old(character) && offset == old(offset) && dragPlane == old(dragPlane)
      ensures listeners == old(listeners) && notified == old(notified)
      ensures intersectionPoint == old(intersectionPoint) && hasPositionCallback == old(hasPositionCallback)
    {
      if isDragging {
        isDragging := false;
        cursor := Default;
      }
    }

    /** `dispose`: unregisters exactly the listeners setup registered. */
    method Dispose()
      modifies this`listeners
      ensures listeners == old(listeners) - SetupListeners
    {
      listeners := listeners - SetupListeners;
    }
  }

  /** A whole drag: press on the character, move, release. The grabbed
      point follows the pointer, and afterwards nothing is being dragged. */
  method DragScenario(c: Object3D, grab: Vec3, cameraDirection: Vec3, target: Vec3)
    modifies c
    ensures c.position == Add(old(c.position), Sub(target, grab))
  {
    var controls := new DragControls();
    controls.SetCharacter(c);
    controls.OnMouseDown(Some(grab), cameraDirection);
    controls.OnMouseMove(Some(target));
    controls.EndDrag();
    assert !controls.isDragging;
    controls.Dispose();
    assert controls.listeners == {};
  }
}

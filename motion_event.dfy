/** The parts of `android.view.MotionEvent` the UI reads: the raw action
    word and the pointers, each with its id and coordinates. */
module MotionEvents {
  import opened Exceptions

  /** One pointer of an event: `getPointerId`, `getX` and `getY` at its
      index. */
  datatype Pointer = Pointer(id: int, x: real, y: real)

  datatype RawEvent = Event(action: int, pointers: seq<Pointer>)

  /** Android delivers every event with at least one pointer. */
  type MotionEvent = e: RawEvent | |e.pointers| >= 1 witness Event(0, [Pointer(0, 0.0, 0.0)])

  const ActionDown: int := 0
  const ActionUp: int := 1
  const ActionMove: int := 2
  const ActionPointerDown: int := 5
  const ActionPointerUp: int := 6

  /** `actionMasked`: `action and ACTION_MASK` (0xff). On a 32-bit two's
      complement word the low eight bits are the value modulo 256. */
  function ActionMasked(e: MotionEvent): (r: int)
    ensures 0 <= r < 256
  {
    e.action % 256
  }

  /** `(action and ACTION_POINTER_ID_MASK) shr ACTION_POINTER_ID_SHIFT`:
      bits 8 to 15 of the action word (mask 0xff00, shift 8). */
  function PointerIndex(e: MotionEvent): (r: nat)
    ensures r < 256
  {
    (e.action % 65536) / 256
  }

  /** The word `MotionEvent.obtain` builds from a masked action and a
      pointer index recovers both. */
  lemma ActionWordRoundTrip(masked: int, index: int, e: MotionEvent)
    requires 0 <= masked < 256 && 0 <= index < 256 && e.action == index * 256 + masked
    ensures ActionMasked(e) == masked && PointerIndex(e) == index
  {
    assert e.action % 256 == masked by {
      assert e.action == index * 256 + masked;
    }
  }

  /** An action word whose masked action puts a pointer down. */
  predicate IsDownAction(action: int)
  {
    action % 256 == ActionDown || action % 256 == ActionPointerDown
  }

  /** An action word whose masked action lifts a pointer. */
  predicate IsUpAction(action: int)
  {
    action % 256 == ActionUp || action % 256 == ActionPointerUp
  }

  /** `getPointerId(index)`; an index past the pointers is an
      IllegalArgumentException. */
  function PointerId(e: MotionEvent, index: nat): (r: Result<int>)
    ensures r.Ok? <==> index < |e.pointers|
    ensures r.Ok? ==> r.value == e.pointers[index].id
    ensures r.Err? ==> r.error == IllegalArgument
  {
    if index < |e.pointers| then Ok(e.pointers[index].id) else Err(IllegalArgument)
  }

  /** `pointerCount`. */
  function PointerCount(e: MotionEvent): nat
  {
    |e.pointers|
  }
}

/** The toast notification service: a queue of notifications that handlers
    append to and that a timer or the close button removes by id, and the
    swipe-down-to-dismiss gesture each toast tracks on mobile. */
module Toasts {
  import opened Common

  datatype ToastKind = Success | Error | Info | Warning

  datatype Toast = Toast(id: int, message: string, kind: ToastKind, duration: int)

  /** What a handler asks the service to show, without the id and timing
      the service adds. */
  datatype Notice = Notice(kind: ToastKind, message: string)

  const DefaultKind := Success
  const DefaultDuration := 3000
  /** Downward travel, in pixels, beyond which a swipe closes a toast. */
  const SwipeThreshold := 50

  /** The toasts left after removing every toast carrying `id`. */
  function WithoutId(toasts: seq<Toast>, id: int): (r: seq<Toast>)
    ensures |r| <= |toasts|
    ensures forall t :: t in r <==> t in toasts && t.id != id
  {
    if toasts == [] then []
    else (if toasts[0].id != id then [toasts[0]] else []) + WithoutId(toasts[1..], id)
  }

  /** Removal keeps the relative order of what it keeps: it distributes over
      concatenation. */
  lemma {:induction false} WithoutIdDistributes(a: seq<Toast>, b: seq<Toast>, id: int)
    ensures WithoutId(a + b, id) == WithoutId(a, id) + WithoutId(b, id)
  {
    if a != [] {
      assert (a + b)[1..] == a[1..] + b;
      WithoutIdDistributes(a[1..], b, id);
    } else {
      assert a + b == b;
    }
  }

  /** Removing an id that no toast carries changes nothing. */
  lemma {:induction false} WithoutAbsentId(toasts: seq<Toast>, id: int)
    requires forall t :: t in toasts ==> t.id != id
    ensures WithoutId(toasts, id) == toasts
  {
    if toasts != [] {
      assert toasts[0] in toasts;
      assert forall t :: t in toasts[1..] ==> t in toasts;
      WithoutAbsentId(toasts[1..], id);
    }
  }

  /** Adding a toast with a fresh id and then removing that id restores the
      queue exactly. */
  lemma AddThenRemove(toasts: seq<Toast>, t: Toast)
    requires forall u :: u in toasts ==> u.id != t.id
    ensures WithoutId(toasts + [t], t.id) == toasts
  {
    WithoutIdDistributes(toasts, [t], t.id);
    WithoutAbsentId(toasts, t.id);
  }

  /** Removing the same id twice is the same as removing it once. */
  lemma RemoveIdempotent(toasts: seq<Toast>, id: int)
    ensures WithoutId(WithoutId(toasts, id), id) == WithoutId(toasts, id)
  {
    WithoutAbsentId(WithoutId(toasts, id), id);
  }

  /** The duration a toast gets when the caller passes `duration` (None when
      the argument is left out). */
  function EffectiveDuration(duration: Option<int>): int
  {
    if duration.Some? then duration.value else DefaultDuration
  }

  class ToastQueue {
    var toasts: seq<Toast>

    constructor ()
      ensures toasts == []
    {
      toasts := [];
    }

    /** `addToast(message, type, duration)`: appends exactly one toast, with
        type 'success' and duration 3000 when those arguments are left out
        (`id` is the clock reading the source uses as id). Returns whether
        the automatic removal after `duration` milliseconds is scheduled. */
    method AddToast(id: int, message: string, kind: Option<ToastKind>, duration: Option<int>)
      returns (autoRemove: bool)
      modifies this
      ensures toasts == old(toasts) + [Toast(id, message,
        if kind.Some? then kind.value else DefaultKind, EffectiveDuration(duration))]
      ensures autoRemove <==> EffectiveDuration(duration) > 0
    {
      var d := EffectiveDuration(duration);
      var k := if kind.Some? then kind.value else DefaultKind;
      toasts := toasts + [Toast(id, message, k, d)];
      autoRemove := d > 0;
    }

    /** `removeToast(id)`: drops every toast with that id, keeping the order
        of the rest. */
    method RemoveToast(id: int)
      modifies this
      ensures toasts == WithoutId(old(toasts), id)
      ensures forall t :: t in toasts <==> t in old(toasts) && t.id != id
    {
      toasts := WithoutId(toasts, id);
    }

    /** The typed helpers `success`, `error`, `info` and `warning`: `addToast`
        with the matching fixed type. */
    method Show(id: int, kind: ToastKind, message: string, duration: Option<int>)
      returns (autoRemove: bool)
      modifies this
      ensures toasts == old(toasts) + [Toast(id, message, kind, EffectiveDuration(duration))]
      ensures autoRemove <==> EffectiveDuration(duration) > 0
    {
      autoRemove := AddToast(id, message, Some(kind), duration);
    }
  }

  /** The swipe-to-dismiss state of one toast: where the touch started and how
      far it has moved down. Only toasts shown in the mobile layout react. */
  class SwipeTracker {
    const isMobile: bool
    var touchStart: Option<int>
    var touchOffset: int

    ghost predicate Valid()
      reads this
    {
      touchOffset >= 0
    }

    constructor (isMobile: bool)
      ensures Valid() && this.isMobile == isMobile
      ensures touchStart == None && touchOffset == 0
    {
      this.isMobile := isMobile;
      touchStart := None;
      touchOffset := 0;
    }

    method TouchStart(y: int)
      requires Valid()
      modifies this
      ensures Valid() && touchOffset == old(touchOffset)
      ensures touchStart == if isMobile then Some(y) else old(touchStart)
    {
      if isMobile {
        touchStart := Some(y);
      }
    }

    /** Records the offset from the start point only when it points down. */
    method TouchMove(y: int)
      requires Valid()
      modifies this
      ensures Valid() && touchStart == old(touchStart)
      ensures if isMobile && touchStart.Some? && y - touchStart.value > 0
              then touchOffset == y - touchStart.value
              else touchOffset == old(touchOffset)
    {
      if isMobile && touchStart.Some? {
        var offset := y - touchStart.value;
        if offset > 0 {
          touchOffset := offset;
        }
      }
    }

    /** Ends the gesture: closes the toast when it travelled more than the
        threshold, then forgets the gesture. */
    method TouchEnd() returns (close: bool)
      requires Valid()
      modifies this
      ensures Valid()
      ensures close <==> isMobile && old(touchOffset) > SwipeThreshold
      ensures isMobile ==> touchStart == None && touchOffset == 0
      ensures !isMobile ==> touchStart == old(touchStart) && touchOffset == old(touchOffset)
    {
      close := false;
      if isMobile {
        close := touchOffset > SwipeThreshold;
        touchStart := None;
        touchOffset := 0;
      }
    }
  }
}

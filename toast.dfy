// The toast list shared by every screen: `show` appends a toast with the
// next id, and `remove` hides a toast at once and takes it out of the list
// after a 300 ms animation.
//
// Timers are not modelled as time: the callback a timer would run later is
// a method of its own (`SpliceCaptured` for the code as written,
// `FinishRemoval` for the corrected removal), and `show` reports whether it
// scheduled an automatic `remove`. Haptic feedback is returned as the kind
// of pulse requested.

module Toast {
  import opened Wrappers

  const DefaultDuration: int := 3000
  const AnimationMs: int := 300

  datatype Kind = Success | Error | Warning | Info

  /** The pulse `show` asks the haptics for. */
  datatype Haptic = SuccessPulse | ErrorPulse | WarningPulse | LightPulse

  /** `ToastOptions`; `duration == None` is undefined or null. */
  datatype Options = Options(kind: Option<Kind>, title: Option<string>, message: string, duration: Option<int>)

  datatype Toast = Toast(id: nat, show: bool, kind: Kind, title: Option<string>, message: string, duration: int)

  /** The toast `show` builds for `options` under `id`. */
  function NewToast(id: nat, o: Options): (t: Toast)
    ensures t.id == id && t.show && t.message == o.message && t.title == o.title
    ensures t.kind == (if o.kind.Some? then o.kind.value else Info)
    ensures o.duration.None? ==> t.duration == DefaultDuration
    ensures o.duration.Some? ==> t.duration == o.duration.value
  {
    Toast(id, true, o.kind.GetOr(Info), o.title, o.message, o.duration.GetOr(DefaultDuration))
  }

  /** A toast removes itself when its duration is positive; a duration of
      0, kept by `??`, disables that. */
  predicate AutoRemoves(t: Toast)
  {
    t.duration != 0 && t.duration > 0
  }

  lemma AutoRemoveDefault(id: nat, o: Options)
    ensures AutoRemoves(NewToast(id, o)) <==> o.duration.None? || o.duration.value > 0
  {
  }

  function HapticFor(k: Kind): Haptic
  {
    match k
    case Success => SuccessPulse
    case Error => ErrorPulse
    case Warning => WarningPulse
    case Info => LightPulse
  }

  /** Ids strictly increase along the list. */
  predicate IdsIncreasing(ts: seq<Toast>)
  {
    forall i, j :: 0 <= i < j < |ts| ==> ts[i].id < ts[j].id
  }

  /** `findIndex(t => t.id === id)`, with `None` for -1. */
  function FindIndex(ts: seq<Toast>, id: nat): (r: Option<nat>)
    ensures r.None? <==> forall i :: 0 <= i < |ts| ==> ts[i].id != id
    ensures r.Some? ==>
      (r.value < |ts| && ts[r.value].id == id && forall i :: 0 <= i < r.value ==> ts[i].id != id)
  {
    if ts == [] then None
    else if ts[0].id == id then Some(0)
    else
      var rest := FindIndex(ts[1..], id);
      if rest.Some? then Some(rest.value + 1) else None
  }

  /** `toasts.value[index].show = false`. */
  function Hide(ts: seq<Toast>, i: nat): (r: seq<Toast>)
    requires i < |ts|
    ensures |r| == |ts| && !r[i].show
    ensures forall j :: 0 <= j < |ts| ==> r[j].id == ts[j].id
    ensures forall j :: 0 <= j < |ts| && j != i ==> r[j] == ts[j]
  {
    ts[i := ts[i].(show := false)]
  }

  /** `toasts.value.splice(index, 1)`: an index past the end removes nothing. */
  function SpliceAt(ts: seq<Toast>, i: nat): (r: seq<Toast>)
    ensures i < |ts| ==> |r| == |ts| - 1 && r[..i] == ts[..i] && r[i..] == ts[i + 1..]
    ensures i >= |ts| ==> r == ts
  {
    if i < |ts| then ts[..i] + ts[i + 1..] else ts
  }

  /** The removal as intended: the toast with that id leaves the list. */
  function WithoutId(ts: seq<Toast>, id: nat): (r: seq<Toast>)
    ensures forall t :: t in r <==> t in ts && t.id != id
    ensures |r| <= |ts|
  {
    if ts == [] then []
    else if ts[0].id == id then WithoutId(ts[1..], id)
    else [ts[0]] + WithoutId(ts[1..], id)
  }

  lemma {:induction false} WithoutIdKeepsOrder(ts: seq<Toast>, id: nat)
    requires IdsIncreasing(ts)
    ensures IdsIncreasing(WithoutId(ts, id))
    decreases |ts|
  {
    if ts != [] {
      WithoutIdKeepsOrder(ts[1..], id);
      var rest := WithoutId(ts[1..], id);
      forall t | t in rest ensures ts[0].id < t.id {
        var j :| 0 <= j < |ts[1..]| && ts[1..][j] == t;
        assert ts[j + 1] == t;
      }
    }
  }

  /** Two removals by id give the same list in either order. */
  lemma {:induction false} WithoutIdCommutes(ts: seq<Toast>, a: nat, b: nat)
    ensures WithoutId(WithoutId(ts, a), b) == WithoutId(WithoutId(ts, b), a)
    decreases |ts|
  {
    if ts != [] {
      WithoutIdCommutes(ts[1..], a, b);
    }
  }

  /** The splice as written removes whatever sits at the index captured
      when `remove` ran. Two toasts removed within the same 300 ms shift
      each other: after `remove(0)` and `remove(1)` on toasts 0, 1, 2, the
      two splices take out toasts 0 and 2, so hidden toast 1 stays in the
      list and visible toast 2 disappears. */
  lemma CapturedIndexShifts()
    ensures var ts := [ToastA, ToastB, ToastC];
      && FindIndex(ts, 0) == Some(0) && FindIndex(Hide(ts, 0), 1) == Some(1)
      && SpliceAt(SpliceAt(Hide(Hide(ts, 0), 1), 0), 1) == [ToastB.(show := false)]
      && WithoutId(WithoutId(Hide(Hide(ts, 0), 1), 0), 1) == [ToastC]
  {
    BothHidden();
    SplicesAsWritten();
    RemovalsIntended();
  }

  /** Hiding toast 0 and then toast 1; each is found at its own index. */
  lemma BothHidden()
    ensures var ts := [ToastA, ToastB, ToastC];
      && FindIndex(ts, 0) == Some(0) && FindIndex(Hide(ts, 0), 1) == Some(1)
      && Hide(Hide(ts, 0), 1) == [ToastA.(show := false), ToastB.(show := false), ToastC]
  {
    var ts := [ToastA, ToastB, ToastC];
    assert Hide(ts, 0) == [ToastA.(show := false), ToastB, ToastC];
    assert FindIndex(Hide(ts, 0), 1) == Some(1) by {
      assert Hide(ts, 0)[0].id == 0 && Hide(ts, 0)[1].id == 1;
    }
  }

  lemma SplicesAsWritten()
    ensures SpliceAt(SpliceAt([ToastA.(show := false), ToastB.(show := false), ToastC], 0), 1) == [ToastB.(show := false)]
  {
    var spliced := SpliceAt([ToastA.(show := false), ToastB.(show := false), ToastC], 0);
    assert spliced == [ToastB.(show := false), ToastC];
  }

  lemma RemovalsIntended()
    ensures WithoutId(WithoutId([ToastA.(show := false), ToastB.(show := false), ToastC], 0), 1) == [ToastC]
  {
    var tail := [ToastC];
    assert WithoutId(tail, 0) == tail && WithoutId(tail, 1) == tail;
    WithoutIdCons(ToastB.(show := false), tail, 0);
    WithoutIdCons(ToastA.(show := false), [ToastB.(show := false)] + tail, 0);
    WithoutIdCons(ToastB.(show := false), tail, 1);
  }

  lemma WithoutIdCons(t: Toast, ts: seq<Toast>, id: nat)
    ensures WithoutId([t] + ts, id) == if t.id == id then WithoutId(ts, id) else [t] + WithoutId(ts, id)
  {
    assert ([t] + ts)[1..] == ts;
  }

  const ToastA := Toast(0, true, Info, None, "a", 3000)
  const ToastB := Toast(1, true, Info, None, "b", 3000)
  const ToastC := Toast(2, true, Info, None, "c", 3000)

  class Toaster {
    var toasts: seq<Toast>
    var nextId: nat

    /** Ids grow along the list and are all below the next one to give out. */
    predicate Valid()
      reads this
    {
      IdsIncreasing(toasts) && forall t :: t in toasts ==> t.id < nextId
    }

    constructor ()
      ensures Valid() && toasts == [] && nextId == 0
    {
      toasts := [];
      nextId := 0;
    }

    /** `show`: the new toast takes `nextId` and goes at the end. */
    method Show(o: Options) returns (id: nat, autoRemove: bool, haptic: Haptic)
      requires Valid()
      modifies this
      ensures Valid()
      ensures id == old(nextId) && nextId == id + 1
      ensures toasts == old(toasts) + [NewToast(id, o)]
      ensures autoRemove == AutoRemoves(NewToast(id, o))
      ensures haptic == HapticFor(NewToast(id, o).kind)
    {
      id := nextId;
      nextId := nextId + 1;
      var toast := NewToast(id, o);
      toasts := toasts + [toast];
      haptic := HapticFor(toast.kind);
      autoRemove := toast.duration != 0 && toast.duration > 0;
    }

    method ShowAs(kind: Kind, message: string, title: Option<string>, duration: Option<int>)
      returns (id: nat, autoRemove: bool, haptic: Haptic)
      requires Valid()
      modifies this
      ensures Valid()
      ensures id == old(nextId) && nextId == id + 1
      ensures toasts == old(toasts) + [NewToast(id, Options(Some(kind), title, message, duration))]
      ensures autoRemove == AutoRemoves(NewToast(id, Options(Some(kind), title, message, duration)))
      ensures haptic == HapticFor(kind)
    {
      id, autoRemove, haptic := Show(Options(Some(kind), title, message, duration));
    }

    /** `remove`: an absent id changes nothing; otherwise the toast is hidden
        and its index captured for the splice 300 ms later. */
    method Remove(id: nat) returns (captured: Option<nat>)
      requires Valid()
      modifies this
      ensures Valid() && nextId == old(nextId)
      ensures captured == FindIndex(old(toasts), id)
      ensures captured.None? ==> toasts == old(toasts)
      ensures captured.Some? ==> toasts == Hide(old(toasts), captured.value)
    {
      captured := FindIndex(toasts, id);
      if captured.Some? {
        toasts := Hide(toasts, captured.value);
      }
    }

    /** The removal timer as written: splice at the captured index. */
    method SpliceCaptured(index: nat)
      requires Valid()
      modifies this
      ensures Valid() && nextId == old(nextId)
      ensures toasts == SpliceAt(old(toasts), index)
    {
      if index < |toasts| {
        toasts := toasts[..index] + toasts[index + 1..];
      }
    }

    /** The removal timer as intended: the toast with that id leaves. */
    method FinishRemoval(id: nat)
      requires Valid()
      modifies this
      ensures Valid() && nextId == old(nextId)
      ensures toasts == WithoutId(old(toasts), id)
    {
      WithoutIdKeepsOrder(toasts, id);
      toasts := WithoutId(toasts, id);
    }
  }
}

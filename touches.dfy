/** The list of active pointers (fingers and the mouse) that the synthesiser
    reads every block: each touch ramps a fricative envelope up while it is
    held and down after it is released, and is forgotten one second after
    release. */
module Touches {
  import opened Numeric

  /** Attack and release time of the fricative envelope, in seconds. */
  const FricativeAttackTime: real := 0.1
  /** How long a released touch is kept in the list, in seconds. */
  const Grace: real := 1.0

  /** One pointer. Its fields are updated in place by the event handlers and
      by `TouchTracker.UpdateTouches`; the glottis and the tract controls hold
      references to the same objects. `index`/`diameter` are the tract
      coordinates of (`x`, `y`). */
  class Touch {
    var id: int
    var x: real
    var y: real
    var index: real
    var diameter: real
    var alive: bool
    var startTime: real
    var endTime: real
    var fricativeIntensity: real

    /** A freshly pressed touch, as the touch-start handlers build it. */
    constructor (id: int, x: real, y: real, index: real, diameter: real, time: real)
      ensures this.id == id && this.x == x && this.y == y
      ensures this.index == index && this.diameter == diameter
      ensures alive && startTime == time && endTime == 0.0 && fricativeIntensity == 0.0
    {
      this.id := id;
      this.x := x;
      this.y := y;
      this.index := index;
      this.diameter := diameter;
      alive := true;
      startTime := time;
      endTime := 0.0;
      fricativeIntensity := 0.0;
    }
  }

  /** A released touch whose grace second is over. */
  predicate Expired(alive: bool, endTime: real, time: real) {
    !alive && time > endTime + Grace
  }

  /** The fricative envelope: a 0.1 s linear attack while held, a 0.1 s
      linear release after the touch ends. */
  function FricativeIntensity(alive: bool, startTime: real, endTime: real, time: real): (r: real)
    ensures 0.0 <= r <= 1.0
    ensures alive && time - startTime >= FricativeAttackTime ==> r == 1.0
    ensures alive && time <= startTime ==> r == 0.0
    ensures !alive && time - endTime >= FricativeAttackTime ==> r == 0.0
    ensures !alive && time <= endTime ==> r == 1.0
  {
    if alive then Clamp((time - startTime) / FricativeAttackTime, 0.0, 1.0)
    else Clamp(1.0 - (time - endTime) / FricativeAttackTime, 0.0, 1.0)
  }

  /** Which touches of `ts` have expired at `time`, read off their fields. */
  function Expirations(ts: seq<Touch>, time: real): (ex: seq<bool>)
    reads (set t | t in ts)`alive, (set t | t in ts)`endTime
    ensures |ex| == |ts|
    ensures forall i :: 0 <= i < |ts| ==> ex[i] == Expired(ts[i].alive, ts[i].endTime, time)
  {
    if ts == [] then []
    else
      var rest := Expirations(ts[1..], time);
      assert forall i :: 1 <= i < |ts| ==> ts[1..][i - 1] == ts[i];
      [Expired(ts[0].alive, ts[0].endTime, time)] + rest
  }

  /** The fricative envelope of every touch of `ts` at `time`. */
  function Intensities(ts: seq<Touch>, time: real): (fi: seq<real>)
    reads (set t | t in ts)`alive, (set t | t in ts)`startTime, (set t | t in ts)`endTime
    ensures |fi| == |ts|
    ensures forall i :: 0 <= i < |ts| ==>
      fi[i] == FricativeIntensity(ts[i].alive, ts[i].startTime, ts[i].endTime, time)
  {
    if ts == [] then []
    else
      var rest := Intensities(ts[1..], time);
      assert forall i :: 1 <= i < |ts| ==> ts[1..][i - 1] == ts[i];
      [FricativeIntensity(ts[0].alive, ts[0].startTime, ts[0].endTime, time)] + rest
  }

  /** The touches of `ts` whose `expired` flag is down, in their original order. */
  function Unexpired(ts: seq<Touch>, expired: seq<bool>): (r: seq<Touch>)
    requires |expired| == |ts|
    ensures |r| <= |ts|
  {
    if ts == [] then []
    else (if expired[0] then [] else [ts[0]]) + Unexpired(ts[1..], expired[1..])
  }

  /** The touches that `UpdateTouches` keeps. */
  function Kept(ts: seq<Touch>, time: real): (r: seq<Touch>)
    reads (set t | t in ts)`alive, (set t | t in ts)`endTime
  {
    Unexpired(ts, Expirations(ts, time))
  }

  /** Filtering distributes over concatenation, so order is preserved. */
  lemma {:induction false} UnexpiredAppend(a: seq<Touch>, ea: seq<bool>, b: seq<Touch>, eb: seq<bool>)
    requires |ea| == |a| && |eb| == |b|
    ensures Unexpired(a + b, ea + eb) == Unexpired(a, ea) + Unexpired(b, eb)
  {
    if a == [] {
      assert a + b == b && ea + eb == eb;
    } else {
      var head := if ea[0] then [] else [a[0]];
      assert (a + b)[0] == a[0] && (a + b)[1..] == a[1..] + b;
      assert (ea + eb)[0] == ea[0] && (ea + eb)[1..] == ea[1..] + eb;
      UnexpiredAppend(a[1..], ea[1..], b, eb);
      assert head + (Unexpired(a[1..], ea[1..]) + Unexpired(b, eb)) ==
        (head + Unexpired(a[1..], ea[1..])) + Unexpired(b, eb);
    }
  }

  lemma KeptAppend(a: seq<Touch>, b: seq<Touch>, time: real)
    ensures Kept(a + b, time) == Kept(a, time) + Kept(b, time)
  {
    assert Expirations(a + b, time) == Expirations(a, time) + Expirations(b, time);
    UnexpiredAppend(a, Expirations(a, time), b, Expirations(b, time));
  }

  /** Exactly the touches whose flag is down are kept. */
  lemma {:induction false} UnexpiredExactly(ts: seq<Touch>, expired: seq<bool>, t: Touch)
    requires |expired| == |ts|
    ensures t in Unexpired(ts, expired) <==> exists i :: 0 <= i < |ts| && ts[i] == t && !expired[i]
  {
    if ts != [] {
      UnexpiredExactly(ts[1..], expired[1..], t);
      if exists i :: 1 <= i < |ts| && ts[i] == t && !expired[i] {
        var i :| 1 <= i < |ts| && ts[i] == t && !expired[i];
        assert ts[1..][i - 1] == t && !expired[1..][i - 1];
      }
    }
  }

  /** Exactly the touches that have not expired are kept. */
  lemma KeptExactly(ts: seq<Touch>, time: real, t: Touch)
    ensures t in Kept(ts, time) <==> t in ts && !Expired(t.alive, t.endTime, time)
  {
    UnexpiredExactly(ts, Expirations(ts, time), t);
  }

  /** One backward step of `updateTouches` on the list: dropping or keeping
      the touch at `j` extends the filtered suffix by that touch's verdict. */
  lemma SpliceStep(ts: seq<Touch>, ex: seq<bool>, j: int)
    requires |ex| == |ts| && 0 <= j < |ts|
    ensures var cur := ts[..j + 1] + Unexpired(ts[j + 1..], ex[j + 1..]);
      var next := ts[..j] + Unexpired(ts[j..], ex[j..]);
      (ex[j] ==> cur[..j] + cur[j + 1..] == next) && (!ex[j] ==> cur == next)
  {
    var rest := Unexpired(ts[j + 1..], ex[j + 1..]);
    var cur := ts[..j + 1] + rest;
    assert ts[j..][1..] == ts[j + 1..] && ex[j..][1..] == ex[j + 1..];
    if ex[j] {
      assert cur[..j] == ts[..j];
      assert cur[j + 1..] == rest;
    } else {
      assert ts[..j + 1] == ts[..j] + [ts[j]];
    }
  }

  /** `UIClass`: owns the list of touches (`touchesWithMouse`). */
  class TouchTracker {
    var touchesWithMouse: seq<Touch>

    constructor ()
      ensures touchesWithMouse == []
    {
      touchesWithMouse := [];
    }

    /** Alive touches carry distinct identifiers (the platform reuses an
        identifier only after its touch ended). */
    ghost predicate DistinctAliveIds()
      reads this, touchesWithMouse
    {
      forall i, j :: 0 <= i < j < |touchesWithMouse| && touchesWithMouse[i].alive && touchesWithMouse[j].alive
        ==> touchesWithMouse[i].id != touchesWithMouse[j].id
    }

    /** The push at the end of the touch-start handlers. */
    method AddTouch(t: Touch)
      modifies this
      ensures touchesWithMouse == old(touchesWithMouse) + [t]
    {
      touchesWithMouse := touchesWithMouse + [t];
    }

    /** `getTouchById`: the first alive touch with the identifier, or null. */
    method GetTouchById(id: int) returns (t: Touch?)
      ensures t == null <==> forall k :: 0 <= k < |touchesWithMouse| ==>
        !(touchesWithMouse[k].id == id && touchesWithMouse[k].alive)
      ensures t != null ==> t.id == id && t.alive && exists k :: (
        0 <= k < |touchesWithMouse| && touchesWithMouse[k] == t &&
        forall m :: 0 <= m < k ==> !(touchesWithMouse[m].id == id && touchesWithMouse[m].alive))
    {
      var j := 0;
      while j < |touchesWithMouse|
        invariant 0 <= j <= |touchesWithMouse|
        invariant forall m :: 0 <= m < j ==> !(touchesWithMouse[m].id == id && touchesWithMouse[m].alive)
      {
        if touchesWithMouse[j].id == id && touchesWithMouse[j].alive {
          return touchesWithMouse[j];
        }
        j := j + 1;
      }
      return null;
    }

    /** The list effect of `endTouches`: every alive touch whose identifier
        was released becomes dead with `endTime = time`; nothing else changes. */
    method EndTouches(ids: seq<int>, time: real)
      requires DistinctAliveIds()
      modifies (set t | t in touchesWithMouse)`alive, (set t | t in touchesWithMouse)`endTime
      ensures DistinctAliveIds()
      ensures forall t :: t in touchesWithMouse ==>
        t.alive == (old(t.alive) && t.id !in ids) &&
        t.endTime == (if old(t.alive) && t.id in ids then time else old(t.endTime))
    {
      var j := 0;
      while j < |ids|
        invariant 0 <= j <= |ids|
        invariant DistinctAliveIds()
        invariant forall t :: t in touchesWithMouse ==>
          t.alive == (old(t.alive) && t.id !in ids[..j]) &&
          t.endTime == (if old(t.alive) && t.id in ids[..j] then time else old(t.endTime))
      {
        var t := GetTouchById(ids[j]);
        assert ids[..j + 1] == ids[..j] + [ids[j]];
        if t != null {
          t.alive := false;
          t.endTime := time;
        }
        j := j + 1;
      }
      assert ids[..j] == ids;
    }

    /** `updateTouches`: walk the list backwards, splice out every touch
        released more than a second ago and refresh the fricative envelope
        of every other one. */
    method UpdateTouches(time: real)
      modifies this`touchesWithMouse, (set t | t in touchesWithMouse)`fricativeIntensity
      ensures touchesWithMouse == old(Kept(touchesWithMouse, time))
      ensures forall t :: t in touchesWithMouse ==>
        t.fricativeIntensity == FricativeIntensity(t.alive, t.startTime, t.endTime, time)
    {
      ghost var ts := touchesWithMouse;
      ghost var ex := Expirations(ts, time);
      ghost var fi := Intensities(ts, time);
      var j := |touchesWithMouse| - 1;
      while j >= 0
        invariant -1 <= j < |ts|
        invariant touchesWithMouse == ts[..j + 1] + Unexpired(ts[j + 1..], ex[j + 1..])
        invariant forall i :: j < i < |ts| && !ex[i] ==> ts[i].fricativeIntensity == fi[i]
      {
        assert (ts[..j + 1] + Unexpired(ts[j + 1..], ex[j + 1..]))[j] == ts[j];
        SpliceStep(ts, ex, j);
        assert ex[j] == Expired(ts[j].alive, ts[j].endTime, time);
        assert fi[j] == FricativeIntensity(ts[j].alive, ts[j].startTime, ts[j].endTime, time);
        UpdateTouchAt(j, time, ex[j], fi[j]);
        j := j - 1;
      }
      assert ts[0..] == ts && ex[0..] == ex;
      forall t | t in touchesWithMouse
        ensures t.fricativeIntensity == FricativeIntensity(t.alive, t.startTime, t.endTime, time)
      {
        UnexpiredExactly(ts, ex, t);
      }
    }

    /** One pass of the loop of `updateTouches`, at position `j`: the touch
        there is spliced out if it has expired, otherwise its envelope is
        refreshed. `expired` and `intensity` are that touch's verdict and
        envelope at `time`. */
    method UpdateTouchAt(j: int, time: real, ghost expired: bool, ghost intensity: real)
      requires 0 <= j < |touchesWithMouse|
      requires var t := touchesWithMouse[j];
        expired == Expired(t.alive, t.endTime, time) &&
        intensity == FricativeIntensity(t.alive, t.startTime, t.endTime, time)
      modifies this`touchesWithMouse, {touchesWithMouse[j]}`fricativeIntensity
      ensures expired ==> touchesWithMouse == old(touchesWithMouse[..j] + touchesWithMouse[j + 1..])
      ensures expired ==> unchanged(old(touchesWithMouse[j]))
      ensures !expired ==> touchesWithMouse == old(touchesWithMouse)
      ensures !expired ==> old(touchesWithMouse[j]).fricativeIntensity == intensity
    {
      var touch := touchesWithMouse[j];
      if !touch.alive && time > touch.endTime + Grace {
        touchesWithMouse := touchesWithMouse[..j] + touchesWithMouse[j + 1..];
      } else {
        touch.fricativeIntensity := FricativeIntensity(touch.alive, touch.startTime, touch.endTime, time);
      }
    }
  }
}

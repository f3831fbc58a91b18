/** How an obstacle pushes a player out: the overlap test and the one push per collision of
    ecs/src/systems/CollisionSystem.cpp, over exact numbers. */
module PushOut {

  datatype Box = Box(x: real, y: real, w: real, h: real)

  predicate Solid(b: Box) {
    b.w > 0.0 && b.h > 0.0
  }

  /** `CheckAABBCollision`. */
  predicate Overlaps(a: Box, b: Box) {
    Meets(a.x, a.w, b.x, b.w) && Meets(a.y, a.h, b.y, b.h)
  }

  predicate Meets(a: real, aw: real, b: real, bw: real) {
    a < b + bw && a + aw > b
  }

  function Min(a: real, b: real): real { if b < a then b else a }
  function Max(a: real, b: real): real { if a < b then b else a }

  function Overlap(p: real, pw: real, o: real, ow: real): real {
    Min(p + pw, o + ow) - Max(p, o)
  }

  /** The player coordinate after one push along this axis. */
  function Shift(p: real, pw: real, o: real, ow: real): real {
    if p < o then p - Overlap(p, pw, o, ow) else p + Overlap(p, pw, o, ow)
  }

  predicate PushesAlongX(p: Box, o: Box) {
    Overlap(p.x, p.w, o.x, o.w) < Overlap(p.y, p.h, o.y, o.h)
  }

  /** The player's box after one collision with obstacle `o`. */
  function Push(p: Box, o: Box): Box {
    if PushesAlongX(p, o) then p.(x := Shift(p.x, p.w, o.x, o.w)) else p.(y := Shift(p.y, p.h, o.y, o.h))
  }

  function Pushes(p: Box, o: Box, n: nat): Box
    decreases n
  {
    if n == 0 then p else Pushes(Push(p, o), o, n - 1)
  }

  // One axis.

  /** How far the player's far edge is from being level with the obstacle's far edge, on the
      side the player is pushed away from. */
  function Excess(p: real, pw: real, o: real, ow: real): real {
    if p < o then (p + pw) - (o + ow) else (o + ow) - (p + pw)
  }

  /** How far one push moves while the excess is positive: the length of the inner interval. */
  function Stride(p: real, pw: real, o: real, ow: real): real {
    if p < o then ow else pw
  }

  function Ceiling(r: real): int {
    -((-r).Floor)
  }

  /** The number of pushes this axis needs. */
  function PushCount(p: real, pw: real, o: real, ow: real): (n: int)
    requires pw > 0.0 && ow > 0.0
  {
    var e := Excess(p, pw, o, ow);
    if e <= 0.0 then 1 else 1 + Ceiling(e / Stride(p, pw, o, ow))
  }

  /** Flush against the obstacle, on the side the player came from. */
  predicate Flush(left: bool, p: real, pw: real, o: real, ow: real) {
    if left then p + pw == o else p == o + ow
  }

  /** A single push separates the two intervals exactly when the player's does not reach past
      the obstacle's (pushed left) or stop short of its end (pushed right). */
  lemma ShiftSeparates(p: real, pw: real, o: real, ow: real)
    requires pw > 0.0 && ow > 0.0 && Meets(p, pw, o, ow)
    ensures !Meets(Shift(p, pw, o, ow), pw, o, ow) <==> Excess(p, pw, o, ow) <= 0.0
    ensures Excess(p, pw, o, ow) <= 0.0 ==> Flush(p < o, Shift(p, pw, o, ow), pw, o, ow)
  {
  }

  lemma SameFactor(a: real, b: real, w: real)
    requires w > 0.0 && a * w == b * w
    ensures a == b
  {
    assert (a - b) * w == 0.0;
  }

  lemma CeilingStep(e: real, w: real)
    requires e > 0.0 && w > 0.0
    ensures Ceiling(e / w) >= 1
    ensures e > w ==> Ceiling((e - w) / w) == Ceiling(e / w) - 1
    ensures e <= w ==> Ceiling(e / w) == 1
  {
    var q := e / w;
    assert q * w == e;
    var r := (e - w) / w;
    assert r * w == e - w == (q - 1.0) * w;
    SameFactor(r, q - 1.0, w);
    if e <= w && q > 1.0 {
      assert q * w > w;
    }
    if e > w && q <= 1.0 {
      assert q * w <= w;
    }
  }

  /** A push that does not separate takes one off the count, keeps the side, moves by the
      stride and does not deepen the overlap. */
  lemma ShiftProgress(p: real, pw: real, o: real, ow: real)
    requires pw > 0.0 && ow > 0.0 && Meets(p, pw, o, ow) && Excess(p, pw, o, ow) > 0.0
    ensures var p' := Shift(p, pw, o, ow);
      && Meets(p', pw, o, ow) && (p' < o <==> p < o)
      && 1 <= PushCount(p', pw, o, ow) == PushCount(p, pw, o, ow) - 1
      && 0.0 < Overlap(p', pw, o, ow) <= Overlap(p, pw, o, ow)
  {
    var e, w := Excess(p, pw, o, ow), Stride(p, pw, o, ow);
    CeilingStep(e, w);
    assert Excess(Shift(p, pw, o, ow), pw, o, ow) == e - w;
    if e > w {
      CeilingStep(e - w, w);
    }
  }

  // Both axes.

  function PushesNeeded(p: Box, o: Box): int
    requires Solid(p) && Solid(o)
  {
    if PushesAlongX(p, o) then PushCount(p.x, p.w, o.x, o.w) else PushCount(p.y, p.h, o.y, o.h)
  }

  predicate FlushOnAxis(alongX: bool, start: Box, p: Box, o: Box) {
    if alongX then p.y == start.y && Flush(start.x < o.x, p.x, p.w, o.x, o.w)
    else p.x == start.x && Flush(start.y < o.y, p.y, p.h, o.y, o.h)
  }

  lemma OnePush(p: Box, o: Box)
    requires Solid(p) && Solid(o) && Overlaps(p, o)
    ensures !Overlaps(Push(p, o), o) <==> PushesNeeded(p, o) == 1
    ensures PushesNeeded(p, o) >= 1
    ensures PushesNeeded(p, o) == 1 ==> FlushOnAxis(PushesAlongX(p, o), p, Push(p, o), o)
    ensures PushesNeeded(p, o) > 1 ==>
      var p' := Push(p, o);
      && PushesAlongX(p', o) == PushesAlongX(p, o)
      && PushesNeeded(p', o) == PushesNeeded(p, o) - 1
      && (if PushesAlongX(p, o) then p'.y == p.y && (p'.x < o.x <==> p.x < o.x)
          else p'.x == p.x && (p'.y < o.y <==> p.y < o.y))
  {
    if PushesAlongX(p, o) {
      ShiftSeparates(p.x, p.w, o.x, o.w);
      if Excess(p.x, p.w, o.x, o.w) > 0.0 {
        ShiftProgress(p.x, p.w, o.x, o.w);
      }
    } else {
      ShiftSeparates(p.y, p.h, o.y, o.h);
      if Excess(p.y, p.h, o.y, o.h) > 0.0 {
        ShiftProgress(p.y, p.h, o.y, o.h);
      }
    }
  }

  /** A single push separates an overlapping player from an obstacle exactly when, on the axis
      of the push, neither interval contains the other on the side pushed from. */
  lemma SinglePushSeparates(p: Box, o: Box)
    requires Solid(p) && Solid(o) && Overlaps(p, o)
    ensures !Overlaps(Push(p, o), o) <==>
      (if PushesAlongX(p, o) then !(if p.x < o.x then p.x + p.w > o.x + o.w else p.x + p.w < o.x + o.w)
       else !(if p.y < o.y then p.y + p.h > o.y + o.h else p.y + p.h < o.y + o.h))
  {
    if PushesAlongX(p, o) {
      ShiftSeparates(p.x, p.w, o.x, o.w);
    } else {
      ShiftSeparates(p.y, p.h, o.y, o.h);
    }
  }

  /** Repeated pushes against a fixed obstacle: after exactly `PushesNeeded` of them, and not
      before, the player stands clear of it; all go along the axis of the first and to the
      same side, and the player ends flush with the obstacle's edge. */
  lemma {:induction false} PushesConverge(p: Box, o: Box)
    requires Solid(p) && Solid(o) && Overlaps(p, o)
    ensures var n := PushesNeeded(p, o);
      && n >= 1
      && !Overlaps(Pushes(p, o, n), o)
      && FlushOnAxis(PushesAlongX(p, o), p, Pushes(p, o, n), o)
      && forall k: nat :: k < n ==>
           Overlaps(Pushes(p, o, k), o) && PushesAlongX(Pushes(p, o, k), o) == PushesAlongX(p, o)
    decreases PushesNeeded(p, o)
  {
    var n := PushesNeeded(p, o);
    OnePush(p, o);
    var q := Push(p, o);
    assert Pushes(p, o, 1) == Pushes(q, o, 0) == q;
    if n > 1 {
      PushesConverge(q, o);
      forall k: nat | k < n
        ensures Overlaps(Pushes(p, o, k), o) && PushesAlongX(Pushes(p, o, k), o) == PushesAlongX(p, o)
      {
        if k > 0 {
          assert Pushes(p, o, k) == Pushes(q, o, k - 1);
        }
      }
    }
  }
}

/**
 * Pointer normalisation of `handleMouseMove` in src/LightPillar.jsx: client
 * pixel coordinates become coordinates in [-1, 1], x growing to the right and
 * y growing upwards (screen y is inverted).
 */
module Pointer {

  datatype Vec2 = Vec2(x: real, y: real)

  /** The pointer vector a fresh component starts with. */
  const Origin := Vec2(0.0, 0.0)

  /** `x = clientX / innerWidth * 2 - 1`, `y = -(clientY / innerHeight) * 2 + 1`. */
  function Normalise(clientX: real, clientY: real, width: real, height: real): (v: Vec2)
    requires width > 0.0 && height > 0.0
    ensures 0.0 <= clientX <= width ==> -1.0 <= v.x <= 1.0
    ensures 0.0 <= clientY <= height ==> -1.0 <= v.y <= 1.0
    ensures clientX == 0.0 ==> v.x == -1.0
    ensures clientX == width ==> v.x == 1.0
    ensures clientY == 0.0 ==> v.y == 1.0
    ensures clientY == height ==> v.y == -1.0
  {
    var fx, fy := clientX / width, clientY / height;
    UnitFraction(clientX, width);
    UnitFraction(clientY, height);
    Vec2(fx * 2.0 - 1.0, -fy * 2.0 + 1.0)
  }

  lemma UnitFraction(c: real, w: real)
    requires w > 0.0
    ensures (c / w) * w == c
    ensures 0.0 <= c <= w ==> 0.0 <= c / w <= 1.0
  {
  }

  /** The client coordinates a normalised vector came from. */
  function Denormalise(v: Vec2, width: real, height: real): (c: (real, real)) {
    ((v.x + 1.0) / 2.0 * width, (1.0 - v.y) / 2.0 * height)
  }

  /** Normalisation loses nothing: the client position is recovered exactly. */
  lemma NormaliseRoundTrip(clientX: real, clientY: real, width: real, height: real)
    requires width > 0.0 && height > 0.0
    ensures Denormalise(Normalise(clientX, clientY, width, height), width, height) == (clientX, clientY)
  {
    var v := Normalise(clientX, clientY, width, height);
    var fx, fy := clientX / width, clientY / height;
    assert (v.x + 1.0) / 2.0 == fx && (1.0 - v.y) / 2.0 == fy;
    UnitFraction(clientX, width);
    UnitFraction(clientY, height);
    assert Denormalise(v, width, height).0 == clientX;
    assert Denormalise(v, width, height).1 == clientY;
  }

  /** Moving the pointer down the screen moves y down; moving it right moves x right. */
  lemma NormaliseMonotone(x1: real, y1: real, x2: real, y2: real, width: real, height: real)
    requires width > 0.0 && height > 0.0
    requires x1 <= x2 && y1 <= y2
    ensures Normalise(x1, y1, width, height).x <= Normalise(x2, y2, width, height).x
    ensures Normalise(x1, y1, width, height).y >= Normalise(x2, y2, width, height).y
  {
    DivMonotone(x1, x2, width);
    DivMonotone(y1, y2, height);
  }

  lemma DivMonotone(c1: real, c2: real, w: real)
    requires w > 0.0 && c1 <= c2
    ensures c1 / w <= c2 / w
  {
  }
}

/** GetProperFloristForClient of HW5: the nearest florist that sells the flower. */
module FloristChoice {

  datatype Florist = Florist(x: int, y: int, flowers: seq<string>)

  function Square(d: int): nat { d * d }

  function SquaredDistance(x1: int, y1: int, x2: int, y2: int): nat {
    Square(x2 - x1) + Square(y2 - y1)
  }

  /** What makes it the square of the Euclidean distance: it does not change if both points
      are moved, swapped, or turned by a quarter, it obeys the parallelogram law, and the
      triangle with sides 3, 4 and 5 has a right angle. */
  lemma SquaredDistanceIsEuclidean(x1: int, y1: int, x2: int, y2: int, a: int, b: int)
    ensures SquaredDistance(x1 + a, y1 + b, x2 + a, y2 + b) == SquaredDistance(x1, y1, x2, y2)
    ensures SquaredDistance(x2, y2, x1, y1) == SquaredDistance(x1, y1, x2, y2)
    ensures SquaredDistance(-y1, x1, -y2, x2) == SquaredDistance(x1, y1, x2, y2)
    ensures SquaredDistance(0, 0, x1 + x2, y1 + y2) + SquaredDistance(0, 0, x1 - x2, y1 - y2)
         == 2 * SquaredDistance(0, 0, x1, y1) + 2 * SquaredDistance(0, 0, x2, y2)
    ensures SquaredDistance(0, 0, 3, 4) == 25
  {
    Parallelogram(x1, x2);
    Parallelogram(y1, y2);
  }

  lemma Parallelogram(a: int, b: int)
    ensures Square(a + b) + Square(a - b) == 2 * Square(a) + 2 * Square(b)
    ensures Square(-a) == Square(a)
  {}

  method GotFlowerOfType(required: string, saleList: seq<string>) returns (found: bool)
    ensures found <==> required in saleList
  {
    for i := 0 to |saleList|
      invariant required !in saleList[..i]
    {
      if required == saleList[i] { return true; }
    }
    return false;
  }

  /** The first of the florists that sell the flower and are nearest by the given measure. */
  ghost predicate IsNearest(request: string, x: int, y: int, florists: seq<Florist>,
                            distance: (int, int, int, int) -> real, index: int)
  {
    && 0 <= index < |florists| && request in florists[index].flowers
    && forall j | 0 <= j < |florists| && request in florists[j].flowers ::
      var best, other := florists[index], florists[j];
      && distance(best.x, best.y, x, y) <= distance(other.x, other.y, x, y)
      && (j < index ==> distance(best.x, best.y, x, y) < distance(other.x, other.y, x, y))
  }

  /** `distance` is what Distance computes, rounding included. */
  method GetProperFlorist(request: string, x: int, y: int, florists: seq<Florist>,
                          distance: (int, int, int, int) -> real)
    returns (index: int)
    ensures index == -1 <==> forall j | 0 <= j < |florists| :: request !in florists[j].flowers
    ensures index != -1 ==> IsNearest(request, x, y, florists, distance, index)
  {
    index := -1;
    var least := 0.0;
    for i := 0 to |florists|
      invariant index == -1 <==> forall j | 0 <= j < i :: request !in florists[j].flowers
      invariant index != -1 ==> IsNearest(request, x, y, florists[..i], distance, index)
      invariant index != -1 ==> least == distance(florists[index].x, florists[index].y, x, y)
    {
      var current := distance(florists[i].x, florists[i].y, x, y);
      var sells := GotFlowerOfType(request, florists[i].flowers);
      // Any distance is less than the infinite one that the program starts with
      if (index == -1 || current < least) && sells {
        least := current;
        index := i;
      }
    }
    assert florists[..|florists|] == florists;
  }

  /** Rounding keeps the order of two distances, but may make them equal. */
  ghost predicate Rounds(distance: (int, int, int, int) -> real) {
    forall x1, y1, x2, y2, x, y :: SquaredDistance(x1, y1, x, y) <= SquaredDistance(x2, y2, x, y) ==>
      distance(x1, y1, x, y) <= distance(x2, y2, x, y)
  }

  /** Whatever the rounding, a seller that is really nearer than the chosen one is one that
      the rounding puts at the same distance, and it comes later in the list. */
  lemma NearestUpToRounding(request: string, x: int, y: int, florists: seq<Florist>,
                            distance: (int, int, int, int) -> real, index: int, j: nat)
    requires IsNearest(request, x, y, florists, distance, index) && Rounds(distance)
    requires j < |florists| && request in florists[j].flowers
    ensures var best, other := florists[index], florists[j];
      SquaredDistance(other.x, other.y, x, y) < SquaredDistance(best.x, best.y, x, y) ==>
        j > index && distance(other.x, other.y, x, y) == distance(best.x, best.y, x, y)
  {
    hide SquaredDistance;
    var best, other := florists[index], florists[j];
    if SquaredDistance(other.x, other.y, x, y) < SquaredDistance(best.x, best.y, x, y) {
      assert distance(other.x, other.y, x, y) <= distance(best.x, best.y, x, y);
    }
  }
}

/** The home page's featured cars. */
module Home {
  import opened Wrappers
  import opened Seqs
  import opened Schema

  /** The first six available cars, in listed order; none before the list has loaded. */
  function FeaturedCars(cars: Option<seq<Car>>): (r: seq<Car>)
    ensures |r| <= 6
    ensures forall i :: 0 <= i < |r| ==> r[i].status == Some(Available)
    ensures cars.None? ==> r == []
    ensures cars.Some? ==> IsSubseq(r, cars.value)
    ensures cars.Some? ==> forall i :: 0 <= i < |cars.value| && cars.value[i].status == Some(Available) && cars.value[i] !in r ==>
      |r| == 6 && IsSubseq(r, cars.value[..i])
  {
    if cars.None? then []
    else
      FilterTakeIsSubseq(cars.value, (c: Car) => c.status == Some(Available), 6);
      FilterTakeFirstAll(cars.value, (c: Car) => c.status == Some(Available), 6);
      Take(Filter(cars.value, (c: Car) => c.status == Some(Available)), 6)
  }

  /** Six cars are featured whenever six are available; otherwise every available car is. */
  lemma {:induction false} FeaturedCount(cars: seq<Car>)
    ensures var n := |Filter(cars, (c: Car) => c.status == Some(Available))|;
      |FeaturedCars(Some(cars))| == (if n < 6 then n else 6)
    ensures |Filter(cars, (c: Car) => c.status == Some(Available))| < 6 ==>
      forall i :: 0 <= i < |cars| && cars[i].status == Some(Available) ==> cars[i] in FeaturedCars(Some(cars))
  {
  }
}

/** The customer car listing: which cars a filter record lets through. */
module CarsPage {
  import opened Wrappers
  import opened Seqs
  import opened Text
  import opened Schema
  import opened CarFilter

  /** The listing's initial filter record. */
  const DefaultFilters := CarFilters("", "all", "all", 0, 5000000, [], false)

  /** The search box matches brand, model or "brand model", ignoring case. */
  predicate MatchesSearch(c: Car, search: string)
    ensures Includes(c.brand, search) ==> MatchesSearch(c, search)
    ensures Includes(c.model, search) ==> MatchesSearch(c, search)
  {
    LowerKeepsIncludes(c.brand, search);
    LowerKeepsIncludes(c.model, search);
    var q := Lower(search);
    Includes(Lower(c.brand), q) || Includes(Lower(c.model), q) || Includes(Lower(c.brand + " " + c.model), q)
  }

  /** Whether the listing keeps car `c` under filter record `f`; an empty search and `"all"` impose nothing. */
  predicate Keep(f: CarFilters, c: Car)
    ensures Keep(f, c) ==> f.minPrice <= c.pricePerDay <= f.maxPrice
    ensures Keep(f, c) && f.availableOnly ==> c.status == Some(Available)
    ensures Keep(f, c) && |f.seats| > 0 ==> c.seats in f.seats
    ensures Keep(f, c) && f.carType != "all" ==> CarTypeName(c.carType) == f.carType
    ensures Keep(f, c) && f.transmission != "all" ==> TransmissionName(c.transmission) == f.transmission
    ensures Keep(f, c) && f.search != "" ==> MatchesSearch(c, f.search)
    ensures f == Cleared ==> (Keep(f, c) <==> 0 <= c.pricePerDay <= PriceCeiling)
  {
    && (f.search != "" ==> MatchesSearch(c, f.search))
    && (f.carType != "all" ==> CarTypeName(c.carType) == f.carType)
    && (f.transmission != "all" ==> TransmissionName(c.transmission) == f.transmission)
    && f.minPrice <= c.pricePerDay <= f.maxPrice
    && (|f.seats| > 0 ==> c.seats in f.seats)
    && (f.availableOnly ==> c.status == Some(Available))
  }

  /** The memoised listing: nothing until the cars have loaded, then the kept cars in fetched order. */
  function FilteredCars(cars: Option<seq<Car>>, f: CarFilters): (r: seq<Car>)
    ensures cars.None? ==> r == []
    ensures cars.Some? ==> IsSubseq(r, cars.value)
    ensures forall i :: 0 <= i < |r| ==> Keep(f, r[i])
    ensures cars.Some? ==> forall i :: 0 <= i < |cars.value| && Keep(f, cars.value[i]) ==> cars.value[i] in r
  {
    if cars.None? then [] else Filter(cars.value, c => Keep(f, c))
  }

  /** With no active filter only the price bounds still apply. */
  lemma InactiveFiltersOnlyBoundPrice(f: CarFilters, c: Car)
    requires !HasActiveFilters(f)
    ensures Keep(f, c) <==> f.minPrice <= c.pricePerDay <= f.maxPrice
  {
  }

  /** The listing starts from the cleared record, which shows every car priced within the slider's range. */
  lemma DefaultsShowPriceBand(cars: seq<Car>)
    ensures DefaultFilters == Cleared
    ensures FilteredCars(Some(cars), DefaultFilters) == Filter(cars, (c: Car) => 0 <= c.pricePerDay <= PriceCeiling)
  {
    FilterSame(cars, c => Keep(DefaultFilters, c), (c: Car) => 0 <= c.pricePerDay <= PriceCeiling);
  }

  /** Lower-casing keeps an occurrence: a substring of `s` lower-cased is a substring of `s` lower-cased. */
  lemma LowerKeepsIncludes(s: string, t: string)
    ensures Includes(s, t) ==> Includes(Lower(s), Lower(t))
  {
    if Includes(s, t) {
      var i :| 0 <= i <= |s| && OccursAt(s, t, i);
      assert s[i..i + |t|] == t;
      assert Lower(s)[i..i + |t|] == Lower(t);
      assert OccursAt(Lower(s), Lower(t), i);
    }
  }

  /** Any piece of a car's brand or model, in any letter case, finds that car. */
  lemma SearchFindsBrandAndModel(c: Car, q: string)
    requires Includes(c.brand, q) || Includes(c.model, q) || Includes(c.brand + " " + c.model, q)
    ensures MatchesSearch(c, q)
    ensures forall q' :: Lower(q') == Lower(q) ==> MatchesSearch(c, q')
  {
    if Includes(c.brand, q) {
      LowerKeepsIncludes(c.brand, q);
    } else if Includes(c.model, q) {
      LowerKeepsIncludes(c.model, q);
    } else {
      LowerKeepsIncludes(c.brand + " " + c.model, q);
    }
  }
}

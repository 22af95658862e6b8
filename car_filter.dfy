/** The customer filter panel: the filter record and the edits the panel makes to it. */
module CarFilter {
  import opened Seqs

  /** The filter record; `carType` and `transmission` hold a type name or `"all"`. */
  datatype CarFilters = CarFilters(
    search: string,
    carType: string,
    transmission: string,
    minPrice: int,
    maxPrice: int,
    seats: seq<int>,
    availableOnly: bool)

  /** Upper end of the price slider, in VND per day. */
  const PriceCeiling := 5000000

  /** The record the "clear filters" button installs. */
  const Cleared := CarFilters("", "all", "all", 0, PriceCeiling, [], false)

  /** Clicking a seat button removes every occurrence of that count if present, otherwise appends it. */
  function ToggleSeat(f: CarFilters, seat: int): (r: CarFilters)
    ensures r == f.(seats := r.seats)
    ensures seat in f.seats ==> r.seats == Filter(f.seats, s => s != seat) && seat !in r.seats
    ensures seat !in f.seats ==> r.seats == f.seats + [seat]
  {
    var newSeats := if seat in f.seats then Filter(f.seats, s => s != seat) else f.seats + [seat];
    f.(seats := newSeats)
  }

  /** Toggling the same seat count twice restores the seat selection when it started out unselected, and its set of counts always. */
  lemma ToggleSeatTwice(f: CarFilters, seat: int)
    ensures seat !in f.seats ==> ToggleSeat(ToggleSeat(f, seat), seat) == f
    ensures (set s | s in ToggleSeat(ToggleSeat(f, seat), seat).seats) == (set s | s in f.seats)
  {
    var once := ToggleSeat(f, seat);
    var p := (s: int) => s != seat;
    if seat !in f.seats {
      FilterConcat(f.seats, [seat], p);
      FilterAll(f.seats, p);
      assert Filter([seat], p) == [];
    } else {
      assert seat !in once.seats;
      var twice := ToggleSeat(once, seat);
      assert twice.seats == once.seats + [seat];
      forall s ensures s in twice.seats <==> s in f.seats {
        if s != seat && s in f.seats {
          var i :| 0 <= i < |f.seats| && f.seats[i] == s;
          assert p(f.seats[i]);
        }
      }
    }
  }

  /** Releasing the price slider installs both ends of the chosen range and nothing else. */
  function CommitPrice(f: CarFilters, lo: int, hi: int): (r: CarFilters)
    ensures r.minPrice == lo && r.maxPrice == hi
    ensures r.(minPrice := f.minPrice, maxPrice := f.maxPrice) == f
  {
    f.(minPrice := lo, maxPrice := hi)
  }

  /** Whether the "clear filters" button is shown. */
  predicate HasActiveFilters(f: CarFilters)
    ensures !HasActiveFilters(f) && f.minPrice >= 0 && f.maxPrice <= PriceCeiling ==> f == Cleared
    ensures HasActiveFilters(f) ==> f != Cleared
  {
    || f.search != ""
    || f.carType != "all"
    || f.transmission != "all"
    || f.minPrice > 0
    || f.maxPrice < PriceCeiling
    || |f.seats| > 0
    || f.availableOnly
  }

  /** Clearing leaves no active filter; any single edit away from it makes one active. */
  lemma ClearedIsInactive(seat: int, lo: int, hi: int)
    ensures !HasActiveFilters(Cleared)
    ensures HasActiveFilters(ToggleSeat(Cleared, seat))
    ensures HasActiveFilters(CommitPrice(Cleared, lo, hi)) <==> lo > 0 || hi < PriceCeiling
  {
  }
}

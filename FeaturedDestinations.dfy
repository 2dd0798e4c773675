/**
 * The destination carousel (src/components/FeaturedDestinations.tsx): a cyclic active index
 * moved by next/prev (buttons, arrow keys and the seven-second timer all call the same two
 * handlers), direct selection by the dots, and a toggle-set of favourite destination ids.
 */
module FeaturedDestinations {
  import opened Seqs

  datatype Destination = Destination(id: int, name: string, description: string, attractions: seq<string>)

  /** The four featured destinations (their image paths are presentation and left out). */
  const Destinations: seq<Destination> := [
    Destination(1, "Paris", "The City of Light", ["Eiffel Tower", "Louvre Museum", "Notre-Dame Cathedral"]),
    Destination(2, "Tokyo", "Where tradition meets future", ["Tokyo Skytree", "Senso-ji Temple", "Shibuya Crossing"]),
    Destination(3, "New York", "The city that never sleeps", ["Statue of Liberty", "Central Park", "Times Square"]),
    Destination(4, "Sydney", "Harbor city paradise", ["Sydney Opera House", "Bondi Beach", "Harbour Bridge"])
  ]

  /** One step forward, taken modulo the number of destinations; the operands are never
      negative, so a truncating remainder and Dafny's Euclidean `%` agree. */
  function NextIndex(i: int, n: int): int
    requires n > 0
  {
    (i + 1) % n
  }

  /** One step back: n is added before taking the remainder, so the operand stays non-negative. */
  function PrevIndex(i: int, n: int): int
    requires n > 0
  {
    (i - 1 + n) % n
  }

  /** Below 2n, reducing modulo n subtracts n at most once. */
  lemma WrapOnce(a: int, n: int)
    requires 0 <= a < 2 * n
    ensures a % n == if a < n then a else a - n
  {
    if a < n {
      assert a == 0 * n + a;
    } else {
      assert a == 1 * n + (a - n);
    }
  }

  /** Both moves stay in [0, n): one step forward or back, wrapping at the ends. */
  lemma StepCases(i: int, n: int)
    requires 0 <= i < n
    ensures NextIndex(i, n) == if i == n - 1 then 0 else i + 1
    ensures PrevIndex(i, n) == if i == 0 then n - 1 else i - 1
    ensures 0 <= NextIndex(i, n) < n && 0 <= PrevIndex(i, n) < n
  {
    WrapOnce(i + 1, n);
    WrapOnce(i - 1 + n, n);
  }

  /** Prev undoes next and next undoes prev. */
  lemma NextPrevInverse(i: int, n: int)
    requires 0 <= i < n
    ensures PrevIndex(NextIndex(i, n), n) == i
    ensures NextIndex(PrevIndex(i, n), n) == i
  {
    StepCases(i, n);
    StepCases(NextIndex(i, n), n);
    StepCases(PrevIndex(i, n), n);
  }

  /** The index after k calls to next. */
  function AdvanceBy(i: int, k: nat, n: int): int
    requires n > 0
  {
    if k == 0 then i else NextIndex(AdvanceBy(i, k - 1, n), n)
  }

  /** Up to n calls to next walk forward and wrap once. */
  lemma {:induction false} AdvanceByValue(i: int, k: nat, n: int)
    requires 0 <= i < n && k <= n
    ensures AdvanceBy(i, k, n) == if i + k < n then i + k else i + k - n
  {
    if k > 0 {
      AdvanceByValue(i, k - 1, n);
      StepCases(AdvanceBy(i, k - 1, n), n);
    }
  }

  /** n calls to next return to the starting destination. */
  lemma FullCycle(i: int, n: int)
    requires 0 <= i < n
    ensures AdvanceBy(i, n, n) == i
  {
    AdvanceByValue(i, n, n);
  }

  function Unequal(id: int): int -> bool { fav => fav != id }

  /** The favourites after `toggleFavorite(id)`: removed when present, appended when absent. */
  function Toggle(favorites: seq<int>, id: int): seq<int> {
    if id in favorites then Filter(favorites, Unequal(id)) else favorites + [id]
  }

  /** Toggling flips the membership of `id`, leaves every other id as it was, and never
      introduces a duplicate. */
  lemma ToggleSpec(favorites: seq<int>, id: int, other: int)
    ensures id in Toggle(favorites, id) <==> id !in favorites
    ensures other != id ==> (other in Toggle(favorites, id) <==> other in favorites)
    ensures Distinct(favorites) ==> Distinct(Toggle(favorites, id))
  {
    if id in favorites {
      FilterMember(favorites, Unequal(id), id);
      FilterMember(favorites, Unequal(id), other);
      if Distinct(favorites) {
        FilterDistinct(favorites, Unequal(id));
      }
    } else if Distinct(favorites) {
      var r := favorites + [id];
      forall i, j | 0 <= i < j < |r| ensures r[i] != r[j] {
        if j == |favorites| {
          assert r[i] == favorites[i];
          assert favorites[i] in favorites;
        }
      }
    }
  }

  /** Toggling the same id twice restores membership of every id; when the id was absent it
      restores the list itself. */
  lemma ToggleTwice(favorites: seq<int>, id: int, x: int)
    ensures x in Toggle(Toggle(favorites, id), id) <==> x in favorites
    ensures id !in favorites ==> Toggle(Toggle(favorites, id), id) == favorites
  {
    ToggleSpec(favorites, id, x);
    ToggleSpec(Toggle(favorites, id), id, x);
    if id !in favorites {
      FilterConcat(favorites, [id], Unequal(id));
      forall i | 0 <= i < |favorites| ensures Unequal(id)(favorites[i]) {
        assert favorites[i] in favorites;
      }
      FilterKeepsAll(favorites, Unequal(id));
    }
  }

  /** The carousel's state fields. */
  class Carousel {
    var activeIndex: int
    var favorites: seq<int>

    ghost predicate Valid()
      reads this
    {
      0 <= activeIndex < |Destinations| && Distinct(favorites)
    }

    constructor ()
      ensures Valid() && activeIndex == 0 && favorites == []
    {
      activeIndex, favorites := 0, [];
    }

    /** The destination on show. */
    function Active(): Destination
      reads this
      requires Valid()
    {
      Destinations[activeIndex]
    }

    /** The heart is red exactly for a favourite. */
    function IsFavorite(id: int): bool
      reads this
    {
      id in favorites
    }

    method NextDestination()
      requires Valid()
      modifies this`activeIndex
      ensures Valid() && activeIndex == NextIndex(old(activeIndex), |Destinations|)
      ensures old(activeIndex) == |Destinations| - 1 ==> Active() == Destinations[0]
    {
      StepCases(activeIndex, |Destinations|);
      activeIndex := NextIndex(activeIndex, |Destinations|);
    }

    method PrevDestination()
      requires Valid()
      modifies this`activeIndex
      ensures Valid() && activeIndex == PrevIndex(old(activeIndex), |Destinations|)
      ensures old(activeIndex) == 0 ==> Active() == Destinations[|Destinations| - 1]
    {
      StepCases(activeIndex, |Destinations|);
      activeIndex := PrevIndex(activeIndex, |Destinations|);
    }

    /** A dot button, which exists for each index of the list. */
    method SelectDot(index: int)
      requires Valid() && 0 <= index < |Destinations|
      modifies this`activeIndex
      ensures Valid() && activeIndex == index && Active() == Destinations[index]
    {
      activeIndex := index;
    }

    method ToggleFavorite(id: int)
      requires Valid()
      modifies this`favorites
      ensures Valid() && favorites == Toggle(old(favorites), id)
      ensures IsFavorite(id) == !old(IsFavorite(id))
    {
      ToggleSpec(favorites, id, id);
      favorites := Toggle(favorites, id);
    }
  }
}

/** The vending machine record shared by every part of the application
    (types/vendingMachine.ts). Decimal fields (price, coordinates, rating)
    are carried as exact reals and otherwise treated as opaque. */
module VendingMachineTypes {
  import opened Lists
  import opened Text

  datatype Machine = Machine(
    id: string,
    name: string,
    address: string,
    description: string,
    category: string,
    averagePrice: real,
    imageUrl: string,
    latitude: real,
    longitude: real,
    rating: real,
    reviewCount: nat)

  /** The form data passed to `addVendingMachine`: a machine without id,
      rating, review count and image URL, plus the optional picked image. */
  datatype Draft = Draft(
    name: string,
    address: string,
    description: string,
    category: string,
    averagePrice: real,
    latitude: real,
    longitude: real,
    imageUri: Option<string>)

  /** `machine.category.toLowerCase() === filter.toLowerCase()` */
  predicate InCategory(m: Machine, filter: string)
    ensures m.category == filter ==> InCategory(m, filter)
    ensures InCategory(m, filter) ==> |m.category| == |filter|
  {
    Lower(m.category) == Lower(filter)
  }

  /** The machines of one category, compared without regard to case, in the
      order of the input list. */
  function SelectCategory(machines: seq<Machine>, filter: string): (r: seq<Machine>)
    ensures forall m :: m in r <==> m in machines && InCategory(m, filter)
    ensures forall m :: multiset(r)[m] == if InCategory(m, filter) then multiset(machines)[m] else 0
    ensures IsSubsequence(r, machines)
  {
    FilterIsSubsequence(machines, m => InCategory(m, filter));
    Filter(machines, m => InCategory(m, filter))
  }

  /** Selecting twice by the same category changes nothing. */
  lemma SelectCategoryIdempotent(machines: seq<Machine>, filter: string)
    ensures SelectCategory(SelectCategory(machines, filter), filter) == SelectCategory(machines, filter)
  {
    var once := SelectCategory(machines, filter);
    FilterKeepsAll(once, m => InCategory(m, filter));
  }

  /** The selection ignores the case of the filter. */
  lemma SelectCategoryIgnoresCase(machines: seq<Machine>, filter: string)
    ensures SelectCategory(machines, Lower(filter)) == SelectCategory(machines, filter)
  {
    LowerIdempotent(filter);
    FilterSamePredicate(machines, m => InCategory(m, Lower(filter)), m => InCategory(m, filter));
  }

  /** Selecting from a concatenation selects from each part. */
  lemma SelectCategoryAppend(a: seq<Machine>, b: seq<Machine>, filter: string)
    ensures SelectCategory(a + b, filter) == SelectCategory(a, filter) + SelectCategory(b, filter)
  {
    FilterAppend(a, b, m => InCategory(m, filter));
  }

  /** `m => m.id === id` */
  function FindById(machines: seq<Machine>, id: string): (r: Option<Machine>)
    ensures r.None? <==> forall m :: m in machines ==> m.id != id
    ensures r.Some? ==> r.value in machines && r.value.id == id
    ensures r.Some? ==> exists i :: 0 <= i < |machines| && machines[i] == r.value &&
                                    forall j :: 0 <= j < i ==> machines[j].id != id
  {
    Find(machines, (m: Machine) => m.id == id)
  }
}

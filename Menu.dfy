/** The dish record shared by every screen, and removal of dishes by id. */
module Menu {
  import opened Seqs

  /** One dish. The price is kept as the text the chef typed; `id` is the
      clock reading taken when the dish was added. */
  datatype MenuItem = MenuItem(id: int, name: string, description: string, course: string, price: string)

  /** The courses offered by the course pickers, in display order. */
  const Courses: seq<string> := ["Starters", "Mains", "Dessert"]

  /** The course a fresh add-dish form starts with and is reset to. */
  const DefaultCourse: string := "Starters"

  /** Does `items` hold a record with this id? */
  predicate HasId(items: seq<MenuItem>, id: int)
  {
    exists i :: i in items && i.id == id
  }

  /** The list after removing every record carrying `id`. */
  function WithoutId(items: seq<MenuItem>, id: int): (r: seq<MenuItem>)
    ensures !HasId(r, id)
    ensures forall i :: i in r ==> i in items
  {
    Filter(items, (i: MenuItem) => i.id != id)
  }

  /** Removal keeps every record with another id, as often as it occurred,
      in the original relative order, and never lengthens the list. */
  lemma WithoutIdKeepsOthers(items: seq<MenuItem>, id: int, x: MenuItem)
    ensures multiset(WithoutId(items, id))[x] == if x.id != id then multiset(items)[x] else 0
    ensures IsSubsequence(WithoutId(items, id), items)
    ensures |WithoutId(items, id)| <= |items|
  {
    FilterMultiplicity(items, (i: MenuItem) => i.id != id, x);
    FilterIsSubsequence(items, (i: MenuItem) => i.id != id);
  }

  /** Removing an id changes the list exactly when a record carries it, and
      then the list gets strictly shorter. */
  lemma WithoutIdChangesIff(items: seq<MenuItem>, id: int)
    ensures WithoutId(items, id) == items <==> !HasId(items, id)
    ensures |WithoutId(items, id)| < |items| <==> HasId(items, id)
  {
    FilterUnchangedIff(items, (i: MenuItem) => i.id != id);
    FilterShrinksIff(items, (i: MenuItem) => i.id != id);
  }

  /** Removing the same id twice is removing it once. */
  lemma WithoutIdIdempotent(items: seq<MenuItem>, id: int)
    ensures WithoutId(WithoutId(items, id), id) == WithoutId(items, id)
  {
    WithoutIdChangesIff(WithoutId(items, id), id);
  }

  /** Ids are clock readings, so two dishes added within one clock tick share
      an id, and removing either of them removes both. */
  lemma SharedIdRemovesBoth(a: MenuItem, b: MenuItem)
    requires a.id == b.id
    ensures WithoutId([a, b], a.id) == []
  {
    assert [a, b] == [a] + [b];
    FilterAppend([a], [b], (i: MenuItem) => i.id != a.id);
  }

  /** With distinct ids, adding A then B and removing A leaves exactly B. */
  lemma RemoveFirstOfTwo(a: MenuItem, b: MenuItem)
    requires a.id != b.id
    ensures WithoutId([a, b], a.id) == [b]
  {
    assert [a, b] == [a] + [b];
    FilterAppend([a], [b], (i: MenuItem) => i.id != a.id);
  }

  /** Adding a record whose id is new and then removing that id gives back
      the list as it was. */
  lemma RemoveUndoesFreshAppend(items: seq<MenuItem>, x: MenuItem)
    requires !HasId(items, x.id)
    ensures WithoutId(items + [x], x.id) == items
  {
    FilterAppend(items, [x], (i: MenuItem) => i.id != x.id);
    WithoutIdChangesIff(items, x.id);
    assert [x][1..] == [];
  }
}

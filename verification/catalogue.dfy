/**
 * The provider tabs (`WalkersTab`, `PetSittersTab`): the provider list is
 * loaded from the store or seeded, searched by name or service ignoring
 * case, narrowed by location, and its locations offered sorted and distinct.
 * Both tabs run the same logic with their own key and seed rows.
 */
module Catalogue {
  import opened Domain
  import opened Seqs
  import opened Text
  import opened Storage

  const WalkersKey := "petcare_walkers_data"
  const PetSittersKey := "petcare_petsitters_data"

  /** The walkers written on first run. */
  const WalkerSeed: seq<Provider> := [
    Provider(101, "María González", "3 años", 15, "Centro", ["Paseos", "Entrenamiento Básico"],
             "https://placekitten.com/151/151", 127, true),
    Provider(102, "Carlos Ruiz", "5 años", 18, "Norte", ["Paseos", "Entrenamiento Avanzado"],
             "https://placekitten.com/152/152", 89, true),
    Provider(103, "Javier Soto", "4 años", 16, "Este", ["Paseos", "Cuidado diurno"],
             "https://placekitten.com/153/153", 110, false)
  ]

  /** The pet sitters written on first run. */
  const PetSitterSeed: seq<Provider> := [
    Provider(201, "Ana López", "2 años", 12, "Sur", ["Cuidado en casa", "Hospedaje nocturno"],
             "https://images.unsplash.com/photo-1438761681033-6461ffad8d80?w=150&h=150&fit=crop&crop=face",
             156, true),
    Provider(202, "Sofía Pérez", "6 años", 20, "Oriente", ["Hospedaje", "Cuidado en casa", "Medicación"],
             "https://images.unsplash.com/photo-1573496359142-b8d87734b584?w=150&h=150&fit=crop&crop=face",
             210, true),
    Provider(203, "Diego Castro", "1 año", 10, "Poniente", ["Cuidado en casa", "Alimentación a domicilio"],
             "https://images.unsplash.com/photo-1500648767791-00dcc994a43e?w=150&h=150&fit=crop&crop=face",
             45, false)
  ]

  /**
   * The mount effect: the stored list when the key is present, otherwise the
   * seed, which is then written under the key.
   */
  function SeedIfAbsent(entries: map<string, Value>, key: string, seed: seq<Provider>)
    : (r: (seq<Provider>, map<string, Value>))
    requires key in entries ==> entries[key].ProviderList?
    ensures key in r.1 && r.1[key] == ProviderList(r.0)
    ensures key in entries ==> r.0 == entries[key].providers && r.1 == entries
    ensures key !in entries ==> r.0 == seed && r.1 - {key} == entries - {key}
  {
    if key in entries then (entries[key].providers, entries)
    else (seed, entries[key := ProviderList(seed)])
  }

  /** A second mount finds what the first one wrote: same providers, no further write. */
  lemma SeedIfAbsentStable(entries: map<string, Value>, key: string, seed: seq<Provider>)
    requires key in entries ==> entries[key].ProviderList?
    ensures SeedIfAbsent(SeedIfAbsent(entries, key, seed).1, key, seed) == SeedIfAbsent(entries, key, seed)
  {
  }

  /**
   * The search predicate: the lowered name or one of the lowered services
   * contains the lowered term, and no location is selected or it is the
   * provider's.
   */
  predicate Matches(p: Provider, term: string, location: string)
  {
    && (Contains(Lower(p.name), Lower(term)) || exists s :: s in p.services && Contains(Lower(s), Lower(term)))
    && (location == "" || p.location == location)
  }

  function Matching(term: string, location: string): Provider -> bool
  {
    (p: Provider) => Matches(p, term, location)
  }

  /** `filteredWalkers` / `filteredPetSitters`. */
  function Search(providers: seq<Provider>, term: string, location: string): (r: seq<Provider>)
    ensures forall p :: p in r <==> p in providers && Matches(p, term, location)
    ensures forall p :: multiset(r)[p] == if Matches(p, term, location) then multiset(providers)[p] else 0
    ensures IsSubsequence(r, providers)
  {
    var keep := Matching(term, location);
    var r := Filter(providers, keep);
    FilterIsSubsequence(providers, keep);
    assert forall p :: (p in r <==> p in providers && Matches(p, term, location))
                       && multiset(r)[p] == (if Matches(p, term, location) then multiset(providers)[p] else 0) by {
      forall p ensures (p in r <==> p in providers && Matches(p, term, location))
                       && multiset(r)[p] == (if Matches(p, term, location) then multiset(providers)[p] else 0) {
        FilterMembership(providers, keep, p);
        FilterCounts(providers, keep, p);
      }
    }
    r
  }

  /** An empty term and no selected location keep every provider. */
  lemma SearchNothingKeepsAll(providers: seq<Provider>)
    ensures Search(providers, "", "") == providers
  {
    assert forall p :: p in providers ==> Contains(Lower(p.name), Lower(""));
    FilterKeepsAll(providers, Matching("", ""));
  }

  /** Terms that lower to the same text select the same providers. */
  lemma SearchIgnoresCase(providers: seq<Provider>, t1: string, t2: string, location: string)
    requires Lower(t1) == Lower(t2)
    ensures Search(providers, t1, location) == Search(providers, t2, location)
  {
    FilterCongruent(providers, Matching(t1, location), Matching(t2, location));
  }

  /** Lowering the term first changes nothing. */
  lemma SearchLoweredTerm(providers: seq<Provider>, term: string, location: string)
    ensures Search(providers, Lower(term), location) == Search(providers, term, location)
  {
    LowerIdempotent(term);
    SearchIgnoresCase(providers, Lower(term), term, location);
  }

  /** `providers.map((w) => w.location)` */
  function LocationsOf(providers: seq<Provider>): (r: seq<string>)
    ensures |r| == |providers|
    ensures forall i :: 0 <= i < |providers| ==> r[i] == providers[i].location
  {
    if providers == [] then [] else [providers[0].location] + LocationsOf(providers[1..])
  }

  /** `[...new Set(providers.map((w) => w.location))].sort()` */
  function Locations(providers: seq<Provider>): (r: seq<string>)
    ensures StrictlySorted(r)
    ensures forall x :: x in r <==> exists i :: 0 <= i < |providers| && providers[i].location == x
  {
    var all := LocationsOf(providers);
    var r := SortedDistinct(all);
    assert forall x :: x in r <==> x in all by {
      forall x ensures x in r <==> x in all {
        assert x in r <==> x in Elements(r);
        assert x in all <==> x in Elements(all);
      }
    }
    r
  }

  /** The location list is the only sorted, duplicate-free listing of the providers' locations. */
  lemma LocationsExact(providers: seq<Provider>, s: seq<string>)
    requires StrictlySorted(s)
    requires forall x :: x in s <==> exists i :: 0 <= i < |providers| && providers[i].location == x
    ensures s == Locations(providers)
  {
    var r := Locations(providers);
    assert Elements(s) == Elements(r) by {
      forall x ensures x in Elements(s) <==> x in Elements(r) {
        assert x in Elements(s) <==> x in s;
        assert x in Elements(r) <==> x in r;
      }
    }
    StrictlySortedUnique(s, r);
  }

  /** The seeded walkers offer the zones Centro, Este and Norte, in that order. */
  lemma WalkerSeedLocations()
    ensures Locations(WalkerSeed) == ["Centro", "Este", "Norte"]
  {
    var s := ["Centro", "Este", "Norte"];
    assert Below(s[0], s[1]) && Below(s[1], s[2]) && Below(s[0], s[2]);
    assert WalkerSeed[0].location == s[0] && WalkerSeed[2].location == s[1] && WalkerSeed[1].location == s[2];
    LocationsExact(WalkerSeed, s);
  }

  /** The seeded sitters offer the zones Oriente, Poniente and Sur, in that order. */
  lemma PetSitterSeedLocations()
    ensures Locations(PetSitterSeed) == ["Oriente", "Poniente", "Sur"]
  {
    var s := ["Oriente", "Poniente", "Sur"];
    assert Below(s[0], s[1]) && Below(s[1], s[2]) && Below(s[0], s[2]);
    assert PetSitterSeed[1].location == s[0] && PetSitterSeed[2].location == s[1]
        && PetSitterSeed[0].location == s[2];
    LocationsExact(PetSitterSeed, s);
  }

  /** One provider tab: its provider list and its two filter inputs. */
  class ProviderTab {
    var providers: seq<Provider>
    var searchTerm: string
    var selectedLocation: string

    /** Mounting the tab: load the stored list, or seed it and write it. */
    constructor Mount(store: Store, key: string, seed: seq<Provider>)
      requires key in store.entries ==> store.entries[key].ProviderList?
      modifies store
      ensures (providers, store.entries) == SeedIfAbsent(old(store.entries), key, seed)
      ensures searchTerm == "" && selectedLocation == ""
      ensures Shown() == providers
    {
      searchTerm, selectedLocation := "", "";
      var saved := store.GetItem(key);
      if saved.Some? {
        providers := saved.value.providers;
      } else {
        providers := seed;
      }
      new;
      SearchNothingKeepsAll(providers);
      if saved.None? {
        store.SetItem(key, ProviderList(providers));
      }
    }

    method SetSearchTerm(term: string)
      modifies this
      ensures searchTerm == term
      ensures providers == old(providers) && selectedLocation == old(selectedLocation)
      ensures Shown() == Search(providers, term, selectedLocation)
    {
      searchTerm := term;
    }

    method SetSelectedLocation(location: string)
      modifies this
      ensures selectedLocation == location
      ensures providers == old(providers) && searchTerm == old(searchTerm)
      ensures Shown() == Search(providers, searchTerm, location)
    {
      selectedLocation := location;
    }

    /** The cards shown: each provider matching the filters, as often as it occurs, in order. */
    function Shown(): (r: seq<Provider>)
      reads this
      ensures forall p :: p in r <==> p in providers && Matches(p, searchTerm, selectedLocation)
      ensures forall p :: multiset(r)[p] == if Matches(p, searchTerm, selectedLocation) then multiset(providers)[p] else 0
      ensures IsSubsequence(r, providers)
    {
      Search(providers, searchTerm, selectedLocation)
    }

    /** The options of the location select, after "all zones": sorted, each location once. */
    function LocationOptions(): (r: seq<string>)
      reads this
      ensures StrictlySorted(r)
      ensures forall x :: x in r <==> exists i :: 0 <= i < |providers| && providers[i].location == x
    {
      Locations(providers)
    }
  }
}

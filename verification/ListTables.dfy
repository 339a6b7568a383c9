/** Dictionaries of lists under two names, in which an absent key reads as the empty list. */
module ListTables {
  import opened Prelude

  type Table<V(==), M(==), X> = map<(V, M), seq<X>>

  function Get<V(==), M(==), X>(table: Table<V, M, X>, v: V, m: M): seq<X> {
    if (v, m) in table then table[(v, m)] else []
  }

  function Append<V(==), M(==), X>(table: Table<V, M, X>, v: V, m: M, x: X): Table<V, M, X> {
    table[(v, m) := Get(table, v, m) + [x]]
  }

  /** Every key that is there has a value, so the keys are exactly the names that something was appended under. */
  predicate NoEmptyLists<V(==), M(==), X>(table: Table<V, M, X>) {
    forall key <- table :: |table[key]| > 0
  }

  /** The values listed under one name. */
  function Named<M(==), X>(items: seq<(M, X)>, m: M): seq<X> {
    if items == [] then []
    else
      var last := items[|items| - 1];
      Named(items[..|items| - 1], m) + if last.0 == m then [last.1] else []
  }

  lemma NamedOneMore<M, X>(items: seq<(M, X)>, item: (M, X), m: M)
    ensures Named(items + [item], m) == Named(items, m) + if item.0 == m then [item.1] else []
  {
    assert (items + [item])[..|items|] == items;
  }

  lemma {:induction false} NamedAppend<M, X>(a: seq<(M, X)>, b: seq<(M, X)>, m: M)
    ensures Named(a + b, m) == Named(a, m) + Named(b, m)
  {
    if b == [] {
      assert a + b == a;
    } else {
      var last := |b| - 1;
      NamedAppend(a, b[..last], m);
      assert (a + b)[..|a + b| - 1] == a + b[..last];
    }
  }

  lemma {:induction false} NamedMeaning<M, X>(items: seq<(M, X)>, m: M)
    ensures |Named(items, m)| > 0 <==> exists i :: 0 <= i < |items| && items[i].0 == m
  {
    if items != [] {
      NamedMeaning(items[..|items| - 1], m);
    }
  }

  /** What stands under a name that only one item has. */
  lemma {:induction false} NamedOnce<M, X>(items: seq<(M, X)>, i: nat)
    requires i < |items| && forall j :: 0 <= j < |items| && j != i ==> items[j].0 != items[i].0
    ensures Named(items, items[i].0) == [items[i].1]
  {
    var last := |items| - 1;
    if i == last {
      NamedMeaning(items[..last], items[i].0);
    } else {
      NamedOnce(items[..last], i);
    }
  }

  function AppendAll<V(==), M(==), X>(table: Table<V, M, X>, v: V, items: seq<(M, X)>): Table<V, M, X> {
    if items == [] then table
    else
      var last := items[|items| - 1];
      Append(AppendAll(table, v, items[..|items| - 1]), v, last.0, last.1)
  }

  lemma AppendAllOneMore<V, M, X>(table: Table<V, M, X>, v: V, items: seq<(M, X)>, m: M, x: X)
    ensures AppendAll(table, v, items + [(m, x)]) == Append(AppendAll(table, v, items), v, m, x)
  {
    assert (items + [(m, x)])[..|items|] == items;
  }

  lemma {:induction false} AppendAllTogether<V, M, X>(table: Table<V, M, X>, v: V, a: seq<(M, X)>, b: seq<(M, X)>)
    ensures AppendAll(AppendAll(table, v, a), v, b) == AppendAll(table, v, a + b)
  {
    if b == [] {
      assert a + b == a;
    } else {
      var last := |b| - 1;
      AppendAllTogether(table, v, a, b[..last]);
      assert (a + b)[..|a + b| - 1] == a + b[..last];
    }
  }

  lemma Associates<X>(a: seq<X>, b: seq<X>, c: seq<X>)
    ensures (a + b) + c == a + (b + c)
  {}

  /** Each value is appended under its own name, in order, and nothing else changes. */
  lemma {:induction false} AppendAllMeaning<V, M, X>(table: Table<V, M, X>, v: V, items: seq<(M, X)>, w: V, m: M)
    ensures Get(AppendAll(table, v, items), w, m)
         == if w == v then Get(table, w, m) + Named(items, m) else Get(table, w, m)
    ensures NoEmptyLists(table) ==> NoEmptyLists(AppendAll(table, v, items))
  {
    if items == [] {
      assert Get(table, w, m) + [] == Get(table, w, m);
    } else {
      var last := items[|items| - 1];
      AppendAllMeaning(table, v, items[..|items| - 1], w, m);
      if w == v && last.0 == m { Associates(Get(table, w, m), Named(items[..|items| - 1], m), [last.1]); }
    }
  }

  method AppendEach<V(==), M(==), X>(table: Table<V, M, X>, v: V, items: seq<(M, X)>) returns (r: Table<V, M, X>)
    ensures r == AppendAll(table, v, items)
  {
    r := table;
    for i := 0 to |items|
      invariant r == AppendAll(table, v, items[..i])
    {
      assert items[..i + 1][..i] == items[..i];
      r := Append(r, v, items[i].0, items[i].1);
    }
    assert items[..|items|] == items;
  }

  /** Append every entry of a dictionary whose key is not excluded; the keys may come in any order. */
  method AppendOthers<V(==), M(==), X>(table: Table<V, M, X>, v: V, entries: map<M, X>, excluded: seq<M>)
    returns (r: Table<V, M, X>, ghost items: seq<(M, X)>)
    ensures r == AppendAll(table, v, items)
    ensures forall m :: Named(items, m) == if m in entries && m !in excluded then [entries[m]] else []
  {
    r, items := table, [];
    var todo := entries.Keys;
    while todo != {}
      invariant todo <= entries.Keys
      invariant r == AppendAll(table, v, items)
      invariant forall m :: Named(items, m)
                         == if m in entries && m !in excluded && m !in todo then [entries[m]] else []
    {
      var name :| name in todo;
      todo := todo - {name};
      if name in excluded { continue; }
      forall m ensures Named(items + [(name, entries[name])], m)
                    == if name == m then [entries[name]] else Named(items, m)
      {
        NamedOneMore(items, (name, entries[name]), m);
      }
      AppendAllOneMore(table, v, items, name, entries[name]);
      r, items := Append(r, v, name, entries[name]), items + [(name, entries[name])];
    }
  }

  /** The names that a first name has entries under, apart from the excluded ones, each once. */
  method NamesUnder<V(==), M(==), X>(table: Table<V, M, X>, v: V, excluded: seq<M>) returns (names: seq<M>)
    ensures Distinct(names) && forall m :: m in names <==> (v, m) in table && m !in excluded
  {
    names := [];
    var todo := table.Keys;
    while todo != {}
      invariant todo <= table.Keys && Distinct(names)
      invariant forall m :: m in names <==> (v, m) in table && (v, m) !in todo && m !in excluded
    {
      var key :| key in todo;
      todo := todo - {key};
      if key.0 == v && key.1 !in excluded {
        DistinctLast(names + [key.1]);
        assert (names + [key.1])[..|names|] == names;
        names := names + [key.1];
      }
    }
  }

  // ---- Sorted listings ----

  /** The members of a finite set of names in their order. */
  ghost predicate IsListing(names: seq<string>, members: set<string>) {
    Sorted(names, StringLe) && Distinct(names) && ToSet(names) == members
  }

  lemma OneMoreName(names: seq<string>, name: string)
    requires Distinct(names) && name !in names
    ensures Distinct(names + [name]) && ToSet(names + [name]) == ToSet(names) + {name}
  {
    DistinctLast(names + [name]);
    assert (names + [name])[..|names|] == names;
  }

  lemma {:induction false} SomeListing(members: set<string>) returns (names: seq<string>)
    ensures IsListing(names, members)
  {
    if members == {} {
      names := [];
    } else {
      var name :| name in members;
      var rest := SomeListing(members - {name});
      assert ToSet(rest) == members - {name};
      OneMoreName(rest, name);
      SortedNamesAreListed(rest + [name]);
      names := SortedNames(rest + [name]);
    }
  }

  lemma ListingExists(members: set<string>)
    ensures exists names :: IsListing(names, members)
  {
    var _ := SomeListing(members);
  }

  function SortedNames(names: seq<string>): seq<string> {
    Sort(names, StringLe)
  }

  lemma SortedNamesAreListed(names: seq<string>)
    requires Distinct(names)
    ensures IsListing(SortedNames(names), ToSet(names))
  {
    StringOrder();
    SortSorts(names, StringLe);
    SortMembers(names, StringLe);
    DistinctByMultiset(names, SortedNames(names));
  }

  /** There is only one such listing. */
  lemma ListingIsUnique(a: seq<string>, b: seq<string>, members: set<string>)
    requires IsListing(a, members) && IsListing(b, members)
    ensures a == b
  {
    StringOrder();
    DistinctMultiset(a, b);
    SortedUnique(a, b, StringLe);
  }

  ghost function Listing(members: set<string>): (names: seq<string>)
    ensures IsListing(names, members)
  {
    ListingExists(members);
    var names :| IsListing(names, members);
    names
  }
}

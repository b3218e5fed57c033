/** Name-or-id reference resolution: the lookup tables built from a fetched collection
    (roles or access groups) and the name-first, then-id choice made against them. */
module References {
  import opened Py

  /** The answer of `api.get_roles()` / `api.get_access_groups()`: the success flag and
      `data['items']`. */
  datatype Listing = Listing(ok: bool, items: seq<Value>)

  /** One fetched item's `name` and `id`. */
  datatype Entry = Entry(name: Value, id: Value)

  /** `{item['name']: item['id'] for item in items}` and `{item['id'] for item in items}`. */
  datatype Catalog = Catalog(names: map<Value, Value>, ids: set<Value>)

  const EmptyCatalog := Catalog(map[], {})

  /** An item the two comprehensions can read: a dict with hashable `name` and `id`. */
  predicate WellFormedItem(x: Value) {
    && x.Dict? && "name" in x.fields && "id" in x.fields
    && Hashable(x.fields["name"]) && Hashable(x.fields["id"])
  }

  /** The entries of the fetched items, or None when evaluating the comprehensions raises
      (an item that is not a dict, lacks a key, or has an unhashable name or id). */
  function Entries(items: seq<Value>): Option<seq<Entry>> {
    if forall i | 0 <= i < |items| :: WellFormedItem(items[i]) then
      Some(seq(|items|, i requires 0 <= i < |items| && WellFormedItem(items[i]) =>
        Entry(items[i].fields["name"], items[i].fields["id"])))
    else None
  }

  /** The dict comprehension: entries are inserted in order, so a later entry with the same
      name overwrites an earlier one. */
  function NameMap(es: seq<Entry>): map<Value, Value> {
    if es == [] then map[] else NameMap(es[..|es| - 1])[es[|es| - 1].name := es[|es| - 1].id]
  }

  function IdSet(es: seq<Entry>): set<Value> {
    set i | 0 <= i < |es| :: es[i].id
  }

  /** Both lookup tables of a fetched collection, or None when building them raises. */
  function Index(items: seq<Value>): Option<Catalog> {
    match Entries(items)
    case None => None
    case Some(es) => Some(Catalog(NameMap(es), IdSet(es)))
  }

  /** Every name maps to an id that is in the id set. */
  predicate Coherent(c: Catalog) {
    forall n :: n in c.names ==> c.names[n] in c.ids
  }

  /** `es[i]` is the last entry named `n`. */
  predicate LastWithName(es: seq<Entry>, n: Value, i: int) {
    0 <= i < |es| && es[i].name == n && forall j :: i < j < |es| ==> es[j].name != n
  }

  /** A name is mapped iff some entry carries it. */
  lemma {:induction false} NameMapDomain(es: seq<Entry>, n: Value)
    ensures n in NameMap(es) <==> exists i :: 0 <= i < |es| && es[i].name == n
  {
    if es != [] {
      var init := es[..|es| - 1];
      NameMapDomain(init, n);
      if es[|es| - 1].name != n {
        if n in NameMap(init) {
          var i :| 0 <= i < |init| && init[i].name == n;
          assert es[i] == init[i];
        }
        forall i | 0 <= i < |es| && es[i].name == n
          ensures n in NameMap(init)
        {
          assert init[i] == es[i];
        }
      } else {
        assert es[|es| - 1].name == n;
      }
    }
  }

  /** A mapped name maps to the id of the LAST entry carrying it. */
  lemma {:induction false} NameMapLast(es: seq<Entry>, n: Value)
    requires n in NameMap(es)
    ensures exists i :: LastWithName(es, n, i) && NameMap(es)[n] == es[i].id
  {
    var init := es[..|es| - 1];
    if es[|es| - 1].name != n {
      NameMapLast(init, n);
      var i :| LastWithName(init, n, i) && NameMap(init)[n] == init[i].id;
      assert es[i] == init[i];
      assert LastWithName(es, n, i);
    } else {
      assert LastWithName(es, n, |es| - 1);
    }
  }

  /** A name is mapped iff some entry carries it, and it maps to the id of the LAST entry
      carrying it. */
  lemma NameMapLastWins(es: seq<Entry>, n: Value)
    ensures n in NameMap(es) <==> exists i :: 0 <= i < |es| && es[i].name == n
    ensures n in NameMap(es) ==> exists i :: LastWithName(es, n, i) && NameMap(es)[n] == es[i].id
  {
    NameMapDomain(es, n);
    if n in NameMap(es) {
      NameMapLast(es, n);
    }
  }

  /** `items[i]` is the last well-formed item named `n`. */
  predicate LastItemWithName(items: seq<Value>, n: Value, i: int) {
    && 0 <= i < |items| && WellFormedItem(items[i]) && items[i].fields["name"] == n
    && forall j :: i < j < |items| && WellFormedItem(items[j]) ==> items[j].fields["name"] != n
  }

  /** The tables built from any fetched collection are coherent. */
  lemma IndexCoherent(items: seq<Value>)
    requires Index(items).Some?
    ensures Coherent(Index(items).value)
  {
    var es := Entries(items).value;
    forall n | n in NameMap(es)
      ensures NameMap(es)[n] in IdSet(es)
    {
      NameMapLastWins(es, n);
    }
  }

  /** What the tables hold, in terms of the fetched items. */
  lemma IndexContents(items: seq<Value>)
    requires Index(items).Some?
    ensures forall i :: 0 <= i < |items| ==> WellFormedItem(items[i])
    ensures forall v :: v in Index(items).value.ids <==> exists i :: 0 <= i < |items| && items[i].fields["id"] == v
    ensures forall n :: n in Index(items).value.names ==>
      exists i :: LastItemWithName(items, n, i) && Index(items).value.names[n] == items[i].fields["id"]
  {
    var es := Entries(items).value;
    forall v | v in Index(items).value.ids
      ensures exists i :: 0 <= i < |items| && items[i].fields["id"] == v
    {
      var i :| 0 <= i < |es| && es[i].id == v;
      assert items[i].fields["id"] == v;
    }
    forall v, i | 0 <= i < |items| && items[i].fields["id"] == v
      ensures v in Index(items).value.ids
    {
      assert es[i].id == v;
    }
    forall n | n in Index(items).value.names
      ensures exists i :: LastItemWithName(items, n, i) && Index(items).value.names[n] == items[i].fields["id"]
    {
      NameMapLastWins(es, n);
      var i :| LastWithName(es, n, i) && NameMap(es)[n] == es[i].id;
      assert forall j :: i < j < |items| ==> items[j].fields["name"] == es[j].name;
      assert LastItemWithName(items, n, i);
    }
  }

  /** `key in x and x[key]`: Absent when the test is false, Broken when it raises. */
  datatype Probe = Absent | Present(v: Value) | Broken

  function Field(x: Value, key: string): Probe {
    match Contains(x, key)
    case None => Broken
    case Some(false) => Absent
    case Some(true) => if x.Dict? then Present(x.fields[key]) else Broken
  }

  datatype Lookup = Found(id: Value) | NotFound | TypeError

  /** The name probe reads cleanly and misses the name map, so the id is tried next. */
  predicate NameMisses(c: Catalog, name: Probe) {
    name.Absent? || (name.Present? && Hashable(name.v) && name.v !in c.names)
  }

  /** The id probe reads cleanly and misses the id set. */
  predicate IdMisses(c: Catalog, id: Probe) {
    id.Absent? || (id.Present? && Hashable(id.v) && id.v !in c.ids)
  }

  /** The shared choice: the name, when it is a key of the name map, gives the mapped id;
      otherwise the id, when it is in the id set, is returned as it is; otherwise nothing
      matches. Probing a table with an unhashable value raises. */
  function ResolveRef(c: Catalog, name: Probe, id: Probe): (r: Lookup)
    ensures Coherent(c) && r.Found? ==> r.id in c.ids
    ensures name.Present? && Hashable(name.v) && name.v in c.names ==> r == Found(c.names[name.v])
    ensures NameMisses(c, name) && id.Present? && Hashable(id.v) && id.v in c.ids ==> r == Found(id.v)
    ensures r == NotFound <==> NameMisses(c, name) && IdMisses(c, id)
    ensures r == TypeError <==>
      name.Broken? || (name.Present? && !Hashable(name.v))
      || (NameMisses(c, name) && (id.Broken? || (id.Present? && !Hashable(id.v))))
  {
    if name.Broken? || (name.Present? && !Hashable(name.v)) then TypeError
    else if name.Present? && name.v in c.names then Found(c.names[name.v])
    else if id.Broken? || (id.Present? && !Hashable(id.v)) then TypeError
    else if id.Present? && id.v in c.ids then Found(id.v)
    else NotFound
  }
}

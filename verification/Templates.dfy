/**
 E-mail templates: custom rows laid over built-in defaults. The list shown to
 a tenant is merged from both in loops; the lookup used for sending tries one
 and then the other. They must agree, whatever the order of either source.
 */
module Templates {
  import opened Prelude

  datatype Definition = Definition(subject: string, body: string, html: string)

  // A row of email_templates.
  datatype Row = Row(tenant: Id, name: string, def: Definition)

  // An entry of the list.
  datatype Entry = Entry(name: string, def: Definition, custom: bool)

  predicate Matches(r: Row, tenant: Id, name: string) {
    r.tenant == tenant && r.name == name
  }

  // No two rows share tenant and name.
  ghost predicate Unique(rows: seq<Row>) {
    forall i, j | 0 <= i < j < |rows| :: !Matches(rows[j], rows[i].tenant, rows[i].name)
  }

  // The row of a tenant and name, if there is one.
  function Lookup(rows: seq<Row>, tenant: Id, name: string): Option<Row> {
    if rows == [] then None
    else if Matches(rows[0], tenant, name) then Some(rows[0])
    else Lookup(rows[1..], tenant, name)
  }

  // An insert that overwrites the row of the same tenant and name.
  function Upserted(rows: seq<Row>, row: Row): seq<Row> {
    if rows == [] then [row]
    else if Matches(rows[0], row.tenant, row.name) then [row] + rows[1..]
    else [rows[0]] + Upserted(rows[1..], row)
  }

  // The rows without those of this tenant and name.
  function Deleted(rows: seq<Row>, tenant: Id, name: string): seq<Row> {
    if rows == [] then []
    else (if Matches(rows[0], tenant, name) then [] else [rows[0]]) + Deleted(rows[1..], tenant, name)
  }

  // resolveTemplate: the tenant's row, or else the built-in of that name.
  function Resolve(rows: seq<Row>, defaults: map<string, Definition>, tenant: Id, name: string): Option<Definition> {
    match Lookup(rows, tenant, name)
    case Some(row) => Some(row.def)
    case None => if name in defaults then Some(defaults[name]) else None
  }

  // ---------- The table is a map from (tenant, name) to definitions ----------

  lemma {:induction false} LookupFinds(rows: seq<Row>, tenant: Id, name: string)
    ensures Lookup(rows, tenant, name).Some? ==>
              Lookup(rows, tenant, name).value in rows && Matches(Lookup(rows, tenant, name).value, tenant, name)
    ensures Lookup(rows, tenant, name).None? <==> forall i | 0 <= i < |rows| :: !Matches(rows[i], tenant, name)
  {
    if rows != [] && !Matches(rows[0], tenant, name) {
      LookupFinds(rows[1..], tenant, name);
      assert forall i | 1 <= i < |rows| :: rows[i] == rows[1..][i - 1];
    }
  }

  lemma {:induction false} LookupUnique(rows: seq<Row>, i: nat)
    requires Unique(rows) && i < |rows|
    ensures Lookup(rows, rows[i].tenant, rows[i].name) == Some(rows[i])
  {
    if i > 0 {
      assert !Matches(rows[i], rows[0].tenant, rows[0].name);
      LookupUnique(rows[1..], i - 1);
    }
  }

  // A write is seen under its own name and nowhere else.
  lemma {:induction false} LookupUpserted(rows: seq<Row>, row: Row, tenant: Id, name: string)
    ensures Lookup(Upserted(rows, row), tenant, name)
            == if Matches(row, tenant, name) then Some(row) else Lookup(rows, tenant, name)
  {
    if rows != [] && !Matches(rows[0], row.tenant, row.name) {
      LookupUpserted(rows[1..], row, tenant, name);
      assert Upserted(rows, row)[1..] == Upserted(rows[1..], row);
    } else if rows != [] {
      assert Upserted(rows, row)[1..] == rows[1..];
    }
  }

  lemma {:induction false} LookupDeleted(rows: seq<Row>, tenant: Id, name: string, t: Id, n: string)
    ensures Lookup(Deleted(rows, tenant, name), t, n)
            == if t == tenant && n == name then None else Lookup(rows, t, n)
  {
    if rows != [] {
      LookupDeleted(rows[1..], tenant, name, t, n);
      if Matches(rows[0], tenant, name) {
        assert Deleted(rows, tenant, name) == Deleted(rows[1..], tenant, name);
      } else {
        assert Deleted(rows, tenant, name)[1..] == Deleted(rows[1..], tenant, name);
      }
    }
  }

  // The first matching row is replaced, or the new one appended.
  lemma {:induction false} UpsertedAt(rows: seq<Row>, row: Row, i: nat)
    requires i <= |rows| && forall k | 0 <= k < i :: !Matches(rows[k], row.tenant, row.name)
    requires i < |rows| ==> Matches(rows[i], row.tenant, row.name)
    ensures Upserted(rows, row) == if i < |rows| then rows[i := row] else rows + [row]
  {
    if i > 0 {
      UpsertedAt(rows[1..], row, i - 1);
    }
  }

  lemma {:induction false} UpsertedMembers(rows: seq<Row>, row: Row)
    ensures forall i | 0 <= i < |Upserted(rows, row)| ::
              Upserted(rows, row)[i] == row || Upserted(rows, row)[i] in rows
    ensures Unique(rows) ==> Unique(Upserted(rows, row))
  {
    if rows != [] && !Matches(rows[0], row.tenant, row.name) {
      UpsertedMembers(rows[1..], row);
      var rest := Upserted(rows[1..], row);
      if Unique(rows) {
        assert forall i | 1 <= i < |rows| :: rows[i] == rows[1..][i - 1];
        assert Unique(rows[1..]);
        forall i | 0 <= i < |rest|
          ensures !Matches(rest[i], rows[0].tenant, rows[0].name)
        {
          if rest[i] in rows[1..] {
            var k :| 1 <= k < |rows| && rows[k] == rest[i];
          }
        }
        assert Unique([rows[0]] + rest);
      }
    }
  }

  lemma {:induction false} DeletedMembers(rows: seq<Row>, tenant: Id, name: string)
    ensures forall i | 0 <= i < |Deleted(rows, tenant, name)| :: Deleted(rows, tenant, name)[i] in rows
    ensures Unique(rows) ==> Unique(Deleted(rows, tenant, name))
  {
    if rows != [] {
      DeletedMembers(rows[1..], tenant, name);
      var rest := Deleted(rows[1..], tenant, name);
      if Unique(rows) {
        assert forall i | 1 <= i < |rows| :: rows[i] == rows[1..][i - 1];
        assert Unique(rows[1..]);
        forall i | 0 <= i < |rest|
          ensures !Matches(rest[i], rows[0].tenant, rows[0].name)
        {
          var k :| 1 <= k < |rows| && rows[k] == rest[i];
        }
        assert Unique([rows[0]] + rest);
      }
    }
  }

  // ---------- Any run of edits ----------

  datatype Edit = Put(row: Row) | Remove(tenant: Id, name: string)

  function Edited(edits: seq<Edit>): seq<Row> {
    if edits == [] then [] else
      var rows := Edited(edits[..|edits| - 1]);
      match edits[|edits| - 1]
      case Put(row) => Upserted(rows, row)
      case Remove(tenant, name) => Deleted(rows, tenant, name)
  }

  ghost predicate Concerns(e: Edit, tenant: Id, name: string) {
    match e
    case Put(row) => Matches(row, tenant, name)
    case Remove(t, n) => t == tenant && n == name
  }

  // Edit k put this row there, or removed it, and no later edit concerns it.
  ghost predicate LastPut(edits: seq<Edit>, k: int, row: Row, tenant: Id, name: string) {
    && 0 <= k < |edits| && edits[k] == Put(row) && Matches(row, tenant, name)
    && forall m | k < m < |edits| :: !Concerns(edits[m], tenant, name)
  }

  ghost predicate LastRemove(edits: seq<Edit>, k: int, tenant: Id, name: string) {
    && 0 <= k < |edits| && edits[k] == Remove(tenant, name)
    && forall m | k < m < |edits| :: !Concerns(edits[m], tenant, name)
  }

  ghost predicate Decided(edits: seq<Edit>, found: Option<Row>, tenant: Id, name: string) {
    match found
    case Some(row) => exists k :: LastPut(edits, k, row, tenant, name)
    case None => || (forall m | 0 <= m < |edits| :: !Concerns(edits[m], tenant, name))
                 || (exists k :: LastRemove(edits, k, tenant, name))
  }

  // After any run of upserts and deletes a lookup answers by the last edit of that tenant and name:
  // its row, or nothing if it was a delete or there was none.
  lemma {:induction false} LastEditDecides(edits: seq<Edit>, tenant: Id, name: string)
    ensures Unique(Edited(edits))
    ensures Decided(edits, Lookup(Edited(edits), tenant, name), tenant, name)
  {
    if edits != [] {
      var last := |edits| - 1;
      var before, rows := edits[..last], Edited(edits[..last]);
      LastEditDecides(before, tenant, name);
      match edits[last] {
        case Put(row) =>
          UpsertedMembers(rows, row);
          LookupUpserted(rows, row, tenant, name);
          if Matches(row, tenant, name) {
            assert LastPut(edits, last, row, tenant, name);
          }
        case Remove(t, n) =>
          DeletedMembers(rows, t, n);
          LookupDeleted(rows, t, n, tenant, name);
          if t == tenant && n == name {
            assert LastRemove(edits, last, tenant, name);
          }
      }
      if !Concerns(edits[last], tenant, name) {
        StillDecided(before, edits[last], Lookup(rows, tenant, name), tenant, name);
        assert edits == before + [edits[last]];
      }
    }
  }

  lemma StillDecided(edits: seq<Edit>, e: Edit, found: Option<Row>, tenant: Id, name: string)
    requires Decided(edits, found, tenant, name) && !Concerns(e, tenant, name)
    ensures Decided(edits + [e], found, tenant, name)
  {
    if found.Some? {
      var k :| LastPut(edits, k, found.value, tenant, name);
      assert LastPut(edits + [e], k, found.value, tenant, name);
    } else if k :| LastRemove(edits, k, tenant, name) {
      assert LastRemove(edits + [e], k, tenant, name);
    }
  }

  // ---------- The merged list ----------

  // The names in the order of the merge: the defaults, then the rows that name none of them.
  function NameOrder(defaultOrder: seq<string>, items: seq<Row>): seq<string> {
    if items == [] then defaultOrder else
      var last := |items| - 1;
      NameOrder(defaultOrder, items[..last])
      + if items[last].name in defaultOrder then [] else [items[last].name]
  }

  lemma {:induction false} NameOrderMembers(defaultOrder: seq<string>, items: seq<Row>)
    ensures forall n :: n in NameOrder(defaultOrder, items)
                        <==> n in defaultOrder || exists i :: 0 <= i < |items| && items[i].name == n
    ensures |NameOrder(defaultOrder, items)| >= |defaultOrder|
            && NameOrder(defaultOrder, items)[..|defaultOrder|] == defaultOrder
  {
    if items != [] {
      var last := |items| - 1;
      NameOrderMembers(defaultOrder, items[..last]);
      assert forall i | 0 <= i < last :: items[i] == items[..last][i];
    }
  }

  // Rows that repeat a name make the list repeat it, unless it is the name of a default: the loop over
  // the rows never adds to the names it has seen.
  lemma {:induction false} DuplicateFreeIff(defaultOrder: seq<string>, items: seq<Row>)
    requires Distinct(defaultOrder)
    ensures Distinct(NameOrder(defaultOrder, items)) <==> NoRepeats(defaultOrder, items)
  {
    if items != [] {
      var last := |items| - 1;
      var front, names, x := items[..last], NameOrder(defaultOrder, items[..last]), items[last].name;
      DuplicateFreeIff(defaultOrder, front);
      NameOrderMembers(defaultOrder, front);
      NoRepeatsLast(defaultOrder, items);
      DistinctLast(names, x);
      if x in defaultOrder {
        assert NameOrder(defaultOrder, items) == names;
      } else {
        assert NameOrder(defaultOrder, items) == names + [x];
        assert x in names <==> exists i :: 0 <= i < |front| && front[i].name == x;
      }
    }
  }

  // No two rows share a name that is not a default's.
  ghost predicate NoRepeats(defaultOrder: seq<string>, items: seq<Row>) {
    forall i, j | 0 <= i < j < |items| :: items[i].name == items[j].name ==> items[i].name in defaultOrder
  }

  lemma NoRepeatsLast(defaultOrder: seq<string>, items: seq<Row>)
    requires items != []
    ensures var last := |items| - 1;
            NoRepeats(defaultOrder, items) <==>
              && NoRepeats(defaultOrder, items[..last])
              && (items[last].name !in defaultOrder ==>
                    !exists i :: 0 <= i < last && items[..last][i].name == items[last].name)
  {
    var last := |items| - 1;
    assert forall i | 0 <= i < last :: items[i] == items[..last][i];
  }

  lemma DistinctLast(a: seq<string>, x: string)
    ensures Distinct(a + [x]) <==> Distinct(a) && x !in a
  {
    if Distinct(a + [x]) {
      assert forall i | 0 <= i < |a| :: (a + [x])[i] == a[i] && (a + [x])[|a|] == x;
    }
  }

  // What the list must be: no name twice, exactly the names that resolve, each with the definition it
  // resolves to, and marked custom exactly if the tenant has a row for it.
  ghost predicate Agrees(result: seq<Entry>, rows: seq<Row>, defaults: map<string, Definition>, tenant: Id) {
    && (forall i, j | 0 <= i < j < |result| :: result[i].name != result[j].name)
    && (forall i | 0 <= i < |result| ::
          && Resolve(rows, defaults, tenant, result[i].name) == Some(result[i].def)
          && (result[i].custom <==> Lookup(rows, tenant, result[i].name).Some?))
    && (forall name :: Resolve(rows, defaults, tenant, name).Some? ==>
                         exists i :: 0 <= i < |result| && result[i].name == name)
  }

  // Deleting a custom template leaves the built-in of that name in both views, or nothing.
  lemma DeleteReverts(rows: seq<Row>, defaults: map<string, Definition>, tenant: Id, name: string, result: seq<Entry>)
    requires Agrees(result, Deleted(rows, tenant, name), defaults, tenant)
    ensures Resolve(Deleted(rows, tenant, name), defaults, tenant, name)
            == if name in defaults then Some(defaults[name]) else None
    ensures forall i | 0 <= i < |result| && result[i].name == name ::
              name in defaults && result[i] == Entry(name, defaults[name], false)
    ensures name in defaults ==> exists i :: 0 <= i < |result| && result[i].name == name
  {
    LookupDeleted(rows, tenant, name, tenant, name);
  }

  // ---------- Order of names ----------

  // How the database compares names; names that are different may still be equal to it.
  type Collation = le: (string, string) -> bool | IsCollation(le) witness (a: string, b: string) => true

  ghost predicate IsCollation(le: (string, string) -> bool) {
    && (forall a: string, b: string :: le(a, b) || le(b, a))
    && (forall a: string, b: string, c: string | le(a, b) && le(b, c) :: le(a, c))
  }

  ghost predicate Sorted(le: Collation, items: seq<Row>) {
    forall k, l | 0 <= k < l < |items| :: le(items[k].name, items[l].name)
  }

  ghost predicate IsFirst(le: Collation, rows: seq<Row>, i: nat) {
    i < |rows| && forall k | 0 <= k < |rows| :: le(rows[i].name, rows[k].name)
  }

  lemma {:induction false} FirstExists(le: Collation, rows: seq<Row>) returns (i: nat)
    requires rows != []
    ensures IsFirst(le, rows, i)
  {
    var last := |rows| - 1;
    i := last;
    if last > 0 {
      var k := FirstExists(le, rows[..last]);
      if le(rows[k].name, rows[last].name) {
        i := k;
      }
      forall j | 0 <= j < |rows|
        ensures le(rows[i].name, rows[j].name)
      {
        assert j < last ==> le(rows[k].name, rows[..last][j].name);
      }
    }
  }

  // The names of defaults come first, in any order, then the others in the order of names.
  ghost predicate DefaultsFirst(le: Collation, names: seq<string>, defaults: seq<string>) {
    forall i, j | 0 <= i < j < |names| && names[i] !in defaults :: names[j] !in defaults && le(names[i], names[j])
  }

  lemma {:induction false} MergeIsOrdered(le: Collation, defaultOrder: seq<string>, items: seq<Row>)
    requires Sorted(le, items)
    ensures DefaultsFirst(le, NameOrder(defaultOrder, items), defaultOrder)
  {
    if items != [] {
      var last := |items| - 1;
      var front, names, x := items[..last], NameOrder(defaultOrder, items[..last]), items[last].name;
      MergeIsOrdered(le, defaultOrder, front);
      NameOrderMembers(defaultOrder, front);
      if x !in defaultOrder {
        forall i | 0 <= i < |names| && names[i] !in defaultOrder
          ensures le(names[i], x)
        {
          assert names[i] in names;
          var k :| 0 <= k < |front| && front[k].name == names[i];
          assert items[k] == front[k];
        }
        assert NameOrder(defaultOrder, items) == names + [x];
      }
    }
  }

  // ---------- The handlers ----------

  class Store {
    const defaults: map<string, Definition>
    const collation: Collation
    var rows: seq<Row>

    ghost predicate Valid()
      reads this
    {
      Unique(rows)
    }

    constructor (defaults: map<string, Definition>, collation: Collation)
      ensures Valid() && rows == [] && this.defaults == defaults && this.collation == collation
    {
      this.defaults, this.collation, rows := defaults, collation, [];
    }

    // UpsertEmailTemplate
    method Upsert(row: Row)
      requires Valid()
      modifies this
      ensures Valid() && rows == Upserted(old(rows), row)
    {
      UpsertedMembers(rows, row);
      var i := 0;
      while i < |rows| && !Matches(rows[i], row.tenant, row.name)
        invariant 0 <= i <= |rows|
        invariant forall k | 0 <= k < i :: !Matches(rows[k], row.tenant, row.name)
      {
        i := i + 1;
      }
      UpsertedAt(rows, row, i);
      if i < |rows| {
        rows := rows[i := row];
      } else {
        rows := rows + [row];
      }
    }

    // DeleteEmailTemplate
    method Delete(tenant: Id, name: string)
      requires Valid()
      modifies this
      ensures Valid() && rows == Deleted(old(rows), tenant, name)
    {
      DeletedMembers(rows, tenant, name);
      var kept, i := [], 0;
      while i < |rows|
        invariant 0 <= i <= |rows|
        invariant Deleted(rows, tenant, name) == kept + Deleted(rows[i..], tenant, name)
      {
        assert rows[i..][1..] == rows[i + 1..];
        if !Matches(rows[i], tenant, name) {
          kept := kept + [rows[i]];
        }
        i := i + 1;
      }
      assert kept == Deleted(rows, tenant, name);
      rows := kept;
    }

    // The rows of a tenant, ordered by name.
    method ListRows(tenant: Id) returns (items: seq<Row>)
      requires Valid()
      ensures IsListing(items, rows, tenant) && Sorted(collation, items)
    {
      items := [];
      var left := rows;
      while left != []
        invariant Unique(left) && (forall r | r in left :: r in rows)
        invariant forall k | 0 <= k < |items| :: items[k].tenant == tenant && items[k] in rows
        invariant forall r | r in rows && r.tenant == tenant :: r in items || r in left
        invariant forall k, l | 0 <= k < l < |items| :: items[k].name != items[l].name
        invariant forall k, r | 0 <= k < |items| && r in left && r.tenant == tenant :: items[k].name != r.name
        invariant Sorted(collation, items)
        invariant forall k, r | 0 <= k < |items| && r in left :: collation(items[k].name, r.name)
        decreases |left|
      {
        var i := PickFirst(left);
        var row := left[i];
        TakeOut(left, i);
        left := left[..i] + left[i + 1..];
        if row.tenant == tenant {
          items := items + [row];
        }
      }
    }

    // Any row that no other one precedes.
    method PickFirst(left: seq<Row>) returns (i: nat)
      requires left != []
      ensures i < |left| && forall r | r in left :: collation(left[i].name, r.name)
    {
      ghost var first := FirstExists(collation, left);
      assert IsFirst(collation, left, first);
      i :| i < |left| && forall k | 0 <= k < |left| :: collation(left[i].name, left[k].name);
    }

    // resolveTemplate: the definition of the tenant's row of that name if there is one, else the built-in
    // of that name if there is one, else nothing.
    method ResolveTemplate(tenant: Id, name: string) returns (def: Option<Definition>)
      requires Valid()
      ensures forall i | 0 <= i < |rows| && Matches(rows[i], tenant, name) :: def == Some(rows[i].def)
      ensures (forall i | 0 <= i < |rows| :: !Matches(rows[i], tenant, name)) && name in defaults ==>
                def == Some(defaults[name])
      ensures def.None? <==> name !in defaults && forall i | 0 <= i < |rows| :: !Matches(rows[i], tenant, name)
      ensures def == Resolve(rows, defaults, tenant, name)
    {
      LookupFinds(rows, tenant, name);
      forall i | 0 <= i < |rows| && Matches(rows[i], tenant, name)
        ensures Lookup(rows, tenant, name) == Some(rows[i])
      {
        LookupUnique(rows, i);
      }
      var row := Lookup(rows, tenant, name);
      if row.Some? {
        return Some(row.value.def);
      }
      def := if name in defaults then Some(defaults[name]) else None;
    }

    // ListEmailTemplates. The map of defaults is iterated in an arbitrary order.
    method ListEmailTemplates(tenant: Id) returns (result: seq<Entry>)
      requires Valid()
      ensures Agrees(result, rows, defaults, tenant)
      ensures forall i, j | 0 <= i < j < |result| && result[i].name !in defaults ::
                result[j].name !in defaults && collation(result[i].name, result[j].name)
    {
      var items := ListRows(tenant);
      var customByName := IndexByName(items);
      var nameOrder, defaultOrder := MergeNames(items);
      MergeCovers(rows, defaults, tenant, items, defaultOrder, nameOrder);
      MergeIsOrdered(collation, defaultOrder, items);

      result := [];
      for i := 0 to |nameOrder|
        invariant |result| == i
        invariant forall k | 0 <= k < i ::
                    result[k].name == nameOrder[k] && EntryOk(result[k], rows, defaults, tenant)
      {
        var name := nameOrder[i];
        assert name in nameOrder;
        ListingLookup(rows, items, tenant, name);
        if name in customByName {
          var custom := customByName[name];
          result := result + [Entry(custom.name, custom.def, true)];
        } else if name in defaults {
          result := result + [Entry(name, defaults[name], false)];
        }
      }
      ListIsComplete(result, nameOrder, rows, defaults, tenant);
    }

    // A map from names to rows.
    method IndexByName(items: seq<Row>) returns (customByName: map<string, Row>)
      requires forall k, l | 0 <= k < l < |items| :: items[k].name != items[l].name
      ensures forall n | n in customByName :: exists k :: 0 <= k < |items| && items[k].name == n
      ensures forall k | 0 <= k < |items| ::
                items[k].name in customByName && customByName[items[k].name] == items[k]
    {
      customByName := map[];
      for i := 0 to |items|
        invariant forall n | n in customByName :: exists k :: 0 <= k < i && items[k].name == n
        invariant forall k | 0 <= k < i :: items[k].name in customByName && customByName[items[k].name] == items[k]
      {
        customByName := customByName[items[i].name := items[i]];
      }
    }

    // The defaults first, in the order the map is iterated, then the rows whose name has not been seen.
    method MergeNames(items: seq<Row>) returns (nameOrder: seq<string>, ghost defaultOrder: seq<string>)
      ensures Distinct(defaultOrder) && forall n :: n in defaultOrder <==> n in defaults
      ensures nameOrder == NameOrder(defaultOrder, items)
    {
      nameOrder := [];
      var seen: set<string>, left := {}, defaults.Keys;
      while left != {}
        invariant left <= defaults.Keys && Distinct(nameOrder)
        invariant seen == defaults.Keys - left
        invariant forall n :: n in nameOrder <==> n in seen
        decreases left
      {
        var name :| name in left;
        DistinctLast(nameOrder, name);
        nameOrder, seen, left := nameOrder + [name], seen + {name}, left - {name};
      }
      defaultOrder := nameOrder;
      for i := 0 to |items|
        invariant nameOrder == NameOrder(defaultOrder, items[..i])
      {
        assert items[..i + 1][..i] == items[..i];
        if items[i].name !in seen {
          nameOrder := nameOrder + [items[i].name];
        }
      }
      assert items[..|items|] == items;
    }
  }

  // ---------- Why the merge is right ----------

  // The rows of one tenant, each once, no name twice.
  ghost predicate IsListing(items: seq<Row>, rows: seq<Row>, tenant: Id) {
    && (forall k | 0 <= k < |items| :: items[k].tenant == tenant && items[k] in rows)
    && (forall i | 0 <= i < |rows| && rows[i].tenant == tenant :: rows[i] in items)
    && (forall k, l | 0 <= k < l < |items| :: items[k].name != items[l].name)
  }

  ghost predicate EntryOk(e: Entry, rows: seq<Row>, defaults: map<string, Definition>, tenant: Id) {
    && Resolve(rows, defaults, tenant, e.name) == Some(e.def)
    && (e.custom <==> Lookup(rows, tenant, e.name).Some?)
  }

  lemma TakeOut(rows: seq<Row>, i: nat)
    requires Unique(rows) && i < |rows|
    ensures var rest := rows[..i] + rows[i + 1..];
            && Unique(rest)
            && (forall r | r in rest :: r in rows && !Matches(r, rows[i].tenant, rows[i].name))
            && (forall r | r in rows && r != rows[i] :: r in rest)
  {
    var rest := rows[..i] + rows[i + 1..];
    assert rows == rows[..i] + [rows[i]] + rows[i + 1..];
    forall r | r in rest
      ensures !Matches(r, rows[i].tenant, rows[i].name)
    {
      var k :| 0 <= k < |rest| && rest[k] == r;
      assert rest[k] == rows[if k < i then k else k + 1];
    }
    forall a, b | 0 <= a < b < |rest|
      ensures !Matches(rest[b], rest[a].tenant, rest[a].name)
    {
      assert rest[a] == rows[if a < i then a else a + 1] && rest[b] == rows[if b < i then b else b + 1];
    }
  }

  lemma ListingLookup(rows: seq<Row>, items: seq<Row>, tenant: Id, name: string)
    requires Unique(rows) && IsListing(items, rows, tenant)
    ensures forall k | 0 <= k < |items| && items[k].name == name :: Lookup(rows, tenant, name) == Some(items[k])
    ensures (forall k | 0 <= k < |items| :: items[k].name != name) ==> Lookup(rows, tenant, name).None?
  {
    LookupFinds(rows, tenant, name);
    forall k | 0 <= k < |items| && items[k].name == name
      ensures Lookup(rows, tenant, name) == Some(items[k])
    {
      var i :| 0 <= i < |rows| && rows[i] == items[k];
      LookupUnique(rows, i);
    }
  }

  // The merged order names every template that resolves, once.
  lemma MergeCovers(rows: seq<Row>, defaults: map<string, Definition>, tenant: Id, items: seq<Row>,
                    defaultOrder: seq<string>, names: seq<string>)
    requires names == NameOrder(defaultOrder, items)
    requires Unique(rows) && IsListing(items, rows, tenant)
    requires Distinct(defaultOrder) && forall n :: n in defaultOrder <==> n in defaults
    ensures && Distinct(names)
            && forall n :: n in names <==> Resolve(rows, defaults, tenant, n).Some?
  {
    DuplicateFreeIff(defaultOrder, items);
    NameOrderMembers(defaultOrder, items);
    forall n
      ensures n in names <==> Resolve(rows, defaults, tenant, n).Some?
    {
      ListingLookup(rows, items, tenant, n);
    }
  }

  lemma ListIsComplete(result: seq<Entry>, names: seq<string>, rows: seq<Row>, defaults: map<string, Definition>,
                       tenant: Id)
    requires |result| == |names| && Distinct(names)
    requires forall k | 0 <= k < |names| :: result[k].name == names[k] && EntryOk(result[k], rows, defaults, tenant)
    requires forall n :: n in names <==> Resolve(rows, defaults, tenant, n).Some?
    ensures Agrees(result, rows, defaults, tenant)
  {
    forall name | Resolve(rows, defaults, tenant, name).Some?
      ensures exists i :: 0 <= i < |result| && result[i].name == name
    {
      assert name in names;
      var i :| 0 <= i < |names| && names[i] == name;
      assert result[i].name == name;
    }
  }
}

/** The orchestrator (src/msi_tables.rs): picks the primary identifier, runs
    the identifier, Dao and table compilers for one entity, and extends that
    to an enum whose variants are tables of their own. */
module MsiTables {
  import opened Common
  import opened Helper
  import opened Ir
  import opened IdentifierGen
  import opened DaoGen
  import opened TableGen

  /** What `gen_tables_for_fields` emits for one entity: the identifier part
      (wrapper and generator), the Dao part and the table part. */
  datatype EntityArtifact = EntityArtifact(
    identifier: Option<IdentifierDef>,
    generator: Option<GeneratorDef>,
    dao: DaoDef,
    table: TableDef)

  /** `Variant(Payload),` in an emitted enum. */
  datatype EnumCase = EnumCase(variant: string, payload: TypeName)

  datatype EnumDef = EnumDef(typeName: TypeName, cases: seq<EnumCase>)

  /** What `gen_tables_for_enum` emits: the table enum, the Dao enum, and
      every variant compiled as an entity of its own. */
  datatype GroupArtifact = GroupArtifact(tableEnum: EnumDef, daoEnum: EnumDef, variants: seq<EntityArtifact>)

  datatype SchemaArtifact = StructArtifact(entity: EntityArtifact) | EnumArtifact(group: GroupArtifact)

  /** The `filter(..).at_most_one()` of `gen_tables_for_fields`: no
      qualifying field gives `None`, one gives that field, two or more
      panic. */
  function PrimaryIdentifierField(fields: seq<Field>): (r: Result<Option<Field>, CompileError>)
    ensures r == Ok(None) <==> forall i :: 0 <= i < |fields| ==> !IsPrimaryIdentifier(fields[i])
    ensures r.Err? <==>
      exists i, j :: 0 <= i < j < |fields| && IsPrimaryIdentifier(fields[i]) && IsPrimaryIdentifier(fields[j])
    ensures r.Err? ==> r.error == AmbiguousPrimaryIdentifier
    ensures r.Ok? && r.value.Some? ==>
      exists i :: 0 <= i < |fields| && fields[i] == r.value.value && IsPrimaryIdentifier(fields[i]) &&
        forall j :: 0 <= j < |fields| && j != i ==> !IsPrimaryIdentifier(fields[j])
  {
    var q := Positions(fields, IsPrimaryIdentifier);
    if |q| == 0 then
      assert forall i :: 0 <= i < |fields| && IsPrimaryIdentifier(fields[i]) ==> i in q;
      Ok(None)
    else if |q| == 1 then
      assert forall i :: 0 <= i < |fields| && IsPrimaryIdentifier(fields[i]) ==> i == q[0];
      Ok(Some(fields[q[0]]))
    else
      assert IsPrimaryIdentifier(fields[q[0]]) && IsPrimaryIdentifier(fields[q[1]]);
      Err(AmbiguousPrimaryIdentifier)
  }

  /** `gen_tables_for_fields`: capitalizes the base name, picks the primary
      identifier, then emits the identifier part (only with a primary
      identifier), the Dao part and the table part, in that order. */
  function CompileFields(baseName: string, fields: seq<Field>, categories: string -> Option<Category>): (r: Result<EntityArtifact, CompileError>)
    ensures PrimaryIdentifierField(fields).Err? ==> r == Err(AmbiguousPrimaryIdentifier)
    ensures PrimaryIdentifierField(fields).Ok? && (exists i :: 0 <= i < |fields| && fields[i].ident.None?) ==>
      r == Err(DaoFieldWithoutIdent)
    ensures PrimaryIdentifierField(fields).Ok? && (forall i :: 0 <= i < |fields| ==> fields[i].ident.Some?) ==>
      (r.Err? ==> Columns(fields, categories) == Err(r.error))
    ensures r.Ok? <==>
      PrimaryIdentifierField(fields).Ok? &&
      forall i :: 0 <= i < |fields| ==> DeriveColumn(fields[i], categories).Ok?
    ensures r.Ok? ==>
      (r.value.identifier.Some? <==> exists i :: 0 <= i < |fields| && IsPrimaryIdentifier(fields[i]))
    ensures r.Ok? ==>
      (r.value.generator.Some? <==>
        exists i :: 0 <= i < |fields| && IsPrimaryIdentifier(fields[i]) && IsGenerated(fields[i]))
    ensures r.Ok? && r.value.identifier.Some? ==>
      r.value.identifier.value.typeName == IdentifierOf(Capitalize(baseName))
    ensures r.Ok? && r.value.generator.Some? ==>
      r.value.generator.value == GeneratorDefinition(Capitalize(baseName))
    ensures r.Ok? ==> CompileDao(Capitalize(baseName), PrimaryIdentifierField(fields).value, fields) == Ok(r.value.dao)
    ensures r.Ok? ==> CompileTable(Capitalize(baseName), fields, categories) == Ok(r.value.table)
    ensures r.Ok? ==> (r.value.dao.primaryIdentifier.ReturnsConverted? <==> r.value.identifier.Some?)
  {
    var target := Capitalize(baseName);
    var primaryIdentifier :- PrimaryIdentifierField(fields);
    var part := if primaryIdentifier.Some? then Some(IdentifierTokens(target, primaryIdentifier.value)) else None;
    var dao :- CompileDao(target, primaryIdentifier, fields);
    var table :- CompileTable(target, fields, categories);
    Ok(EntityArtifact(
      if part.Some? then Some(part.value.wrapper) else None,
      if part.Some? then part.value.generator else None,
      dao,
      table))
  }

  /** A variant compiled on its own fields alone, under its identifier:
      everything it emits is named after the capitalized identifier. */
  function CompileVariant(v: Variant, categories: string -> Option<Category>): (r: Result<EntityArtifact, CompileError>)
    ensures r.Ok? ==>
      && r.value.table.name == Capitalize(v.ident)
      && r.value.table.typeName == TableOf(Capitalize(v.ident))
      && r.value.table.entryType == DaoOf(Capitalize(v.ident))
      && r.value.dao.typeName == DaoOf(Capitalize(v.ident))
  {
    CompileFields(v.ident, v.fields, categories)
  }

  /** Whether a variant compiles depends on its own fields alone: exactly
      when at most one field qualifies as primary identifier and every field
      yields a column. */
  lemma VariantCompilesIff(v: Variant, categories: string -> Option<Category>)
    ensures CompileVariant(v, categories).Ok? <==>
      PrimaryIdentifierField(v.fields).Ok? &&
      forall i :: 0 <= i < |v.fields| ==> DeriveColumn(v.fields[i], categories).Ok?
  {
  }

  /** `gen_tables_for_enum`: a table enum named as the item is, a Dao enum,
      one case per variant in declaration order whose payload is named from
      the raw variant identifier, then every variant compiled independently
      and appended in order; any variant's panic aborts everything. */
  function CompileEnum(name: string, variants: seq<Variant>, categories: string -> Option<Category>): (r: Result<GroupArtifact, CompileError>)
    ensures r.Ok? <==> forall k :: 0 <= k < |variants| ==> CompileVariant(variants[k], categories).Ok?
    ensures r.Ok? ==> r.value.tableEnum.typeName == Named(name) && r.value.daoEnum.typeName == DaoOf(name)
    ensures r.Ok? ==>
      && |r.value.tableEnum.cases| == |variants|
      && |r.value.daoEnum.cases| == |variants|
      && |r.value.variants| == |variants|
    ensures r.Ok? ==> forall k :: 0 <= k < |variants| ==>
      && r.value.tableEnum.cases[k] == EnumCase(variants[k].ident, TableOf(variants[k].ident))
      && r.value.daoEnum.cases[k] == EnumCase(variants[k].ident, DaoOf(variants[k].ident))
      && CompileVariant(variants[k], categories) == Ok(r.value.variants[k])
    ensures r.Err? ==>
      exists k :: 0 <= k < |variants| && CompileVariant(variants[k], categories) == Err(r.error) &&
        forall j :: 0 <= j < k ==> CompileVariant(variants[j], categories).Ok?
  {
    var tableCases := seq(|variants|, k requires 0 <= k < |variants| =>
      EnumCase(variants[k].ident, TableOf(variants[k].ident)));
    var daoCases := seq(|variants|, k requires 0 <= k < |variants| =>
      EnumCase(variants[k].ident, DaoOf(variants[k].ident)));
    var compiled :- Traverse(variants, v => CompileVariant(v, categories));
    Ok(GroupArtifact(EnumDef(Named(name), tableCases), EnumDef(DaoOf(name), daoCases), compiled))
  }

  /** `gen_tables_impl` after parsing: an enum goes through the enum path
      under its own identifier (its `name` option is not read); a struct is
      compiled under `capitalize(name, else identifier)`. */
  function GenTables(input: DeriveInput, categories: string -> Option<Category>): (r: Result<SchemaArtifact, CompileError>)
    ensures input.data.EnumData? ==>
      (r.Ok? <==> CompileEnum(input.ident, input.data.variants, categories).Ok?) &&
      (r.Ok? ==> r == Ok(EnumArtifact(CompileEnum(input.ident, input.data.variants, categories).value)))
    ensures input.data.EnumData? && CompileEnum(input.ident, input.data.variants, categories).Err? ==>
      r == Err(CompileEnum(input.ident, input.data.variants, categories).error)
    ensures input.data.StructData? ==>
      var base := Capitalize(input.name.GetOr(input.ident));
      (r.Ok? <==> CompileFields(base, input.data.fields, categories).Ok?) &&
      (r.Ok? ==> r == Ok(StructArtifact(CompileFields(base, input.data.fields, categories).value)))
    ensures input.data.StructData? ==>
      var compiled := CompileFields(Capitalize(input.name.GetOr(input.ident)), input.data.fields, categories);
      compiled.Err? ==> r == Err(compiled.error)
  {
    match input.data
    case EnumData(variants) =>
      var group :- CompileEnum(input.ident, variants, categories);
      Ok(EnumArtifact(group))
    case StructData(fields) =>
      var entity :- CompileFields(Capitalize(input.name.GetOr(input.ident)), fields, categories);
      Ok(StructArtifact(entity))
  }

  /** The struct path capitalizes twice, which names every artifact after
      the capitalized `name` (or identifier) once. */
  lemma StructNamesCapitalizedOnce(input: DeriveInput, categories: string -> Option<Category>)
    ensures input.data.StructData? && GenTables(input, categories).Ok? ==>
      var e := GenTables(input, categories).value.entity;
      var target := Capitalize(input.name.GetOr(input.ident));
      && e.table.name == target
      && e.table.typeName == TableOf(target)
      && e.dao.typeName == DaoOf(target)
  {
    var base := Capitalize(input.name.GetOr(input.ident));
    CapitalizeIdempotent(input.name.GetOr(input.ident));
    assert Capitalize(base) == base;
  }

  /** An enum case's payload names the table (and Dao) that its variant's
      compilation emits exactly when the variant identifier does not start
      with a lower-case letter: the payload uses the raw identifier, the
      artifacts use it capitalized. */
  lemma EnumPayloadNamesEmittedTypes(name: string, variants: seq<Variant>, categories: string -> Option<Category>, k: nat)
    requires k < |variants|
    ensures CompileEnum(name, variants, categories).Ok? ==>
      var g := CompileEnum(name, variants, categories).value;
      var v := variants[k].ident;
      && (g.tableEnum.cases[k].payload == g.variants[k].table.typeName <==> |v| == 0 || !IsAsciiLower(v[0]))
      && (g.daoEnum.cases[k].payload == g.variants[k].dao.typeName <==> |v| == 0 || !IsAsciiLower(v[0]))
  {
    if CompileEnum(name, variants, categories).Ok? {
      var g := CompileEnum(name, variants, categories).value;
      var v := variants[k].ident;
      assert CompileFields(v, variants[k].fields, categories) == Ok(g.variants[k]);
      CapitalizeFixedIff(v);
    }
  }

  // ---------------------------------------------------------------------
  // Emission order

  /** One emitted item. */
  datatype Item =
    | IdentifierItem(wrapper: IdentifierDef)
    | GeneratorItem(generator: GeneratorDef)
    | DaoItem(dao: DaoDef)
    | TableItem(table: TableDef)
    | TableEnumItem(tableEnum: EnumDef)
    | DaoEnumItem(daoEnum: EnumDef)

  /** The items of one entity in the order `quote!` concatenates them:
      the identifier part (possibly empty), then the Dao, then the table. */
  function EntityItems(e: EntityArtifact): (r: seq<Item>)
    ensures |r| == 2 + (if e.identifier.Some? then 1 else 0) + (if e.generator.Some? then 1 else 0)
    ensures r[|r| - 2] == DaoItem(e.dao) && r[|r| - 1] == TableItem(e.table)
    ensures forall k :: 0 <= k < |r| - 2 ==> r[k].IdentifierItem? || r[k].GeneratorItem?
    ensures forall w :: IdentifierItem(w) in r <==> e.identifier == Some(w)
    ensures forall g :: GeneratorItem(g) in r <==> e.generator == Some(g)
    ensures e.identifier.Some? ==> r[0] == IdentifierItem(e.identifier.value)
  {
    (if e.identifier.Some? then [IdentifierItem(e.identifier.value)] else []) +
    (if e.generator.Some? then [GeneratorItem(e.generator.value)] else []) +
    [DaoItem(e.dao), TableItem(e.table)]
  }

  /** The variants' items, appended in variant order (the `fold`): every
      variant's items are emitted, and nothing else is. */
  function VariantItems(es: seq<EntityArtifact>): (r: seq<Item>)
    ensures forall k, x :: 0 <= k < |es| && x in EntityItems(es[k]) ==> x in r
    ensures forall x :: x in r ==> exists k :: 0 <= k < |es| && x in EntityItems(es[k])
    decreases |es|
  {
    if |es| == 0 then []
    else
      var prefix := es[..|es| - 1];
      assert forall k :: 0 <= k < |prefix| ==> prefix[k] == es[k];
      VariantItems(prefix) + EntityItems(es[|es| - 1])
  }

  /** The fold keeps variant order: the items of earlier variants come
      before those of later ones. */
  lemma {:induction false} VariantItemsAppend(a: seq<EntityArtifact>, b: seq<EntityArtifact>)
    ensures VariantItems(a + b) == VariantItems(a) + VariantItems(b)
    decreases |b|
  {
    if |b| > 0 {
      assert (a + b)[..|a + b| - 1] == a + b[..|b| - 1];
      assert (a + b)[|a + b| - 1] == b[|b| - 1];
      VariantItemsAppend(a, b[..|b| - 1]);
    } else {
      assert a + b == a;
    }
  }

  /** Everything `gen_tables_impl` emits after its `use` lines. A struct
      emits its entity's whole output, which holds one table, its own; an
      enum emits its table enum, then its Dao enum, then every variant's
      whole output in variant order, which holds one table per variant. */
  function Emitted(s: SchemaArtifact): (r: seq<Item>)
    ensures s.StructArtifact? ==> r == EntityItems(s.entity)
    ensures s.StructArtifact? ==> TablesIn(r) == [s.entity.table]
    ensures s.EnumArtifact? ==>
      && |r| >= 2
      && r[0] == TableEnumItem(s.group.tableEnum)
      && r[1] == DaoEnumItem(s.group.daoEnum)
      && r[2..] == VariantItems(s.group.variants)
      && TablesIn(r) == seq(|s.group.variants|, k requires 0 <= k < |s.group.variants| => s.group.variants[k].table)
  {
    match s
    case StructArtifact(e) =>
      EntityHasOneTable(e);
      EntityItems(e)
    case EnumArtifact(g) =>
      var head := [TableEnumItem(g.tableEnum), DaoEnumItem(g.daoEnum)];
      NoTables(head);
      TablesInAppend(head, VariantItems(g.variants));
      VariantTablesInOrder(g.variants);
      head + VariantItems(g.variants)
  }

  /** The table definitions among some items, in order. */
  function TablesIn(items: seq<Item>): seq<TableDef>
    decreases |items|
  {
    if |items| == 0 then []
    else TablesIn(items[..|items| - 1]) + (if items[|items| - 1].TableItem? then [items[|items| - 1].table] else [])
  }

  lemma {:induction false} TablesInAppend(a: seq<Item>, b: seq<Item>)
    ensures TablesIn(a + b) == TablesIn(a) + TablesIn(b)
    decreases |b|
  {
    if |b| > 0 {
      assert (a + b)[..|a + b| - 1] == a + b[..|b| - 1];
      TablesInAppend(a, b[..|b| - 1]);
    } else {
      assert a + b == a;
    }
  }

  lemma EntityHasOneTable(e: EntityArtifact)
    ensures TablesIn(EntityItems(e)) == [e.table]
  {
    var items := EntityItems(e);
    var front := items[..|items| - 1];
    assert items == front + [TableItem(e.table)];
    var head := front[..|front| - 1];
    assert front == head + [DaoItem(e.dao)];
    assert forall k :: 0 <= k < |head| ==> !head[k].TableItem?;
    NoTables(head);
    TablesInAppend(head, [DaoItem(e.dao)]);
    TablesInAppend(front, [TableItem(e.table)]);
  }

  lemma {:induction false} NoTables(items: seq<Item>)
    requires forall k :: 0 <= k < |items| ==> !items[k].TableItem?
    ensures TablesIn(items) == []
    decreases |items|
  {
    if |items| > 0 {
      NoTables(items[..|items| - 1]);
    }
  }

  /** An enum's output holds exactly one table definition per variant, in
      variant order. */
  lemma {:induction false} VariantTablesInOrder(es: seq<EntityArtifact>)
    ensures TablesIn(VariantItems(es)) == seq(|es|, k requires 0 <= k < |es| => es[k].table)
    decreases |es|
  {
    if |es| > 0 {
      var prefix := es[..|es| - 1];
      VariantTablesInOrder(prefix);
      TablesInAppend(VariantItems(prefix), EntityItems(es[|es| - 1]));
      EntityHasOneTable(es[|es| - 1]);
    }
  }

  /** End to end: an enum's output holds exactly one table per variant, in
      variant order, and the k-th is the table of the k-th variant, named
      after its capitalized identifier. */
  lemma EnumTablesFollowVariants(input: DeriveInput, categories: string -> Option<Category>)
    ensures input.data.EnumData? && GenTables(input, categories).Ok? ==>
      var variants := input.data.variants;
      var tables := TablesIn(Emitted(GenTables(input, categories).value));
      && |tables| == |variants|
      && forall k :: 0 <= k < |variants| ==>
           CompileVariant(variants[k], categories).Ok? &&
           tables[k] == CompileVariant(variants[k], categories).value.table &&
           tables[k].name == Capitalize(variants[k].ident)
  {
    if input.data.EnumData? && GenTables(input, categories).Ok? {
      var g := CompileEnum(input.ident, input.data.variants, categories).value;
      assert GenTables(input, categories) == Ok(EnumArtifact(g));
      GroupTablesFollowVariants(input.ident, input.data.variants, categories);
    }
  }

  /** The same for a compiled enum group on its own. */
  lemma GroupTablesFollowVariants(name: string, variants: seq<Variant>, categories: string -> Option<Category>)
    ensures CompileEnum(name, variants, categories).Ok? ==>
      var tables := TablesIn(Emitted(EnumArtifact(CompileEnum(name, variants, categories).value)));
      && |tables| == |variants|
      && forall k :: 0 <= k < |variants| ==>
           CompileVariant(variants[k], categories).Ok? &&
           tables[k] == CompileVariant(variants[k], categories).value.table &&
           tables[k].name == Capitalize(variants[k].ident)
  {
    if CompileEnum(name, variants, categories).Ok? {
      var g := CompileEnum(name, variants, categories).value;
      var tables := TablesIn(Emitted(EnumArtifact(g)));
      assert tables == seq(|g.variants|, k requires 0 <= k < |g.variants| => g.variants[k].table);
      forall k | 0 <= k < |variants|
        ensures CompileVariant(variants[k], categories) == Ok(g.variants[k])
        ensures tables[k] == g.variants[k].table
      {
      }
    }
  }
}

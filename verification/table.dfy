/** The table-schema compiler (src/table.rs): the `<T>Table` struct and its
    `MsiTableKind` impl, whose `columns()` lists one `msi::Column` per field. */
module TableGen {
  import opened Common
  import opened Helper
  import opened Ir

  /** `msi::Category` as far as the compiler looks at it: the two fixed-width
      integer categories and every other category. */
  datatype Category = Integer | DoubleInteger | OtherCategory(name: string)

  /** The storage call that finishes a column: `.int16()`, `.int32()` or
      `.string(length)`. */
  datatype Width = Int16 | Int32 | Str(length: nat)

  /** `.foreign_key(table, column)` */
  datatype ForeignKey = ForeignKey(table: string, column: nat)

  /** `msi::Column::build(name)` with its builder calls. */
  datatype Column = Column(
    name: ColumnName,
    primaryKey: bool,
    nullable: bool,
    localizable: bool,
    foreignKey: Option<ForeignKey>,
    category: CategoryExpr,
    width: Width)

  /** The `<T>Table` struct, which holds only `entries: Vec<<T>Dao>`, and its
      `MsiTableKind` impl. */
  datatype TableDef = TableDef(
    typeName: TypeName,
    entryType: TypeName,
    name: string,
    primaryKeyIndices: seq<nat>,
    columns: seq<Column>)

  /** `primary_key_indices()`: the 0-based positions of the primary-key
      fields, in declaration order. */
  function PrimaryKeyIndices(fields: seq<Field>): (r: seq<nat>)
    ensures ExactPositions(fields, IsPrimaryKey, r)
  {
    Positions(fields, IsPrimaryKey)
  }

  /** A path type whose last segment is `Option`. */
  predicate IsOptionPath(ty: TypeExpr) {
    ty.PathType? && |ty.segments| > 0 && ty.segments[|ty.segments| - 1].ident == "Option"
  }

  /** The nullability test on the field type; `last().unwrap()` panics on a
      path without segments. */
  function Nullable(ty: TypeExpr): (r: Result<bool, CompileError>)
    ensures r.Err? <==> ty.PathType? && |ty.segments| == 0
    ensures r.Err? ==> r.error == TypePathWithoutSegments
    ensures r.Ok? ==> (r.value <==> IsOptionPath(ty))
  {
    match ty
    case OtherType(_) => Ok(false)
    case PathType(segments) =>
      if |segments| == 0 then Err(TypePathWithoutSegments)
      else Ok(segments[|segments| - 1].ident == "Option")
  }

  /** The last segment of the category path. */
  function CategoryName(category: CategoryExpr): (r: Result<string, CompileError>)
    ensures category.CategoryOther? ==> r == Err(CategoryNotPath)
    ensures category.CategoryPath? && |category.segments| == 0 ==> r == Err(CategoryPathWithoutSegments)
    ensures category.CategoryPath? && |category.segments| > 0 ==>
      r == Ok(category.segments[|category.segments| - 1])
  {
    match category
    case CategoryOther(_) => Err(CategoryNotPath)
    case CategoryPath(segments) =>
      if |segments| == 0 then Err(CategoryPathWithoutSegments)
      else Ok(segments[|segments| - 1])
  }

  /** `generate_finish_build_for_field`. `categories` is
      `msi::Category::from_str`, which belongs to another crate. Integer
      columns are 16 bits wide, DoubleInteger columns 32 bits; every other
      recognised category is a string column of the declared length, and
      has to declare one. */
  function FinishBuild(f: Field, categories: string -> Option<Category>): (r: Result<Width, CompileError>)
    ensures CategoryName(f.category).Err? ==> r == Err(CategoryName(f.category).error)
    ensures CategoryName(f.category).Ok? ==>
      var name := CategoryName(f.category).value;
      && (categories(name).None? ==> r == Err(InvalidCategory(name)))
      && (categories(name) == Some(Integer) ==> r == Ok(Int16))
      && (categories(name) == Some(DoubleInteger) ==> r == Ok(Int32))
      && (categories(name).Some? && categories(name).value.OtherCategory? ==>
            if f.length.Some? then r == Ok(Str(f.length.value))
            else r == Err(MissingLength(f.ident, name)))
    ensures r.Ok? ==> (r.value.Str? <==> f.length.Some? && r.value == Str(f.length.value))
  {
    var name :- CategoryName(f.category);
    match categories(name)
    case None => Err(InvalidCategory(name))
    case Some(Integer) => Ok(Int16)
    case Some(DoubleInteger) => Ok(Int32)
    case Some(OtherCategory(_)) =>
      if f.length.Some? then Ok(Str(f.length.value)) else Err(MissingLength(f.ident, name))
  }

  /** The column built for one field (the body of the `columns` fold). Panics,
      in this order, on a field without a name, an empty type path, and the
      category failures of `FinishBuild`. */
  function DeriveColumn(f: Field, categories: string -> Option<Category>): (r: Result<Column, CompileError>)
    ensures r.Ok? <==> f.ident.Some? && Nullable(f.ty).Ok? && FinishBuild(f, categories).Ok?
    ensures f.ident.None? ==> r == Err(ColumnFieldWithoutIdent)
    ensures f.ident.Some? && Nullable(f.ty).Err? ==> r == Err(TypePathWithoutSegments)
    ensures f.ident.Some? && Nullable(f.ty).Ok? && FinishBuild(f, categories).Err? ==>
      r == Err(FinishBuild(f, categories).error)
    ensures r.Ok? ==>
      && r.value.name == (if f.columnName.Some? then Given(f.columnName.value) else PascalCaseOf(f.ident.value))
      && (r.value.nullable <==> IsOptionPath(f.ty))
      && r.value.primaryKey == f.primaryKey
      && r.value.localizable == f.localizable
      && (r.value.foreignKey.Some? <==> f.identifierOptions.Some? && f.identifierOptions.value.foreignKey.Some?)
      && (r.value.foreignKey.Some? ==>
            r.value.foreignKey.value == ForeignKey(f.identifierOptions.value.foreignKey.value, 0))
      && r.value.category == f.category
      && Ok(r.value.width) == FinishBuild(f, categories)
  {
    if f.ident.None? then Err(ColumnFieldWithoutIdent)
    else
      var nullable :- Nullable(f.ty);
      var width :- FinishBuild(f, categories);
      var name := if f.columnName.Some? then Given(f.columnName.value) else PascalCaseOf(f.ident.value);
      var foreignKey :=
        if f.identifierOptions.Some? && f.identifierOptions.value.foreignKey.Some?
        then Some(ForeignKey(f.identifierOptions.value.foreignKey.value, 0))
        else None;
      Ok(Column(name, f.primaryKey, nullable, f.localizable, foreignKey, f.category, width))
  }

  /** `columns()`: one column per field, column i derived from field i alone;
      the first field that panics aborts the fold. */
  function Columns(fields: seq<Field>, categories: string -> Option<Category>): (r: Result<seq<Column>, CompileError>)
    ensures r.Ok? <==> forall i :: 0 <= i < |fields| ==> DeriveColumn(fields[i], categories).Ok?
    ensures r.Ok? ==> |r.value| == |fields|
    ensures r.Ok? ==> forall i :: 0 <= i < |fields| ==> DeriveColumn(fields[i], categories) == Ok(r.value[i])
    ensures r.Err? ==>
      exists i :: 0 <= i < |fields| && DeriveColumn(fields[i], categories) == Err(r.error) &&
        forall j :: 0 <= j < i ==> DeriveColumn(fields[j], categories).Ok?
  {
    Traverse(fields, f => DeriveColumn(f, categories))
  }

  /** `generate_table_tokens` for one target. */
  function CompileTable(target: string, fields: seq<Field>, categories: string -> Option<Category>): (r: Result<TableDef, CompileError>)
    ensures r.Ok? <==> forall i :: 0 <= i < |fields| ==> DeriveColumn(fields[i], categories).Ok?
    ensures r.Ok? ==> r.value.typeName == TableOf(target) && r.value.entryType == DaoOf(target)
    ensures r.Ok? ==> r.value.name == target
    ensures r.Ok? ==> r.value.primaryKeyIndices == PrimaryKeyIndices(fields)
    ensures r.Ok? ==> |r.value.columns| == |fields|
    ensures r.Ok? ==> forall i :: 0 <= i < |fields| ==> DeriveColumn(fields[i], categories) == Ok(r.value.columns[i])
    ensures r.Err? ==> r == Columns(fields, categories).PropagateFailure()
  {
    var columns :- Columns(fields, categories);
    Ok(TableDef(TableOf(target), DaoOf(target), target, PrimaryKeyIndices(fields), columns))
  }

  /** The schema agrees with itself: position i is listed by
      `primary_key_indices()` exactly when column i is marked primary key. */
  lemma PrimaryKeyIndicesMatchColumns(target: string, fields: seq<Field>, categories: string -> Option<Category>)
    requires CompileTable(target, fields, categories).Ok?
    ensures var t := CompileTable(target, fields, categories).value;
      forall i :: 0 <= i < |t.columns| ==> (i in t.primaryKeyIndices <==> t.columns[i].primaryKey)
  {
    var t := CompileTable(target, fields, categories).value;
    forall i | 0 <= i < |t.columns|
      ensures i in t.primaryKeyIndices <==> t.columns[i].primaryKey
    {
      assert DeriveColumn(fields[i], categories) == Ok(t.columns[i]);
      if i in t.primaryKeyIndices {
        var k :| 0 <= k < |t.primaryKeyIndices| && t.primaryKeyIndices[k] == i;
      }
    }
  }
}

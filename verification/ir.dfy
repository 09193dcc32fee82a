/** The already-parsed input of the macro (src/msi_tables.rs): an item's
    identifier, its optional `name`, and its fields or enum variants, plus
    the panics the compiler can raise. */
module Ir {
  import opened Common

  /** One segment of a type path, `Option<DirectoryIdentifier>` being the
      single segment `Option` with one argument. */
  datatype Segment = Segment(ident: string, args: seq<TypeExpr>)

  /** `syn::Type`: a path type, or any other type shape (reference, tuple,
      parenthesised, ...) kept as opaque text. */
  datatype TypeExpr = PathType(segments: seq<Segment>) | OtherType(text: string)

  /** `syn::Expr` given as `category = ...`: a path such as
      `msi::Category::Identifier`, or any other expression. */
  datatype CategoryExpr = CategoryPath(segments: seq<string>) | CategoryOther(text: string)

  /** `identifier(generated, foreign_key = "...")` */
  datatype IdentifierOptions = IdentifierOptions(generated: bool, foreignKey: Option<string>)

  /** `FieldInformation`: one field and its `msi_column` options. The length
      expression is kept as its value. */
  datatype Field = Field(
    ident: Option<string>,
    ty: TypeExpr,
    category: CategoryExpr,
    length: Option<nat>,
    columnName: Option<string>,
    primaryKey: bool,
    identifierOptions: Option<IdentifierOptions>,
    localizable: bool)

  /** `VariantInformation`: an enum variant and its fields. */
  datatype Variant = Variant(ident: string, fields: seq<Field>)

  datatype Data = EnumData(variants: seq<Variant>) | StructData(fields: seq<Field>)

  /** `DeriveInformation`: `name` is only read for a struct. */
  datatype DeriveInput = DeriveInput(ident: string, data: Data, name: Option<string>)

  /** The panics of the compiler, one per panic site. */
  datatype CompileError =
    | AmbiguousPrimaryIdentifier         // "More than one field marked as primary identifier ..."
    | DaoFieldWithoutIdent               // "Field didn't have an identifier"
    | ColumnFieldWithoutIdent            // "Field doesn't have an identifier"
    | TypePathWithoutSegments            // `segments.last().unwrap()` on the field type
    | CategoryNotPath                    // "Category is not a valid syn::Expr::Path."
    | CategoryPathWithoutSegments        // "Path contains no segments"
    | InvalidCategory(name: string)      // "Category is invalid: {}"
    | MissingLength(field: Option<string>, category: string)  // "... must define a length"

  predicate IsPrimaryKey(f: Field) {
    f.primaryKey
  }

  /** A field that names the rows of its table: a primary key carrying
      identifier options that do not point into another table. */
  predicate IsPrimaryIdentifier(f: Field) {
    f.primaryKey && f.identifierOptions.Some? && f.identifierOptions.value.foreignKey.None?
  }

  predicate IsGenerated(f: Field) {
    f.identifierOptions.Some? && f.identifierOptions.value.generated
  }
}

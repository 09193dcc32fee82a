/** The inputs of the repository's tests (src/msi_tables/tests.rs) and what
    the compiler makes of them, where the expected output there matches the
    code. */
module Scenarios {
  import opened Common
  import opened Helper
  import opened Ir
  import opened IdentifierGen
  import opened DaoGen
  import opened TableGen
  import opened MsiTables

  function Ty(name: string): TypeExpr {
    PathType([Segment(name, [])])
  }

  function Cat(name: string): CategoryExpr {
    CategoryPath(["msi", "Category", name])
  }

  /** `msi::Category::from_str` agrees on the categories the tests use. */
  predicate KnowsTestCategories(categories: string -> Option<Category>) {
    && categories("Identifier") == Some(OtherCategory("Identifier"))
    && categories("DefaultDir") == Some(OtherCategory("DefaultDir"))
  }

  function DirectoryFields(): seq<Field> {
    [ Field(Some("directory"), Ty("DirectoryIdentifier"), Cat("Identifier"), Some(72), None,
            true, Some(IdentifierOptions(true, None)), false),
      Field(Some("parent_directory"), PathType([Segment("Option", [Ty("DirectoryIdentifier")])]),
            Cat("Identifier"), Some(72), Some("Directory_Parent"),
            false, Some(IdentifierOptions(false, Some("Directory"))), false),
      Field(Some("default_dir"), Ty("DefaultDir"), Cat("DefaultDir"), Some(255), None,
            false, None, true) ]
  }

  function FeatureComponentFields(): seq<Field> {
    [ Field(Some("feature_"), Ty("FeatureIdentifier"), Cat("Identifier"), Some(72), None,
            true, Some(IdentifierOptions(false, Some("Feature"))), false),
      Field(Some("component_"), Ty("ComponentIdentifier"), Cat("Identifier"), Some(72), None,
            true, Some(IdentifierOptions(false, Some("Component"))), false) ]
  }

  function DirectoryColumns(): seq<Column> {
    [ Column(PascalCaseOf("directory"), true, false, false, None, Cat("Identifier"), Str(72)),
      Column(Given("Directory_Parent"), false, true, false, Some(ForeignKey("Directory", 0)), Cat("Identifier"), Str(72)),
      Column(PascalCaseOf("default_dir"), false, false, true, None, Cat("DefaultDir"), Str(255)) ]
  }

  function FeatureComponentColumns(): seq<Column> {
    [ Column(PascalCaseOf("feature_"), true, false, false, Some(ForeignKey("Feature", 0)), Cat("Identifier"), Str(72)),
      Column(PascalCaseOf("component_"), true, false, false, Some(ForeignKey("Component", 0)), Cat("Identifier"), Str(72)) ]
  }

  lemma DirectoryIdentifierPositions()
    ensures Positions(DirectoryFields(), IsPrimaryIdentifier) == [0]
  {
    var fields := DirectoryFields();
    assert IsPrimaryIdentifier(fields[0]);
    assert !IsPrimaryIdentifier(fields[1]) && !IsPrimaryIdentifier(fields[2]);
    PositionsUnique(fields, IsPrimaryIdentifier, [0]);
  }

  lemma DirectoryKeyPositions()
    ensures Positions(DirectoryFields(), IsPrimaryKey) == [0]
    ensures PrimaryKeyIdents(DirectoryFields()) == [Some("directory")]
  {
    var fields := DirectoryFields();
    assert IsPrimaryKey(fields[0]);
    assert !IsPrimaryKey(fields[1]) && !IsPrimaryKey(fields[2]);
    PositionsUnique(fields, IsPrimaryKey, [0]);
  }

  lemma FeatureComponentIdentifierPositions()
    ensures Positions(FeatureComponentFields(), IsPrimaryIdentifier) == []
  {
    var fields := FeatureComponentFields();
    assert !IsPrimaryIdentifier(fields[0]) && !IsPrimaryIdentifier(fields[1]);
    PositionsUnique(fields, IsPrimaryIdentifier, []);
  }

  lemma FeatureComponentKeyPositions()
    ensures Positions(FeatureComponentFields(), IsPrimaryKey) == [0, 1]
    ensures PrimaryKeyIdents(FeatureComponentFields()) == [Some("feature_"), Some("component_")]
  {
    var fields := FeatureComponentFields();
    assert IsPrimaryKey(fields[0]) && IsPrimaryKey(fields[1]);
    PositionsUnique(fields, IsPrimaryKey, [0, 1]);
  }

  lemma DirectoryColumnsDerived(categories: string -> Option<Category>)
    requires KnowsTestCategories(categories)
    ensures Columns(DirectoryFields(), categories) == Ok(DirectoryColumns())
  {
    var fields := DirectoryFields();
    var cols := DirectoryColumns();
    assert DeriveColumn(fields[0], categories) == Ok(cols[0]);
    assert DeriveColumn(fields[1], categories) == Ok(cols[1]);
    assert DeriveColumn(fields[2], categories) == Ok(cols[2]);
    var r := Columns(fields, categories);
    assert r.Ok?;
    assert r.value == cols;
  }

  lemma FeatureComponentColumnsDerived(categories: string -> Option<Category>)
    requires KnowsTestCategories(categories)
    ensures Columns(FeatureComponentFields(), categories) == Ok(FeatureComponentColumns())
  {
    var fields := FeatureComponentFields();
    var cols := FeatureComponentColumns();
    assert DeriveColumn(fields[0], categories) == Ok(cols[0]);
    assert DeriveColumn(fields[1], categories) == Ok(cols[1]);
    var r := Columns(fields, categories);
    assert r.Ok?;
    assert r.value == cols;
  }

  function DirectoryStructFields(): seq<StructField> {
    [ StructField(Some("directory"), Ty("DirectoryIdentifier")),
      StructField(Some("parent_directory"), PathType([Segment("Option", [Ty("DirectoryIdentifier")])])),
      StructField(Some("default_dir"), Ty("DefaultDir")) ]
  }

  function FeatureComponentStructFields(): seq<StructField> {
    [ StructField(Some("feature_"), Ty("FeatureIdentifier")),
      StructField(Some("component_"), Ty("ComponentIdentifier")) ]
  }

  /** The entity compiled from the `Directory` fields. */
  predicate IsDirectoryEntity(e: EntityArtifact) {
    && e.identifier == Some(IdentifierDef(IdentifierOf("Directory")))
    && e.generator == Some(GeneratorDef(GeneratorOf("Directory"), IdentifierOf("Directory"), "DIRECTORY"))
    && e.dao.typeName == DaoOf("Directory")
    && e.dao.fields == DirectoryStructFields()
    && e.dao.primaryIdentifier == ReturnsConverted(Some("directory"))
    && e.dao.conflicts == [EqTerm(Some("directory"))]
    && e.dao.toRow == [Some("directory"), Some("parent_directory"), Some("default_dir")]
    && e.table.typeName == TableOf("Directory")
    && e.table.entryType == DaoOf("Directory")
    && e.table.name == "Directory"
    && e.table.primaryKeyIndices == [0]
    && e.table.columns == DirectoryColumns()
  }

  /** The entity compiled from the `FeatureComponent` fields. */
  predicate IsFeatureComponentEntity(e: EntityArtifact) {
    && e.identifier == None
    && e.generator == None
    && e.dao.typeName == DaoOf("FeatureComponent")
    && e.dao.primaryIdentifier == ReturnsNone
    && e.dao.fields == FeatureComponentStructFields()
    && e.dao.conflicts == [EqTerm(Some("feature_")), AndAnd, EqTerm(Some("component_"))]
    && e.dao.toRow == [Some("feature_"), Some("component_")]
    && e.table.typeName == TableOf("FeatureComponent")
    && e.table.entryType == DaoOf("FeatureComponent")
    && e.table.name == "FeatureComponent"
    && e.table.primaryKeyIndices == [0, 1]
    && e.table.columns == FeatureComponentColumns()
  }

  lemma DirectoryConflicts()
    ensures ConflictExpression(DirectoryFields()) == [EqTerm(Some("directory"))]
  {
    DirectoryKeyPositions();
    var conflicts := ConflictExpression(DirectoryFields());
    assert |conflicts| == 1 && conflicts[0] == EqTerm(Some("directory"));
  }

  lemma FeatureComponentConflicts()
    ensures ConflictExpression(FeatureComponentFields()) ==
      [EqTerm(Some("feature_")), AndAnd, EqTerm(Some("component_"))]
  {
    FeatureComponentKeyPositions();
    var conflicts := ConflictExpression(FeatureComponentFields());
    assert |conflicts| == 3 && conflicts[0] == EqTerm(Some("feature_")) && conflicts[1] == AndAnd;
    assert conflicts[2] == EqTerm(Some("component_"));
  }

  lemma DirectoryPrimaryIdentifier()
    ensures PrimaryIdentifierField(DirectoryFields()) == Ok(Some(DirectoryFields()[0]))
  {
    DirectoryIdentifierPositions();
  }

  lemma DirectoryDao()
    ensures var fields := DirectoryFields();
      var r := CompileDao("Directory", Some(fields[0]), fields);
      && r.Ok?
      && r.value.typeName == DaoOf("Directory")
      && r.value.primaryIdentifier == ReturnsConverted(Some("directory"))
      && r.value.conflicts == [EqTerm(Some("directory"))]
      && r.value.toRow == [Some("directory"), Some("parent_directory"), Some("default_dir")]
  {
    var fields := DirectoryFields();
    assert fields[0].ident.Some? && fields[1].ident.Some? && fields[2].ident.Some?;
    NamedFieldsCompile("Directory", Some(fields[0]), fields);
    DirectoryConflicts();
    DirectoryToRow();
  }

  /** When every field has a name, the Dao compiles, and its parts are the
      ones its generators produce from the same fields. */
  lemma NamedFieldsCompile(target: string, primaryIdentifier: Option<Field>, fields: seq<Field>)
    requires forall i :: 0 <= i < |fields| ==> fields[i].ident.Some?
    ensures CompileDao(target, primaryIdentifier, fields) == Ok(DaoDef(
      DaoOf(target), StructFields(fields), NewForDao(fields).value,
      PrimaryAccessorFor(primaryIdentifier), ConflictExpression(fields), ToRow(fields)))
  {
  }

  /** `to_row` of `DirectoryDao`: the three fields, in order. */
  lemma DirectoryToRow()
    ensures ToRow(DirectoryFields()) == [Some("directory"), Some("parent_directory"), Some("default_dir")]
  {
    var row := ToRow(DirectoryFields());
    assert |row| == 3 && row[0] == Some("directory") && row[1] == Some("parent_directory");
    assert row[2] == Some("default_dir");
  }

  /** The fields of `DirectoryDao`: the input's three fields, names and types
      unchanged. */
  lemma DirectoryDaoFields()
    ensures StructFields(DirectoryFields()) == DirectoryStructFields()
  {
    var r := StructFields(DirectoryFields());
    var expected := DirectoryStructFields();
    assert |r| == 3;
    assert r[0] == expected[0] && r[1] == expected[1] && r[2] == expected[2];
  }

  /** The fields of `FeatureComponentDao`. */
  lemma FeatureComponentDaoFields()
    ensures StructFields(FeatureComponentFields()) == FeatureComponentStructFields()
    ensures ToRow(FeatureComponentFields()) == [Some("feature_"), Some("component_")]
  {
    var r := StructFields(FeatureComponentFields());
    var expected := FeatureComponentStructFields();
    assert |r| == 2;
    assert r[0] == expected[0] && r[1] == expected[1];
    var row := ToRow(FeatureComponentFields());
    assert |row| == 2 && row[0] == Some("feature_") && row[1] == Some("component_");
  }

  /** `Directory` with a generated primary identifier: wrapper and generator
      with prefix "DIRECTORY"; `DirectoryDao` with the three input fields,
      `conflicts_with` comparing `directory` alone and `to_row` over all
      three; `DirectoryTable` holding `DirectoryDao` entries, with
      `primary_key_indices` = [0] and the `Directory_Parent` column nullable
      and pointing at column 0 of `Directory`. */
  lemma DirectoryEntity(categories: string -> Option<Category>)
    requires KnowsTestCategories(categories)
    ensures var r := CompileFields("Directory", DirectoryFields(), categories);
      r.Ok? && IsDirectoryEntity(r.value)
  {
    var fields := DirectoryFields();
    assert Capitalize("Directory") == "Directory";
    DirectoryPrefix();
    DirectoryPrimaryIdentifier();
    DirectoryColumnsDerived(categories);
    DirectoryDao();
    DirectoryDaoFields();
    DirectoryKeyPositions();
  }

  /** `FeatureComponent`, keyed by two foreign keys: no identifier part;
      `FeatureComponentDao` with the two input fields, `primary_identifier`
      returning `None`, `conflicts_with` being
      `feature_ == ... && component_ == ...` and `to_row` over both fields;
      `FeatureComponentTable` holding `FeatureComponentDao` entries, with
      `primary_key_indices` = [0, 1]. */
  lemma FeatureComponentEntity(categories: string -> Option<Category>)
    requires KnowsTestCategories(categories)
    ensures var r := CompileFields("FeatureComponent", FeatureComponentFields(), categories);
      r.Ok? && IsFeatureComponentEntity(r.value)
  {
    var fields := FeatureComponentFields();
    assert Capitalize("FeatureComponent") == "FeatureComponent";
    FeatureComponentIdentifierPositions();
    FeatureComponentColumnsDerived(categories);
    assert PrimaryIdentifierField(fields) == Ok(None);
    FeatureComponentDao();
    FeatureComponentKeyPositions();
  }

  /** `FeatureComponentDao`: its two struct fields, `primary_identifier`
      returning `None`, the two-term `conflicts_with` and `to_row` over both
      fields. */
  lemma FeatureComponentDao()
    ensures var fields := FeatureComponentFields();
      CompileDao("FeatureComponent", None, fields) == Ok(DaoDef(
        DaoOf("FeatureComponent"), FeatureComponentStructFields(), NewForDao(fields).value, ReturnsNone,
        [EqTerm(Some("feature_")), AndAnd, EqTerm(Some("component_"))],
        [Some("feature_"), Some("component_")]))
  {
    var fields := FeatureComponentFields();
    assert fields[0].ident.Some? && fields[1].ident.Some?;
    NamedFieldsCompile("FeatureComponent", None, fields);
    FeatureComponentConflicts();
    FeatureComponentDaoFields();
  }

  /** The struct test for `Directory`, named after itself. */
  lemma DirectoryTable(categories: string -> Option<Category>)
    requires KnowsTestCategories(categories)
    ensures var r := GenTables(DeriveInput("Directory", StructData(DirectoryFields()), Some("Directory")), categories);
      r.Ok? && r.value.StructArtifact? && IsDirectoryEntity(r.value.entity)
  {
    var input := DeriveInput("Directory", StructData(DirectoryFields()), Some("Directory"));
    assert Capitalize("Directory") == "Directory";
    var e := CompileFields("Directory", DirectoryFields(), categories);
    DirectoryEntity(categories);
    assert GenTables(input, categories) == Ok(StructArtifact(e.value));
  }

  /** The struct test for `FeatureComponentDao`, renamed to
      `FeatureComponent` by its `name` option. */
  lemma FeatureComponentTable(categories: string -> Option<Category>)
    requires KnowsTestCategories(categories)
    ensures var r := GenTables(DeriveInput("FeatureComponentDao", StructData(FeatureComponentFields()), Some("FeatureComponent")), categories);
      r.Ok? && r.value.StructArtifact? && IsFeatureComponentEntity(r.value.entity)
  {
    var input := DeriveInput("FeatureComponentDao", StructData(FeatureComponentFields()), Some("FeatureComponent"));
    assert Capitalize("FeatureComponent") == "FeatureComponent";
    var e := CompileFields("FeatureComponent", FeatureComponentFields(), categories);
    FeatureComponentEntity(categories);
    assert GenTables(input, categories) == Ok(StructArtifact(e.value));
  }

  function MsiTablesVariants(): seq<Variant> {
    [Variant("Directory", DirectoryFields()), Variant("FeatureComponent", FeatureComponentFields())]
  }

  lemma DirectoryVariantCompiles(categories: string -> Option<Category>)
    requires KnowsTestCategories(categories)
    ensures CompileVariant(Variant("Directory", DirectoryFields()), categories).Ok?
  {
    DirectoryEntity(categories);
  }

  lemma FeatureComponentVariantCompiles(categories: string -> Option<Category>)
    requires KnowsTestCategories(categories)
    ensures CompileVariant(Variant("FeatureComponent", FeatureComponentFields()), categories).Ok?
  {
    FeatureComponentEntity(categories);
  }

  lemma PairSeq<T>(s: seq<T>)
    requires |s| == 2
    ensures s == [s[0], s[1]]
  {
  }

  /** An enum of two variants that both compile. */
  lemma TwoVariantEnum(name: string, v0: Variant, v1: Variant, categories: string -> Option<Category>)
    requires CompileVariant(v0, categories).Ok? && CompileVariant(v1, categories).Ok?
    ensures var g := CompileEnum(name, [v0, v1], categories);
      && g.Ok?
      && g.value.tableEnum == EnumDef(Named(name), [
           EnumCase(v0.ident, TableOf(v0.ident)),
           EnumCase(v1.ident, TableOf(v1.ident))])
      && g.value.variants == [CompileVariant(v0, categories).value, CompileVariant(v1, categories).value]
  {
    var vs := [v0, v1];
    forall k | 0 <= k < |vs|
      ensures CompileVariant(vs[k], categories).Ok?
    {
      assert k == 0 || k == 1;
    }
    var g := CompileEnum(name, vs, categories);
    assert g.Ok?;
    var cases := g.value.tableEnum.cases;
    assert |cases| == 2;
    assert cases[0] == EnumCase(v0.ident, TableOf(v0.ident));
    assert cases[1] == EnumCase(v1.ident, TableOf(v1.ident));
    PairSeq(cases);
    var compiled := g.value.variants;
    assert |compiled| == 2;
    assert CompileVariant(v0, categories) == Ok(compiled[0]);
    assert CompileVariant(v1, categories) == Ok(compiled[1]);
    PairSeq(compiled);
  }

  /** The enum `MsiTables { Directory {..}, FeatureComponent {..} }`: a table
      enum with exactly the two cases `Directory(DirectoryTable)` and
      `FeatureComponent(FeatureComponentTable)`, and each variant compiled
      as the struct of the same fields is. */
  lemma MsiTablesEnum(categories: string -> Option<Category>)
    requires KnowsTestCategories(categories)
    ensures var r := GenTables(DeriveInput("MsiTables", EnumData(MsiTablesVariants()), None), categories);
      && r.Ok? && r.value.EnumArtifact?
      && r.value.group.tableEnum == EnumDef(Named("MsiTables"), [
           EnumCase("Directory", TableOf("Directory")),
           EnumCase("FeatureComponent", TableOf("FeatureComponent"))])
      && |r.value.group.variants| == 2
      && CompileFields("Directory", DirectoryFields(), categories) == Ok(r.value.group.variants[0])
      && CompileFields("FeatureComponent", FeatureComponentFields(), categories) == Ok(r.value.group.variants[1])
  {
    var v0 := Variant("Directory", DirectoryFields());
    var v1 := Variant("FeatureComponent", FeatureComponentFields());
    assert MsiTablesVariants() == [v0, v1];
    DirectoryVariantCompiles(categories);
    FeatureComponentVariantCompiles(categories);
    TwoVariantEnum("MsiTables", v0, v1, categories);
  }
}

# whimsi-table-macro, modelled in Dafny

whimsi-table-macro is a Rust procedural macro. It turns an annotated struct,
or an enum of annotated struct-like variants, into the code a Windows
Installer (MSI) database writer needs for each table. For each entity it
emits:

- an identifier wrapper `<T>Identifier`;
- an optional identifier generator `<T>IdentifierGenerator`;
- a data-access object `<T>Dao`, with `new`, `primary_identifier`,
  `conflicts_with` and `to_row`;
- a table `<T>Table`, with `name`, `entries`, `primary_key_indices` and
  `columns`.

For an enum it also emits a table enum and a Dao enum, with one case per
variant.

The model starts from the already-parsed input (`Ir`). It describes what the
compiler emits as data: `EntityArtifact`, `DaoDef`, `TableDef`, `EnumDef`.
It does not model the token streams themselves. Every `panic!`, `expect` and
`unwrap` after parsing becomes a `CompileError` in a `Result`. That covers
`gen_tables_for_enum`, `gen_tables_for_fields`, src/dao.rs and src/table.rs.
The checks run in the same order as in the code. So for parsed input whose
names are valid Rust identifiers, the model reports the same panic the macro
would. The two parse panics of
`gen_tables_impl` (src/msi_tables.rs:85 and 87) come before the parsed input
exists, so they are not modelled.

Modules follow the source files:

- `Common`: `Option`, `Result`, and the two fold shapes the compiler is built
  from:
  - `Positions`: the indices of matching elements;
  - `Traverse`: a map that stops at the first panic.
- `Helper`: `capitalize`, `to_uppercase`, and the derived type names.
- `Ir`: the parsed input (`FieldInformation` and friends) and the panic kinds.
- `IdentifierGen`: `src/identifier.rs`, covering both what it emits and how
  the emitted `to_identifier`, `from_str` and generator state behave.
- `DaoGen`: `src/dao.rs`.
- `TableGen`: `src/table.rs`.
- `MsiTables`: `src/msi_tables.rs`, covering:
  - primary-identifier selection;
  - single-entity compilation;
  - enum aggregation;
  - the order of the emitted items.
- `Scenarios`: the inputs of `src/msi_tables/tests.rs` and what the model
  compiles them to. Only the parts of each test's expected output that agree
  with the code are stated.

Some code that the compiler calls is outside this model. Each such piece is
a symbol or a parameter:

- The name helpers (`table_from_name`, `dao_from_name`,
  `identifier_from_name`, `identifier_generator_from_name`,
  `snake_case_to_pascal_case`) are not part of this model. They are
  constructors of `TypeName` and `ColumnName`. The model therefore treats
  two derived names as equal only when they come from the same helper and
  the same base name. That is an assumption of the model, not a property of
  the program: the real helpers build identifiers by text, so a column name
  given as `"Directory"` and the pascal case of `directory` are the same
  name there.
- `msi::Category::from_str` is the parameter `categories` of the table
  functions.
- The external `Identifier::from_str` is the parameter `parse` of
  `IdentifierGen.FromStr`.

## Model

| member | source | states |
|---|---|---|
| Helper.UpperChar | src/helper.rs:10 | A lower-case ASCII letter becomes the matching upper-case letter, 32 code points lower. Every other character is kept. The result is never a lower-case letter. |
| Helper.Capitalize | src/helper.rs:6-12 | The result has the input's length. The first character is upper-cased. Every later character is unchanged. The empty string maps to the empty string. |
| Helper.CapitalizeIdempotent | src/msi_tables.rs:94-95 | Capitalizing twice gives the same result as capitalizing once. The struct path capitalizes at line 94 and again in `gen_tables_for_fields` (line 147), and this makes the second call harmless. |
| Helper.CapitalizeFixedIff | src/helper.rs:6-12 | `capitalize` leaves a string unchanged if and only if the string is empty or does not start with a lower-case letter. |
| Helper.ToUpper | src/identifier.rs:58 | `to_uppercase` keeps the length and upper-cases each character in place. The result contains no lower-case letter. |
| Common.Positions | src/table.rs:29-38 | The enumerate-and-append fold returns exactly the positions whose element satisfies the predicate, in strictly increasing (declaration) order. |
| Common.PositionsUnique | src/table.rs:29-38 | Any strictly increasing list of exactly the matching positions equals the fold's result, so the contract fully determines the fold. |
| Common.Traverse | src/dao.rs:144-147 | A map whose step can panic succeeds if and only if every step succeeds. On success, element i is the step's result for input i. On failure, the error is the one from the first failing element. |
| IdentifierGen.GeneratorDefinition | src/identifier.rs:55-73 | The generator type is `<T>IdentifierGenerator` and its `IdentifierType` is `<T>Identifier`. `id_prefix` is the target name upper-cased, character by character. |
| IdentifierGen.IdentifierTokens | src/identifier.rs:5-25 | The wrapper `<T>Identifier` is always emitted. The generator is emitted if and only if the primary identifier's options set `generated`. When emitted, it is the generator of the same target. |
| IdentifierGen.DirectoryPrefix | src/msi_tables/tests.rs:56-58 | The generator for `Directory` has the prefix `"DIRECTORY"`. |
| IdentifierGen.ToIdentifier | src/identifier.rs:39-43 | `to_identifier` returns the wrapped identifier itself: wrapping the result again gives back the original value. |
| IdentifierGen.FromStr | src/identifier.rs:45-51 | `from_str` succeeds if and only if the external parser does. On success, `to_identifier` of the result is the parsed identifier, so the round trip holds. On failure, the parser's error is passed through by `?`. |
| IdentifierGen.GeneratorFrom | src/identifier.rs:88-95 | As written, `From` keeps the shared handle and sets `count` to 0. It computes the list length and then discards it. |
| IdentifierGen.GeneratorFromIntended | src/identifier.rs:88-95 | The corrected `From` keeps the handle and starts `count` at the number of identifiers already in use. |
| IdentifierGen.GeneratorFromIgnoresUsed | src/identifier.rs:90-93 | For any non-empty used list, the as-written counter differs from the intended one. |
| IdentifierGen.SetCount | src/identifier.rs:79-85 | A write through `count_mut` changes the counter and leaves `used()` unchanged. |
| IdentifierGen.CounterAccessors | src/identifier.rs:75-85 | `count()` reads back the value written through `count_mut()`. A write leaves `used()` unchanged. Writing back the value just read changes nothing. Of two writes, only the second is visible. |
| IdentifierGen.SetCounts | src/identifier.rs:79-85 | Over any run of writes through `count_mut()`, `used()` stays unchanged. `count()` is the last value written, or the starting value when nothing was written. |
| IdentifierGen.UsedSurvivesCounting | src/identifier.rs:75-85 | After any sequence of counter writes, `used()` still returns the handle the generator was built from. `count()` returns the last value written; before any write, it returns the number of identifiers already in use (the corrected `From`). |
| DaoGen.StructFields | src/dao.rs:29-55 | The Dao struct has one field per input field, with the same name and type, in declaration order. |
| DaoGen.NewForDao | src/dao.rs:143-157 | `new` succeeds if and only if every field has a name; otherwise it panics with "Field didn't have an identifier". Parameter i has field i's name and type. Assignment i stores parameter i into the field of the same name. |
| DaoGen.PrimaryAccessorFor | src/dao.rs:57-78 | `primary_identifier` returns the converted value if and only if a primary identifier was selected, and it reads that field. |
| DaoGen.PrimaryKeyIdents | src/dao.rs:99-102 | The fields that `conflicts_with` compares are exactly the fields at the positions of the primary-key fields, in order. |
| DaoGen.ConflictExpression | src/dao.rs:95-122 | The body of `conflicts_with` is a conjunction. It has one equality term per primary-key field, in order, and `&&` exactly between consecutive terms. |
| DaoGen.AppendTermKeepsConjunction | src/dao.rs:104-114 | Each step of the loop (a `&&` only when the expression is non-empty, then the term) keeps the expression a well-formed conjunction. |
| DaoGen.ConflictOperatorCount | src/dao.rs:104-108 | n primary-key fields produce n - 1 `&&` tokens, and none when n is 0. |
| DaoGen.PrimaryKeyIdentsCoverKeys | src/dao.rs:99-102 | A property holds for every compared name if and only if it holds for the name of every primary-key field. |
| DaoGen.SameOnIdsGivesSameOnKeys | src/dao.rs:99-102 | Every primary-key field is compared: a property that holds for all compared names holds for every primary-key field's name. |
| DaoGen.SameOnKeysGivesSameOnIds | src/dao.rs:99-102 | Only primary-key fields are compared: a property that holds for every primary-key field's name holds for all compared names. |
| DaoGen.AndChain | src/dao.rs:111-119 | The emitted chain `t1 && ... && tn`, evaluated left to right, is true if and only if every equality term is true. The `&&` tokens contribute no truth value of their own. |
| DaoGen.EvalConflict | src/dao.rs:117-121 | The emitted `conflicts_with` body has no value exactly when it is empty. Otherwise it is true if and only if every equality term in it holds. |
| DaoGen.ConflictsWithComparesKeys | src/dao.rs:95-121 | With at least one primary key, `conflicts_with` holds if and only if the two rows agree on every primary-key field. No other field has any effect. |
| DaoGen.ConflictsWithoutKeysIsEmpty | src/dao.rs:117-121 | With no primary key, the body of `conflicts_with` is empty, so the function has no value. |
| DaoGen.ToRow | src/dao.rs:124-141 | `to_row` converts every field once, in declaration order. |
| DaoGen.CompileDao | src/dao.rs:8-27 | Compilation succeeds if and only if every field has a name. The struct fields, the `new` parameters and assignments, and the `to_row` entries correspond field by field. The accessor returns the converted value if and only if there is a primary identifier, and it reads that identifier's field. The conflict body is the primary-key conjunction. |
| TableGen.PrimaryKeyIndices | src/table.rs:29-38 | `primary_key_indices` lists exactly the 0-based positions of the primary-key fields, in declaration order. |
| TableGen.Nullable | src/table.rs:44-50 | A column is nullable if and only if its type is a path whose last segment is `Option`. A path with no segments panics through `unwrap`. |
| TableGen.CategoryName | src/table.rs:122-131 | A category must be a path with at least one segment. Its name is the last segment. Each other shape gives its own panic. |
| TableGen.FinishBuild | src/table.rs:121-147 | `Integer` maps to `int16` and `DoubleInteger` to `int32`. Any other recognised category maps to `string(length)`, and panics when no length is given. An unrecognised category panics as invalid. A string width occurs exactly when the declared length is used. |
| TableGen.DeriveColumn | src/table.rs:40-87 | Panics are checked in this order: missing name, empty type path, then category. On success every attribute is fixed: <br>- the name is the override or `snake_case_to_pascal_case` of the field name; <br>- nullable iff the type is `Option`; <br>- `primary_key` and `localizable` are copied; <br>- the foreign key is present iff the field names one, and then it points to column 0 of that table; <br>- the category expression is copied; <br>- the width is as in `FinishBuild`. |
| TableGen.Columns | src/table.rs:40-87 | One column per field, where column i is derived from field i alone. The first field that panics aborts the fold. |
| TableGen.CompileTable | src/table.rs:7-119 | The table is `<T>Table` holding `<T>Dao` entries, and `name()` is the target. `primary_key_indices` and `columns` are as above. It fails exactly when the column fold fails. |
| TableGen.PrimaryKeyIndicesMatchColumns | src/table.rs:29-56 | Position i is listed by `primary_key_indices` if and only if column i is marked `primary_key`. |
| MsiTables.PrimaryIdentifierField | src/msi_tables.rs:152-164 | A field qualifies when it is a primary key and has identifier options without a foreign key. The result is: <br>- `None` if no field qualifies; <br>- the "more than one" panic if and only if two fields qualify; <br>- otherwise the only qualifying field. |
| MsiTables.CompileFields | src/msi_tables.rs:146-184 | The panics are checked in this order: ambiguity, then a missing name in the Dao, then the columns. The target is `capitalize(base_name)`. The identifier is emitted iff there is a primary identifier, and the generator iff that field is `generated`. The Dao and the table are compiled from the same target and fields, and the Dao accessor returns the converted value exactly when the identifier exists. |
| MsiTables.CompileVariant | src/msi_tables.rs:136-138 | A compiled variant's table is named after the capitalized variant identifier, and its table type, entry type and Dao type are derived from that same name. |
| MsiTables.VariantCompilesIff | src/msi_tables.rs:136-138 | A variant compiles if and only if its own fields do: at most one primary identifier, and every field yields a column. No other variant is involved. |
| MsiTables.CompileEnum | src/msi_tables.rs:107-144 | The table enum and the Dao enum are named from the item, with one case per variant in order. Each case's payload is named from the raw variant identifier. Every variant is compiled from its own fields alone. The first failing variant aborts everything. |
| MsiTables.GenTables | src/msi_tables.rs:84-105 | An enum takes the enum path under its identifier. A struct is compiled under `capitalize(name or identifier)`. The result succeeds exactly when that path does. On failure it carries that path's own panic. |
| MsiTables.StructNamesCapitalizedOnce | src/msi_tables.rs:93-96 | A compiled struct's table, table type and Dao type are named by the capitalized `name`, or by the identifier when there is no `name`. |
| MsiTables.EnumPayloadNamesEmittedTypes | src/msi_tables.rs:110-138 | An enum case's payload names the table and Dao that its variant actually emits if and only if the variant identifier does not start with a lower-case letter. |
| MsiTables.EntityItems | src/msi_tables.rs:177-181 | The identifier part comes first, then the Dao, then the table. <br>- The wrapper is emitted if and only if the entity has one, and then it is the first item. <br>- The generator is emitted if and only if the entity has one, and it follows the wrapper. <br>- Nothing else is emitted: the length is 2 plus one per present wrapper or generator. |
| MsiTables.EntityHasOneTable | src/msi_tables.rs:177-181 | An entity's output holds exactly one table definition, its own. |
| MsiTables.VariantItems | src/msi_tables.rs:136-143 | The fold emits every item of every variant's output, and no item that is not in some variant's output. |
| MsiTables.VariantItemsAppend | src/msi_tables.rs:136-143 | The fold keeps variant order: the output for `a ++ b` is the output for `a` followed by the output for `b`. |
| MsiTables.VariantTablesInOrder | src/msi_tables.rs:136-143 | The fold over an enum's variants emits exactly one table definition per variant, in variant order. |
| MsiTables.Emitted | src/msi_tables.rs:99-143 | A struct's output is its entity's whole output: identifier part, Dao, then table. It holds exactly one table, its own. An enum's output is the table enum, then the Dao enum, then every variant's whole output in variant order. It holds exactly one table per variant, in variant order. |
| MsiTables.GroupTablesFollowVariants | src/msi_tables.rs:107-144 | For an enum group that compiles, the emitted output holds exactly one table per variant, in variant order. The k-th is the k-th variant's own compiled table and is named after its capitalized identifier. |
| MsiTables.EnumTablesFollowVariants | src/msi_tables.rs:89-143 | For an enum that compiles, the output holds exactly one table per variant, in variant order. The k-th is the k-th variant's own compiled table and is named after its capitalized identifier. |
| Scenarios.DirectoryIdentifierPositions | src/msi_tables/tests.rs:9-17 | In the `Directory` test input, only `directory` qualifies as the primary identifier. |
| Scenarios.DirectoryKeyPositions | src/msi_tables/tests.rs:130-132 | For `Directory`, `primary_key_indices` is `[0]` and `conflicts_with` compares `directory` alone. |
| Scenarios.FeatureComponentIdentifierPositions | src/msi_tables/tests.rs:164-170 | In the `FeatureComponent` test input, no field qualifies as the primary identifier, because both keys are foreign keys. |
| Scenarios.FeatureComponentKeyPositions | src/msi_tables/tests.rs:225-227 | For `FeatureComponent`, `primary_key_indices` is `[0, 1]`. |
| Scenarios.DirectoryColumnsDerived | src/msi_tables/tests.rs:138-144 | The three `Directory` columns: <br>- `Directory`: primary key, string(72); <br>- `Directory_Parent`: nullable, foreign key to column 0 of `Directory`, string(72); <br>- `DefaultDir`: localizable, string(255). |
| Scenarios.FeatureComponentColumnsDerived | src/msi_tables/tests.rs:233-238 | The two `FeatureComponent` columns are primary keys with foreign keys into `Feature` and `Component`, string(72). |
| Scenarios.DirectoryConflicts | src/msi_tables/tests.rs:97-99 | `conflicts_with` for `Directory` is the single term on `directory`. |
| Scenarios.FeatureComponentConflicts | src/msi_tables/tests.rs:194-196 | `conflicts_with` for `FeatureComponent` is `feature_ == .. && component_ == ..`. |
| Scenarios.DirectoryPrimaryIdentifier | src/msi_tables/tests.rs:89-93 | The primary identifier of `Directory` is its first field. |
| Scenarios.DirectoryDaoFields | src/msi_tables/tests.rs:83-87 | `DirectoryDao` has the fields `directory: DirectoryIdentifier`, `parent_directory: Option<DirectoryIdentifier>` and `default_dir: DefaultDir`, in that order. |
| Scenarios.FeatureComponentDaoFields | src/msi_tables/tests.rs:181-203 | `FeatureComponentDao` has the fields `feature_: FeatureIdentifier` and `component_: ComponentIdentifier`, and `to_row` converts both in order. |
| Scenarios.DirectoryDao | src/msi_tables/tests.rs:83-108 | `DirectoryDao`: `primary_identifier` converts `directory`; `conflicts_with` compares `directory`; `to_row` converts the three fields in order. |
| Scenarios.DirectoryToRow | src/msi_tables/tests.rs:101-107 | `to_row` of `DirectoryDao` converts `directory`, `parent_directory` and `default_dir`, in that order. |
| Scenarios.FeatureComponentDao | src/msi_tables/tests.rs:181-204 | `FeatureComponentDao` has its two struct fields, `primary_identifier` returning `None`, `conflicts_with` comparing `feature_` and then `component_`, and `to_row` over both fields. |
| Scenarios.DirectoryEntity | src/msi_tables/tests.rs:23-145 | The `Directory` fields compile to the following, as listed in the expected output: <br>- the wrapper `DirectoryIdentifier`; <br>- the generator with prefix `DIRECTORY`; <br>- `DirectoryDao` with its three struct fields, `primary_identifier` converting `directory`, `conflicts_with` on `directory` and `to_row` over the three fields; <br>- `DirectoryTable` over `DirectoryDao` entries, named `"Directory"`, with indices `[0]` and the three columns. |
| Scenarios.FeatureComponentEntity | src/msi_tables/tests.rs:176-239 | The `FeatureComponent` fields compile to the following: <br>- no identifier and no generator; <br>- `FeatureComponentDao` with its two struct fields, `primary_identifier` returning `None`, the two-term `conflicts_with` and `to_row` over both fields; <br>- `FeatureComponentTable` over `FeatureComponentDao` entries, named `"FeatureComponent"`, with indices `[0, 1]` and the two columns. |
| Scenarios.DirectoryTable | src/msi_tables/tests.rs:7-22 | The `Directory` struct test compiles to the `Directory` entity above. |
| Scenarios.FeatureComponentTable | src/msi_tables/tests.rs:162-171 | The struct `FeatureComponentDao` with `name = "FeatureComponent"` is compiled under `FeatureComponent`. |
| Scenarios.TwoVariantEnum | src/msi_tables.rs:107-144 | An enum of two compiling variants has exactly their two table cases, in order. Its variants are the two compiled entities. |
| Scenarios.MsiTablesEnum | src/msi_tables/tests.rs:256-288 | `MsiTables { Directory, FeatureComponent }` gives `enum MsiTables { Directory(DirectoryTable), FeatureComponent(FeatureComponentTable) }`. Each variant compiles exactly as the struct with the same fields does. |

## Left out

- Parsing with `syn` and `darling`, and producing tokens with `quote!`, are left out. The model starts from the parsed fields and describes the emitted items as data rather than token streams.
- The entry points in `src/lib.rs` and the `use` lines that `gen_tables_impl` prepends are not modelled. They wrap the compiler without changing what it computes.
- The name helpers and `constants` are not part of this model. They are kept symbolic, as described above.
- `msi::Category` and its `from_str` belong to another crate. The model only distinguishes `Integer`, `DoubleInteger` and every other category.
- Helper.Capitalize: upper-cases ASCII letters only. Rust's `char::to_uppercase` also maps other letters and can turn one character into several, and that Unicode case table is not modelled.
- Helper.ToUpper: as for `Capitalize`, only ASCII letters are upper-cased.
- Helper.UpperChar: maps ASCII lower-case letters only and keeps every other character. Rust's `char::to_uppercase` also maps non-ASCII lower-case letters, sometimes to several characters.
- The panics of the name helpers are not modelled. `table_from_name`, `dao_from_name`, `identifier_from_name` and `identifier_generator_from_name` build a `syn::Ident` from the target name (used at src/dao.rs:13 and src/table.rs:17-18). Building an identifier from a string that is not one, such as a `name` option of `"Feature Component"` or `"1st"`, panics in the macro. The model's symbolic names accept any string.
- The `length` expression is kept as its value (a `nat`). The macro copies the expression text into `.string(..)` without evaluating it.
- The emitted attributes are not modelled. Each generates code of its own:
  - `#[getset(get = "pub")]` on the Dao (src/dao.rs:49-50) generates a public getter per field;
  - the derives on the table enum (src/msi_tables.rs:125-126) generate conversions, `Display` and, through `strum_discriminants(name(MsiTable))`, a field-less `MsiTable` enum with one case per variant;
  - the other `derive` lists generate `Clone`, `Debug`, `Default` and `PartialEq` impls;
  - the wrapper's `doc` attribute adds only documentation text.
- The parse panics of `gen_tables_impl` (src/msi_tables.rs:85 and 87) are not modelled, because the model starts from the parsed input.
- MsiTables.EnumPayloadNamesEmittedTypes: its "only if" direction relies on the derived names being distinct for distinct helpers or base names. The name helpers are not part of this model, so this is an assumption, not a property shown of the program.
- The generator's `Rc<RefCell<Vec<Identifier>>>` handle is modelled as the list it holds. Sharing and aliasing between the table and the generator are not modelled.
- The identifier generation algorithm itself belongs to the external `IdentifierGenerator` trait and is not modelled. Only the accessors it uses are modelled.
- Some behaviours of the code are kept as written:
  - `From` starts `count` at 0. The length it reads into `count` at src/identifier.rs:90 is never used (see Findings).
  - An entity without primary keys gets an empty `conflicts_with` body (src/dao.rs:117-121). A `bool` function with an empty body does not type-check.
  - `<T>Table` holds only `entries` (src/table.rs:20-25), with no generator field.
  - The generator is emitted only for the primary identifier (src/identifier.rs:12-19). A `generated` flag on any other field is ignored, without a panic.
  - Foreign keys are not checked against any table. They always point at column 0, as the TODO at src/table.rs:66-70 admits.
- The expected outputs in the tests differ from the code in a few places, and the scenarios state only what the code produces:
  - a `generator` field in `DirectoryTable`;
  - a `primary_keys` method;
  - the `MsiTable` trait name;
  - a third `use` line;
  - no Dao enum;
  - no `impl <T>Dao { pub fn new(..) }`, which the code emits (src/dao.rs:16, 143-157);
  - `to_value(self.f)` in `to_row`, where the code emits `to_value(&self.f)` (src/dao.rs:130).
- `src/lib.rs` does not declare the `table`, `dao` and `identifier` modules that `msi_tables.rs` imports. The model treats them as part of the crate.

## Findings

| source | as written | input that shows it | evidently intended | confidence | as-written member | corrected member |
|---|---|---|---|---|---|---|
| src/identifier.rs:89-94 | The emitted `From` computes `value.borrow().len()` into `count` and then builds the generator with `count: 0`, so the length is discarded. | A used list holding one identifier gives a generator whose `count()` is 0. | `count` starts at the number of identifiers already used, so a generator attached to a filled table does not start again from 0. | medium; not executed | IdentifierGen.GeneratorFrom (with IdentifierGen.GeneratorFromIgnoresUsed) | IdentifierGen.GeneratorFromIntended |

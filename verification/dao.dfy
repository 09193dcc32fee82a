/** The data-object compiler (src/dao.rs): the `<T>Dao` struct, its `new`,
    its `PrimaryIdentifier` impl and its `MsiDao` impl. */
module DaoGen {
  import opened Common
  import opened Helper
  import opened Ir

  /** `ident: Type,` in the struct body. */
  datatype StructField = StructField(ident: Option<string>, ty: TypeExpr)

  /** `name: impl Into<ty>` in the parameter list of `new`. */
  datatype Param = Param(name: string, ty: TypeExpr)

  /** `field: param.into()` in the struct literal built by `new`. */
  datatype Assign = Assign(field: string, param: string)

  datatype Constructor = Constructor(params: seq<Param>, assigns: seq<Assign>)

  /** The body of `primary_identifier`: `None`, or
      `Some(self.<field>.to_identifier())`. */
  datatype PrimaryAccessor = ReturnsNone | ReturnsConverted(field: Option<string>)

  /** The tokens of the body of `conflicts_with`: `&&`, or
      `self.<field> == other.<field>`. */
  datatype ConflictToken = AndAnd | EqTerm(field: Option<string>)

  /** Everything `generate_dao_tokens` emits for one target. `toRow` lists
      the fields read by `to_row`, one `ToValue::to_value` each. */
  datatype DaoDef = DaoDef(
    typeName: TypeName,
    fields: seq<StructField>,
    ctor: Constructor,
    primaryIdentifier: PrimaryAccessor,
    conflicts: seq<ConflictToken>,
    toRow: seq<Option<string>>)

  /** `generate_dao_struct_definition`: one struct field per input field,
      same name and type, in declaration order. */
  function StructFields(fields: seq<Field>): (r: seq<StructField>)
    ensures |r| == |fields|
    ensures forall i :: 0 <= i < |fields| ==> r[i].ident == fields[i].ident && r[i].ty == fields[i].ty
    decreases |fields|
  {
    if |fields| == 0 then []
    else
      var last := fields[|fields| - 1];
      StructFields(fields[..|fields| - 1]) + [StructField(last.ident, last.ty)]
  }

  /** The `expect` on each field's identifier in `generate_new_for_dao`. */
  function FieldName(f: Field): Result<string, CompileError> {
    if f.ident.Some? then Ok(f.ident.value) else Err(DaoFieldWithoutIdent)
  }

  /** `generate_new_for_dao`: one parameter per field, in order, each stored
      into the field of the same name. Panics on a field without a name. */
  function NewForDao(fields: seq<Field>): (r: Result<Constructor, CompileError>)
    ensures r.Ok? <==> forall i :: 0 <= i < |fields| ==> fields[i].ident.Some?
    ensures r.Err? ==> r.error == DaoFieldWithoutIdent
    ensures r.Ok? ==> |r.value.params| == |fields| && |r.value.assigns| == |fields|
    ensures r.Ok? ==> forall i :: 0 <= i < |fields| ==>
      r.value.params[i] == Param(fields[i].ident.value, fields[i].ty) &&
      r.value.assigns[i] == Assign(fields[i].ident.value, fields[i].ident.value)
  {
    var names :- Traverse(fields, FieldName);
    Ok(Constructor(
      seq(|fields|, i requires 0 <= i < |fields| => Param(names[i], fields[i].ty)),
      seq(|fields|, i requires 0 <= i < |fields| => Assign(names[i], names[i]))))
  }

  /** `generate_primary_identifier_impl_definition`. */
  function PrimaryAccessorFor(primaryIdentifier: Option<Field>): (r: PrimaryAccessor)
    ensures r.ReturnsConverted? <==> primaryIdentifier.Some?
    ensures r.ReturnsConverted? ==> r.field == primaryIdentifier.value.ident
  {
    match primaryIdentifier
    case Some(f) => ReturnsConverted(f.ident)
    case None => ReturnsNone
  }

  /** The names of the primary-key fields, in declaration order: the fields
      at the positions `primary_key_indices` lists. */
  function PrimaryKeyIdents(fields: seq<Field>): (r: seq<Option<string>>)
    ensures |r| == |Positions(fields, IsPrimaryKey)|
    ensures forall k :: 0 <= k < |r| ==> r[k] == fields[Positions(fields, IsPrimaryKey)[k]].ident
    decreases |fields|
  {
    if |fields| == 0 then []
    else
      var last := fields[|fields| - 1];
      PrimaryKeyIdents(fields[..|fields| - 1]) + (if last.primaryKey then [last.ident] else [])
  }

  /** `r` is the conjunction of one equality term per name in `ids`, in
      order: terms at the even positions, `&&` exactly at the odd ones. */
  ghost predicate Conjunction(r: seq<ConflictToken>, ids: seq<Option<string>>) {
    && |r| == (if |ids| == 0 then 0 else 2 * |ids| - 1)
    && (forall k :: 0 <= k < |r| ==> (r[k].AndAnd? <==> k % 2 == 1))
    && (forall k :: 0 <= k < |ids| ==> r[2 * k] == EqTerm(ids[k]))
  }

  /** One step of the loop: `&&` only when the expression built so far is
      not empty, then the new term. */
  function AppendTerm(acc: seq<ConflictToken>, field: Option<string>): seq<ConflictToken> {
    acc + (if |acc| > 0 then [AndAnd] else []) + [EqTerm(field)]
  }

  lemma AppendTermKeepsConjunction(acc: seq<ConflictToken>, ids: seq<Option<string>>, field: Option<string>)
    requires Conjunction(acc, ids)
    ensures Conjunction(AppendTerm(acc, field), ids + [field])
  {
    var r := AppendTerm(acc, field);
    var ids' := ids + [field];
    forall k | 0 <= k < |ids'|
      ensures r[2 * k] == EqTerm(ids'[k])
    {
      if k < |ids| {
        assert r[2 * k] == acc[2 * k];
      }
    }
  }

  /** `generate_msi_dao_conflicts_definition`: the loop skips non-key fields
      and puts `&&` before every term but the first, so the body is the
      conjunction of one equality per primary-key field, in declaration
      order. */
  function ConflictExpression(fields: seq<Field>): (r: seq<ConflictToken>)
    ensures Conjunction(r, PrimaryKeyIdents(fields))
    decreases |fields|
  {
    if |fields| == 0 then []
    else
      var prefix := fields[..|fields| - 1];
      var acc := ConflictExpression(prefix);
      var last := fields[|fields| - 1];
      if !last.primaryKey then acc
      else
        AppendTermKeepsConjunction(acc, PrimaryKeyIdents(prefix), last.ident);
        AppendTerm(acc, last.ident)
  }

  /** Number of `&&` tokens. */
  function CountAndAnd(tokens: seq<ConflictToken>): nat
    decreases |tokens|
  {
    if |tokens| == 0 then 0
    else CountAndAnd(tokens[..|tokens| - 1]) + (if tokens[|tokens| - 1].AndAnd? then 1 else 0)
  }

  lemma {:induction false} CountAlternating(tokens: seq<ConflictToken>)
    requires forall k :: 0 <= k < |tokens| ==> (tokens[k].AndAnd? <==> k % 2 == 1)
    ensures CountAndAnd(tokens) == |tokens| / 2
    decreases |tokens|
  {
    if |tokens| > 0 {
      CountAlternating(tokens[..|tokens| - 1]);
    }
  }

  /** `&&` only ever joins two terms: n primary-key fields give n - 1 of
      them. */
  lemma ConflictOperatorCount(fields: seq<Field>)
    ensures var n := |PrimaryKeyIdents(fields)|;
      CountAndAnd(ConflictExpression(fields)) == if n == 0 then 0 else n - 1
  {
    CountAlternating(ConflictExpression(fields));
  }

  /** The value of an emitted `conflicts_with` body for two rows, where
      `same(f)` says whether the rows agree on field `f`: the conjunction of
      its terms, and no value at all for an empty body. */
  function EvalConflict(tokens: seq<ConflictToken>, same: Option<string> -> bool): (r: Option<bool>)
    ensures r.None? <==> |tokens| == 0
    ensures r.Some? ==> (r.value <==> forall k :: 0 <= k < |tokens| && tokens[k].EqTerm? ==> same(tokens[k].field))
  {
    if |tokens| == 0 then None else Some(AndChain(tokens, same))
  }

  /** `t1 && t2 && ... && tn` evaluated left to right, one token at a time:
      an equality term contributes whether the rows agree on its field, a
      `&&` contributes nothing of its own. The chain holds exactly when every
      term does. */
  function AndChain(tokens: seq<ConflictToken>, same: Option<string> -> bool): (b: bool)
    ensures b <==> forall k :: 0 <= k < |tokens| && tokens[k].EqTerm? ==> same(tokens[k].field)
    decreases |tokens|
  {
    if |tokens| == 0 then true
    else
      var last := tokens[|tokens| - 1];
      AndChain(tokens[..|tokens| - 1], same) && (last.AndAnd? || same(last.field))
  }

  /** The terms of a conjunction are exactly its names. */
  lemma ConjunctionTermsAreIds(r: seq<ConflictToken>, ids: seq<Option<string>>, same: Option<string> -> bool)
    requires Conjunction(r, ids)
    ensures (forall k :: 0 <= k < |r| && r[k].EqTerm? ==> same(r[k].field)) <==>
            (forall m :: 0 <= m < |ids| ==> same(ids[m]))
  {
    if forall m :: 0 <= m < |ids| ==> same(ids[m]) {
      forall k | 0 <= k < |r| && r[k].EqTerm?
        ensures same(r[k].field)
      {
        assert r[2 * (k / 2)] == EqTerm(ids[k / 2]);
      }
    }
    if forall k :: 0 <= k < |r| && r[k].EqTerm? ==> same(r[k].field) {
      forall m | 0 <= m < |ids|
        ensures same(ids[m])
      {
        assert r[2 * m] == EqTerm(ids[m]);
      }
    }
  }

  /** The primary-key names are the names of exactly the primary-key
      fields. */
  lemma PrimaryKeyIdentsCoverKeys(fields: seq<Field>, same: Option<string> -> bool)
    ensures (forall m :: 0 <= m < |PrimaryKeyIdents(fields)| ==> same(PrimaryKeyIdents(fields)[m])) <==>
            (forall i :: 0 <= i < |fields| && fields[i].primaryKey ==> same(fields[i].ident))
  {
    var onIds := forall m :: 0 <= m < |PrimaryKeyIdents(fields)| ==> same(PrimaryKeyIdents(fields)[m]);
    var onKeys := forall i :: 0 <= i < |fields| && fields[i].primaryKey ==> same(fields[i].ident);
    if onIds {
      SameOnIdsGivesSameOnKeys(fields, same);
    }
    if onKeys {
      SameOnKeysGivesSameOnIds(fields, same);
    }
    assert onIds <==> onKeys;
  }

  /** Every primary-key field's name is among the compared names. */
  lemma SameOnIdsGivesSameOnKeys(fields: seq<Field>, same: Option<string> -> bool)
    requires forall m :: 0 <= m < |PrimaryKeyIdents(fields)| ==> same(PrimaryKeyIdents(fields)[m])
    ensures forall i :: 0 <= i < |fields| && fields[i].primaryKey ==> same(fields[i].ident)
  {
    var ids := PrimaryKeyIdents(fields);
    var pos := Positions(fields, IsPrimaryKey);
    forall i | 0 <= i < |fields| && fields[i].primaryKey
      ensures same(fields[i].ident)
    {
      assert IsPrimaryKey(fields[i]);
      assert i in pos;
      var m :| 0 <= m < |pos| && pos[m] == i;
      assert ids[m] == fields[i].ident;
    }
  }

  /** Every compared name is the name of a primary-key field. */
  lemma SameOnKeysGivesSameOnIds(fields: seq<Field>, same: Option<string> -> bool)
    requires forall i :: 0 <= i < |fields| && fields[i].primaryKey ==> same(fields[i].ident)
    ensures forall m :: 0 <= m < |PrimaryKeyIdents(fields)| ==> same(PrimaryKeyIdents(fields)[m])
  {
    var ids := PrimaryKeyIdents(fields);
    var pos := Positions(fields, IsPrimaryKey);
    forall m | 0 <= m < |ids|
      ensures same(ids[m])
    {
      var i := pos[m];
      assert i < |fields| && IsPrimaryKey(fields[i]);
      assert ids[m] == fields[i].ident;
    }
  }

  lemma {:induction false} NoKeysNoIdents(fields: seq<Field>)
    requires forall i :: 0 <= i < |fields| ==> !fields[i].primaryKey
    ensures PrimaryKeyIdents(fields) == []
    decreases |fields|
  {
    if |fields| > 0 {
      NoKeysNoIdents(fields[..|fields| - 1]);
    }
  }

  /** With at least one primary key, `conflicts_with` holds exactly when the
      two rows agree on every primary-key field; other fields play no part. */
  lemma {:induction false} ConflictsWithComparesKeys(fields: seq<Field>, same: Option<string> -> bool)
    requires exists i :: 0 <= i < |fields| && fields[i].primaryKey
    ensures EvalConflict(ConflictExpression(fields), same) ==
      Some(forall i :: 0 <= i < |fields| && fields[i].primaryKey ==> same(fields[i].ident))
  {
    var r := ConflictExpression(fields);
    var i0 :| 0 <= i0 < |fields| && fields[i0].primaryKey;
    assert IsPrimaryKey(fields[i0]);
    assert |PrimaryKeyIdents(fields)| > 0;
    ConjunctionTermsAreIds(r, PrimaryKeyIdents(fields), same);
    PrimaryKeyIdentsCoverKeys(fields, same);
  }

  /** Without primary keys the emitted body is empty: it has no truth value
      (in Rust a `bool` function with an empty body does not type-check). */
  lemma {:induction false} ConflictsWithoutKeysIsEmpty(fields: seq<Field>, same: Option<string> -> bool)
    requires forall i :: 0 <= i < |fields| ==> !fields[i].primaryKey
    ensures ConflictExpression(fields) == []
    ensures EvalConflict(ConflictExpression(fields), same).None?
  {
    NoKeysNoIdents(fields);
  }

  /** `generate_msi_dao_to_row_definition`: one value per field, every field,
      in declaration order. */
  function ToRow(fields: seq<Field>): (r: seq<Option<string>>)
    ensures |r| == |fields|
    ensures forall i :: 0 <= i < |fields| ==> r[i] == fields[i].ident
    decreases |fields|
  {
    if |fields| == 0 then []
    else ToRow(fields[..|fields| - 1]) + [fields[|fields| - 1].ident]
  }

  /** `generate_dao_tokens`: the struct, `new`, `primary_identifier`,
      `conflicts_with` and `to_row` agree with each other field by field. */
  function CompileDao(target: string, primaryIdentifier: Option<Field>, fields: seq<Field>): (r: Result<DaoDef, CompileError>)
    ensures r.Ok? <==> forall i :: 0 <= i < |fields| ==> fields[i].ident.Some?
    ensures r.Err? ==> r.error == DaoFieldWithoutIdent
    ensures r.Ok? ==> r.value.typeName == DaoOf(target)
    ensures r.Ok? ==>
      |r.value.fields| == |fields| && |r.value.ctor.params| == |fields| &&
      |r.value.ctor.assigns| == |fields| && |r.value.toRow| == |fields|
    ensures r.Ok? ==> forall i :: 0 <= i < |fields| ==>
      && r.value.fields[i].ident == Some(r.value.ctor.params[i].name)
      && r.value.fields[i].ty == r.value.ctor.params[i].ty
      && r.value.ctor.assigns[i] == Assign(r.value.ctor.params[i].name, r.value.ctor.params[i].name)
      && r.value.toRow[i] == r.value.fields[i].ident
      && r.value.fields[i] == StructField(fields[i].ident, fields[i].ty)
    ensures r.Ok? ==> (r.value.primaryIdentifier.ReturnsConverted? <==> primaryIdentifier.Some?)
    ensures r.Ok? && primaryIdentifier.Some? ==> r.value.primaryIdentifier.field == primaryIdentifier.value.ident
    ensures r.Ok? ==> r.value.conflicts == ConflictExpression(fields)
  {
    var ctor :- NewForDao(fields);
    Ok(DaoDef(
      DaoOf(target),
      StructFields(fields),
      ctor,
      PrimaryAccessorFor(primaryIdentifier),
      ConflictExpression(fields),
      ToRow(fields)))
  }
}

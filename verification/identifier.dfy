/** The identifier compiler (src/identifier.rs): the `<T>Identifier` wrapper
    and, when asked for, the `<T>IdentifierGenerator`; and the behaviour of
    the code they stand for. */
module IdentifierGen {
  import opened Common
  import opened Helper
  import opened Ir

  /** `struct <T>Identifier(Identifier)` with its `ToIdentifier` and
      `FromStr` impls. */
  datatype IdentifierDef = IdentifierDef(typeName: TypeName)

  /** `struct <T>IdentifierGenerator { count, used }` with its
      `IdentifierGenerator` and `From` impls. */
  datatype GeneratorDef = GeneratorDef(typeName: TypeName, identifierType: TypeName, idPrefix: string)

  /** What `generate_identifier_tokens` emits. */
  datatype IdentifierPart = IdentifierPart(wrapper: IdentifierDef, generator: Option<GeneratorDef>)

  /** `generate_identifier_generator_definition`: the generator for the
      target's identifier type, whose prefix is the upper-cased target. */
  function GeneratorDefinition(target: string): (g: GeneratorDef)
    ensures g.typeName == GeneratorOf(target)
    ensures g.identifierType == IdentifierOf(target)
    ensures |g.idPrefix| == |target|
    ensures forall i :: 0 <= i < |target| ==> g.idPrefix[i] == UpperChar(target[i])
    ensures forall i :: 0 <= i < |g.idPrefix| ==> !IsAsciiLower(g.idPrefix[i])
  {
    GeneratorDef(GeneratorOf(target), IdentifierOf(target), ToUpper(target))
  }

  /** `generate_identifier_tokens`: the wrapper always, the generator exactly
      when the primary identifier asks for one. */
  function IdentifierTokens(target: string, primaryIdentifier: Field): (r: IdentifierPart)
    ensures r.wrapper.typeName == IdentifierOf(target)
    ensures r.generator.Some? <==> IsGenerated(primaryIdentifier)
    ensures r.generator.Some? ==> r.generator.value == GeneratorDefinition(target)
  {
    IdentifierPart(
      IdentifierDef(IdentifierOf(target)),
      if IsGenerated(primaryIdentifier) then Some(GeneratorDefinition(target)) else None)
  }

  /** The prefix of the table the tests compile. */
  lemma DirectoryPrefix()
    ensures GeneratorDefinition("Directory").idPrefix == "DIRECTORY"
  {
    var p := GeneratorDefinition("Directory").idPrefix;
    assert p[0] == 'D' && p[1] == 'I' && p[2] == 'R' && p[3] == 'E' && p[4] == 'C';
    assert p[5] == 'T' && p[6] == 'O' && p[7] == 'R' && p[8] == 'Y';
  }

  // ---------------------------------------------------------------------
  // Behaviour of the emitted code

  /** The external `Identifier` value. */
  datatype Identifier = Identifier(text: string)

  datatype ParseError = ParseError(message: string)

  /** A value of an emitted `<T>Identifier` type. */
  datatype WrappedIdentifier = WrappedIdentifier(inner: Identifier)

  /** `to_identifier`: the wrapped value, unchanged. */
  function ToIdentifier(w: WrappedIdentifier): (id: Identifier)
    ensures WrappedIdentifier(id) == w
  {
    w.inner
  }

  /** `from_str`: wraps what the external `Identifier::from_str` (here
      `parse`) yields, and propagates its error with `?`. */
  function FromStr(s: string, parse: string -> Result<Identifier, ParseError>): (r: Result<WrappedIdentifier, ParseError>)
    ensures r.Ok? <==> parse(s).Ok?
    ensures r.Ok? ==> ToIdentifier(r.value) == parse(s).value
    ensures r.Err? ==> r.error == parse(s).error
  {
    var id :- parse(s);
    Ok(WrappedIdentifier(id))
  }

  /** The state of an emitted generator. The shared `Rc<RefCell<Vec<_>>>`
      handle is modelled by the list it holds when the generator is built. */
  datatype GeneratorState = GeneratorState(count: nat, used: seq<Identifier>)

  /** `From<Rc<RefCell<Vec<Identifier>>>>` as written: the list's length is
      computed into a local and then dropped; the counter starts at zero. */
  function GeneratorFrom(used: seq<Identifier>): (g: GeneratorState)
    ensures g.used == used
    ensures g.count == 0
  {
    var length := |used|;
    GeneratorState(0, used)
  }

  /** The evidently intended `From`: the counter starts at the number of
      identifiers already in use. */
  function GeneratorFromIntended(used: seq<Identifier>): (g: GeneratorState)
    ensures g.used == used
    ensures g.count == |used|
  {
    GeneratorState(|used|, used)
  }

  /** As written, a generator built over a non-empty used list does not start
      counting after the identifiers already in it. */
  lemma GeneratorFromIgnoresUsed(used: seq<Identifier>)
    requires |used| > 0
    ensures GeneratorFrom(used).count != GeneratorFromIntended(used).count
  {
  }

  /** `count()` */
  function Count(g: GeneratorState): nat {
    g.count
  }

  /** `used()` */
  function Used(g: GeneratorState): seq<Identifier> {
    g.used
  }

  /** `*count_mut() = n`: replaces the counter, nothing else. */
  function SetCount(g: GeneratorState, n: nat): (h: GeneratorState)
    ensures Count(h) == n
    ensures Used(h) == Used(g)
  {
    g.(count := n)
  }

  /** `count()` reads back what `count_mut()` wrote, and nothing else;
      writing leaves `used()` alone; writing back what was read changes
      nothing; and only the last of two writes is visible. */
  lemma CounterAccessors(g: GeneratorState, n: nat, m: nat)
    ensures Count(SetCount(g, n)) == n
    ensures Used(SetCount(g, n)) == Used(g)
    ensures SetCount(g, Count(g)) == g
    ensures SetCount(SetCount(g, n), m) == SetCount(g, m)
  {
  }

  /** A run of counter updates through `count_mut()`: `used()` is never
      touched, and the counter holds the last value written, or its
      starting value when nothing was written. */
  function SetCounts(g: GeneratorState, ns: seq<nat>): (h: GeneratorState)
    ensures Used(h) == Used(g)
    ensures Count(h) == if |ns| == 0 then Count(g) else ns[|ns| - 1]
    decreases |ns|
  {
    if |ns| == 0 then g else SetCount(SetCounts(g, ns[..|ns| - 1]), ns[|ns| - 1])
  }

  /** Whatever the generation algorithm does to the counter, `used()` keeps
      returning the handle the generator was built from, and `count()`
      returns the last value written (before any write, the number of
      identifiers already in use). */
  lemma UsedSurvivesCounting(used: seq<Identifier>, ns: seq<nat>)
    ensures Used(SetCounts(GeneratorFromIntended(used), ns)) == used
    ensures Count(SetCounts(GeneratorFromIntended(used), ns)) == if |ns| == 0 then |used| else ns[|ns| - 1]
  {
  }
}

/** The string helpers of src/helper.rs and the derived names built from a
    base name. */
module Helper {

  /** A generated type name. The helpers that build these names by appending
      a suffix (`table_from_name`, `dao_from_name`, `identifier_from_name`,
      `identifier_generator_from_name`) are not part of this model, so each
      one is a constructor: two names are equal exactly when they were built
      by the same helper from equal base names. */
  datatype TypeName =
    | Named(name: string)          // `format_ident!("{name}")`: the name as written
    | TableOf(base: string)        // `table_from_name(base)`
    | DaoOf(base: string)          // `dao_from_name(base)`
    | IdentifierOf(base: string)   // `identifier_from_name(base)`
    | GeneratorOf(base: string)    // `identifier_generator_from_name(base)`

  /** A column name: the `column_name` override, or the field identifier run
      through `snake_case_to_pascal_case`, which is kept symbolic. */
  datatype ColumnName = Given(name: string) | PascalCaseOf(snake: string)

  predicate IsAsciiLower(c: char) {
    'a' <= c <= 'z'
  }

  /** `char::to_uppercase` restricted to ASCII: a lower-case ASCII letter
      becomes its upper-case letter, every other character is kept. */
  function UpperChar(c: char): (u: char)
    ensures IsAsciiLower(c) ==> 'A' <= u <= 'Z' && u as int + 32 == c as int
    ensures !IsAsciiLower(c) ==> u == c
    ensures !IsAsciiLower(u)
  {
    if IsAsciiLower(c) then (c as int - 32) as char else c
  }

  /** `capitalize`: the first character upper-cased, the rest kept. */
  function Capitalize(s: string): (r: string)
    ensures |r| == |s|
    ensures |s| > 0 ==> r[0] == UpperChar(s[0]) && r[1..] == s[1..]
  {
    if |s| == 0 then "" else [UpperChar(s[0])] + s[1..]
  }

  /** `str::to_uppercase` restricted to ASCII. */
  function ToUpper(s: string): (r: string)
    ensures |r| == |s|
    ensures forall i :: 0 <= i < |s| ==> r[i] == UpperChar(s[i])
    ensures forall i :: 0 <= i < |r| ==> !IsAsciiLower(r[i])
  {
    seq(|s|, i requires 0 <= i < |s| => UpperChar(s[i]))
  }

  /** Capitalizing twice is capitalizing once, so the struct path's double
      call to `capitalize` is harmless. */
  lemma CapitalizeIdempotent(s: string)
    ensures Capitalize(Capitalize(s)) == Capitalize(s)
  {
    if |s| > 0 {
      assert Capitalize(s)[0] == UpperChar(s[0]);
    }
  }

  /** A string is left alone by `capitalize` exactly when it is empty or does
      not start with a lower-case ASCII letter. */
  lemma CapitalizeFixedIff(s: string)
    ensures Capitalize(s) == s <==> |s| == 0 || !IsAsciiLower(s[0])
  {
    if |s| > 0 {
      if Capitalize(s) == s {
        assert UpperChar(s[0]) == s[0];
      }
    }
  }
}

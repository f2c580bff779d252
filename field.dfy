/** The shader field selector (src/field.rs) and its `repr(u32)` encoding. */
module Fields {
  import Common

  /**
   * The first four variants are the enum as declared, in declaration order.
   * Bottom, Top, Frequencies and Samples are used by the chain and state
   * builders but are not part of that declaration.
   */
  datatype Field = All | Circle | None | X | Bottom | Top | Frequencies | Samples

  /** The variants declared in the enum. */
  predicate Declared(f: Field) { f.All? || f.Circle? || f.None? || f.X? }

  /**
   * `field as u32`: implicit discriminants count up from zero in declaration
   * order. The builder-only variants get the next numbers; nothing below
   * relies on their values.
   */
  function Code(f: Field): Common.u32 {
    match f
    case All => 0
    case Circle => 1
    case None => 2
    case X => 3
    case Bottom => 4
    case Top => 5
    case Frequencies => 6
    case Samples => 7
  }

  /** The variant a discriminant stands for, as the shader reads it back. */
  function FromCode(x: Common.u32): Common.Option<Field> {
    match x
    case 0 => Common.Some(All)
    case 1 => Common.Some(Circle)
    case 2 => Common.Some(None)
    case 3 => Common.Some(X)
    case 4 => Common.Some(Bottom)
    case 5 => Common.Some(Top)
    case 6 => Common.Some(Frequencies)
    case 7 => Common.Some(Samples)
    case _ => Common.None
  }

  /** Decoding inverts the encoding. */
  lemma FromCodeOfCode(f: Field)
    ensures FromCode(Code(f)) == Common.Some(f)
  {
  }

  /** Only discriminants decode, and each to the variant that has it. */
  lemma CodeOfFromCode(x: Common.u32)
    ensures FromCode(x).Some? <==> x < 8
    ensures FromCode(x).Some? ==> Code(FromCode(x).value) == x
  {
  }

  /** `#[default]` marks All. */
  function Default(): (f: Field)
    ensures Declared(f) && Code(f) == 0
  {
    All
  }

  lemma DeclaredCodes()
    ensures Code(All) == 0 && Code(Circle) == 1 && Code(None) == 2 && Code(X) == 3
  {
  }

  /** The encoding of the declared variants is injective and stays below 4. */
  lemma CodeInjective(f: Field, g: Field)
    requires Declared(f) && Declared(g)
    ensures Code(f) < 4
    ensures Code(f) == Code(g) ==> f == g
  {
  }
}

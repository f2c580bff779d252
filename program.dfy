/**
 * The preset programs (src/program.rs): each names a state built from the
 * default one with the state builders.
 */
module Programs {
  import Common
  import Fields
  import opened Filters
  import States

  datatype Program = All | Bottom | Circle | Frequencies | Hello | Highwaystar | Middle | None | RedX | Rip | Top | X

  /** The overlay text of `Hello`. */
  function HelloText(): States.Text {
    States.Text(0.05, "hello world", 0.10, -0.10)
  }

  /**
   * `Program::state`. Every preset but `None` draws at least one filter, and
   * every filter a preset draws inverts colours (all of them or only red).
   */
  function State(p: Program): (s: States.State)
    ensures s.filters == [] <==> p == Program.None
    ensures forall i :: 0 <= i < |s.filters| ==> s.filters[i].color != Identity4
  {
    var d := States.Default();
    States.RepeatAppends(States.Scale(States.Circle(States.Invert(d)), 2.0), 8);
    match p
    case All => States.Push(States.All(States.Invert(d)))
    case Bottom => States.Push(States.Bottom(States.Invert(d)))
    case Circle => States.Push(States.Circle(States.Invert(d)))
    case Frequencies => States.Push(States.Frequencies(States.Invert(d)))
    case Hello => States.Push(States.Frequencies(States.Invert(States.SetText(States.Db(d, -40), Common.Some(HelloText())))))
    case Highwaystar => States.Repeat(States.Scale(States.Circle(States.Invert(d)), 2.0), 8)
    case Middle => States.Push(States.Bottom(States.Push(States.Top(States.Invert(d)))))
    case None => d
    case RedX => States.Push(States.X(States.InvertR(d)))
    case Rip => States.Push(States.Samples(States.Push(States.Top(States.Invert(d)))))
    case Top => States.Push(States.Top(States.Invert(d)))
    case X => States.Push(States.X(States.Invert(d)))
  }

  /** The fields of a list of filters, in order. */
  function FieldsOf(filters: seq<Filter>): (r: seq<Fields.Field>)
    ensures |r| == |filters|
    ensures forall i :: 0 <= i < |filters| ==> r[i] == filters[i].field
  {
    seq(|filters|, i requires 0 <= i < |filters| => filters[i].field)
  }

  /** The field of the one filter a single-filter preset draws. */
  function SingleField(p: Program): Common.Option<Fields.Field> {
    match p
    case All => Common.Some(Fields.All)
    case Bottom => Common.Some(Fields.Bottom)
    case Circle => Common.Some(Fields.Circle)
    case Frequencies => Common.Some(Fields.Frequencies)
    case RedX => Common.Some(Fields.X)
    case Top => Common.Some(Fields.Top)
    case X => Common.Some(Fields.X)
    case _ => Common.None
  }

  /** `None` draws nothing. */
  lemma NoFilters()
    ensures State(Program.None).filters == []
    ensures State(Program.None) == States.Default()
  {
  }

  /** `Highwaystar` draws eight identical inverted, doubled circles. */
  lemma HighwaystarFilters()
    ensures |State(Highwaystar).filters| == 8
    ensures forall i :: 0 <= i < 8 ==> State(Highwaystar).filters[i] == State(Highwaystar).filters[0]
    ensures State(Highwaystar).filters[0].field == Fields.Circle
    ensures State(Highwaystar).filters[0].color == InvertColor
    ensures State(Highwaystar).filters[0].position == Scaled(Identity3, 2.0)
  {
    var s := States.Scale(States.Circle(States.Invert(States.Default())), 2.0);
    States.RepeatAppends(s, 8);
    assert s.filters == [];
    assert State(Highwaystar) == States.Repeat(s, 8);
  }

  /** `Middle` draws the top half and then the bottom half. */
  lemma MiddleFields()
    ensures FieldsOf(State(Middle).filters) == [Fields.Top, Fields.Bottom]
  {
  }

  /** `Rip` draws the top half and then the samples. */
  lemma RipFields()
    ensures FieldsOf(State(Rip).filters) == [Fields.Top, Fields.Samples]
  {
  }

  /** The single-filter presets draw exactly one filter, with the field they are named after (RedX draws X). */
  lemma SingleFilter(p: Program)
    requires SingleField(p).Some?
    ensures |State(p).filters| == 1 && State(p).filters[0].field == SingleField(p).value
    ensures State(p).filters[0].color == (if p == RedX then InvertRed else InvertColor)
  {
  }

  /** `Hello` sets a -40 dB offset and the greeting, and draws the frequencies. */
  lemma HelloState()
    ensures State(Hello).db == -40
    ensures State(Hello).text == Common.Some(States.Text(0.05, "hello world", 0.10, -0.10))
    ensures FieldsOf(State(Hello).filters) == [Fields.Frequencies]
  {
  }

  /** Only `Hello` changes the decibel offset or shows text. */
  lemma OnlyHelloHasText(p: Program)
    requires p != Hello
    ensures State(p).db == 0 && State(p).text == Common.None
  {
    if p == Highwaystar {
      States.RepeatAppends(States.Scale(States.Circle(States.Invert(States.Default())), 2.0), 8);
    }
  }
}

/**
 * The render state builder (src/state.rs): the same template-and-list
 * scheme as the filter chain, plus a decibel offset and an optional text
 * overlay. `db` is an f32 built from an i8, which converts exactly, so it is
 * kept as the integer.
 */
module States {
  import opened Common
  import Fields
  import opened Filters

  type i8 = d: int | -128 <= d < 128

  /** The text overlay: its size, the string, and where it is drawn. */
  datatype Text = Text(size: real, string: string, x: real, y: real)

  datatype State = State(db: i8, filter: Filter, filters: seq<Filter>, text: Option<Text>)

  /** The derived `Default`: no filters, no text, a 0 dB offset and the default template. */
  function Default(): (s: State)
    ensures s.filters == [] && s.db == 0 && s.text == None
    ensures s.filter == Filters.Default()
  {
    State(0, Filters.Default(), [], None)
  }

  /** Two states that differ at most in their template. */
  predicate SameBesideTemplate(a: State, b: State) {
    a.db == b.db && a.filters == b.filters && a.text == b.text
  }

  /** `all`: the template draws Field::All; nothing else changes. */
  function All(s: State): (r: State)
    ensures r.filter.field == Fields.All && SameExceptField(r.filter, s.filter) && SameBesideTemplate(r, s)
  {
    s.(filter := s.filter.(field := Fields.All))
  }

  /** `bottom`: the template draws Field::Bottom; nothing else changes. */
  function Bottom(s: State): (r: State)
    ensures r.filter.field == Fields.Bottom && SameExceptField(r.filter, s.filter) && SameBesideTemplate(r, s)
  {
    s.(filter := s.filter.(field := Fields.Bottom))
  }

  /** `circle`: the template draws Field::Circle; nothing else changes. */
  function Circle(s: State): (r: State)
    ensures r.filter.field == Fields.Circle && SameExceptField(r.filter, s.filter) && SameBesideTemplate(r, s)
  {
    s.(filter := s.filter.(field := Fields.Circle))
  }

  /** `frequencies`: the template draws Field::Frequencies; nothing else changes. */
  function Frequencies(s: State): (r: State)
    ensures r.filter.field == Fields.Frequencies && SameExceptField(r.filter, s.filter) && SameBesideTemplate(r, s)
  {
    s.(filter := s.filter.(field := Fields.Frequencies))
  }

  /** `samples`: the template draws Field::Samples; nothing else changes. */
  function Samples(s: State): (r: State)
    ensures r.filter.field == Fields.Samples && SameExceptField(r.filter, s.filter) && SameBesideTemplate(r, s)
  {
    s.(filter := s.filter.(field := Fields.Samples))
  }

  /** `top`: the template draws Field::Top; nothing else changes. */
  function Top(s: State): (r: State)
    ensures r.filter.field == Fields.Top && SameExceptField(r.filter, s.filter) && SameBesideTemplate(r, s)
  {
    s.(filter := s.filter.(field := Fields.Top))
  }

  /** `x`: the template draws Field::X; nothing else changes. */
  function X(s: State): (r: State)
    ensures r.filter.field == Fields.X && SameExceptField(r.filter, s.filter) && SameBesideTemplate(r, s)
  {
    s.(filter := s.filter.(field := Fields.X))
  }

  /** `invert`: the template's colour matrix becomes `invert_color()`; nothing else changes. */
  function Invert(s: State): (r: State)
    ensures r.filter.color == InvertColor && SameExceptColor(r.filter, s.filter) && SameBesideTemplate(r, s)
  {
    s.(filter := s.filter.(color := InvertColor))
  }

  /** `invert_r`: the template's colour matrix becomes diag(-1, 1, 1, 1); nothing else changes. */
  function InvertR(s: State): (r: State)
    ensures r.filter.color == InvertRed && SameExceptColor(r.filter, s.filter) && SameBesideTemplate(r, s)
  {
    s.(filter := s.filter.(color := InvertRed))
  }

  /** `scale(n)`: the template's position matrix is multiplied by a scaling by n; nothing else changes. */
  function Scale(s: State, n: real): (r: State)
    ensures r.filter.position == Scaled(s.filter.position, n) && SameExceptPosition(r.filter, s.filter) && SameBesideTemplate(r, s)
  {
    s.(filter := s.filter.(position := Scaled(s.filter.position, n)))
  }

  /** `db(d)`: the offset becomes `d as f32`, exact for every i8; nothing else changes. */
  function Db(s: State, d: i8): (r: State)
    ensures r.db == d && r.filter == s.filter && r.filters == s.filters && r.text == s.text
  {
    s.(db := d)
  }

  /** `text(t)`: the overlay becomes t; nothing else changes. */
  function SetText(s: State, t: Option<Text>): (r: State)
    ensures r.text == t && r.db == s.db && r.filter == s.filter && r.filters == s.filters
  {
    s.(text := t)
  }

  /** `push`: a clone of the template goes at the end of the list. */
  function Push(s: State): (r: State)
    ensures |r.filters| == |s.filters| + 1 && r.filters[..|s.filters|] == s.filters
    ensures r.filters[|s.filters|] == s.filter && r.filter == s.filter
    ensures r.db == s.db && r.text == s.text
  {
    s.(filters := s.filters + [s.filter])
  }

  /** n pushes in a row. */
  function Repeat(s: State, n: nat): State {
    if n == 0 then s else Push(Repeat(s, n - 1))
  }

  /** `times(n)`: `self = self.push()`, n times. */
  method Times(s: State, n: nat) returns (r: State)
    ensures r == Repeat(s, n)
  {
    r := s;
    for k := 0 to n
      invariant r == Repeat(s, k)
    {
      r := Push(r);
    }
  }

  /** n pushes append n copies of the template and change nothing else. */
  lemma {:induction false} RepeatAppends(s: State, n: nat)
    ensures Repeat(s, n).filter == s.filter && Repeat(s, n).db == s.db && Repeat(s, n).text == s.text
    ensures Repeat(s, n).filters == s.filters + seq(n, _ => s.filter)
  {
    if n > 0 {
      RepeatAppends(s, n - 1);
      assert s.filters + seq(n, _ => s.filter) == s.filters + seq(n - 1, _ => s.filter) + [s.filter];
    }
  }
}

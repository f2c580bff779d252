/**
 * The filter-chain builder (src/chain.rs): setters adjust a template
 * filter, `push` appends a copy of the template to the list, and the list is
 * what the chain converts into. Builders take the chain by value and return
 * it, so they are functions here; `times` is a loop of pushes.
 */
module Chains {
  import Fields
  import opened Filters

  datatype Chain = Chain(filter: Filter, filters: seq<Filter>)

  /** The derived `Default`: the default template and no filters. */
  function Default(): (c: Chain)
    ensures c.filter == Filters.Default() && Into(c) == []
  {
    Chain(Filters.Default(), [])
  }

  /** `bottom`: the template draws Field::Bottom; nothing else changes. */
  function Bottom(c: Chain): (r: Chain)
    ensures r.filter.field == Fields.Bottom && SameExceptField(r.filter, c.filter) && r.filters == c.filters
  {
    c.(filter := c.filter.(field := Fields.Bottom))
  }

  /** `circle`: the template draws Field::Circle; nothing else changes. */
  function Circle(c: Chain): (r: Chain)
    ensures r.filter.field == Fields.Circle && SameExceptField(r.filter, c.filter) && r.filters == c.filters
  {
    c.(filter := c.filter.(field := Fields.Circle))
  }

  /** `frequencies`: the template draws Field::Frequencies; nothing else changes. */
  function Frequencies(c: Chain): (r: Chain)
    ensures r.filter.field == Fields.Frequencies && SameExceptField(r.filter, c.filter) && r.filters == c.filters
  {
    c.(filter := c.filter.(field := Fields.Frequencies))
  }

  /** `samples`: the template draws Field::Samples; nothing else changes. */
  function Samples(c: Chain): (r: Chain)
    ensures r.filter.field == Fields.Samples && SameExceptField(r.filter, c.filter) && r.filters == c.filters
  {
    c.(filter := c.filter.(field := Fields.Samples))
  }

  /** `top`: the template draws Field::Top; nothing else changes. */
  function Top(c: Chain): (r: Chain)
    ensures r.filter.field == Fields.Top && SameExceptField(r.filter, c.filter) && r.filters == c.filters
  {
    c.(filter := c.filter.(field := Fields.Top))
  }

  /** `x`: the template draws Field::X; nothing else changes. */
  function X(c: Chain): (r: Chain)
    ensures r.filter.field == Fields.X && SameExceptField(r.filter, c.filter) && r.filters == c.filters
  {
    c.(filter := c.filter.(field := Fields.X))
  }

  /** `invert`: the template's colour matrix becomes `invert_color()`; nothing else changes. */
  function Invert(c: Chain): (r: Chain)
    ensures r.filter.color == InvertColor && SameExceptColor(r.filter, c.filter) && r.filters == c.filters
  {
    c.(filter := c.filter.(color := InvertColor))
  }

  /** `invert_r`: the template's colour matrix becomes diag(-1, 1, 1, 1); nothing else changes. */
  function InvertR(c: Chain): (r: Chain)
    ensures r.filter.color == InvertRed && SameExceptColor(r.filter, c.filter) && r.filters == c.filters
  {
    c.(filter := c.filter.(color := InvertRed))
  }

  /** `scale(n)`: the template's position matrix is multiplied by a scaling by n; nothing else changes. */
  function Scale(c: Chain, n: real): (r: Chain)
    ensures r.filter.position == Scaled(c.filter.position, n) && SameExceptPosition(r.filter, c.filter) && r.filters == c.filters
  {
    c.(filter := c.filter.(position := Scaled(c.filter.position, n)))
  }

  /** `push`: a clone of the template goes at the end of the list. */
  function Push(c: Chain): (r: Chain)
    ensures |r.filters| == |c.filters| + 1 && r.filters[..|c.filters|] == c.filters
    ensures r.filters[|c.filters|] == c.filter && r.filter == c.filter
  {
    c.(filters := c.filters + [c.filter])
  }

  /** n pushes in a row. */
  function Repeat(c: Chain, n: nat): Chain {
    if n == 0 then c else Push(Repeat(c, n - 1))
  }

  /** `times(n)`: `self = self.push()`, n times. */
  method Times(c: Chain, n: nat) returns (r: Chain)
    ensures r == Repeat(c, n)
  {
    r := c;
    for k := 0 to n
      invariant r == Repeat(c, k)
    {
      r := Push(r);
    }
  }

  /** n pushes append n copies of the template and leave the template as it was. */
  lemma {:induction false} RepeatAppends(c: Chain, n: nat)
    ensures Repeat(c, n).filter == c.filter
    ensures Repeat(c, n).filters == c.filters + seq(n, _ => c.filter)
  {
    if n > 0 {
      RepeatAppends(c, n - 1);
      assert c.filters + seq(n, _ => c.filter) == c.filters + seq(n - 1, _ => c.filter) + [c.filter];
    }
  }

  /** `From<Chain> for Vec<Filter>`: the filters, in the order they were pushed. */
  function Into(c: Chain): (fs: seq<Filter>)
    ensures fs == c.filters
  {
    c.filters
  }

  /** Each push shows up as the last filter of the conversion, after the earlier ones. */
  lemma IntoPush(c: Chain)
    ensures Into(Push(c)) == Into(c) + [c.filter]
  {
  }
}

/**
 * A filter of the render chain (src/filter.rs): a colour matrix, a
 * position matrix, the field it draws, and two flags.
 *
 * The matrices are kept symbolic: only which matrix a filter holds is
 * modelled, not its f32 contents.
 */
module Filters {
  import Fields

  /** Colour matrices: the identity, `invert_color()`, and the red inversion diag(-1, 1, 1, 1). */
  datatype Mat4 = Identity4 | InvertColor | InvertRed

  /** Position matrices: the identity, or one multiplied by `Mat3f::new_scaling(factor)`. */
  datatype Mat3 = Identity3 | Scaled(base: Mat3, factor: real)

  datatype Filter = Filter(color: Mat4, coordinates: bool, field: Fields.Field, position: Mat3, wrap: bool)

  /** `Filter::default`: identity matrices, both flags off, and the default field, All. */
  function Default(): (f: Filter)
    ensures f.color == Identity4 && f.position == Identity3
    ensures !f.coordinates && !f.wrap
    ensures f.field == Fields.All
  {
    Filter(Identity4, false, Fields.Default(), Identity3, false)
  }

  /** Two filters that differ at most in their field. */
  predicate SameExceptField(a: Filter, b: Filter) {
    a.color == b.color && a.coordinates == b.coordinates && a.position == b.position && a.wrap == b.wrap
  }

  /** Two filters that differ at most in their colour matrix. */
  predicate SameExceptColor(a: Filter, b: Filter) {
    a.coordinates == b.coordinates && a.field == b.field && a.position == b.position && a.wrap == b.wrap
  }

  /** Two filters that differ at most in their position matrix. */
  predicate SameExceptPosition(a: Filter, b: Filter) {
    a.color == b.color && a.coordinates == b.coordinates && a.field == b.field && a.wrap == b.wrap
  }
}

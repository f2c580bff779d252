/**
 * The one-byte encoding of bool in the zero-copy serialisation format
 * (src/bool.rs): serialising writes the bool's bit pattern, and checking a
 * byte in place accepts exactly the two patterns a bool can have.
 *
 * The serializer's `State` is not part of this model beyond its `write`,
 * which is taken to append the given bytes to the output.
 */
module Bool {
  import opened Common

  /** The serializer state: the bytes written so far. */
  class State {
    var output: seq<byte>

    constructor (output: seq<byte>)
      ensures this.output == output
    {
      this.output := output;
    }

    /** `State::write`: the bytes go at the end of the output. */
    method Write(bytes: seq<byte>)
      modifies this
      ensures output == old(output) + bytes
    {
      output := output + bytes;
    }
  }

  /** `BoolSerializer`, built by `Serializer::new` around a state. */
  class BoolSerializer {
    const state: State

    constructor (state: State)
      ensures this.state == state
    {
      this.state := state;
    }
  }

  datatype Error = Bool(value: byte)

  /** `bool_bit_pattern`: the byte a bool is stored as, 0x00 for false and 0x01 for true. */
  function BoolBitPattern(value: bool): (b: byte)
    ensures b <= 1
    ensures b == 1 <==> value
  {
    if value then 1 else 0
  }

  /** `serialize`: one byte, the value's bit pattern, goes to the serializer's state. */
  method Serialize(value: bool, serializer: BoolSerializer)
    modifies serializer.state
    ensures serializer.state.output == old(serializer.state.output) + [BoolBitPattern(value)]
  {
    var byte := BoolBitPattern(if value then true else false);
    serializer.state.Write([byte]);
  }

  /** `View::check` on the byte a suspect bool occupies. */
  function Check(value: byte): (r: Result<bool, Error>)
    ensures r.Ok? <==> value == BoolBitPattern(true) || value == BoolBitPattern(false)
    ensures r.Err? ==> r.error == Bool(value)
  {
    if value != BoolBitPattern(true) && value != BoolBitPattern(false) then Err(Bool(value))
    else Ok(value == BoolBitPattern(true))
  }

  /** `FromView::from_view` */
  function FromView(view: bool): (b: bool)
    ensures b == view
  {
    view
  }

  /** Round trip: the byte serialize writes checks as the serialised value. */
  lemma CheckOfSerialized(value: bool)
    ensures Check(BoolBitPattern(value)) == Ok(value)
  {
  }

  /** Conversely, a byte that checks is the bit pattern of the value it checks as. */
  lemma SerializedOfCheck(value: byte)
    requires Check(value).Ok?
    ensures BoolBitPattern(Check(value).value) == value
  {
  }

  /** The encoding of the test: false is 00 and true is 01, and any other byte is refused with itself as the error. */
  lemma Encoding(other: byte)
    requires other > 1
    ensures BoolBitPattern(false) == 0x00 && BoolBitPattern(true) == 0x01
    ensures Check(other) == Err(Bool(other))
  {
  }
}

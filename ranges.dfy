/** The engine's RandomValueRange, with its bounds already floored to integers, and its JSON form, which the engine owns. */
module Ranges {
  import opened Wrappers
  import opened Json

  datatype RandomValueRange = RandomValueRange(min: int, max: int) {
    /**
     * generateInt(rand), that is MathHelper.getInt(rand, min, max): a value within the bounds, and
     * min itself when the range is empty or inverted.
     */
    predicate Generates(n: int) {
      if min >= max then n == min else min <= n <= max
    }
  }

  /** Every range, inverted ones included, generates its minimum, and only values within its bounds. */
  lemma GeneratesWithin(range: RandomValueRange, n: int)
    ensures range.Generates(range.min)
    ensures range.Generates(n) ==> range.min <= n && (n <= range.max || n == range.min)
  {
  }

  /** The engine's (de)serialiser of a range: write to JSON, read from a non-null JSON element. */
  datatype RangeCodec = RangeCodec(write: RandomValueRange -> Json, read: Json -> Result<RandomValueRange>)

  /** context.serialize(range): gson writes a null reference as JSON null. */
  function WriteRange(codec: RangeCodec, levels: Option<RandomValueRange>): Json {
    if levels.Some? then codec.write(levels.value) else JNull
  }

  /** JsonUtils.deserializeClass: gson reads JSON null as a null reference. */
  function ReadRange(codec: RangeCodec, j: Json): Result<Option<RandomValueRange>> {
    if j.JNull? then Ok(None)
    else match codec.read(j)
      case Ok(r) => Ok(Some(r))
      case Err(e) => Err(e)
  }

  /** A codec whose reader inverts its writer restores any optional range through JSON. */
  lemma ReadWriteRange(codec: RangeCodec, levels: Option<RandomValueRange>)
    requires forall r :: codec.write(r) != JNull && codec.read(codec.write(r)) == Ok(r)
    ensures ReadRange(codec, WriteRange(codec, levels)) == Ok(levels)
  {
  }
}

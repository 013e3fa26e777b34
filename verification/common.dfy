/** Shared vocabulary of the model: Java's nullable references, its 32-bit
    `int`, opaque object identities and the error codes handed to callers. */
module Common {

  /** A Java reference that may be null: `None` stands for null. */
  datatype Option<+T> = None | Some(value: T)

  const MIN_INT: int := -0x8000_0000
  const MAX_INT: int := 0x7fff_ffff

  /** The values of a Java `int`. */
  type Int32 = x: int | MIN_INT <= x <= MAX_INT

  /** Two's-complement wrap-around of Java `int` arithmetic: the unique
      32-bit value congruent to `x` modulo 2^32. */
  function WrapInt(x: int): (r: Int32)
    ensures MIN_INT <= x <= MAX_INT ==> r == x
    ensures (x - r) % 0x1_0000_0000 == 0
  {
    (x - MIN_INT) % 0x1_0000_0000 + MIN_INT
  }

  type Byte = bv8

  /** The identity of an object the model does not look inside: a listener,
      a hook, a form item, a transport error, a parameter value. */
  datatype ObjectRef = ObjectRef(id: nat)

  type Headers = map<string, string>

  /** Error codes of the library's error taxonomy. The numeric constants
      live in `CommonError`, which is not part of this model, so the codes
      are kept symbolic: the JSON decode failure, or any other code. */
  datatype ErrorCode = ParseJsonObjectFailed | Code(value: int)
}

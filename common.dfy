/** Shared vocabulary of the Rotext model: optional values, bytes, and the
    `Range` of the Rust crate, which is a start offset plus a length into the
    input byte slice. */
module Common {

  datatype Option<+T> = None | Some(value: T)

  /** One byte of the UTF-8 input. */
  newtype Byte = b: int | 0 <= b < 256

  const SPACE: Byte := 32
  const TAB: Byte := 9
  const LF: Byte := 10

  /** `Range` is `(start, length)`; its content is `input[start..start+length]`. */
  datatype Range = Range(start: nat, length: nat) {
    function End(): nat { start + length }

    predicate InBounds(input: seq<Byte>) { End() <= |input| }
  }

  /** A byte read as a character. Multi-byte UTF-8 decoding is not modelled:
      every byte stands for the character with the same code. */
  function ByteChar(b: Byte): char { (b as int) as char }

  /** The text a range covers, as `Range::content(input)` returns it. */
  function Text(r: Range, input: seq<Byte>): (s: string)
    requires r.InBounds(input)
    ensures |s| == r.length
    ensures forall i :: 0 <= i < r.length ==> s[i] == ByteChar(input[r.start + i])
  {
    seq(r.length, i requires 0 <= i < r.length => ByteChar(input[r.start + i]))
  }

  /** Concatenation regroups freely. */
  lemma AppendAssoc<T>(a: seq<T>, b: seq<T>, c: seq<T>)
    ensures a + b + c == a + (b + c)
  {
  }
}

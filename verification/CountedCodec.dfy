/**
 The list encoding shared by the peer store and the event queue: a 16-bit element count,
 then the elements one after another. The element codec is LDK's and stays abstract: all
 that is used is that an encoding decodes back, whatever bytes follow it.
 */
module CountedCodec {
  datatype Option<+T> = None | Some(value: T)

  type Byte = b: int | 0 <= b < 256

  const COUNT_LIMIT: nat := 0x1_0000

  /** `decode` yields the element read from the front and the number of bytes it took. */
  datatype ElementCodec<!T> = ElementCodec(encode: T -> seq<Byte>, decode: seq<Byte> -> Option<(T, nat)>)

  ghost predicate SelfDelimiting<T(!new)>(c: ElementCodec<T>) {
    forall x, rest :: c.decode(c.encode(x) + rest) == Some((x, |c.encode(x)|))
  }

  /** The count cast to 16 bits, in two bytes, the high one first. */
  function EncodeCount(n: nat): (r: seq<Byte>) {
    var low := n % COUNT_LIMIT;
    [low / 256, low % 256]
  }

  function EncodeElements<T>(c: ElementCodec<T>, xs: seq<T>): (r: seq<Byte>) {
    if xs == [] then [] else EncodeElements(c, xs[..|xs| - 1]) + c.encode(xs[|xs| - 1])
  }

  /** The bytes written for `xs`: the length is cast to 16 bits, the elements are all there. */
  function Encode<T>(c: ElementCodec<T>, xs: seq<T>): (r: seq<Byte>) {
    EncodeCount(|xs|) + EncodeElements(c, xs)
  }

  /** Reads `n` elements from the front; bytes left over are ignored, as the readers do. */
  function DecodeElements<T>(c: ElementCodec<T>, n: nat, bytes: seq<Byte>): (r: Option<seq<T>>) {
    if n == 0 then Some([])
    else
      var head := c.decode(bytes);
      if head.None? || head.value.1 > |bytes| then None
      else
        var tail := DecodeElements(c, n - 1, bytes[head.value.1..]);
        if tail.None? then None else Some([head.value.0] + tail.value)
  }

  function DecodeCount(high: int, low: int): (r: int) {
    high * 256 + low
  }

  function Decode<T>(c: ElementCodec<T>, bytes: seq<Byte>): (r: Option<seq<T>>) {
    if |bytes| < 2 then None else DecodeElements(c, DecodeCount(bytes[0], bytes[1]), bytes[2..])
  }

  lemma {:induction false} EncodeElementsFront<T>(c: ElementCodec<T>, xs: seq<T>)
    requires xs != []
    ensures EncodeElements(c, xs) == c.encode(xs[0]) + EncodeElements(c, xs[1..])
  {
    if |xs| > 1 {
      var n := |xs| - 1;
      EncodeElementsFront(c, xs[..n]);
      assert xs[..n][1..] == xs[1..][..n - 1];
    } else {
      assert EncodeElements(c, xs[..0]) == [];
    }
  }

  /** Asking for the first `n` elements yields them, whatever follows. */
  lemma {:induction false} DecodePrefix<T(!new)>(c: ElementCodec<T>, xs: seq<T>, n: nat)
    requires SelfDelimiting(c) && n <= |xs|
    ensures DecodeElements(c, n, EncodeElements(c, xs)) == Some(xs[..n])
  {
    if n > 0 {
      EncodeElementsFront(c, xs);
      var rest := EncodeElements(c, xs[1..]);
      assert (c.encode(xs[0]) + rest)[|c.encode(xs[0])|..] == rest;
      DecodePrefix(c, xs[1..], n - 1);
      assert xs[..n] == [xs[0]] + xs[1..][..n - 1];
    }
  }

  lemma CountReadsModulo(n: nat)
    ensures DecodeCount(EncodeCount(n)[0], EncodeCount(n)[1]) == n % COUNT_LIMIT
  {
    var low := n % COUNT_LIMIT;
    assert low == (low / 256) * 256 + low % 256;
  }

  /** A reload sees the length modulo 65536, so that many elements from the front. */
  lemma ReloadTruncates<T(!new)>(c: ElementCodec<T>, xs: seq<T>)
    requires SelfDelimiting(c)
    ensures Decode(c, Encode(c, xs)) == Some(xs[..|xs| % COUNT_LIMIT])
  {
    var bytes := Encode(c, xs);
    CountReadsModulo(|xs|);
    assert bytes[0] == EncodeCount(|xs|)[0] && bytes[1] == EncodeCount(|xs|)[1];
    assert bytes[2..] == EncodeElements(c, xs);
    DecodePrefix(c, xs, |xs| % COUNT_LIMIT);
  }

  /** A list reads back as it was written exactly if its length fits the count. */
  lemma RoundTripIff<T(!new)>(c: ElementCodec<T>, xs: seq<T>)
    requires SelfDelimiting(c)
    ensures Decode(c, Encode(c, xs)) == Some(xs) <==> |xs| < COUNT_LIMIT
  {
    ReloadTruncates(c, xs);
    assert |xs| < COUNT_LIMIT ==> xs[..|xs|] == xs;
  }

  /** The `Writeable` loops of `PeerStoreSerWrapper` and `EventQueueSerWrapper`. */
  method Write<T>(c: ElementCodec<T>, xs: seq<T>) returns (bytes: seq<Byte>)
    ensures bytes == Encode(c, xs)
  {
    bytes := EncodeCount(|xs|);
    for i := 0 to |xs|
      invariant bytes == EncodeCount(|xs|) + EncodeElements(c, xs[..i])
    {
      bytes := bytes + c.encode(xs[i]);
      assert xs[..i + 1][..i] == xs[..i];
    }
    assert xs[..|xs|] == xs;
  }

  function Prepend<T>(xs: seq<T>, rest: Option<seq<T>>): (r: Option<seq<T>>) {
    if rest.None? then None else Some(xs + rest.value)
  }

  lemma PrependAgain<T>(xs: seq<T>, x: T, rest: Option<seq<T>>)
    ensures Prepend(xs, Prepend([x], rest)) == Prepend(xs + [x], rest)
  {
    if rest.Some? {
      assert xs + ([x] + rest.value) == (xs + [x]) + rest.value;
    }
  }

  /** The `Readable` loops: read the count, then that many elements. */
  method Read<T>(c: ElementCodec<T>, bytes: seq<Byte>) returns (r: Option<seq<T>>)
    ensures r == Decode(c, bytes)
  {
    if |bytes| < 2 {
      return None;
    }
    var count := DecodeCount(bytes[0], bytes[1]);
    var at, xs: seq<T> := 2, [];
    ghost var all := Decode(c, bytes);
    assert all.Some? ==> xs + all.value == all.value;
    for i := 0 to count
      invariant 2 <= at <= |bytes|
      invariant Decode(c, bytes) == Prepend(xs, DecodeElements(c, count - i, bytes[at..]))
    {
      var head := c.decode(bytes[at..]);
      if head.None? || head.value.1 > |bytes| - at {
        return None;
      }
      assert bytes[at..][head.value.1..] == bytes[at + head.value.1..];
      PrependAgain(xs, head.value.0, DecodeElements(c, count - i - 1, bytes[at + head.value.1..]));
      at := at + head.value.1;
      xs := xs + [head.value.0];
    }
    assert xs + [] == xs;
    return Some(xs);
  }
}

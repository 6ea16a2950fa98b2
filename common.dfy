/** Small value types and sequence helpers shared by the client and server models. */
module Common {

  datatype Option<T> = None | Some(value: T)

  /** One octet of a binary payload (a Uint8Array element, a Python bytes item). */
  type byte = x: int | 0 <= x < 256

  /** The in-order concatenation of a list of chunks. */
  function Flatten<T>(chunks: seq<seq<T>>): seq<T>
  {
    if |chunks| == 0 then [] else Flatten(chunks[..|chunks| - 1]) + chunks[|chunks| - 1]
  }

  /** The sum of the chunk lengths, folded from the left as `Array.prototype.reduce` does. */
  function TotalLength<T>(chunks: seq<seq<T>>): nat
  {
    if |chunks| == 0 then 0 else TotalLength(chunks[..|chunks| - 1]) + |chunks[|chunks| - 1]|
  }

  /** Appending one chunk appends its samples to the concatenation. */
  lemma FlattenSnoc<T>(chunks: seq<seq<T>>, c: seq<T>)
    ensures Flatten(chunks + [c]) == Flatten(chunks) + c
    ensures TotalLength(chunks + [c]) == TotalLength(chunks) + |c|
  {
    assert (chunks + [c])[..|chunks|] == chunks;
  }

  /** The concatenation is exactly as long as the folded sum of the chunk lengths. */
  lemma {:induction false} FlattenLength<T>(chunks: seq<seq<T>>)
    ensures |Flatten(chunks)| == TotalLength(chunks)
  {
    if |chunks| > 0 {
      FlattenLength(chunks[..|chunks| - 1]);
    }
  }

  /** The length of any prefix of the chunk list never exceeds the whole. */
  lemma {:induction false} TotalLengthPrefix<T>(chunks: seq<seq<T>>, k: nat)
    requires k <= |chunks|
    ensures TotalLength(chunks[..k]) <= TotalLength(chunks)
  {
    if k < |chunks| {
      var init := chunks[..|chunks| - 1];
      assert init[..k] == chunks[..k];
      TotalLengthPrefix(init, k);
    } else {
      assert chunks[..k] == chunks;
    }
  }

  /** Chunks that all hold `n` items concatenate to `n` items per chunk. */
  lemma {:induction false} FlattenUniform<T>(chunks: seq<seq<T>>, n: nat)
    requires forall k :: 0 <= k < |chunks| ==> |chunks[k]| == n
    ensures |Flatten(chunks)| == n * |chunks|
  {
    if |chunks| > 0 {
      FlattenUniform(chunks[..|chunks| - 1], n);
      assert n * |chunks| == n * (|chunks| - 1) + n;
    }
  }

  /** Decimal rendering of a natural number, as JavaScript template strings print it. */
  function NatToString(n: nat): string
  {
    if n < 10 then [Digit(n)] else NatToString(n / 10) + [Digit(n % 10)]
  }

  function Digit(d: nat): char
    requires d < 10
  {
    "0123456789"[d]
  }
}

/** Fixed-size splitting and concatenation: the loop shared by the chunk codec
    (1024-byte pieces) and by the state-sync transfer (32 KiB pieces). */
module Pieces {
  import opened Basics

  /** ceil(n / size), as both senders compute it. */
  function Count(n: nat, size: nat): nat
    requires size > 0
  {
    (n + size - 1) / size
  }

  /** The bytes in [i * size, min((i + 1) * size, |data|)). */
  function Piece<T>(data: seq<T>, size: nat, i: nat): seq<T>
    requires size > 0
    requires i < Count(|data|, size)
  {
    CountBounds(|data|, size, i);
    data[i * size..Min(i * size + size, |data|)]
  }

  function Split<T>(data: seq<T>, size: nat): seq<seq<T>>
    requires size > 0
  {
    seq(Count(|data|, size), i requires 0 <= i < Count(|data|, size) => Piece(data, size, i))
  }

  function Flatten<T>(pieces: seq<seq<T>>): seq<T> {
    if pieces == [] then [] else Flatten(pieces[..|pieces|-1]) + pieces[|pieces|-1]
  }

  /** Piece i starts inside the data, and the last piece ends with it. */
  lemma {:induction false} CountBounds(n: nat, size: nat, i: nat)
    requires size > 0
    ensures i < Count(n, size) ==> i * size < n
    ensures i + 1 < Count(n, size) ==> i * size + size < n
    ensures i + 1 == Count(n, size) ==> n <= i * size + size
  {
    var q := Count(n, size);
    assert q * size <= n + size - 1 < q * size + size;
    if i < q {
      MulMono(i + 1, q, size);
      assert (i + 1) * size == i * size + size;
    }
    if i + 1 < q {
      MulMono(i + 2, q, size);
      assert (i + 2) * size == i * size + size + size;
    }
    if i + 1 == q {
      assert q * size == i * size + size;
    }
  }

  lemma {:induction false} MulMono(a: nat, b: nat, c: nat)
    requires a <= b
    ensures a * c <= b * c
  {
    assert b * c == a * c + (b - a) * c;
  }

  /** Where piece k - 1 ends. */
  lemma {:induction false} PrefixEnd(n: nat, size: nat, k: nat)
    requires size > 0
    ensures 0 < k <= Count(n, size) ==>
              (k - 1) * size < n && Min((k - 1) * size + size, n) == Min(k * size, n)
    ensures k == Count(n, size) ==> Min(k * size, n) == n
  {
    if k > 0 {
      CountBounds(n, size, k - 1);
      assert k * size == (k - 1) * size + size;
    } else {
      assert k == Count(n, size) ==> n + size - 1 < size;
    }
  }

  lemma {:induction false} FlattenPrefix<T>(data: seq<T>, size: nat, k: nat)
    requires size > 0
    requires k <= Count(|data|, size)
    ensures k * size >= 0
    ensures Flatten(Split(data, size)[..k]) == data[..Min(k * size, |data|)]
  {
    if k > 0 {
      FlattenPrefix(data, size, k - 1);
      FlattenStep(data, size, k - 1);
    }
  }

  lemma {:induction false} FlattenStep<T>(data: seq<T>, size: nat, k: nat)
    requires size > 0
    requires k < Count(|data|, size)
    requires k * size >= 0
    requires Flatten(Split(data, size)[..k]) == data[..Min(k * size, |data|)]
    ensures (k + 1) * size >= 0
    ensures Flatten(Split(data, size)[..k+1]) == data[..Min((k + 1) * size, |data|)]
  {
    var pieces := Split(data, size);
    PrefixEnd(|data|, size, k + 1);
    var a := k * size;
    var b := Min(a + size, |data|);
    assert (k + 1) * size == a + size;
    assert pieces[..k+1][..k] == pieces[..k];
    assert pieces[..k+1][k] == data[a..b];
    assert data[..a] + data[a..b] == data[..b];
  }

  /** Concatenating the pieces in order gives the data back, for any data. */
  lemma {:induction false} SplitFlatten<T>(data: seq<T>, size: nat)
    requires size > 0
    ensures Flatten(Split(data, size)) == data
  {
    var n := Count(|data|, size);
    FlattenPrefix(data, size, n);
    PrefixEnd(|data|, size, n);
    assert Split(data, size)[..n] == Split(data, size);
  }

  /** No piece is empty, every piece but the last is full, and there is a piece
      exactly when there is data. */
  lemma {:induction false} PieceShape<T>(data: seq<T>, size: nat, i: nat)
    requires size > 0
    ensures Count(|data|, size) > 0 <==> data != []
    ensures i < Count(|data|, size) ==> 0 < |Piece(data, size, i)| <= size
    ensures i + 1 < Count(|data|, size) ==> |Piece(data, size, i)| == size
  {
    CountBounds(|data|, size, i);
    if data == [] {
      assert |data| + size - 1 < size;
    }
  }

  /** The receiving loop: append every piece to a buffer. */
  method Concatenate<T>(pieces: seq<seq<T>>) returns (data: seq<T>)
    ensures data == Flatten(pieces)
  {
    data := [];
    var i := 0;
    while i < |pieces|
      invariant 0 <= i <= |pieces|
      invariant data == Flatten(pieces[..i])
    {
      assert pieces[..i+1][..i] == pieces[..i];
      data := data + pieces[i];
      i := i + 1;
    }
    assert pieces[..i] == pieces;
  }
}

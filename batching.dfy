/** Splitting a list into consecutive chunks (`get_list_in_batches`). */
module Batching {

  /** The chunks joined back together, in order. */
  function Flatten<T>(chunks: seq<seq<T>>): (flat: seq<T>)
  {
    if chunks == [] then [] else Flatten(chunks[..|chunks| - 1]) + chunks[|chunks| - 1]
  }

  lemma MulAtLeast(k: int, size: int)
    requires k >= 1 && size > 0
    ensures k * size >= size
  {
  }

  /** Integer division is the unique quotient. */
  lemma DivisionByBounds(a: int, size: int, q: int)
    requires size > 0 && q * size <= a < q * size + size
    ensures a / size == q
  {
    var q' := a / size;
    assert a == q' * size + a % size;
    if q' < q {
      MulAtLeast(q - q', size);
    } else if q' > q {
      MulAtLeast(q' - q, size);
    }
  }

  lemma CeilingDivision(n: nat, size: nat, count: nat)
    requires size > 0
    requires (count == 0 && n == 0) || (count > 0 && (count - 1) * size < n <= count * size)
    ensures count == (n + size - 1) / size
  {
    if count > 0 {
      assert (count - 1) * size == count * size - size;
    }
    DivisionByBounds(n + size - 1, size, count);
  }

  /**
   * The chunks `input[index : index + batchSize]` for index in
   * `range(0, len(input), batchSize)`, collected instead of yielded. A zero
   * batch size is an error in the source; a negative one yields nothing.
   */
  method GetListInBatches<T>(inputList: seq<T>, batchSize: int) returns (batches: seq<seq<T>>)
    requires batchSize != 0
    ensures batchSize < 0 ==> batches == []
    ensures batchSize > 0 ==> Flatten(batches) == inputList
    ensures batchSize > 0 ==> |batches| == (|inputList| + batchSize - 1) / batchSize
    ensures forall i :: 0 <= i < |batches| - 1 ==> |batches[i]| == batchSize
    ensures batches != [] ==> 1 <= |batches[|batches| - 1]| <= batchSize
  {
    batches := [];
    if batchSize < 0 {
      return;
    }
    var listLength := |inputList|;
    var index := 0;
    while index < listLength
      invariant index == |batches| * batchSize
      invariant index <= listLength ==> Flatten(batches) == inputList[..index]
      invariant index > listLength ==> Flatten(batches) == inputList && index - batchSize < listLength
      invariant forall i :: 0 <= i < |batches| ==> |batches[i]| == batchSize || (i == |batches| - 1 && index > listLength)
      invariant forall i :: 0 <= i < |batches| ==> 1 <= |batches[i]| <= batchSize
    {
      var end := if index + batchSize <= listLength then index + batchSize else listLength;
      var chunk := inputList[index..end];
      assert Flatten(batches + [chunk]) == Flatten(batches) + chunk by {
        assert (batches + [chunk])[..|batches|] == batches;
      }
      assert inputList[..index] + inputList[index..end] == inputList[..end];
      batches := batches + [chunk];
      index := index + batchSize;
    }
    if index <= listLength {
      assert inputList[..index] == inputList;
    }
    CeilingDivision(listLength, batchSize, |batches|);
  }
}

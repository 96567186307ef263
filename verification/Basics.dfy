/** Shared vocabulary: optional values, results, byte payloads and the string order. */
module Basics {

  datatype Option<+T> = None | Some(value: T)

  datatype Result<+T, +E> = Success(value: T) | Failure(error: E)

  function Max(a: nat, b: nat): nat { if a < b then b else a }

  /** Zero-based index of the first record read for a checkpoint that recorded
      `lastSeq`: streams count from 1, and an unknown position skips creation. */
  function TailFrom(lastSeq: nat): (k: nat)
    ensures k >= 1
  {
    var fromSeq := lastSeq + 1;
    if fromSeq == 1 then 1 else fromSeq - 1
  }

  /** A JSON payload: its compacted text and the insignificant layout around it.
      Compaction is the retraction that forgets the layout. */
  datatype Bytes = Bytes(text: string, layout: nat)

  const EMPTY: Bytes := Bytes("", 0)

  function NormalizeJSON(data: Bytes): (r: Bytes) {
    Bytes(data.text, 0)
  }

  /** Byte-wise string order, Go's `<` on strings. */
  predicate Before(a: string, b: string) {
    b != "" && (a == "" || a[0] < b[0] || (a[0] == b[0] && Before(a[1..], b[1..])))
  }

  /** That is: a proper prefix comes first, otherwise the first difference decides. */
  lemma {:induction false} BeforeMeans(a: string, b: string)
    ensures Before(a, b) <==>
              (|a| < |b| && a == b[..|a|])
              || exists i :: 0 <= i < |a| && i < |b| && a[i] < b[i] && a[..i] == b[..i]
  {
    if a != "" && b != "" {
      BeforeMeans(a[1..], b[1..]);
      assert a == [a[0]] + a[1..] && b == [b[0]] + b[1..];
      if a[0] == b[0] {
        assert |a| <= |b| ==> b[..|a|] == [b[0]] + b[1..][..|a| - 1];
        forall i | 0 <= i < |a| - 1 && i < |b| - 1 ensures a[1..][i] == a[i + 1] && b[1..][i] == b[i + 1]
          && (a[1..][..i] == b[1..][..i] <==> a[..i + 1] == b[..i + 1])
        {
          assert a[..i + 1] == [a[0]] + a[1..][..i] && b[..i + 1] == [b[0]] + b[1..][..i];
          assert a[1..][..i] == a[..i + 1][1..] && b[1..][..i] == b[..i + 1][1..];
        }
      } else {
        assert a[..0] == b[..0];
        assert |a| <= |b| ==> a[0] == a[..|a|][0] && b[..|a|][0] == b[0];
        forall i | 0 < i < |a| && i < |b| ensures a[..i] != b[..i] {
          assert a[..i][0] == a[0] && b[..i][0] == b[0];
        }
      }
    }
  }

  lemma {:induction false} BeforeTotal(a: string, b: string)
    ensures Before(a, b) || a == b || Before(b, a)
  {
    if a != "" && b != "" && a[0] == b[0] {
      BeforeTotal(a[1..], b[1..]);
      assert a == [a[0]] + a[1..] && b == [b[0]] + b[1..];
    }
  }

  lemma {:induction false} BeforeAsymmetric(a: string, b: string)
    requires Before(a, b)
    ensures !Before(b, a) && a != b
  {
    if a != "" && a[0] == b[0] {
      BeforeAsymmetric(a[1..], b[1..]);
    }
  }

  lemma {:induction false} BeforeTransitive(a: string, b: string, c: string)
    requires Before(a, b) && Before(b, c)
    ensures Before(a, c)
  {
    if a != "" && a[0] == b[0] == c[0] {
      BeforeTransitive(a[1..], b[1..], c[1..]);
    }
  }
}

/** Types shared by every component of the model. */
module Common {

  datatype Option<+T> = None | Some(value: T)

  datatype Result<+T, +E> = Ok(value: T) | Err(error: E)

  /** One octet. */
  type Byte = b: int | 0 <= b < 256

  type Bytes = seq<Byte>

  /** A SHA-256 value. */
  type Digest = nat

  /** The reading of "collision free" used where a proof needs two equal digests
      to come from equal inputs. */
  ghost predicate Injective<A(!new), B(!new)>(f: A -> B) {
    forall x, y :: f(x) == f(y) ==> x == y
  }

  predicate IsAscii(s: string) {
    forall i :: 0 <= i < |s| ==> s[i] < 128 as char
  }

  function Ascii(s: string): (b: Bytes)
    requires IsAscii(s)
    ensures |b| == |s| && forall i :: 0 <= i < |s| ==> b[i] == s[i] as int
  {
    seq(|s|, i requires 0 <= i < |s| => s[i] as int)
  }

  predicate OccursAt(hay: Bytes, needle: Bytes, i: nat) {
    i + |needle| <= |hay| && hay[i..i + |needle|] == needle
  }

  /** `needle` occurs somewhere in `hay`. */
  predicate Contains(hay: Bytes, needle: Bytes) {
    exists i :: 0 <= i <= |hay| && OccursAt(hay, needle, i)
  }

  lemma PieceLacks(before: Bytes, piece: Bytes, after: Bytes, needle: Bytes)
    requires !Contains(before + piece + after, needle)
    ensures !Contains(piece, needle)
  {
    var whole := before + piece + after;
    forall i | 0 <= i <= |piece| ensures !OccursAt(piece, needle, i) {
      var j := |before| + i;
      if OccursAt(piece, needle, i) {
        assert whole[j..j + |needle|] == piece[i..i + |needle|];
        assert OccursAt(whole, needle, j);
      }
    }
  }
}

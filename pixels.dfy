/**
 * The background-removal script's pixel pass: every near-white pixel of an
 * RGBA image becomes fully transparent white, every other pixel is kept.
 */
module Pixels {
  /** One 8-bit colour or alpha channel. */
  type Channel = x: int | 0 <= x < 256

  datatype Pixel = Pixel(r: Channel, g: Channel, b: Channel, a: Channel)

  const Transparent := Pixel(255, 255, 255, 0)

  /** The whiteness test: red, green and blue all above 240; alpha plays no part. */
  predicate IsNearWhite(p: Pixel)
  {
    p.r > 240 && p.g > 240 && p.b > 240
  }

  /** What the pass writes for one pixel. */
  function Whiten(p: Pixel): (q: Pixel)
    ensures IsNearWhite(p) ==> q == Transparent
    ensures !IsNearWhite(p) ==> q == p
  {
    if IsNearWhite(p) then Transparent else p
  }

  /** The whole pass as a value. */
  function Cleared(data: seq<Pixel>): (r: seq<Pixel>)
    ensures |r| == |data|
    ensures forall i :: 0 <= i < |data| ==> r[i] == Whiten(data[i])
  {
    seq(|data|, i requires 0 <= i < |data| => Whiten(data[i]))
  }

  /** The loop of `remove_white_background`, appending one output pixel per input pixel. */
  method RemoveWhiteBackground(data: seq<Pixel>) returns (newData: seq<Pixel>)
    ensures |newData| == |data|
    ensures forall i :: 0 <= i < |data| && IsNearWhite(data[i]) ==> newData[i] == Transparent
    ensures forall i :: 0 <= i < |data| && !IsNearWhite(data[i]) ==> newData[i] == data[i]
    ensures newData == Cleared(data)
  {
    newData := [];
    for k := 0 to |data|
      invariant |newData| == k
      invariant forall i :: 0 <= i < k ==> newData[i] == Whiten(data[i])
    {
      if data[k].r > 240 && data[k].g > 240 && data[k].b > 240 {
        newData := newData + [Transparent];
      } else {
        newData := newData + [data[k]];
      }
    }
  }

  /** The transparent white written for a near-white pixel is itself near-white, so a second pass changes nothing. */
  lemma ClearedIdempotent(data: seq<Pixel>)
    ensures Cleared(Cleared(data)) == Cleared(data)
  {
    assert IsNearWhite(Transparent);
  }

  /** Two pixels that differ only in alpha are both cleared or both kept. */
  lemma AlphaIgnored(p: Pixel, alpha: Channel)
    ensures IsNearWhite(p.(a := alpha)) == IsNearWhite(p)
    ensures IsNearWhite(p) ==> Whiten(p.(a := alpha)) == Whiten(p)
  {
  }
}

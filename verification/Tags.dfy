/**
 Tag functions that meet what the projection asks of its keyed hash: 64 hexadecimal digits each, and no two of the
 texts tagged for one review alike. No function separates all texts, since there are only finitely many digests.
 */
module Tags {
  import opened Sorting
  import opened Canonical
  import opened FindingsSync
  import opened SyncRequest
  import E = Envelope

  // ----- numbers in hexadecimal ----------------------------------------------------------------

  function Pow16(k: nat): (r: nat)
    ensures r > 0
  {
    if k == 0 then 1 else 16 * Pow16(k - 1)
  }

  function Digit(d: int): int { if d < 10 then 0x30 + d else 0x61 + d - 10 }

  /** The last `k` hexadecimal digits of `n`. */
  function Hex(n: nat, k: nat): (r: Text)
    ensures |r| == k && E.LowerHex(r)
  {
    if k == 0 then [] else Hex(n / 16, k - 1) + [Digit(n % 16)]
  }

  lemma {:induction false} HexInjective(n: nat, m: nat, k: nat)
    requires n < Pow16(k) && m < Pow16(k) && Hex(n, k) == Hex(m, k)
    ensures n == m
  {
    if k > 0 {
      var a, b := Hex(n / 16, k - 1), Hex(m / 16, k - 1);
      assert Hex(n, k)[..k - 1] == a && Hex(m, k)[..k - 1] == b;
      assert Hex(n, k)[k - 1] == Digit(n % 16) && Hex(m, k)[k - 1] == Digit(m % 16);
      HexInjective(n / 16, m / 16, k - 1);
    }
  }

  lemma {:induction false} Grows(k: nat)
    requires k >= 3
    ensures Pow16(k) >= 4096
  {
    if k > 3 { Grows(k - 1); } else { assert Pow16(1) == 16 && Pow16(2) == 256; }
  }

  // ----- tagging by position -------------------------------------------------------------------

  function First(texts: seq<Text>, t: Text): (i: nat)
    ensures i <= |texts| && (t in texts ==> i < |texts| && texts[i] == t)
  {
    if texts == [] || texts[0] == t then 0 else 1 + First(texts[1..], t)
  }

  /** Appending more texts moves none of the earlier ones. */
  lemma {:induction false} FirstKept(texts: seq<Text>, more: seq<Text>, t: Text)
    requires t in texts
    ensures First(texts + more, t) == First(texts, t)
  {
    if texts[0] != t {
      assert (texts + more)[1..] == texts[1..] + more;
      FirstKept(texts[1..], more, t);
    }
  }

  function ByPosition(texts: seq<Text>): Text -> Text { t => Hex(First(texts, t), 64) }

  lemma ByPositionSeparates(texts: seq<Text>, within: set<Text>)
    requires |texts| < 4096 && forall t :: t in within ==> t in texts
    ensures E.Digests(ByPosition(texts)) && CollisionFreeOn(ByPosition(texts), within)
  {
    hide Hex;
    forall s, t | s in within && t in within && ByPosition(texts)(s) == ByPosition(texts)(t) ensures s == t {
      Grows(64);
      HexInjective(First(texts, s), First(texts, t), 64);
    }
  }

  function SurfaceTexts(fs: seq<E.Finding>): (r: seq<Text>)
    ensures |r| == |fs|
    ensures forall i :: 0 <= i < |fs| ==> r[i] == SurfaceText(fs[i])
  {
    seq(|fs|, i requires 0 <= i < |fs| => SurfaceText(fs[i]))
  }

  function FindingTexts(hmac: Text -> Text, fs: seq<E.Finding>): (r: seq<Text>)
    ensures |r| == |fs|
    ensures forall i :: 0 <= i < |fs| ==> r[i] == FindingText(hmac, fs[i])
  {
    seq(|fs|, i requires 0 <= i < |fs| => FindingText(hmac, fs[i]))
  }

  /** Surface texts first, so that the texts built from their tags are known before they are placed. */
  function Placed(fs: seq<E.Finding>): (r: seq<Text>)
    ensures |r| == 2 * |fs|
  {
    SurfaceTexts(fs) + FindingTexts(ByPosition(SurfaceTexts(fs)), fs)
  }

  lemma SurfacePlaced(fs: seq<E.Finding>, i: nat)
    requires i < |fs|
    ensures SurfaceText(fs[i]) in Placed(fs)
    ensures ByPosition(Placed(fs))(SurfaceText(fs[i])) == ByPosition(SurfaceTexts(fs))(SurfaceText(fs[i]))
  {
    hide SurfaceText, FindingText, Hex;
    assert Placed(fs)[i] == SurfaceTexts(fs)[i] == SurfaceText(fs[i]);
    FirstKept(SurfaceTexts(fs), FindingTexts(ByPosition(SurfaceTexts(fs)), fs), SurfaceText(fs[i]));
  }

  lemma FindingPlaced(fs: seq<E.Finding>, i: nat)
    requires i < |fs|
    ensures FindingText(ByPosition(Placed(fs)), fs[i]) in Placed(fs)
  {
    hide TagText, Hex, First, ByPosition, Placed;
    var first := ByPosition(SurfaceTexts(fs));
    SurfacePlaced(fs, i);
    assert FindingText(ByPosition(Placed(fs)), fs[i]) == FindingText(first, fs[i]);
    LaterPlaced(fs, i);
  }

  lemma LaterPlaced(fs: seq<E.Finding>, i: nat)
    requires i < |fs|
    ensures FindingText(ByPosition(SurfaceTexts(fs)), fs[i]) in Placed(fs)
  {
    hide FindingText, SurfaceText, Hex;
    assert Placed(fs)[|fs| + i] == FindingTexts(ByPosition(SurfaceTexts(fs)), fs)[i];
  }

  /** Every review of at most 512 findings has a tag function without a collision among its texts. */
  lemma CollisionFreeTagsExist(fs: seq<E.Finding>)
    requires |fs| <= MAX_FINDINGS
    ensures exists hmac: Text -> Text :: E.Digests(hmac) && CollisionFreeOn(hmac, IdentityTexts(hmac, fs))
  {
    hide SurfaceText, FindingText, ByPosition, Placed, CollisionFreeOn, E.Digests;
    var hmac := ByPosition(Placed(fs));
    forall t | t in IdentityTexts(hmac, fs) ensures t in Placed(fs) {
      if f :| f in fs && t == SurfaceText(f) {
        var i :| 0 <= i < |fs| && fs[i] == f;
        SurfacePlaced(fs, i);
      } else {
        var f :| f in fs && t == FindingText(hmac, f);
        var i :| 0 <= i < |fs| && fs[i] == f;
        FindingPlaced(fs, i);
      }
    }
    ByPositionSeparates(Placed(fs), IdentityTexts(hmac, fs));
  }
}

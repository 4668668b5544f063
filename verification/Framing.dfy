/**
 The text of a JSON object is never a proper suffix of the text of another one.

 The audit log authenticates `prev_hash + canonical`, a plain concatenation. This is why that message
 still has one reading only: wherever the canonical object starts, it starts there in every reading.
 */
module Framing {
  import opened Options
  import opened Nesting
  import opened Decoder

  /** With an empty stack the decoder is in or after its one value. */
  predicate Begun(d: State) {
    d.stack == [] ==> d.mode.After? || (d.mode.InString? && !d.mode.key)
  }

  lemma {:induction false} BegunKept(d: State, bytes: seq<Byte>)
    requires Begun(d) && Decode(d, bytes).Some?
    ensures Begun(Decode(d, bytes).value)
    decreases |bytes|
  {
    if bytes != [] { BegunKept(Consume(d, bytes[0]).value, bytes[1..]); }
  }

  /** Outside strings and outside escapes. */
  predicate Open(d: State) { !d.mode.InString? }

  /** Inside a string, between characters. */
  predicate Quoted(d: State) { d.mode.InString? && d.mode.esc.NoEscape? }

  /** Two decoders that disagree about being inside a string disagree for as long as both accept. */
  lemma {:induction false} Disagree(d: State, e: State, bytes: seq<Byte>)
    requires (Open(d) && Quoted(e)) || (Quoted(d) && Open(e))
    requires Decode(d, bytes).Some? && Decode(e, bytes).Some?
    ensures var r, s := Decode(d, bytes).value, Decode(e, bytes).value;
            (Open(r) && Quoted(s)) || (Quoted(r) && Open(s))
    decreases |bytes|
  {
    if bytes != [] { Disagree(Consume(d, bytes[0]).value, Consume(e, bytes[0]).value, bytes[1..]); }
  }

  lemma DecodePrefix(d: State, a: seq<Byte>, b: seq<Byte>)
    requires Decode(d, a + b).Some?
    ensures Decode(d, a).Some?
    decreases |a|
  {
    if a != [] {
      assert (a + b)[1..] == a[1..] + b;
      DecodePrefix(Consume(d, a[0]).value, a[1..], b);
    }
  }

  lemma ValueText(v: Value)
    requires ValueOk(v) && v.Object?
    ensures ValueBytes(v) != [] && ValueBytes(v)[0] == OPEN_OBJECT
    ensures Completes(BEGIN, ValueBytes(v))
  {
    ValueDecodes(BEGIN, v);
  }

  /** In a top-level text, an object can only start inside a string or at positive depth. */
  lemma NoSecondObject(x: seq<Byte>, d: State, w: Value)
    requires x != [] && x[0] == OPEN_OBJECT && Decode(BEGIN, x) == Some(d) && Open(d)
    requires ValueOk(w) && w.Object? && Decode(d, ValueBytes(w)).Some?
    ensures d.stack != []
  {
    var d1 := Consume(BEGIN, x[0]).value;
    BegunKept(d1, x[1..]);
    ValueText(w);
  }

  lemma ObjectTextsSuffixFree(v: Value, w: Value, x: seq<Byte>)
    requires ValueOk(v) && ValueOk(w) && v.Object? && w.Object?
    requires ValueBytes(v) == x + ValueBytes(w)
    ensures x == []
  {
    if x != [] {
      ValueText(v);
      ValueText(w);
      DecodePrefix(BEGIN, x, ValueBytes(w));
      var d := Decode(BEGIN, x).value;
      DecodeConcat(BEGIN, x, ValueBytes(w));
      assert x[0] == ValueBytes(v)[0];
      if Open(d) {
        NoSecondObject(x, d, w);
        assert ValueBytes(w)[..|ValueBytes(w)|] == ValueBytes(w);
        ScannerTracksDecoder(d, ValueBytes(w), |ValueBytes(w)|);
        ValueBalanced(Mirror(d), w);
      } else {
        assert Consume(d, OPEN_OBJECT).Some?;
        Disagree(d, BEGIN, ValueBytes(w));
      }
    }
  }

  /** One message, one reading: both the prefix and the object are determined by their concatenation. */
  lemma MessageHasOneReading(p: seq<Byte>, v: Value, q: seq<Byte>, w: Value)
    requires ValueOk(v) && ValueOk(w) && v.Object? && w.Object?
    requires p + ValueBytes(v) == q + ValueBytes(w)
    ensures p == q && ValueBytes(v) == ValueBytes(w)
  {
    var m, n := p + ValueBytes(v), q + ValueBytes(w);
    if |p| <= |q| {
      var x := q[|p|..];
      assert p == m[..|p|] == n[..|p|] == q[..|p|];
      assert ValueBytes(v) == m[|p|..] == n[|p|..] == x + ValueBytes(w);
      ObjectTextsSuffixFree(v, w, x);
    } else {
      var x := p[|q|..];
      assert q == n[..|q|] == m[..|q|] == p[..|q|];
      assert ValueBytes(w) == n[|q|..] == m[|q|..] == x + ValueBytes(v);
      ObjectTextsSuffixFree(w, v, x);
    }
  }
}

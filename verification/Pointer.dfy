/**
 Reference tokens of JSON Pointer (RFC 6901): the single-pass decoding that the OpenAPI importer and
 the review answers share, against the two substitutions section 4 of the RFC prescribes.
 */
module Pointer {
  import opened Options
  import opened Sorting

  const TILDE := 0x7E
  const SLASH := 0x2F
  const ZERO := 0x30
  const ONE := 0x31

  function Prepend(head: Text, tail: Option<Text>): Option<Text> {
    match tail
    case None => None
    case Some(t) => Some(head + t)
  }

  /** The decoded token; `None` for a `~` that is not followed by `0` or `1`. */
  function Unescape(token: Text): Option<Text>
    decreases |token|
  {
    if token == [] then Some([])
    else if token[0] != TILDE then Prepend([token[0]], Unescape(token[1..]))
    else if |token| < 2 || (token[1] != ZERO && token[1] != ONE) then None
    else Prepend([if token[1] == ZERO then TILDE else SLASH], Unescape(token[2..]))
  }

  method UnescapePointerToken(token: Text) returns (r: Option<Text>)
    ensures r == Unescape(token)
  {
    var output: Text, index := [], 0;
    assert token[0..] == token;
    assert forall t: Text :: [] + t == t;
    while index < |token|
      invariant 0 <= index <= |token|
      invariant Unescape(token) == Prepend(output, Unescape(token[index..]))
    {
      var character := token[index];
      ghost var rest := token[index..];
      if character != TILDE {
        assert rest[1..] == token[index + 1..];
        PrependTwice(output, [character], Unescape(token[index + 1..]));
        output := output + [character];
        index := index + 1;
        continue;
      }
      if index + 1 >= |token| || (token[index + 1] != ZERO && token[index + 1] != ONE) {
        return None;
      }
      ghost var decoded := if token[index + 1] == ZERO then TILDE else SLASH;
      assert rest[1] == token[index + 1] && rest[2..] == token[index + 2..];
      PrependTwice(output, [decoded], Unescape(token[index + 2..]));
      output := output + [if token[index + 1] == ZERO then TILDE else SLASH];
      index := index + 2;
    }
    assert token[index..] == [] && output + [] == output;
    return Some(output);
  }

  lemma PrependTwice(a: Text, b: Text, tail: Option<Text>)
    ensures Prepend(a, Prepend(b, tail)) == Prepend(a + b, tail)
  {
    if tail.Some? { assert a + (b + tail.value) == (a + b) + tail.value; }
  }

  // ----- the definition of RFC 6901 ------------------------------------------------------------

  /** Every `~` starts one of the two escapes. */
  ghost predicate ValidToken(token: Text) {
    forall i :: 0 <= i < |token| && token[i] == TILDE ==>
      i + 1 < |token| && (token[i + 1] == ZERO || token[i + 1] == ONE)
  }

  /** All occurrences of `~` followed by `second`, left to right, replaced by `replacement`. */
  function Substitute(s: Text, second: int, replacement: int): Text
    decreases |s|
  {
    if s == [] then []
    else if |s| >= 2 && s[0] == TILDE && s[1] == second then [replacement] + Substitute(s[2..], second, replacement)
    else [s[0]] + Substitute(s[1..], second, replacement)
  }

  /** Section 4: first `~1` becomes `/`, then `~0` becomes `~`. */
  function TwoPass(token: Text): Text {
    Substitute(Substitute(token, ONE, SLASH), ZERO, TILDE)
  }

  lemma {:induction false} ValidTail(token: Text, n: nat)
    requires ValidToken(token) && n <= |token|
    ensures ValidToken(token[n..])
  {
    forall i | 0 <= i < |token[n..]| && token[n..][i] == TILDE
      ensures i + 1 < |token[n..]| && (token[n..][i + 1] == ZERO || token[n..][i + 1] == ONE)
    {
      assert token[n + i] == TILDE;
    }
  }

  lemma ValidCons(c: int, token: Text)
    requires ValidToken(token) && c != TILDE
    ensures ValidToken([c] + token)
  {
    var t := [c] + token;
    forall i | 0 <= i < |t| && t[i] == TILDE
      ensures i + 1 < |t| && (t[i + 1] == ZERO || t[i + 1] == ONE)
    {
      assert token[i - 1] == TILDE;
    }
  }

  /** Decoding succeeds on exactly the valid tokens. */
  lemma {:induction false} UnescapeTotalOnValid(token: Text)
    ensures Unescape(token).Some? <==> ValidToken(token)
    decreases |token|
  {
    if token == [] {
    } else if token[0] != TILDE {
      UnescapeTotalOnValid(token[1..]);
      assert token == [token[0]] + token[1..];
      if ValidToken(token) { ValidTail(token, 1); }
      if ValidToken(token[1..]) { ValidCons(token[0], token[1..]); }
    } else if |token| >= 2 && (token[1] == ZERO || token[1] == ONE) {
      UnescapeTotalOnValid(token[2..]);
      if ValidToken(token) { ValidTail(token, 2); }
      if ValidToken(token[2..]) {
        ValidCons(token[1], token[2..]);
        assert token == [TILDE] + ([token[1]] + token[2..]);
        forall i | 0 <= i < |token| && token[i] == TILDE
          ensures i + 1 < |token| && (token[i + 1] == ZERO || token[i + 1] == ONE)
        {
          if i > 0 { assert ([token[1]] + token[2..])[i - 1] == TILDE; }
        }
      }
    } else {
      assert token[0] == TILDE;
    }
  }

  /** On every valid token the single pass computes the two substitutions. */
  lemma {:induction false} SinglePassIsTwoPass(token: Text)
    requires ValidToken(token)
    ensures Unescape(token) == Some(TwoPass(token))
    decreases |token|
  {
    if token == [] {
    } else if token[0] != TILDE {
      ValidTail(token, 1);
      SinglePassIsTwoPass(token[1..]);
      var once := Substitute(token[1..], ONE, SLASH);
      assert ([token[0]] + once)[1..] == once;
    } else {
      ValidTail(token, 2);
      SinglePassIsTwoPass(token[2..]);
      var once := Substitute(token[2..], ONE, SLASH);
      if token[1] == ONE {
        assert ([SLASH] + once)[1..] == once;
      } else {
        assert token[1..][1..] == token[2..];
        assert Substitute(token, ONE, SLASH) == [TILDE] + ([ZERO] + once);
        assert ([TILDE] + ([ZERO] + once))[2..] == once;
      }
    }
  }

  // ----- escaping ------------------------------------------------------------------------------

  function Escape(s: Text): Text {
    if s == [] then []
    else (if s[0] == TILDE then [TILDE, ZERO] else if s[0] == SLASH then [TILDE, ONE] else [s[0]]) + Escape(s[1..])
  }

  /** Decoding inverts escaping for every string. */
  lemma {:induction false} UnescapeInvertsEscape(s: Text)
    ensures Unescape(Escape(s)) == Some(s)
    ensures SLASH !in Escape(s)
  {
    if s != [] {
      var e := Escape(s[1..]);
      UnescapeInvertsEscape(s[1..]);
      assert s == [s[0]] + s[1..];
      if s[0] == TILDE || s[0] == SLASH {
        assert Escape(s)[2..] == e;
      } else {
        assert Escape(s)[1..] == e;
      }
    }
  }

  /** Escaping inverts decoding on tokens without a raw slash. */
  lemma {:induction false} EscapeInvertsUnescape(token: Text)
    requires SLASH !in token && Unescape(token).Some?
    ensures Escape(Unescape(token).value) == token
    decreases |token|
  {
    if token != [] {
      var n := if token[0] == TILDE then 2 else 1;
      EscapeInvertsUnescape(token[n..]);
      var head, tail := Unescape(token).value[0], Unescape(token[n..]).value;
      assert Unescape(token).value == [head] + tail;
      assert ([head] + tail)[1..] == tail;
      assert token == token[..n] + token[n..];
    }
  }

  /** Without a raw slash, different tokens name different components. */
  lemma UnescapeInjective(t1: Text, t2: Text)
    requires SLASH !in t1 && SLASH !in t2
    requires Unescape(t1).Some? && Unescape(t1) == Unescape(t2)
    ensures t1 == t2
  {
    EscapeInvertsUnescape(t1);
    EscapeInvertsUnescape(t2);
  }

  /** With a raw slash they may not: `/` and `~1` decode alike, which is why both callers refuse it. */
  lemma RawSlashCollides()
    ensures Unescape([SLASH]) == Unescape([TILDE, ONE]) == Some([SLASH])
  {
    assert [SLASH][1..] == [] && [TILDE, ONE][2..] == [];
    assert Unescape([]) == Some([]) && [SLASH] + [] == [SLASH];
  }
}

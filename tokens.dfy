/** Access-token strings: the 62-symbol alphabet and the generator the access-token
    pre-save hook runs, which maps each of 24 random bytes to `Chars[b % 62]`. */
module Tokens {

  /** The alphabet of token characters, in three runs. */
  const Upper: string := "ABCDEFGHIJKLMNOPQRSTUVWXYZ"
  const Lower: string := "abcdefghijklmnopqrstuvwxyz"
  const Digits: string := "0123456789"
  const Chars: string := Upper + Lower + Digits
  /** `charlen`, the size of the alphabet. */
  const CharLen: nat := |Chars|
  /** The number of random bytes, and so of characters, of a generated token. */
  const TokenLength: nat := 24

  newtype byte = x: int | 0 <= x < 256

  /** An ASCII letter or digit, defined independently of `Chars`. */
  predicate IsAlphanumeric(c: char) {
    ('A' <= c <= 'Z') || ('a' <= c <= 'z') || ('0' <= c <= '9')
  }

  /** The token character one random byte stands for. */
  function CharOf(b: byte): char {
    Chars[b as int % CharLen]
  }

  /** The token a sequence of random bytes stands for, one character per byte. */
  function TokenOf(buf: seq<byte>): string {
    if buf == [] then [] else [CharOf(buf[0])] + TokenOf(buf[1..])
  }

  /** The alphabet is the source's 62-character string. */
  lemma CharsLiteral()
    ensures Chars == "ABCDEFGHIJKLMNOPQRSTUVWXYZabcdefghijklmnopqrstuvwxyz0123456789"
  {
  }

  /** Position `k` of the alphabet spelled out: upper-case letters, lower-case
      letters, then digits. */
  lemma CharsAt(k: nat)
    requires k < CharLen
    ensures CharLen == 62
    ensures k < 26 ==> Chars[k] == ('A' as int + k) as char
    ensures 26 <= k < 52 ==> Chars[k] == ('a' as int + (k - 26)) as char
    ensures 52 <= k ==> Chars[k] == ('0' as int + (k - 52)) as char
  {
  }

  /** Every character of the alphabet is an ASCII letter or digit, and every
      ASCII letter or digit is in the alphabet. */
  lemma AlphabetIsAlphanumeric(c: char)
    ensures c in Chars <==> IsAlphanumeric(c)
  {
    if c in Chars {
      var k :| 0 <= k < |Chars| && Chars[k] == c;
      CharsAt(k);
    }
    if IsAlphanumeric(c) {
      var k := if c <= '9' then c as int - '0' as int + 52
               else if c <= 'Z' then c as int - 'A' as int
               else c as int - 'a' as int + 26;
      CharsAt(k);
    }
  }

  /** No character occurs twice in the alphabet. */
  lemma AlphabetDistinct(i: nat, j: nat)
    requires i < CharLen && j < CharLen && i != j
    ensures Chars[i] != Chars[j]
  {
    CharsAt(i);
    CharsAt(j);
  }

  /** A byte's character is in the alphabet, and two bytes give the same
      character exactly when they agree modulo 62. */
  lemma CharOfSpec(a: byte, b: byte)
    ensures IsAlphanumeric(CharOf(a))
    ensures CharOf(a) == CharOf(b) <==> a as int % 62 == b as int % 62
  {
    CharsAt(a as int % CharLen);
    if a as int % 62 != b as int % 62 {
      AlphabetDistinct(a as int % 62, b as int % 62);
    }
  }

  /** A token has one character per byte, character `i` is `Chars[buf[i] % 62]`,
      and every character is an ASCII letter or digit. */
  lemma {:induction false} TokenOfSpec(buf: seq<byte>)
    ensures |TokenOf(buf)| == |buf|
    ensures forall i :: 0 <= i < |buf| ==> TokenOf(buf)[i] == CharOf(buf[i])
    ensures forall i :: 0 <= i < |buf| ==> IsAlphanumeric(TokenOf(buf)[i])
  {
    if buf != [] {
      TokenOfSpec(buf[1..]);
      CharOfSpec(buf[0], buf[0]);
      forall i | 1 <= i < |buf|
        ensures TokenOf(buf)[i] == TokenOf(buf[1..])[i - 1]
      {
      }
    }
  }

  /** Two byte strings agree position by position modulo 62. */
  predicate SameResidues(a: seq<byte>, b: seq<byte>) {
    |a| == |b| && forall i :: 0 <= i < |a| ==> a[i] as int % 62 == b[i] as int % 62
  }

  /** Two byte strings give the same token exactly when they have the same
      residues modulo 62. */
  lemma TokenOfResidues(a: seq<byte>, b: seq<byte>)
    ensures TokenOf(a) == TokenOf(b) <==> SameResidues(a, b)
  {
    TokenOfSpec(a);
    TokenOfSpec(b);
    var ta, tb := TokenOf(a), TokenOf(b);
    if ta == tb {
      forall i | 0 <= i < |a|
        ensures a[i] as int % 62 == b[i] as int % 62
      {
        assert ta[i] == CharOf(a[i]) && tb[i] == CharOf(b[i]);
        CharOfSpec(a[i], b[i]);
      }
    }
    if SameResidues(a, b) {
      forall i | 0 <= i < |a|
        ensures ta[i] == tb[i]
      {
        CharOfSpec(a[i], b[i]);
      }
      assert ta == tb;
    }
  }

  /** The bias of the byte-to-character map: 256 is not a multiple of 62, so the
      first 8 characters of the alphabet are hit by 5 byte values and the other
      54 by 4. */
  lemma ByteBias(k: nat)
    requires k < 62
    ensures |set x: int | 0 <= x < 256 && x % 62 == k| == if k < 8 then 5 else 4
  {
    var hits := set x: int | 0 <= x < 256 && x % 62 == k;
    var four := {k, k + 62, k + 124, k + 186};
    forall x | 0 <= x < 256 && x % 62 == k
      ensures x in four || x == k + 248
    {
      var q := x / 62;
      assert x == 62 * q + k;
      assert 0 <= q < 5;
    }
    if k < 8 {
      assert hits == four + {k + 248};
    } else {
      assert hits == four;
    }
  }

  /** The generator of the access-token pre-save hook: one alphabet character per
      random byte, pushed onto a result that is joined at the end. */
  method GenerateToken(buf: seq<byte>) returns (token: string)
    requires |buf| == TokenLength
    ensures |token| == TokenLength
    ensures forall i :: 0 <= i < TokenLength ==> token[i] == Chars[buf[i] as int % 62]
    ensures forall i :: 0 <= i < TokenLength ==> IsAlphanumeric(token[i])
    ensures token == TokenOf(buf)
  {
    var result: seq<char> := [];
    for i := 0 to TokenLength
      invariant |result| == i
      invariant forall j :: 0 <= j < i ==> result[j] == CharOf(buf[j])
    {
      var index := buf[i] as int % CharLen;
      result := result + [Chars[index]];
    }
    token := result;
    TokenOfSpec(buf);
  }
}

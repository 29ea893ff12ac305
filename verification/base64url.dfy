/**
 * `base64.URLEncoding` from Go's `encoding/base64`: the URL- and
 * filename-safe alphabet of section 5 of RFC 4648, with '=' padding.
 */
module Base64Url {

  type Byte = x: int | 0 <= x < 256

  /** The 64-symbol alphabet: A-Z, a-z, 0-9, '-', '_'. */
  function Symbol(i: int): (c: char)
    requires 0 <= i < 64
  {
    if i < 26 then ('A' as int + i) as char
    else if i < 52 then ('a' as int + i - 26) as char
    else if i < 62 then ('0' as int + i - 52) as char
    else if i == 62 then '-'
    else '_'
  }

  predicate IsSymbol(c: char)
  {
    'A' <= c <= 'Z' || 'a' <= c <= 'z' || '0' <= c <= '9' || c == '-' || c == '_'
  }

  /** The 6-bit value of an alphabet symbol. */
  function SymbolValue(c: char): (v: int)
    requires IsSymbol(c)
    ensures 0 <= v < 64 && Symbol(v) == c
  {
    if 'A' <= c <= 'Z' then c as int - 'A' as int
    else if 'a' <= c <= 'z' then c as int - 'a' as int + 26
    else if '0' <= c <= '9' then c as int - '0' as int + 52
    else if c == '-' then 62
    else 63
  }

  lemma SymbolInverse(i: int)
    requires 0 <= i < 64
    ensures IsSymbol(Symbol(i)) && SymbolValue(Symbol(i)) == i
  {
  }

  /** Padded encoding: every 3 bytes become 4 symbols; a final 1 or 2 bytes become 2 or 3 symbols and '=' up to 4. */
  function Encode(b: seq<Byte>): (s: string)
    ensures |s| == 4 * ((|b| + 2) / 3)
  {
    if |b| == 0 then ""
    else if |b| == 1 then
      [Symbol(b[0] / 4), Symbol(b[0] % 4 * 16), '=', '=']
    else if |b| == 2 then
      [Symbol(b[0] / 4), Symbol(b[0] % 4 * 16 + b[1] / 16), Symbol(b[1] % 16 * 4), '=']
    else
      [Symbol(b[0] / 4), Symbol(b[0] % 4 * 16 + b[1] / 16),
       Symbol(b[1] % 16 * 4 + b[2] / 64), Symbol(b[2] % 64)]
      + Encode(b[3..])
  }

  /** Number of leading symbols before any padding: ceil(4n/3). */
  function UnpaddedLength(n: nat): nat { (4 * n + 2) / 3 }

  /** The encoding is alphabet symbols up to ceil(4n/3), then only '='. */
  lemma {:induction false} EncodeShape(b: seq<Byte>)
    ensures UnpaddedLength(|b|) <= |Encode(b)|
    ensures forall i :: 0 <= i < UnpaddedLength(|b|) ==> IsSymbol(Encode(b)[i])
    ensures forall i :: UnpaddedLength(|b|) <= i < |Encode(b)| ==> Encode(b)[i] == '='
  {
    if |b| >= 3 {
      EncodeShape(b[3..]);
      var head := Encode(b)[..4];
      assert Encode(b) == head + Encode(b[3..]);
      forall i | 0 <= i < 4 ensures IsSymbol(head[i]) {
        SymbolInverse(b[0] / 4);
        SymbolInverse(b[0] % 4 * 16 + b[1] / 16);
        SymbolInverse(b[1] % 16 * 4 + b[2] / 64);
        SymbolInverse(b[2] % 64);
      }
    } else if |b| == 2 {
      SymbolInverse(b[0] / 4);
      SymbolInverse(b[0] % 4 * 16 + b[1] / 16);
      SymbolInverse(b[1] % 16 * 4);
    } else if |b| == 1 {
      SymbolInverse(b[0] / 4);
      SymbolInverse(b[0] % 4 * 16);
    }
  }

  /** Decoding of a padded encoding; the inverse of `Encode`. */
  function Decode(s: string): seq<Byte>
  {
    if |s| < 4 || !IsSymbol(s[0]) || !IsSymbol(s[1]) then []
    else
      var c0, c1 := SymbolValue(s[0]), SymbolValue(s[1]);
      var b0 := c0 * 4 + c1 / 16;
      if s[2] == '=' then [b0]
      else if !IsSymbol(s[2]) then []
      else
        var c2 := SymbolValue(s[2]);
        var b1 := c1 % 16 * 16 + c2 / 4;
        if s[3] == '=' then [b0, b1]
        else if !IsSymbol(s[3]) then []
        else
          var c3 := SymbolValue(s[3]);
          [b0, b1, c2 % 4 * 64 + c3] + Decode(s[4..])
  }

  lemma GroupRoundTrip(x: Byte, y: Byte, z: Byte)
    ensures (x / 4) * 4 + (x % 4 * 16 + y / 16) / 16 == x
    ensures (x % 4 * 16 + y / 16) % 16 * 16 + (y % 16 * 4 + z / 64) / 4 == y
    ensures (y % 16 * 4 + z / 64) % 4 * 64 + z % 64 == z
  {
  }

  /** One full group of four symbols decodes to its three bytes. */
  lemma DecodeFullGroup(x: Byte, y: Byte, z: Byte, rest: string)
    ensures Decode([Symbol(x / 4), Symbol(x % 4 * 16 + y / 16),
                    Symbol(y % 16 * 4 + z / 64), Symbol(z % 64)] + rest)
            == [x, y, z] + Decode(rest)
  {
    GroupRoundTrip(x, y, z);
    SymbolInverse(x / 4);
    SymbolInverse(x % 4 * 16 + y / 16);
    SymbolInverse(y % 16 * 4 + z / 64);
    SymbolInverse(z % 64);
    var s := [Symbol(x / 4), Symbol(x % 4 * 16 + y / 16),
              Symbol(y % 16 * 4 + z / 64), Symbol(z % 64)] + rest;
    assert s[4..] == rest;
  }

  /** A final single byte, padded with "==", decodes to that byte. */
  lemma DecodeOnePadded(x: Byte)
    ensures Decode(Encode([x])) == [x]
  {
    assert (x / 4) * 4 + (x % 4 * 16) / 16 == x;
    SymbolInverse(x / 4);
    SymbolInverse(x % 4 * 16);
  }

  /** A final pair of bytes, padded with "=", decodes to that pair. */
  lemma DecodeTwoPadded(x: Byte, y: Byte)
    ensures Decode(Encode([x, y])) == [x, y]
  {
    assert (x / 4) * 4 + (x % 4 * 16 + y / 16) / 16 == x;
    assert (x % 4 * 16 + y / 16) % 16 * 16 + (y % 16 * 4) / 4 == y;
    SymbolInverse(x / 4);
    SymbolInverse(x % 4 * 16 + y / 16);
    SymbolInverse(y % 16 * 4);
  }

  /** Decoding undoes encoding. */
  lemma {:induction false} DecodeEncode(b: seq<Byte>)
    ensures Decode(Encode(b)) == b
  {
    if |b| >= 3 {
      DecodeEncode(b[3..]);
      DecodeFullGroup(b[0], b[1], b[2], Encode(b[3..]));
      assert b == [b[0], b[1], b[2]] + b[3..];
    } else if |b| == 2 {
      DecodeTwoPadded(b[0], b[1]);
      assert b == [b[0], b[1]];
    } else if |b| == 1 {
      DecodeOnePadded(b[0]);
      assert b == [b[0]];
    }
  }
}

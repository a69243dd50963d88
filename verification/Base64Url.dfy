/** Unpadded base64url, section 5 of RFC 4648, as Go's RawURLEncoding does it:
    the decoder skips CR and LF and ignores the unused bits of the last character. */
module Base64Url {
  import opened Wrappers
  import opened Decimal

  type sextet = x: int | 0 <= x < 64

  const LF: byte := 10
  const CR: byte := 13
  const DOT: byte := 46

  function Letter(v: sextet): byte {
    if v < 26 then 65 + v else if v < 52 then 97 + (v - 26) else if v < 62 then 48 + (v - 52)
    else if v == 62 then 45 else 95
  }

  function Sextet(b: byte): Option<sextet> {
    if 65 <= b <= 90 then Some(b - 65)
    else if 97 <= b <= 122 then Some(b - 97 + 26)
    else if 48 <= b <= 57 then Some(b - 48 + 52)
    else if b == 45 then Some(62)
    else if b == 95 then Some(63)
    else None
  }

  lemma LetterSextet(v: sextet)
    ensures Sextet(Letter(v)) == Some(v)
    ensures Letter(v) != LF && Letter(v) != CR && Letter(v) != DOT
  {
  }

  function Encode(s: Bytes): Bytes {
    if s == [] then []
    else if |s| == 1 then [Letter(s[0] / 4), Letter(s[0] % 4 * 16)]
    else if |s| == 2 then [Letter(s[0] / 4), Letter(s[0] % 4 * 16 + s[1] / 16), Letter(s[1] % 16 * 4)]
    else [Letter(s[0] / 4), Letter(s[0] % 4 * 16 + s[1] / 16), Letter(s[1] % 16 * 4 + s[2] / 64), Letter(s[2] % 64)]
         + Encode(s[3..])
  }

  function DropNewlines(s: Bytes): Bytes {
    if s == [] then [] else (if s[0] == CR || s[0] == LF then [] else [s[0]]) + DropNewlines(s[1..])
  }

  function DecodeLetters(s: Bytes): Option<Bytes> {
    if s == [] then Some([])
    else if |s| == 1 then None
    else
      var a, b := Sextet(s[0]), Sextet(s[1]);
      if a.None? || b.None? then None
      else if |s| == 2 then Some([a.value * 4 + b.value / 16])
      else
        var c := Sextet(s[2]);
        if c.None? then None
        else if |s| == 3 then Some([a.value * 4 + b.value / 16, b.value % 16 * 16 + c.value / 4])
        else
          var d := Sextet(s[3]);
          var rest := DecodeLetters(s[4..]);
          if d.None? || rest.None? then None
          else Some([a.value * 4 + b.value / 16, b.value % 16 * 16 + c.value / 4, c.value % 4 * 64 + d.value] + rest.value)
  }

  function Decode(s: Bytes): Option<Bytes> {
    DecodeLetters(DropNewlines(s))
  }

  lemma {:induction false} EncodeClean(s: Bytes)
    ensures DOT !in Encode(s) && LF !in Encode(s) && CR !in Encode(s)
  {
    if |s| == 1 {
      LetterSextet(s[0] / 4); LetterSextet(s[0] % 4 * 16);
    } else if |s| == 2 {
      LetterSextet(s[0] / 4); LetterSextet(s[0] % 4 * 16 + s[1] / 16); LetterSextet(s[1] % 16 * 4);
    } else if |s| >= 3 {
      LetterSextet(s[0] / 4); LetterSextet(s[0] % 4 * 16 + s[1] / 16);
      LetterSextet(s[1] % 16 * 4 + s[2] / 64); LetterSextet(s[2] % 64);
      EncodeClean(s[3..]);
    }
  }

  lemma {:induction false} NothingToDrop(s: Bytes)
    requires CR !in s && LF !in s
    ensures DropNewlines(s) == s
  {
    if s != [] { NothingToDrop(s[1..]); }
  }

  /** Three bytes cut into four sextets and put together again. */
  lemma Quantum(a: byte, b: byte, c: byte)
    ensures a / 4 * 4 + (a % 4 * 16 + b / 16) / 16 == a && a / 4 * 4 + a % 4 * 16 / 16 == a
    ensures (a % 4 * 16 + b / 16) % 16 * 16 + (b % 16 * 4 + c / 64) / 4 == b
    ensures (a % 4 * 16 + b / 16) % 16 * 16 + b % 16 * 4 / 4 == b
    ensures (b % 16 * 4 + c / 64) % 4 * 64 + c % 64 == c
  {
    assert (a % 4 * 16 + b / 16) / 16 == a % 4 && (a % 4 * 16 + b / 16) % 16 == b / 16;
    assert (b % 16 * 4 + c / 64) / 4 == b % 16 && (b % 16 * 4 + c / 64) % 4 == c / 64;
  }

  lemma OneByte(a: byte)
    ensures DecodeLetters([Letter(a / 4), Letter(a % 4 * 16)]) == Some([a])
  {
    LetterSextet(a / 4); LetterSextet(a % 4 * 16);
    Quantum(a, 0, 0);
  }

  lemma TwoBytes(a: byte, b: byte)
    ensures DecodeLetters([Letter(a / 4), Letter(a % 4 * 16 + b / 16), Letter(b % 16 * 4)]) == Some([a, b])
  {
    LetterSextet(a / 4); LetterSextet(a % 4 * 16 + b / 16); LetterSextet(b % 16 * 4);
    Quantum(a, b, 0);
  }

  lemma ThreeBytes(a: byte, b: byte, c: byte, rest: Bytes)
    requires DecodeLetters(rest).Some?
    ensures DecodeLetters([Letter(a / 4), Letter(a % 4 * 16 + b / 16), Letter(b % 16 * 4 + c / 64), Letter(c % 64)] + rest)
            == Some([a, b, c] + DecodeLetters(rest).value)
  {
    var w, x, y, z := a / 4, a % 4 * 16 + b / 16, b % 16 * 4 + c / 64, c % 64;
    LetterSextet(w); LetterSextet(x); LetterSextet(y); LetterSextet(z);
    assert ([Letter(w), Letter(x), Letter(y), Letter(z)] + rest)[4..] == rest;
    Quantum(a, b, c);
  }

  lemma {:induction false} LettersRoundTrip(s: Bytes)
    ensures DecodeLetters(Encode(s)) == Some(s)
  {
    if |s| == 1 {
      OneByte(s[0]);
      assert s == [s[0]];
    } else if |s| == 2 {
      TwoBytes(s[0], s[1]);
      assert s == [s[0], s[1]];
    } else if |s| >= 3 {
      LettersRoundTrip(s[3..]);
      ThreeBytes(s[0], s[1], s[2], Encode(s[3..]));
      assert s == [s[0], s[1], s[2]] + s[3..];
    }
  }

  /** Examples of section 10 of RFC 4648 without their padding, and one for the
      two characters of the URL-safe alphabet. */
  lemma Examples()
    ensures Encode([102]) == [90, 103] && Encode([102, 111]) == [90, 109, 56]
    ensures Encode([102, 111, 111]) == [90, 109, 57, 118]
    ensures Encode([102, 111, 111, 98, 97, 114]) == [90, 109, 57, 118, 89, 109, 70, 121]
    ensures Encode([255, 239]) == [95, 45, 56]
  {
    assert [102, 111, 111, 98, 97, 114][3..] == [98, 97, 114];
    assert Encode([98, 97, 114]) == [89, 109, 70, 121];
  }

  /** Decoding inverts encoding on every byte string. */
  lemma DecodeEncode(s: Bytes)
    ensures Decode(Encode(s)) == Some(s)
  {
    EncodeClean(s);
    NothingToDrop(Encode(s));
    LettersRoundTrip(s);
  }
}

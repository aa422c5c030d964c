/** Base 64 as in section 4 of RFC 4648, on byte strings (characters below 256). */
module Base64 {
  import opened Common

  ghost predicate IsBytes(s: string) { forall i :: 0 <= i < |s| ==> s[i] as int < 256 }

  function Letter(n: int): (c: char)
    requires 0 <= n < 64
    ensures c != '='
  {
    if n < 26 then (n + 65) as char
    else if n < 52 then (n + 71) as char
    else if n < 62 then (n - 4) as char
    else if n == 62 then '+' else '/'
  }

  function Value(c: char): (r: Option<int>)
    ensures r.Some? ==> 0 <= r.value < 64
  {
    var n := c as int;
    if 65 <= n < 91 then Some(n - 65)
    else if 97 <= n < 123 then Some(n - 71)
    else if 48 <= n < 58 then Some(n + 4)
    else if c == '+' then Some(62)
    else if c == '/' then Some(63)
    else None
  }

  lemma LetterValue(n: int)
    requires 0 <= n < 64
    ensures Value(Letter(n)) == Some(n)
  {
  }

  function EncodeOne(x: int): (r: string)
    requires 0 <= x < 256
    ensures |r| == 4
  {
    [Letter(x / 4), Letter(x % 4 * 16), '=', '=']
  }

  function EncodeTwo(x: int, y: int): (r: string)
    requires 0 <= x < 256 && 0 <= y < 256
    ensures |r| == 4
  {
    [Letter(x / 4), Letter(x % 4 * 16 + y / 16), Letter(y % 16 * 4), '=']
  }

  function EncodeThree(x: int, y: int, z: int): (r: string)
    requires 0 <= x < 256 && 0 <= y < 256 && 0 <= z < 256
    ensures |r| == 4
  {
    [Letter(x / 4), Letter(x % 4 * 16 + y / 16), Letter(y % 16 * 4 + z / 64), Letter(z % 64)]
  }

  function Encode(b: string): (r: string)
    requires IsBytes(b)
  {
    if b == [] then ""
    else if |b| == 1 then EncodeOne(b[0] as int)
    else if |b| == 2 then EncodeTwo(b[0] as int, b[1] as int)
    else EncodeThree(b[0] as int, b[1] as int, b[2] as int) + Encode(b[3..])
  }

  /** The bytes of one group of four letters, padding included. */
  function DecodeGroup(s: string): (r: Option<string>)
    requires |s| == 4
  {
    if Value(s[0]).None? || Value(s[1]).None? then None
    else
      var x := (Value(s[0]).value * 4 + Value(s[1]).value / 16) as char;
      if s[2] == '=' then if s[3] == '=' then Some([x]) else None
      else if Value(s[2]).None? then None
      else
        var y := (Value(s[1]).value % 16 * 16 + Value(s[2]).value / 4) as char;
        if s[3] == '=' then Some([x, y])
        else if Value(s[3]).None? then None
        else Some([x, y, (Value(s[2]).value % 4 * 64 + Value(s[3]).value) as char])
  }

  /** Padding is accepted only in the last group. */
  function Decode(s: string): (r: Option<string>)
  {
    if s == [] then Some("")
    else if |s| < 4 || DecodeGroup(s[..4]).None? || (|DecodeGroup(s[..4]).value| < 3 && |s| > 4) then None
    else
      match Decode(s[4..])
      case None => None
      case Some(rest) => Some(DecodeGroup(s[..4]).value + rest)
  }

  /** Reassembling a byte from the six-bit groups its bits were spread over. */
  lemma Regroup(x: int, y: int, z: int)
    requires 0 <= x < 256 && 0 <= y < 256 && 0 <= z < 256
    ensures x / 4 * 4 + (x % 4 * 16 + y / 16) / 16 == x
    ensures (x % 4 * 16 + y / 16) % 16 * 16 + (y % 16 * 4 + z / 64) / 4 == y
    ensures (y % 16 * 4 + z / 64) % 4 * 64 + z % 64 == z
  {
  }

  lemma GroupOne(x: int)
    requires 0 <= x < 256
    ensures DecodeGroup(EncodeOne(x)) == Some([x as char])
  {
    LetterValue(x / 4);
    LetterValue(x % 4 * 16);
    Regroup(x, 0, 0);
  }

  lemma GroupTwo(x: int, y: int)
    requires 0 <= x < 256 && 0 <= y < 256
    ensures DecodeGroup(EncodeTwo(x, y)) == Some([x as char, y as char])
  {
    LetterValue(x / 4);
    LetterValue(x % 4 * 16 + y / 16);
    LetterValue(y % 16 * 4);
    Regroup(x, y, 0);
  }

  lemma GroupThree(x: int, y: int, z: int)
    requires 0 <= x < 256 && 0 <= y < 256 && 0 <= z < 256
    ensures DecodeGroup(EncodeThree(x, y, z)) == Some([x as char, y as char, z as char])
  {
    LetterValue(x / 4);
    LetterValue(x % 4 * 16 + y / 16);
    LetterValue(y % 16 * 4 + z / 64);
    LetterValue(z % 64);
    Regroup(x, y, z);
  }

  /** A string that starts with one whole group. */
  lemma DecodeStep(group: string, rest: string, bytes: string)
    requires |group| == 4 && DecodeGroup(group) == Some(bytes) && (|bytes| == 3 || rest == [])
    ensures Decode(group + rest) == match Decode(rest) case None => None case Some(more) => Some(bytes + more)
  {
    assert (group + rest)[..4] == group && (group + rest)[4..] == rest;
  }

  /** The first group of an encoding stands for the first bytes. */
  lemma FirstGroup(b: string) returns (group: string, bytes: string, rest: string)
    requires IsBytes(b) && b != []
    ensures |group| == 4 && DecodeGroup(group) == Some(bytes) && b == bytes + rest && IsBytes(rest) && |rest| < |b|
    ensures (|bytes| == 3 || rest == []) && Encode(b) == group + Encode(rest)
  {
    var x := b[0] as int;
    if |b| == 1 {
      GroupOne(x);
      assert b == [b[0]];
      return EncodeOne(x), b, "";
    } else if |b| == 2 {
      GroupTwo(x, b[1] as int);
      assert b == [b[0], b[1]];
      return EncodeTwo(x, b[1] as int), b, "";
    } else {
      GroupThree(x, b[1] as int, b[2] as int);
      assert b[..3] == [b[0], b[1], b[2]];
      return EncodeThree(x, b[1] as int, b[2] as int), b[..3], b[3..];
    }
  }

  /** Decoding an encoding gives back the bytes. */
  lemma {:induction false} RoundTrip(b: string)
    requires IsBytes(b)
    ensures Decode(Encode(b)) == Some(b)
    decreases |b|
  {
    if b != [] {
      var group, bytes, rest := FirstGroup(b);
      RoundTrip(rest);
      DecodeStep(group, Encode(rest), bytes);
    }
  }

  /** The encoding of a non-empty byte string is longer than the string, so never the string itself. */
  lemma {:induction false} EncodeGrows(b: string)
    requires IsBytes(b)
    ensures b == [] ==> Encode(b) == b
    ensures b != [] ==> |Encode(b)| > |b|
  {
    if |b| > 2 {
      EncodeGrows(b[3..]);
    }
  }

  /** Vectors of section 10 of RFC 4648. */
  lemma Vectors()
    ensures Encode("f") == "Zg==" && Encode("fo") == "Zm8=" && Encode("foo") == "Zm9v" && Encode("foobar") == "Zm9vYmFy"
  {
    assert "foobar"[3..] == "bar" && "bar"[3..] == "" && "foo"[3..] == "";
    assert Encode("bar") == "YmFy";
  }

  /** The alphabet of section 4: capitals, small letters, figures, plus and slash. */
  lemma Alphabet(n: nat)
    requires n < 64
    ensures Letter(n) == if n < 26 then 'A' + n as char else if n < 52 then 'a' + (n - 26) as char
                         else if n < 62 then '0' + (n - 52) as char else if n == 62 then '+' else '/'
  {
  }
}

/** Hexadecimal colour strings: the `hex_to_rgb` conversion that the image
    and video processors share, and the `#%02x%02x%02x` formatting used when
    CSS `rgb()` colours are normalised. */
module Colors {
  import opened Base
  import opened Text

  /** The value of one hexadecimal digit, either case. */
  function HexValue(c: char): (v: nat)
    requires IsHexDigit(c)
    ensures v < 16
  {
    if IsDigit(c) then c as int - '0' as int
    else if 'a' <= c <= 'f' then c as int - 'a' as int + 10
    else c as int - 'A' as int + 10
  }

  /** The lower-case digit `%x` prints for a value below 16. */
  function HexDigit(n: nat): (c: char)
    requires n < 16
    ensures IsHexDigit(c) && HexValue(c) == n
    ensures !('A' <= c <= 'Z')
  {
    if n < 10 then ('0' as int + n) as char else ('a' as int + n - 10) as char
  }

  /** The value of a non-empty string of hexadecimal digits. */
  function HexNumber(s: string): (v: nat)
    requires forall i :: 0 <= i < |s| ==> IsHexDigit(s[i])
    decreases |s|
  {
    if s == [] then 0 else HexNumber(s[..|s| - 1]) * 16 + HexValue(s[|s| - 1])
  }

  /** `%x`: the shortest lower-case hexadecimal numeral of `n`. */
  function HexNumeral(n: nat): (r: string)
    ensures r != [] && forall i :: 0 <= i < |r| ==> IsHexDigit(r[i]) && !('A' <= r[i] <= 'Z')
    ensures n < 16 <==> |r| == 1
    decreases n
  {
    if n < 16 then [HexDigit(n)] else HexNumeral(n / 16) + [HexDigit(n % 16)]
  }

  lemma {:induction false} HexNumeralValue(n: nat)
    ensures HexNumber(HexNumeral(n)) == n
    decreases n
  {
    var r := HexNumeral(n);
    if n < 16 {
      assert r[..0] == [];
    } else {
      HexNumeralValue(n / 16);
      assert r[..|r| - 1] == HexNumeral(n / 16);
    }
  }

  lemma {:induction false} HexNumberLeadingZero(s: string)
    requires forall i :: 0 <= i < |s| ==> IsHexDigit(s[i])
    ensures forall i :: 0 <= i < |"0" + s| ==> IsHexDigit(("0" + s)[i])
    ensures HexNumber("0" + s) == HexNumber(s)
    decreases |s|
  {
    var t := "0" + s;
    assert forall i :: 0 <= i < |t| ==> IsHexDigit(t[i]) by {
      forall i | 0 <= i < |t| ensures IsHexDigit(t[i]) {
        if i > 0 { assert t[i] == s[i - 1]; }
      }
    }
    if s == [] {
      assert t[..0] == [];
    } else {
      assert t[..|t| - 1] == "0" + s[..|s| - 1];
      HexNumberLeadingZero(s[..|s| - 1]);
    }
  }

  /** `'%02x' % n`: the hexadecimal numeral, zero-padded to two digits. */
  function Hex2(n: nat): (r: string)
    ensures |r| >= 2 && forall i :: 0 <= i < |r| ==> IsHexDigit(r[i]) && !('A' <= r[i] <= 'Z')
    ensures HexNumber(r) == n
    ensures n < 256 <==> |r| == 2
  {
    HexNumeralValue(n);
    var h := HexNumeral(n);
    if |h| == 1 then
      HexNumberLeadingZero(h);
      "0" + h
    else
      assert n >= 256 <== |h| > 2 by {
        if |h| > 2 {
          assert HexNumeral(n / 16) == h[..|h| - 1];
        }
      }
      h
  }

  /** `"#%02x%02x%02x" % (r, g, b)`. */
  function RgbHex(r: nat, g: nat, b: nat): (s: string)
    ensures |s| >= 7 && s[0] == '#'
    ensures r < 256 && g < 256 && b < 256 ==> |s| == 7
  {
    "#" + Hex2(r) + Hex2(g) + Hex2(b)
  }

  /** `int(s, 16)` for the at most two characters a colour slice holds:
      one or two hexadecimal digits, a sign before one digit, or one digit
      with surrounding whitespace; anything else raises `ValueError`. */
  function ParseHexSlice(s: string): (r: Result<int, string>)
    requires |s| <= 2
    ensures (|s| > 0 && forall i :: 0 <= i < |s| ==> IsHexDigit(s[i])) ==> r == Ok(HexNumber(s))
    ensures s == [] ==> r.Err?
    ensures r.Ok? ==> -15 <= r.value <= 255
  {
    if |s| == 1 && IsHexDigit(s[0]) then
      assert s[..0] == [];
      Ok(HexValue(s[0]))
    else if |s| == 2 && IsHexDigit(s[0]) && IsHexDigit(s[1]) then
      var p := s[..1];
      assert p[..0] == [] && p[0] == s[0];
      assert HexNumber(p) == HexValue(s[0]);
      assert s[..|s| - 1] == p;
      Ok(HexValue(s[0]) * 16 + HexValue(s[1]))
    else if |s| == 2 && s[0] == '+' && IsHexDigit(s[1]) then Ok(HexValue(s[1]))
    else if |s| == 2 && s[0] == '-' && IsHexDigit(s[1]) then Ok(-(HexValue(s[1]) as int))
    else if |s| == 2 && IsSpace(s[0]) && IsHexDigit(s[1]) then Ok(HexValue(s[1]))
    else if |s| == 2 && IsHexDigit(s[0]) && IsSpace(s[1]) then Ok(HexValue(s[0]))
    else Err("invalid literal for int() with base 16")
  }

  /** Python's `s[i:j]` for `0 <= i <= j`: the bounds are clamped to the length. */
  function Slice<T>(s: seq<T>, i: nat, j: nat): (r: seq<T>)
    requires i <= j
    ensures |r| <= j - i
    ensures j <= |s| ==> r == s[i..j]
  {
    s[Min(i, |s|)..Min(j, |s|)]
  }

  /** `hex_to_rgb`: strip every leading '#', then read the two-character
      slices at 0, 2 and 4 as base-16 integers. */
  function HexToRgb(color: string): (r: Result<(int, int, int), string>)
    ensures var h := TrimLeft(color, {'#'});
            |h| == 6 && (forall i :: 0 <= i < 6 ==> IsHexDigit(h[i])) ==>
              r.Ok? && 0 <= r.value.0 <= 255 && 0 <= r.value.1 <= 255 && 0 <= r.value.2 <= 255
    ensures |TrimLeft(color, {'#'})| < 5 ==> r.Err?
  {
    var h := TrimLeft(color, {'#'});
    var a, b, c := ParseHexSlice(Slice(h, 0, 2)), ParseHexSlice(Slice(h, 2, 4)), ParseHexSlice(Slice(h, 4, 6));
    if a.Err? then Err(a.error)
    else if b.Err? then Err(b.error)
    else if c.Err? then Err(c.error)
    else Ok((a.value, b.value, c.value))
  }

  /** A two-digit slice reads back as the channel it was formatted from. */
  lemma ParseHex2(n: nat)
    requires n < 256
    ensures ParseHexSlice(Hex2(n)) == Ok(n)
  {
  }

  lemma TrimHash(h: string)
    requires h != [] && h[0] != '#'
    ensures TrimLeft("#" + h, {'#'}) == h
  {
    assert ("#" + h)[1..] == h;
  }

  /** Formatting three channels and converting back gives the channels again. */
  lemma HexRoundTrip(r: nat, g: nat, b: nat)
    requires r < 256 && g < 256 && b < 256
    ensures HexToRgb(RgbHex(r, g, b)) == Ok((r, g, b))
  {
    var x, y, z := Hex2(r), Hex2(g), Hex2(b);
    var h := x + y + z;
    assert RgbHex(r, g, b) == "#" + h;
    TrimHash(h);
    assert Slice(h, 0, 2) == x;
    assert Slice(h, 2, 4) == y;
    assert Slice(h, 4, 6) == z;
    ParseHex2(r);
    ParseHex2(g);
    ParseHex2(b);
  }
}

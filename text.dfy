/**
 * Text primitives that the tracker applies to strings: JavaScript's
 * `String.prototype.includes`, the first field of `split(':')`, and
 * `parseInt` in base 10. `Option.None` stands for a parse that yields NaN.
 */
module Text {

  datatype Option<+T> = None | Some(value: T)

  /** `p` occurs in `s` starting at index `i`, compared character by character. */
  predicate MatchesAt(s: string, p: string, i: int)
  {
    0 <= i && i + |p| <= |s| && forall k :: 0 <= k < |p| ==> s[i + k] == p[k]
  }

  /** `s.includes(p)`: some window of `s` equals `p` (case-sensitive). */
  predicate Contains(s: string, p: string)
  {
    exists i | 0 <= i <= |s| - |p| :: MatchesAt(s, p, i)
  }

  lemma ContainsAt(s: string, p: string, i: int)
    requires MatchesAt(s, p, i)
    ensures Contains(s, p)
  {
  }

  lemma MatchesAtAsSlice(s: string, p: string, i: int)
    requires 0 <= i && i + |p| <= |s|
    ensures MatchesAt(s, p, i) <==> s[i..i + |p|] == p
  {
    if s[i..i + |p|] == p {
      forall k | 0 <= k < |p| ensures s[i + k] == p[k] {
        assert s[i..i + |p|][k] == s[i + k];
      }
    }
  }

  /** The slice of `s` starting at `i` and as long as `p` is `p`. */
  predicate SliceIs(s: string, p: string, i: int)
  {
    0 <= i <= |s| - |p| && s[i..i + |p|] == p
  }

  /** `includes` read on slices: `p` is contained in `s` exactly when some slice of `s` as long as `p` equals `p`. */
  lemma ContainsAsSlice(s: string, p: string)
    ensures Contains(s, p) <==> exists i :: SliceIs(s, p, i)
  {
    forall i | 0 <= i <= |s| - |p| ensures MatchesAt(s, p, i) <==> SliceIs(s, p, i) {
      MatchesAtAsSlice(s, p, i);
    }
  }

  /** A pattern with a character that never occurs in `s` is not contained in it. */
  lemma NotContainsWithoutChar(s: string, p: string, j: int)
    requires 0 <= j < |p| && forall i :: 0 <= i < |s| ==> s[i] != p[j]
    ensures !Contains(s, p)
  {
    forall i | 0 <= i <= |s| - |p| ensures !MatchesAt(s, p, i) {
      assert s[i + j] != p[j];
    }
  }

  /** `s.split(sep)[0]`: everything before the first `sep`, or all of `s`. */
  function FirstField(s: string, sep: char): (r: string)
    ensures |r| <= |s| && r == s[..|r|]
    ensures sep !in r
    ensures |r| < |s| ==> s[|r|] == sep
  {
    if s == [] || s[0] == sep then [] else [s[0]] + FirstField(s[1..], sep)
  }

  predicate IsDigit(c: char) { '0' <= c <= '9' }

  function DigitValue(c: char): int requires IsDigit(c) { c as int - '0' as int }

  function DigitChar(d: int): char requires 0 <= d <= 9 { ('0' as int + d) as char }

  /** The ASCII whitespace that `parseInt` skips at the front. */
  predicate IsSpace(c: char)
  {
    c == ' ' || c == '\t' || c == '\n' || c == '\r' || c == '\U{000B}' || c == '\U{000C}'
  }

  function TrimStart(s: string): (r: string)
    ensures |r| <= |s| && r == s[|s| - |r|..]
    ensures forall k :: 0 <= k < |s| - |r| ==> IsSpace(s[k])
    ensures r != [] ==> !IsSpace(r[0])
  {
    if s != [] && IsSpace(s[0]) then TrimStart(s[1..]) else s
  }

  /** The longest prefix of `s` made of decimal digits. */
  function LeadingDigits(s: string): (r: string)
    ensures |r| <= |s| && r == s[..|r|]
    ensures forall k :: 0 <= k < |r| ==> IsDigit(r[k])
    ensures |r| < |s| ==> !IsDigit(s[|r|])
  {
    if s != [] && IsDigit(s[0]) then [s[0]] + LeadingDigits(s[1..]) else []
  }

  /** The base-10 value of a string of digits, most significant first. */
  function DigitsValue(ds: string): (v: int)
    requires forall k :: 0 <= k < |ds| ==> IsDigit(ds[k])
    ensures v >= 0
  {
    if ds == [] then 0 else 10 * DigitsValue(ds[..|ds| - 1]) + DigitValue(ds[|ds| - 1])
  }

  /** `parseInt(s)` in base 10: optional sign and digits after leading whitespace; NaN is `None`. */
  function ParseInt(s: string): (r: Option<int>)
    ensures var t := TrimStart(s);
            var body := if t != [] && (t[0] == '-' || t[0] == '+') then t[1..] else t;
            r.Some? <==> body != [] && IsDigit(body[0])
  {
    ParseSigned(TrimStart(s))
  }

  /** The part of `parseInt` after the whitespace: an optional sign, then the leading digits. */
  function ParseSigned(t: string): Option<int>
  {
    if t != [] && t[0] == '-' then
      match ParseDigits(t[1..])
      case Some(v) => Some(-v)
      case None => None
    else if t != [] && t[0] == '+' then ParseDigits(t[1..])
    else ParseDigits(t)
  }

  /** The value of the leading digits of `body`, or NaN when there are none. */
  function ParseDigits(body: string): Option<int>
  {
    var digits := LeadingDigits(body);
    if digits == [] then None else Some(DigitsValue(digits))
  }

  /** The two-digit zero-padded rendering of `h`, as an `<input type="time">` writes hours. */
  function TwoDigits(h: int): (r: string)
    requires 0 <= h <= 99
    ensures |r| == 2 && IsDigit(r[0]) && IsDigit(r[1])
  {
    [DigitChar(h / 10), DigitChar(h % 10)]
  }

  lemma FirstFieldOfClockText(a: char, b: char, rest: string)
    requires a != ':' && b != ':'
    ensures FirstField([a, b] + ":" + rest, ':') == [a, b]
  {
    var s := [a, b] + ":" + rest;
    assert s[1..][1..] == [':'] + rest;
    assert FirstField(s[1..][1..], ':') == [];
  }

  lemma DigitsValueOfTwo(ds: string)
    requires |ds| == 2 && IsDigit(ds[0]) && IsDigit(ds[1])
    ensures DigitsValue(ds) == 10 * DigitValue(ds[0]) + DigitValue(ds[1])
  {
    var one := ds[..1];
    assert ds[..|ds| - 1] == one && one[..0] == [];
    assert DigitsValue(one) == 10 * DigitsValue([]) + DigitValue(ds[0]);
  }

  /** `TrimStart` stops at once on a text that starts with a non-space. */
  lemma TrimStartOfUnspaced(s: string)
    requires s != [] && !IsSpace(s[0])
    ensures TrimStart(s) == s
  {
  }

  /** A text made only of digits is its own leading run. */
  lemma {:induction false} LeadingDigitsOfDigits(s: string)
    requires forall k :: 0 <= k < |s| ==> IsDigit(s[k])
    ensures LeadingDigits(s) == s
  {
    if s != [] {
      LeadingDigitsOfDigits(s[1..]);
      assert [s[0]] + s[1..] == s;
    }
  }

  /** Whitespace trimming leaves a text of digits as it is. */
  lemma ParseIntOfUnspaced(s: string)
    requires s != [] && forall k :: 0 <= k < |s| ==> IsDigit(s[k])
    ensures ParseInt(s) == ParseSigned(s)
  {
    TrimStartOfUnspaced(s);
  }

  /** With no sign, the whole text of digits is the number. */
  lemma ParseSignedOfDigits(s: string)
    requires s != [] && forall k :: 0 <= k < |s| ==> IsDigit(s[k])
    ensures ParseSigned(s) == Some(DigitsValue(s))
  {
    assert IsDigit(s[0]);
    assert ParseSigned(s) == ParseDigits(s);
    LeadingDigitsOfDigits(s);
  }

  /** An unsigned run of digits with nothing after it parses to its base-10 value. */
  lemma ParseUnsigned(s: string)
    requires s != [] && forall k :: 0 <= k < |s| ==> IsDigit(s[k])
    ensures ParseInt(s) == Some(DigitsValue(s))
  {
    ParseIntOfUnspaced(s);
    ParseSignedOfDigits(s);
  }

  /** Two digits with no sign and no whitespace parse to their base-10 value. */
  lemma {:induction false} ParseTwoDigits(ds: string)
    requires |ds| == 2 && IsDigit(ds[0]) && IsDigit(ds[1])
    ensures ParseInt(ds) == Some(10 * DigitValue(ds[0]) + DigitValue(ds[1]))
  {
    assert forall k :: 0 <= k < |ds| ==> IsDigit(ds[k]);
    calc {
      ParseInt(ds);
      { ParseUnsigned(ds); }
      Some(DigitsValue(ds));
      { DigitsValueOfTwo(ds); }
      Some(10 * DigitValue(ds[0]) + DigitValue(ds[1]));
    }
  }

  /** Two digits whose base-10 value is `v` parse to `v`. */
  lemma ParseTwoDigitsAs(ds: string, v: int)
    requires |ds| == 2 && IsDigit(ds[0]) && IsDigit(ds[1])
    requires 10 * DigitValue(ds[0]) + DigitValue(ds[1]) == v
    ensures ParseInt(ds) == Some(v)
  {
    ParseTwoDigits(ds);
  }

  /** The digits of the zero-padded rendering carry the hour's tens and units. */
  lemma TwoDigitsValue(h: int)
    requires 0 <= h <= 99
    ensures 10 * DigitValue(TwoDigits(h)[0]) + DigitValue(TwoDigits(h)[1]) == h
  {
    assert DigitValue(TwoDigits(h)[0]) == h / 10;
    assert DigitValue(TwoDigits(h)[1]) == h % 10;
  }

  /** The hour field of an "HH:MM"-shaped text is its two digits. */
  lemma HourFieldOfClockText(h: int, rest: string)
    requires 0 <= h <= 99
    ensures FirstField(TwoDigits(h) + ":" + rest, ':') == TwoDigits(h)
  {
    var d := TwoDigits(h);
    assert d == [d[0], d[1]];
    FirstFieldOfClockText(d[0], d[1], rest);
  }

  /** The zero-padded rendering of an hour parses back to it. */
  lemma ParseTwoDigitsOfHour(h: int)
    requires 0 <= h <= 99
    ensures ParseInt(TwoDigits(h)) == Some(h)
  {
    TwoDigitsValue(h);
    ParseTwoDigitsAs(TwoDigits(h), h);
  }

  /** Parsing the field before ':' of an "HH:MM"-shaped text gives back the hour. */
  lemma ParseHourOfClockText(h: int, rest: string)
    requires 0 <= h <= 99
    ensures ParseInt(FirstField(TwoDigits(h) + ":" + rest, ':')) == Some(h)
  {
    HourFieldOfClockText(h, rest);
    ParseTwoDigitsOfHour(h);
  }

  /** An empty field (a cleared time input) parses to NaN. */
  lemma ParseEmptyIsNaN()
    ensures ParseInt(FirstField("", ':')) == None
  {
  }
}

/** Byte-range metadata: strict parsing of Content-Range as of sections 14.4 and 15.5.17 of RFC 9110. */
module HttpRange {
  import opened Basics

  datatype ContentRange = ContentRange(start: nat, end: nat, total: Option<nat>)

  predicate Valid(r: ContentRange) {
    r.start <= r.end && (r.total.Some? ==> r.end < r.total.value)
  }

  // ----- characters -------------------------------------------------------------------------

  /** What `str.strip` removes. */
  predicate Space(c: char) {
    || ('\U{9}' <= c <= '\U{D}') || ('\U{1C}' <= c <= ' ') || c == '\U{85}' || c == '\U{A0}' || c == '\U{1680}'
    || ('\U{2000}' <= c <= '\U{200A}') || c == '\U{2028}' || c == '\U{2029}' || c == '\U{202F}' || c == '\U{205F}'
    || c == '\U{3000}'
  }

  predicate Digit(c: char) { '0' <= c <= '9' }

  /** Case-insensitive match of a pattern letter; the long s also folds to `s`. */
  predicate Folds(c: char, letter: char)
    requires 'a' <= letter <= 'z'
  {
    c == letter || c as int == letter as int - 32 || (letter == 's' && c == '\U{17F}')
  }

  function StripLeft(s: string): (r: string) {
    if s != [] && Space(s[0]) then StripLeft(s[1..]) else s
  }

  function StripRight(s: string): (r: string) {
    if s != [] && Space(Last(s)) then StripRight(Init(s)) else s
  }

  function Strip(s: string): (r: string) { StripRight(StripLeft(s)) }

  predicate AllDigits(s: string) {
    s != [] && forall i | 0 <= i < |s| :: Digit(s[i])
  }

  /** `int(s)` of a digit string. */
  function ToNat(s: string): (n: nat)
    requires forall i | 0 <= i < |s| :: Digit(s[i])
  {
    if s == [] then 0
    else
      assert Digit(s[|s| - 1]);
      10 * ToNat(Init(s)) + (Last(s) as int - '0' as int)
  }

  function DigitChar(d: nat): (c: char)
    requires d < 10
    ensures Digit(c) && c as int - '0' as int == d
  {
    ('0' as int + d) as char
  }

  /** The decimal form, without leading zeros. */
  function ToDecimal(n: nat): (s: string)
    ensures AllDigits(s)
  {
    if n < 10 then [DigitChar(n)] else ToDecimal(n / 10) + [DigitChar(n % 10)]
  }

  lemma {:induction false} DecimalRoundTrip(n: nat)
    ensures ToNat(ToDecimal(n)) == n
  {
    if n >= 10 {
      DecimalRoundTrip(n / 10);
      assert Init(ToDecimal(n)) == ToDecimal(n / 10);
    } else {
      assert Init(ToDecimal(n)) == [];
    }
  }

  /** The first position of `c`, or the length. */
  function IndexOf(s: string, c: char): (i: nat)
    ensures i <= |s| && (i < |s| ==> s[i] == c) && forall j | 0 <= j < i :: s[j] != c
  {
    if s == [] || s[0] == c then 0 else 1 + IndexOf(s[1..], c)
  }

  lemma FirstIndex(s: string, c: char, i: nat)
    requires i < |s| && s[i] == c && forall j | 0 <= j < i :: s[j] != c
    ensures IndexOf(s, c) == i
  {
  }

  // ----- Content-Range ----------------------------------------------------------------------

  predicate StartsWithBytes(s: string) {
    |s| >= 6 && Folds(s[0], 'b') && Folds(s[1], 'y') && Folds(s[2], 't') && Folds(s[3], 'e') && Folds(s[4], 's') && s[5] == ' '
  }

  function ParseThree(first: string, last: string, total: string): (r: Option<ContentRange>)
    ensures r.Some? ==> Valid(r.value)
  {
    if !AllDigits(first) || !AllDigits(last) || !(total == "*" || AllDigits(total)) then None
    else
      var r := ContentRange(ToNat(first), ToNat(last), if total == "*" then None else Some(ToNat(total)));
      if Valid(r) then Some(r) else None
  }

  /** `start-end/total`, or nothing when the text is not of that form. */
  function ParseSpan(s: string): (r: Option<ContentRange>)
    ensures r.Some? ==> Valid(r.value)
  {
    var dash := IndexOf(s, '-');
    if dash == |s| then None
    else
      var rest := s[dash + 1..];
      var slash := IndexOf(rest, '/');
      if slash == |rest| then None
      else
        ParseThree(s[..dash], rest[..slash], rest[slash + 1..])
  }

  function ParseContentRange(value: string): (r: Option<ContentRange>)
    ensures r.Some? ==> Valid(r.value)
  {
    var s := Strip(value);
    if StartsWithBytes(s) then ParseSpan(s[6..]) else None
  }

  /** The size in `bytes *` `/` size, which a 416 response reports. */
  function UnsatisfiedRangeSize(value: string): (size: Option<nat>) {
    var s := Strip(value);
    if StartsWithBytes(s) && |s| > 8 && s[6..8] == "*/" && AllDigits(s[8..]) then Some(ToNat(s[8..])) else None
  }

  function FormatSpan(r: ContentRange): (s: string) {
    ToDecimal(r.start) + "-" + ToDecimal(r.end) + "/" + TotalText(r.total)
  }

  function Format(r: ContentRange): (s: string) { "bytes " + FormatSpan(r) }

  function FormatUnsatisfied(size: nat): (s: string) { "bytes */" + ToDecimal(size) }

  lemma SplitSpan(first: string, last: string, total: string)
    requires AllDigits(first) && AllDigits(last)
    ensures var s := first + ("-" + (last + ("/" + total)));
      && IndexOf(s, '-') == |first| < |s| && s[..|first|] == first
      && var rest := s[|first| + 1..];
         rest == last + ("/" + total) && IndexOf(rest, '/') == |last| < |rest|
         && rest[..|last|] == last && rest[|last| + 1..] == total
  {
    var tail := last + ("/" + total);
    var s := first + ("-" + tail);
    FirstIndex(s, '-', |first|);
    assert s[|first| + 1..] == tail;
    FirstIndex(tail, '/', |last|);
  }

  function TotalText(total: Option<nat>): (s: string)
    ensures s == "*" || AllDigits(s)
  {
    if total.None? then "*" else ToDecimal(total.value)
  }

  lemma TotalRoundTrip(total: Option<nat>)
    ensures var s := TotalText(total);
      (if s == "*" then None else if AllDigits(s) then Some(ToNat(s)) else None) == total
  {
    if total.Some? {
      DecimalRoundTrip(total.value);
      assert Digit(TotalText(total)[0]);
    }
  }

  lemma ParseParts(first: string, last: string, total: string)
    requires AllDigits(first) && AllDigits(last)
    ensures ParseSpan(first + ("-" + (last + ("/" + total)))) == ParseThree(first, last, total)
  {
    SplitSpan(first, last, total);
  }

  lemma SpanRoundTrip(r: ContentRange)
    requires Valid(r)
    ensures ParseSpan(FormatSpan(r)) == Some(r)
  {
    var first, last, total := ToDecimal(r.start), ToDecimal(r.end), TotalText(r.total);
    assert FormatSpan(r) == first + ("-" + (last + ("/" + total)));
    ParseParts(first, last, total);
    DecimalRoundTrip(r.start);
    DecimalRoundTrip(r.end);
    TotalRoundTrip(r.total);
  }

  lemma {:induction false} StripLeftStops(pad: string, s: string)
    requires forall i | 0 <= i < |pad| :: Space(pad[i])
    requires s != [] && !Space(s[0])
    ensures StripLeft(pad + s) == s
  {
    if pad == [] {
      assert pad + s == s;
    } else {
      assert (pad + s)[1..] == pad[1..] + s;
      StripLeftStops(pad[1..], s);
    }
  }

  lemma {:induction false} StripRightStops(s: string, pad: string)
    requires forall i | 0 <= i < |pad| :: Space(pad[i])
    requires s != [] && !Space(Last(s))
    ensures StripRight(s + pad) == s
  {
    if pad == [] {
      assert s + pad == s;
    } else {
      assert Init(s + pad) == s + Init(pad) && Last(s + pad) == Last(pad);
      StripRightStops(s, Init(pad));
    }
  }

  lemma StripPadded(left: string, s: string, right: string)
    requires forall i | 0 <= i < |left| :: Space(left[i])
    requires forall i | 0 <= i < |right| :: Space(right[i])
    requires s != [] && !Space(s[0]) && !Space(Last(s))
    ensures Strip(left + s + right) == s
  {
    assert left + s + right == left + (s + right);
    StripLeftStops(left, s + right);
    StripRightStops(s, right);
  }

  /** Parsing undoes formatting, whatever white space surrounds the value and whatever the case of the unit. */
  lemma ParseUndoesFormat(r: ContentRange, left: string, unit: string, right: string)
    requires Valid(r) && |unit| == 6 && StartsWithBytes(unit)
    requires forall i | 0 <= i < |left| :: Space(left[i])
    requires forall i | 0 <= i < |right| :: Space(right[i])
    ensures ParseContentRange(left + (unit + FormatSpan(r)) + right) == Some(r)
  {
    var s := unit + FormatSpan(r);
    SpanEndsVisibly(r);
    StripPadded(left, s, right);
    assert s[6..] == FormatSpan(r);
    SpanRoundTrip(r);
  }

  lemma SpanEndsVisibly(r: ContentRange)
    ensures FormatSpan(r) != [] && !Space(Last(FormatSpan(r)))
  {
  }

  lemma CanonicalParses(r: ContentRange)
    requires Valid(r)
    ensures ParseContentRange(Format(r)) == Some(r)
  {
    ParseUndoesFormat(r, "", "bytes ", "");
    assert "" + ("bytes " + FormatSpan(r)) + "" == Format(r);
  }

  /** Whatever parses names a valid range, which its canonical form names too. */
  lemma FormatUndoesParse(value: string, r: ContentRange)
    requires ParseContentRange(value) == Some(r)
    ensures Valid(r) && ParseContentRange(Format(r)) == ParseContentRange(value)
  {
    CanonicalParses(r);
  }

  /** The size a 416 reports is read back, and no such value reads as a range. */
  lemma UnsatisfiedRoundTrip(size: nat)
    ensures UnsatisfiedRangeSize(FormatUnsatisfied(size)) == Some(size)
    ensures ParseContentRange(FormatUnsatisfied(size)) == None
  {
    var digits := ToDecimal(size);
    var s := FormatUnsatisfied(size);
    assert Last(s) == Last(digits);
    StripPadded("", s, "");
    assert "" + s + "" == s;
    assert s[8..] == digits && s[6..8] == "*/";
    DecimalRoundTrip(size);
  }

  // ----- nothing else is accepted -----------------------------------------------------------

  /** The white space characters, by code. */
  predicate Blank(s: string) {
    forall i | 0 <= i < |s| :: var n := s[i] as int;
      9 <= n <= 13 || 28 <= n <= 32 || 8192 <= n <= 8202 || n in {133, 160, 5760, 8232, 8233, 8239, 8287, 12288}
  }

  /** The unit in any case, and one space. */
  predicate UnitText(s: string) {
    |s| == 6 && s[0] in "bB" && s[1] in "yY" && s[2] in "tT" && s[3] in "eE" && s[4] in "sS\U{17F}" && s[5] == ' '
  }

  lemma {:induction false} StripLeftSplits(s: string) returns (pad: string)
    ensures s == pad + StripLeft(s) && Blank(pad)
  {
    if s != [] && Space(s[0]) {
      var rest := StripLeftSplits(s[1..]);
      pad := [s[0]] + rest;
    } else {
      pad := [];
    }
  }

  lemma {:induction false} StripRightSplits(s: string) returns (pad: string)
    ensures s == StripRight(s) + pad && Blank(pad)
  {
    if s != [] && Space(Last(s)) {
      var rest := StripRightSplits(Init(s));
      pad := rest + [Last(s)];
      assert s == Init(s) + [Last(s)];
    } else {
      pad := [];
    }
  }

  lemma StripSplits(s: string) returns (left: string, right: string)
    ensures s == left + Strip(s) + right && Blank(left) && Blank(right)
  {
    left := StripLeftSplits(s);
    right := StripRightSplits(StripLeft(s));
    assert s == left + (Strip(s) + right);
  }

  /**
   Whatever parses is, between white space, the unit in some case, one space, and `first-last/total` in digits or a star
   for the total, read as those numbers.
   */
  lemma ParsedShape(value: string)
    returns (left: string, unit: string, first: string, last: string, total: string, right: string)
    requires ParseContentRange(value).Some?
    ensures value == left + (unit + (first + ("-" + (last + ("/" + total))))) + right
    ensures Blank(left) && Blank(right) && UnitText(unit) && AllDigits(first) && AllDigits(last)
    ensures total == "*" || AllDigits(total)
    ensures var r := ParseContentRange(value).value;
      r.start == ToNat(first) && r.end == ToNat(last) && r.total == if total == "*" then None else Some(ToNat(total))
  {
    left, right := StripSplits(value);
    var s := Strip(value);
    unit := s[..6];
    var span := s[6..];
    var dash := IndexOf(span, '-');
    var rest := span[dash + 1..];
    var slash := IndexOf(rest, '/');
    first, last, total := span[..dash], rest[..slash], rest[slash + 1..];
    assert rest == last + ("/" + total);
    assert span == first + ("-" + rest);
    assert s == unit + span;
  }

  /** The same for the size a 416 reports. */
  lemma UnsatisfiedShape(value: string) returns (left: string, unit: string, digits: string, right: string)
    requires UnsatisfiedRangeSize(value).Some?
    ensures value == left + (unit + ("*/" + digits)) + right
    ensures Blank(left) && Blank(right) && UnitText(unit) && AllDigits(digits)
    ensures UnsatisfiedRangeSize(value) == Some(ToNat(digits))
  {
    left, right := StripSplits(value);
    var s := Strip(value);
    unit, digits := s[..6], s[8..];
    assert s == unit + (s[6..8] + digits);
  }

  lemma FormatExample()
    ensures Format(ContentRange(0, 1, Some(2))) == "bytes 0-1/2" && FormatUnsatisfied(7) == "bytes */7"
  {
  }

  /** Every such unit is accepted, so parsing undoes formatting for all of them. */
  lemma UnitsAccepted(unit: string)
    ensures |unit| == 6 ==> (StartsWithBytes(unit) <==> UnitText(unit))
  {
  }
}

/**
 * The string stages of `vips_str_to_datetime` and `vips_datetime`.
 *
 * VIPS writes a date-time as `YYYY-MM-DD HH:MM:SS +HH:MM` (26 characters).
 * `vips_str_to_datetime` cuts it at fixed offsets into the RFC 3339 (section 5.6)
 * form `YYYY-MM-DDTHH:MM:SS+HH:MM` that the ISO 8601 parser consumes;
 * `vips_datetime` takes the `strftime("%Y-%m-%d %H:%M:%S %z")` output
 * `YYYY-MM-DD HH:MM:SS +HHMM` (25 characters) and inserts a colon at index 23.
 * The parser and `strftime` themselves are not modelled: the functions here end
 * at the string handed to the parser and start at the string `strftime` produced.
 */
module DateStrings {

  /** Python's `s[i:j]` for 0 <= i <= j: bounds past the end are clamped, never an error. */
  function Slice(s: string, i: nat, j: nat): (r: string)
    requires i <= j
    ensures |r| == (if j <= |s| then j - i else if i <= |s| then |s| - i else 0)
    ensures j <= |s| ==> r == s[i..j]
  {
    var hi := if j <= |s| then j else |s|;
    var lo := if i <= hi then i else hi;
    s[lo..hi]
  }

  /** The string `vips_str_to_datetime` hands to `parse_date` (vips_api.py:172-176). */
  function VipsStrToIso(vips: string): (iso: string)
    ensures |iso| <= 25
    ensures |vips| >= 26 ==> |iso| == 25 && iso[10] == 'T' && iso[22] == ':'
    ensures |vips| >= 10 ==> |iso| > 10 && iso[..10] == vips[..10]
  {
    Slice(vips, 0, 10) + "T" + Slice(vips, 11, 19) + Slice(vips, 20, 23) + ":" + Slice(vips, 24, 26)
  }

  /** The string `vips_datetime` returns, given the `strftime` output (vips_api.py:187-188). */
  function VipsDatetime(formatted: string): (vips: string)
    ensures |vips| <= 26
    ensures |formatted| >= 25 ==> |vips| == 26 && vips[23] == ':'
    ensures |formatted| >= 23 ==> |vips| > 23 && vips[..23] == formatted[..23]
  {
    Slice(formatted, 0, 23) + ":" + Slice(formatted, 23, 25)
  }

  // ----- the three layouts, as grammars -----

  predicate IsDigit(c: char) {
    '0' <= c <= '9'
  }

  predicate IsSign(c: char) {
    c == '+' || c == '-'
  }

  /** `date-fullyear "-" date-month "-" date-mday`, digits only (no range check on values). */
  predicate IsFullDate(d: string) {
    |d| == 10 && d[4] == '-' && d[7] == '-'
    && forall k :: 0 <= k < 10 && k != 4 && k != 7 ==> IsDigit(d[k])
  }

  /** `time-hour ":" time-minute ":" time-second`, without a fraction. */
  predicate IsPartialTime(t: string) {
    |t| == 8 && t[2] == ':' && t[5] == ':'
    && forall k :: 0 <= k < 8 && k != 2 && k != 5 ==> IsDigit(t[k])
  }

  predicate IsTwoDigits(s: string) {
    |s| == 2 && IsDigit(s[0]) && IsDigit(s[1])
  }

  /** The VIPS layout `YYYY-MM-DD HH:MM:SS +HH:MM`. */
  predicate IsVipsForm(s: string) {
    |s| == 26 && IsFullDate(s[..10]) && s[10] == ' ' && IsPartialTime(s[11..19]) && s[19] == ' '
    && IsSign(s[20]) && IsTwoDigits(s[21..23]) && s[23] == ':' && IsTwoDigits(s[24..26])
  }

  /** RFC 3339 section 5.6 `date-time` with no fraction and a numeric offset. */
  predicate IsRfc3339(s: string) {
    |s| == 25 && IsFullDate(s[..10]) && s[10] == 'T' && IsPartialTime(s[11..19])
    && IsSign(s[19]) && IsTwoDigits(s[20..22]) && s[22] == ':' && IsTwoDigits(s[23..25])
  }

  /** What `strftime("%Y-%m-%d %H:%M:%S %z")` prints for an aware date-time with a whole-minute offset and a year from 1000 on. */
  predicate IsStrftimeForm(s: string) {
    |s| == 25 && IsFullDate(s[..10]) && s[10] == ' ' && IsPartialTime(s[11..19]) && s[19] == ' '
    && IsSign(s[20]) && IsTwoDigits(s[21..23]) && IsTwoDigits(s[23..25])
  }

  // ----- the fields each layout carries -----

  datatype Fields = Fields(date: string, time: string, sign: char, offsetHour: string, offsetMinute: string)

  function VipsFields(s: string): Fields
    requires |s| == 26
  {
    Fields(s[..10], s[11..19], s[20], s[21..23], s[24..26])
  }

  function IsoFields(s: string): Fields
    requires |s| == 25
  {
    Fields(s[..10], s[11..19], s[19], s[20..22], s[23..25])
  }

  function StrftimeFields(s: string): Fields
    requires |s| == 25
  {
    Fields(s[..10], s[11..19], s[20], s[21..23], s[23..25])
  }

  /** The `strftime` output for a date-time with these fields. */
  function StrftimeLayout(f: Fields): string {
    f.date + " " + f.time + " " + [f.sign] + f.offsetHour + f.offsetMinute
  }

  // ----- properties -----

  /**
   * On a well-formed VIPS string the parser receives an RFC 3339 date-time with the
   * same fields: `s` with index 10 replaced by 'T' and the space at index 19 removed.
   */
  lemma VipsStrToIsoWellFormed(s: string)
    requires IsVipsForm(s)
    ensures VipsStrToIso(s) == s[..10] + "T" + s[11..19] + s[20..23] + ":" + s[24..26]
    ensures VipsStrToIso(s) == s[..10] + "T" + s[11..19] + s[20..]
    ensures IsRfc3339(VipsStrToIso(s))
    ensures IsoFields(VipsStrToIso(s)) == VipsFields(s)
  {
    var iso := VipsStrToIso(s);
    assert Slice(s, 0, 10) == s[..10];
    assert Slice(s, 11, 19) == s[11..19];
    assert Slice(s, 20, 23) == s[20..23];
    assert Slice(s, 24, 26) == s[24..26];
    assert s[20..] == s[20..23] + ":" + s[24..26];
    assert iso[..10] == s[..10];
    assert iso[11..19] == s[11..19];
    assert iso[20..22] == s[21..23];
    assert iso[23..25] == s[24..26];
  }

  /** Only the first 26 characters reach the parser; anything after them is dropped. */
  lemma VipsStrToIsoIgnoresTail(s: string)
    requires |s| >= 26
    ensures VipsStrToIso(s) == VipsStrToIso(s[..26])
  {
    assert Slice(s, 0, 10) == Slice(s[..26], 0, 10);
    assert Slice(s, 11, 19) == Slice(s[..26], 11, 19);
    assert Slice(s, 20, 23) == Slice(s[..26], 20, 23);
    assert Slice(s, 24, 26) == Slice(s[..26], 24, 26);
  }

  /** The conversion loses nothing: distinct well-formed VIPS strings give distinct parser inputs. */
  lemma VipsStrToIsoInjective(s1: string, s2: string)
    requires IsVipsForm(s1) && IsVipsForm(s2)
    requires VipsStrToIso(s1) == VipsStrToIso(s2)
    ensures s1 == s2
  {
    VipsStrToIsoWellFormed(s1);
    VipsStrToIsoWellFormed(s2);
    VipsFieldsDetermine(s1, s2);
  }

  /** On `strftime` output, `vips_datetime` gives the VIPS layout of the same fields. */
  lemma VipsDatetimeWellFormed(t: string)
    requires IsStrftimeForm(t)
    ensures VipsDatetime(t) == t[..23] + ":" + t[23..25]
    ensures IsVipsForm(VipsDatetime(t))
    ensures VipsFields(VipsDatetime(t)) == StrftimeFields(t)
  {
    var v := VipsDatetime(t);
    assert Slice(t, 0, 23) == t[..23];
    assert Slice(t, 23, 25) == t[23..25];
    assert v[..10] == t[..10];
    assert v[11..19] == t[11..19];
    assert v[21..23] == t[21..23];
    assert v[24..26] == t[23..25];
  }

  /**
   * String-level round trip from `strftime` output: formatting for VIPS and slicing
   * the result back recovers the date, time, offset hour and offset minute.
   */
  lemma StrftimeRoundTrip(t: string)
    requires IsStrftimeForm(t)
    ensures IsRfc3339(VipsStrToIso(VipsDatetime(t)))
    ensures IsoFields(VipsStrToIso(VipsDatetime(t))) == StrftimeFields(t)
  {
    VipsDatetimeWellFormed(t);
    VipsStrToIsoWellFormed(VipsDatetime(t));
  }

  /** Fields whose values fit the grammar of every layout. */
  predicate WellFormedFields(f: Fields) {
    IsFullDate(f.date) && IsPartialTime(f.time) && IsSign(f.sign) && IsTwoDigits(f.offsetHour) && IsTwoDigits(f.offsetMinute)
  }

  lemma StrftimeLayoutWellFormed(f: Fields)
    requires WellFormedFields(f)
    ensures IsStrftimeForm(StrftimeLayout(f)) && StrftimeFields(StrftimeLayout(f)) == f
  {
    var t := StrftimeLayout(f);
    assert t[..10] == f.date && t[11..19] == f.time && t[21..23] == f.offsetHour && t[23..25] == f.offsetMinute;
  }

  /** A well-formed VIPS string is determined by its fields. */
  lemma VipsFieldsDetermine(s1: string, s2: string)
    requires IsVipsForm(s1) && IsVipsForm(s2) && VipsFields(s1) == VipsFields(s2)
    ensures s1 == s2
  {
    assert s1 == s1[..10] + [s1[10]] + s1[11..19] + [s1[19]] + [s1[20]] + s1[21..23] + [s1[23]] + s1[24..26];
    assert s2 == s2[..10] + [s2[10]] + s2[11..19] + [s2[19]] + [s2[20]] + s2[21..23] + [s2[23]] + s2[24..26];
  }

  /**
   * String-level round trip from a VIPS string: if the parser and `strftime` carry the
   * fields of the RFC 3339 string over unchanged, `vips_datetime` rebuilds the original.
   * They do not always. For example, `%z` prints a zero offset as `+0000`, so `-00:00`
   * comes back as `+00:00`; `parse_date` raises on out-of-range fields such as month
   * `13`; and `%Y` may print a year below 1000 without zero-padding, so the output is
   * shorter than 25 characters and `vips_datetime` mis-slices it.
   */
  lemma VipsRoundTrip(s: string)
    requires IsVipsForm(s)
    ensures IsStrftimeForm(StrftimeLayout(IsoFields(VipsStrToIso(s))))
    ensures VipsDatetime(StrftimeLayout(IsoFields(VipsStrToIso(s)))) == s
  {
    VipsStrToIsoWellFormed(s);
    var f := VipsFields(s);
    assert WellFormedFields(f);
    StrftimeLayoutWellFormed(f);
    var t := StrftimeLayout(f);
    VipsDatetimeWellFormed(t);
    VipsFieldsDetermine(VipsDatetime(t), s);
  }

  /** The example from the docstrings, converted for the parser. */
  lemma DocstringExampleToIso()
    ensures VipsStrToIso("2019-01-02 17:30:00 -08:00") == "2019-01-02T17:30:00-08:00"
  {
    var date, time, hour, minute := "2019-01-02", "17:30:00", "-08", "00";
    var s := date + " " + time + " " + hour + ":" + minute;
    assert s == "2019-01-02 17:30:00 -08:00";
    assert s[..10] == date && s[11..19] == time && s[20..23] == hour && s[24..26] == minute;
    assert date + "T" + time + hour + ":" + minute == "2019-01-02T17:30:00-08:00";
  }

  /** The example from the docstrings, formatted for VIPS from its `strftime` output. */
  lemma DocstringExampleFromStrftime()
    ensures VipsDatetime("2019-01-02 17:30:00 -0800") == "2019-01-02 17:30:00 -08:00"
  {
    var head, minute := "2019-01-02 17:30:00 -08", "00";
    var t := head + minute;
    assert t == "2019-01-02 17:30:00 -0800";
    assert t[..23] == head && t[23..25] == minute;
    assert head + ":" + minute == "2019-01-02 17:30:00 -08:00";
  }

  /**
   * Any input shorter than 26 characters, such as one with a single-digit offset
   * hour (`+8:00`), is mis-sliced into something that is not an RFC 3339 date-time.
   */
  lemma ShortInputNotRfc3339(s: string)
    requires |s| < 26
    ensures |VipsStrToIso(s)| < 25
    ensures !IsRfc3339(VipsStrToIso(s))
  {
  }

  /** The single-digit offset `+8:00` reaches the parser as `+8::0`. */
  lemma SingleDigitOffsetMisSliced(date: string, time: string)
    requires |date| == 10 && |time| == 8
    ensures VipsStrToIso(date + " " + time + " +8:00") == date + "T" + time + "+8::0"
  {
    var s := date + " " + time + " +8:00";
    assert s[..10] == date && s[11..19] == time;
    assert s[20..23] == "+8:";
    assert s[24..] == "0";
  }
}

/**
 * The two Go library routines the exchange filter is parsed with:
 * strings.Split on a one-character separator and strconv.Atoi on a 64-bit
 * platform, together with their inverses strings.Join and strconv.Itoa.
 */
module GoStrings {
  import opened Wrappers

  /** strings.Join: the fields with `sep` between consecutive ones. */
  function Join(fields: seq<string>, sep: char): string
  {
    if |fields| == 0 then ""
    else if |fields| == 1 then fields[0]
    else fields[0] + [sep] + Join(fields[1..], sep)
  }

  /**
   * strings.Split(s, string(sep)): the maximal separator-free pieces of `s`.
   * An input without a separator (the empty string included) gives one field.
   */
  function Split(s: string, sep: char): (fields: seq<string>)
    ensures |fields| >= 1
    ensures forall i :: 0 <= i < |fields| ==> sep !in fields[i]
    ensures Join(fields, sep) == s
    decreases |s|
  {
    if s == [] then [""]
    else
      var rest := Split(s[1..], sep);
      if s[0] == sep then
        assert ([""] + rest)[1..] == rest;
        [""] + rest
      else
        assert s == [s[0]] + s[1..];
        if |rest| == 1 then [[s[0]] + rest[0]]
        else
          assert ([[s[0]] + rest[0]] + rest[1..])[1..] == rest[1..];
          [[s[0]] + rest[0]] + rest[1..]
  }

  /** Splitting a separator-free prefix glues it to the first field of the rest. */
  lemma {:induction false} SplitSeparatorFreePrefix(f: string, t: string, sep: char)
    requires sep !in f
    ensures Split(f + t, sep) == [f + Split(t, sep)[0]] + Split(t, sep)[1..]
    decreases |f|
  {
    if f != [] {
      assert (f + t)[1..] == f[1..] + t;
      assert (f + t)[0] == f[0];
      SplitSeparatorFreePrefix(f[1..], t, sep);
      var ft := Split(t, sep);
      var rest := Split(f[1..] + t, sep);
      assert rest[0] == f[1..] + ft[0] && rest[1..] == ft[1..];
      assert [f[0]] + rest[0] == f + ft[0];
    } else {
      var ft := Split(t, sep);
      assert f + t == t && f + ft[0] == ft[0];
      assert ft == [ft[0]] + ft[1..];
    }
  }

  /** Split inverts Join on one or more separator-free fields. */
  lemma {:induction false} SplitJoin(fields: seq<string>, sep: char)
    requires |fields| >= 1
    requires forall i :: 0 <= i < |fields| ==> sep !in fields[i]
    ensures Split(Join(fields, sep), sep) == fields
    decreases |fields|
  {
    if |fields| == 1 {
      SplitSeparatorFreePrefix(fields[0], "", sep);
      assert fields[0] + "" == fields[0];
    } else {
      var rest := Join(fields[1..], sep);
      SplitJoin(fields[1..], sep);
      assert fields[0] + [sep] + rest == fields[0] + ([sep] + rest);
      SplitSeparatorFreePrefix(fields[0], [sep] + rest, sep);
      assert ([sep] + rest)[1..] == rest;
      assert Split([sep] + rest, sep) == [""] + fields[1..];
      assert fields[0] + "" == fields[0];
      assert fields == [fields[0]] + fields[1..];
    }
  }

  const MinInt64: int := -0x8000_0000_0000_0000
  const MaxInt64: int := 0x7FFF_FFFF_FFFF_FFFF

  predicate IsDigit(c: char) { '0' <= c <= '9' }

  predicate AllDigits(s: string) { forall i :: 0 <= i < |s| ==> IsDigit(s[i]) }

  /** The value of a string of decimal digits, most significant first. */
  function DigitsValue(ds: string): nat
    requires AllDigits(ds)
  {
    if ds == [] then 0
    else DigitsValue(ds[..|ds| - 1]) * 10 + (ds[|ds| - 1] as int - '0' as int)
  }

  /**
   * strconv.Atoi on a 64-bit platform: an optional sign followed by one or
   * more decimal digits, whose value fits in an int64. None stands for the
   * returned error (syntax or range; the backfiller does not look at which).
   */
  function Atoi(s: string): (r: Option<int>)
    ensures r.Some? ==> MinInt64 <= r.value <= MaxInt64
    ensures r.Some? ==> |s| > 0 && exists i :: 0 <= i < |s| && IsDigit(s[i])
  {
    var signed := |s| > 0 && (s[0] == '-' || s[0] == '+');
    var digits := if signed then s[1..] else s;
    if |digits| == 0 || !AllDigits(digits) then None
    else
      assert signed ==> s[1] == digits[0];
      assert !signed ==> s[0] == digits[0];
      var magnitude := DigitsValue(digits);
      if signed && s[0] == '-' then
        var value: int := -(magnitude as int);
        if magnitude > -MinInt64 then None else Some(value)
      else
        if magnitude > MaxInt64 then None else Some(magnitude)
  }

  function DigitChar(d: nat): (c: char)
    requires d < 10
    ensures IsDigit(c) && c as int - '0' as int == d
  {
    ('0' as int + d) as char
  }

  /** The decimal digits of n, without leading zeros. */
  function FormatNat(n: nat): (s: string)
    ensures |s| >= 1 && AllDigits(s)
  {
    if n < 10 then [DigitChar(n)] else FormatNat(n / 10) + [DigitChar(n % 10)]
  }

  /** strconv.Itoa. */
  function Itoa(n: int): string
  {
    if n < 0 then "-" + FormatNat(-n) else FormatNat(n)
  }

  lemma {:induction false} DigitsValueFormatNat(n: nat)
    ensures DigitsValue(FormatNat(n)) == n
  {
    if n >= 10 {
      var s := FormatNat(n);
      assert s[..|s| - 1] == FormatNat(n / 10);
      DigitsValueFormatNat(n / 10);
    }
  }

  /** Atoi parses back every int64 that Itoa formats. */
  lemma AtoiItoa(n: int)
    requires MinInt64 <= n <= MaxInt64
    ensures Atoi(Itoa(n)) == Some(n)
  {
    var t := Itoa(n);
    if n < 0 {
      var digits := FormatNat(-n);
      DigitsValueFormatNat(-n);
      assert t[0] == '-' && t[1..] == digits;
      assert DigitsValue(t[1..]) == -n <= -MinInt64;
    } else {
      DigitsValueFormatNat(n);
      assert IsDigit(t[0]);
      assert DigitsValue(t) == n <= MaxInt64;
    }
  }
}

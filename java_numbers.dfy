/**
 * Integer.parseInt / Long.parseLong, the commons-lang NumberUtils.toInt and
 * toLong wrappers ("parse, else the default"), and the decimal rendering of
 * Integer.toString / Long.toString that they invert.
 */
module JavaNumbers {
  import opened Wrappers

  const MinInt: int := -0x8000_0000
  const MaxInt: int := 0x7FFF_FFFF
  const MinLong: int := -0x8000_0000_0000_0000
  const MaxLong: int := 0x7FFF_FFFF_FFFF_FFFF

  /** Java int. */
  type Int32 = x: int | MinInt <= x <= MaxInt
  /** Java long. */
  type Int64 = x: int | MinLong <= x <= MaxLong

  predicate IsDigit(c: char) { '0' <= c <= '9' }

  predicate AllDigits(ds: string) { forall i :: 0 <= i < |ds| ==> IsDigit(ds[i]) }

  /** The value of a string of decimal digits, most significant first. */
  function DigitsValue(ds: string): nat
    requires AllDigits(ds)
  {
    if ds == [] then 0 else DigitsValue(ds[..|ds| - 1]) * 10 + (ds[|ds| - 1] as int - '0' as int)
  }

  /**
   * The parse shared by parseInt and parseLong: an optional '+' or '-', then one
   * or more decimal digits, and a value between lo and hi; anything else is a
   * NumberFormatException (None).
   */
  function ParseDecimal(s: string, lo: int, hi: int): (r: Option<int>)
    ensures r.Some? ==> lo <= r.value <= hi
  {
    if s == [] then None
    else
      var start := if s[0] == '-' || s[0] == '+' then 1 else 0;
      var ds := s[start..];
      if ds == [] || !AllDigits(ds) then None
      else
        var v: int := if s[0] == '-' then 0 - DigitsValue(ds) as int else DigitsValue(ds);
        if lo <= v <= hi then Some(v) else None
  }

  /** Integer.parseInt(s); None models NumberFormatException. */
  function ParseInt(s: string): Option<Int32>
  {
    match ParseDecimal(s, MinInt, MaxInt)
    case None => None
    case Some(v) => Some(v as Int32)
  }

  /** Long.parseLong(s); None models NumberFormatException. */
  function ParseLong(s: string): Option<Int64>
  {
    match ParseDecimal(s, MinLong, MaxLong)
    case None => None
    case Some(v) => Some(v as Int64)
  }

  /** NumberUtils.toInt(s, d): the parsed value, or d for null or unparsable text. */
  function ToInt(s: Option<string>, d: Int32): Int32
  {
    match s
    case None => d
    case Some(t) => ParseInt(t).GetOr(d)
  }

  /** NumberUtils.toLong(s, d): the parsed value, or d for null or unparsable text. */
  function ToLong(s: Option<string>, d: Int64): Int64
  {
    match s
    case None => d
    case Some(t) => ParseLong(t).GetOr(d)
  }

  /** The decimal digits of n, without leading zeros. */
  function Natural(n: nat): (r: string)
    ensures r != [] && AllDigits(r)
  {
    if n < 10 then [('0' as int + n) as char]
    else Natural(n / 10) + [('0' as int + n % 10) as char]
  }

  /** Integer.toString(n) / Long.toString(n). */
  function Show(n: int): (r: string)
    ensures r != [] && ':' !in r
  {
    if n < 0 then "-" + Natural(-n) else Natural(n)
  }

  lemma {:induction false} NaturalValue(n: nat)
    ensures DigitsValue(Natural(n)) == n
  {
    if n >= 10 {
      NaturalValue(n / 10);
      var ds := Natural(n);
      assert ds[..|ds| - 1] == Natural(n / 10);
    }
  }

  /** Parsing the decimal rendering of an in-range number gives it back. */
  lemma ParseShow(n: int, lo: int, hi: int)
    requires lo <= n <= hi
    ensures ParseDecimal(Show(n), lo, hi) == Some(n)
  {
    var s := Show(n);
    if n < 0 {
      NaturalValue(-n);
      assert s[1..] == Natural(-n);
    } else {
      NaturalValue(n);
      assert s[0] != '-' && s[0] != '+';
      assert s[0..] == s;
    }
  }

  /** Integer.parseInt(Integer.toString(n)) == n. */
  lemma ParseIntShow(n: Int32)
    ensures ParseInt(Show(n)) == Some(n)
  {
    ParseShow(n, MinInt, MaxInt);
  }

  /** NumberUtils.toLong(Long.toString(n), d) == n whatever the default. */
  lemma ToLongShow(n: Int64, d: Int64)
    ensures ToLong(Some(Show(n)), d) == n
  {
    ParseShow(n, MinLong, MaxLong);
  }

  /**
   * A sign (or none) followed by one or more digits parses to their value,
   * negated after '-', exactly when that value lies between lo and hi.
   */
  lemma ParseDigits(sign: string, ds: string, lo: int, hi: int)
    requires sign == "" || sign == "-" || sign == "+"
    requires ds != [] && AllDigits(ds)
    ensures var v := if sign == "-" then 0 - DigitsValue(ds) as int else DigitsValue(ds) as int;
      ParseDecimal(sign + ds, lo, hi) == if lo <= v <= hi then Some(v) else None
  {
    var s := sign + ds;
    if sign == "" {
      assert IsDigit(ds[0]);
      assert s[0..] == ds;
    } else {
      assert s[1..] == ds;
    }
  }

  /**
   * Every other text is refused: a sign (or none, when the text does not
   * itself start with one) followed by nothing, or by anything that is not
   * all digits.
   */
  lemma ParseRejectsMalformed(sign: string, rest: string, lo: int, hi: int)
    requires sign == "" || sign == "-" || sign == "+"
    requires sign == "" ==> rest == [] || (rest[0] != '-' && rest[0] != '+')
    requires rest == [] || !AllDigits(rest)
    ensures ParseDecimal(sign + rest, lo, hi) == None
  {
    var s := sign + rest;
    if sign == "" {
      assert s == rest;
      if rest != [] {
        assert s[0..] == rest;
      }
    } else {
      assert s[1..] == rest;
    }
  }

  /** The decimal rendering of a number outside lo..hi does not parse within those bounds. */
  lemma ParseShowOutOfRange(n: int, lo: int, hi: int)
    requires n < lo || hi < n
    ensures ParseDecimal(Show(n), lo, hi) == None
  {
    if n < 0 {
      var ds := Natural(-n);
      NaturalValue(-n);
      ParseDigits("-", ds, lo, hi);
      assert Show(n) == "-" + ds;
    } else {
      var ds := Natural(n);
      NaturalValue(n);
      ParseDigits("", ds, lo, hi);
      assert Show(n) == "" + ds;
    }
  }

  /** Integer.parseInt refuses MAX_VALUE + 1 ("2147483648") and accepts MIN_VALUE. */
  lemma ParseIntBounds()
    ensures ParseInt(Show(MaxInt + 1)) == None && ParseInt(Show(MinInt)) == Some(MinInt)
  {
    ParseShowOutOfRange(MaxInt + 1, MinInt, MaxInt);
    ParseIntShow(MinInt);
  }

  /** A leading '0' leaves the value of a digit string unchanged. */
  lemma {:induction false} DigitsLeadingZero(ds: string)
    requires AllDigits(ds)
    ensures AllDigits("0" + ds) && DigitsValue("0" + ds) == DigitsValue(ds)
    decreases |ds|
  {
    if ds != [] {
      var init := ds[..|ds| - 1];
      DigitsLeadingZero(init);
      assert ("0" + ds)[..|ds|] == "0" + init;
    }
  }

  /** Any number of leading zeros leaves the value of a digit string unchanged. */
  lemma {:induction false} LeadingZeros(zs: string, ds: string)
    requires forall i :: 0 <= i < |zs| ==> zs[i] == '0'
    requires AllDigits(ds)
    ensures AllDigits(zs + ds) && DigitsValue(zs + ds) == DigitsValue(ds)
    decreases |zs|
  {
    if zs != [] {
      LeadingZeros(zs[1..], ds);
      DigitsLeadingZero(zs[1..] + ds);
      assert zs[0] == '0' && zs == [zs[0]] + zs[1..];
      assert zs + ds == "0" + (zs[1..] + ds);
    } else {
      assert zs + ds == ds;
    }
  }

  /** Integer.parseInt refuses a trailing letter and a bare sign. */
  lemma ParseIntRejects(letter: string, bare: string)
    requires letter == "12a" && bare == "-"
    ensures ParseInt(letter) == None && ParseInt(bare) == None
  {
    assert !IsDigit(letter[2]);
    assert letter == "" + letter;
    ParseRejectsMalformed("", letter, MinInt, MaxInt);
    assert bare == "-" + "";
    ParseRejectsMalformed("-", "", MinInt, MaxInt);
  }

  /** Integer.parseInt accepts a leading '+' and leading zeros. */
  lemma ParseIntAccepts(plus: string, zeros: string)
    requires plus == "+5" && zeros == "007"
    ensures ParseInt(plus) == Some(5) && ParseInt(zeros) == Some(7)
  {
    assert plus == "+" + "5";
    ParseDigits("+", "5", MinInt, MaxInt);
    assert zeros == "00" + "7";
    LeadingZeros("00", "7");
    assert zeros == "" + zeros;
    ParseDigits("", zeros, MinInt, MaxInt);
  }

  /** Text that starts with neither a sign nor a digit never parses. */
  lemma ParseRejectsNonNumeric(s: string, lo: int, hi: int)
    requires s != [] && !IsDigit(s[0]) && s[0] != '-' && s[0] != '+'
    ensures ParseDecimal(s, lo, hi) == None
  {
    assert s[0..] == s;
    assert !AllDigits(s);
  }
}

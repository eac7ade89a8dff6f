/**
 * Reading the backend configuration from environment variables: list values
 * given either as a JSON array or as comma-separated text, and typed lookups
 * with a default. The environment is a map from variable names to values and
 * the JSON decoder is a parameter (it yields `None` when decoding fails).
 */
module Config {
  import opened Wrappers
  import opened Strings
  import opened Tally

  /** A JSON decoder for list values: the decoded list, or `None` on a decoding error. */
  type ListDecoder = string -> Option<seq<string>>

  /** The value looks like a JSON array: it starts with '[' and ends with ']'. */
  predicate Bracketed(value: string) {
    |value| > 0 && value[0] == '[' && value[|value| - 1] == ']'
  }

  /** `[item.strip() for item in value.split(',')]`. */
  function CommaItems(value: string): (items: seq<string>)
    ensures |items| == Occurrences(value, ',') + 1
    ensures forall i :: 0 <= i < |items| ==> items[i] == Strip(Split(value, ',')[i])
    ensures forall item :: item in items ==> ',' !in item
  {
    var pieces := Split(value, ',');
    var items := seq(|pieces|, i requires 0 <= i < |pieces| => Strip(pieces[i]));
    StripAllKeepOut(pieces, ',');
    items
  }

  lemma StripAllKeepOut(pieces: seq<string>, c: char)
    requires forall i :: 0 <= i < |pieces| ==> c !in pieces[i]
    ensures forall i :: 0 <= i < |pieces| ==> c !in Strip(pieces[i])
  {
    forall i | 0 <= i < |pieces|
      ensures c !in Strip(pieces[i])
    {
      StripKeepsOut(pieces[i], c);
    }
  }

  /**
   * `parse_env_list(value, default)`, with `None` for an unset variable: the
   * default for an unset or empty value, the decoded list for a bracketed
   * value that decodes, and the stripped comma-separated items otherwise.
   */
  function ParseEnvList(value: Option<string>, default: seq<string>, decode: ListDecoder): (items: seq<string>)
    ensures value.None? || value == Some("") ==> items == default
    ensures value.Some? && value.value != "" && Bracketed(value.value) && decode(value.value).Some? ==>
              items == decode(value.value).value
    ensures value.Some? && value.value != "" && (!Bracketed(value.value) || decode(value.value).None?) ==>
              items == CommaItems(value.value) && |items| == Occurrences(value.value, ',') + 1
  {
    if value.None? || value.value == "" then default
    else if Bracketed(value.value) && decode(value.value).Some? then decode(value.value).value
    else CommaItems(value.value)
  }

  /** When no item has surrounding whitespace, joining the items with ',' gives back the value. */
  lemma CommaItemsJoin(value: string)
    requires forall i :: 0 <= i < |value| ==> !IsSpace(value[i])
    ensures Join(CommaItems(value), ',') == value
  {
    var pieces := Split(value, ',');
    var items := CommaItems(value);
    forall i | 0 <= i < |pieces|
      ensures items[i] == pieces[i]
    {
      assert pieces[i] in pieces;
      SplitKeepsCharacters(value, ',');
      StripWithoutSpace(pieces[i]);
    }
    assert items == pieces;
    JoinSplit(value, ',');
  }

  /** Every character of a piece of `s.split(sep)` is a character of `s`. */
  lemma {:induction false} SplitKeepsCharacters(s: string, sep: char)
    ensures forall p, c :: p in Split(s, sep) && c in p ==> c in s
  {
    if s != [] {
      SplitKeepsCharacters(s[1..], sep);
      var rest := Split(s[1..], sep);
      assert forall c :: c in s[1..] ==> c in s;
      if s[0] != sep {
        assert forall p :: p in Split(s, sep) ==> p == [s[0]] + rest[0] || p in rest;
      } else {
        assert forall p :: p in Split(s, sep) ==> p == "" || p in rest;
      }
    }
  }

  // ----------------------------------------------------------------- get_env

  /** The `type_cast` argument of `get_env`. */
  datatype Cast = AsStr | AsBool | AsInt | AsList

  /** The values a setting can take. */
  datatype EnvValue = Null | Str(s: string) | Flag(b: bool) | Number(n: int) | Items(items: seq<string>)

  /** `int(value)` failing raises `ValueError`. */
  datatype ConfigError = InvalidInt(value: string)

  /** The lowercased values that read as true. */
  const TrueWords: set<string> := {"true", "1", "yes"}

  predicate IsDigit(c: char) {
    '0' <= c <= '9'
  }

  predicate AllDigits(ds: string) {
    forall i :: 0 <= i < |ds| ==> IsDigit(ds[i])
  }

  /** The value of a run of decimal digits, read most significant first. */
  function DigitsValue(ds: string): (n: nat)
    requires AllDigits(ds)
  {
    if ds == [] then 0
    else
      var last := ds[|ds| - 1];
      assert IsDigit(last);
      DigitsValue(ds[..|ds| - 1]) * 10 + (last as int - '0' as int)
  }

  /**
   * `int(value)`: after `strip()`, either a non-empty run of decimal digits,
   * or a '+' or '-' followed by one; its value, negated after a '-'.
   * Anything else raises `ValueError` (`None`).
   */
  function ParseInt(value: string): (r: Option<int>)
    ensures var t := Strip(value);
            r.Some? <==> (t != [] && AllDigits(t)) || (|t| > 1 && (t[0] == '+' || t[0] == '-') && AllDigits(t[1..]))
    ensures var t := Strip(value); t != [] && AllDigits(t) ==> r == Some(DigitsValue(t))
    ensures var t := Strip(value); |t| > 1 && t[0] == '+' && AllDigits(t[1..]) ==> r == Some(DigitsValue(t[1..]))
    ensures var t := Strip(value); |t| > 1 && t[0] == '-' && AllDigits(t[1..]) ==> r == Some(-(DigitsValue(t[1..]) as int))
  {
    ParseNumeral(Strip(value))
  }

  /** `int()` on text that is already stripped. */
  function ParseNumeral(t: string): (r: Option<int>)
    ensures r.Some? <==> (t != [] && AllDigits(t)) || (|t| > 1 && (t[0] == '+' || t[0] == '-') && AllDigits(t[1..]))
    ensures t != [] && AllDigits(t) ==> r == Some(DigitsValue(t))
    ensures |t| > 1 && t[0] == '+' && AllDigits(t[1..]) ==> r == Some(DigitsValue(t[1..]))
    ensures |t| > 1 && t[0] == '-' && AllDigits(t[1..]) ==> r == Some(-(DigitsValue(t[1..]) as int))
  {
    if t == [] then None
    else if t[0] == '+' || t[0] == '-' then
      assert !IsDigit(t[0]);
      var ds := t[1..];
      if ds != [] && AllDigits(ds) then Some(if t[0] == '-' then -(DigitsValue(ds) as int) else DigitsValue(ds))
      else None
    else if AllDigits(t) then Some(DigitsValue(t))
    else None
  }

  /** `k` zero digits. */
  function Zeros(k: nat): (z: string)
    ensures |z| == k && AllDigits(z)
  {
    seq(k, _ => '0')
  }

  lemma {:induction false} ZerosValue(k: nat)
    ensures DigitsValue(Zeros(k)) == 0
  {
    if k > 0 {
      assert Zeros(k)[..k - 1] == Zeros(k - 1);
      ZerosValue(k - 1);
    }
  }

  /** Leading zeros do not change the value of a numeral. */
  lemma {:induction false} LeadingZeros(k: nat, ds: string)
    requires AllDigits(ds)
    ensures AllDigits(Zeros(k) + ds) && DigitsValue(Zeros(k) + ds) == DigitsValue(ds)
  {
    var z := Zeros(k) + ds;
    if ds == [] {
      assert z == Zeros(k);
      ZerosValue(k);
    } else {
      assert z[..|z| - 1] == Zeros(k) + ds[..|ds| - 1];
      LeadingZeros(k, ds[..|ds| - 1]);
    }
  }

  /** The decimal digits of `n`, most significant first. */
  function Digits(n: nat): (ds: string)
    ensures ds != [] && AllDigits(ds)
  {
    if n < 10 then [('0' as int + n) as char] else Digits(n / 10) + [('0' as int + n % 10) as char]
  }

  /** `str(n)`. */
  function Decimal(n: int): string {
    if n < 0 then "-" + Digits(-n) else Digits(n)
  }

  lemma {:induction false} DigitsValueOfDigits(n: nat)
    ensures DigitsValue(Digits(n)) == n
  {
    if n >= 10 {
      DigitsValueOfDigits(n / 10);
      var ds := Digits(n);
      assert ds[..|ds| - 1] == Digits(n / 10);
    }
  }

  /** A stripped value made of an optional sign and digits reads as their value. */
  lemma ParseSigned(value: string, sign: string, body: string, v: int)
    requires sign == "" || sign == "+" || sign == "-"
    requires body != [] && AllDigits(body)
    requires Strip(value) == sign + body
    requires v == if sign == "-" then -(DigitsValue(body) as int) else DigitsValue(body)
    ensures ParseInt(value) == Some(v)
  {
    var t := Strip(value);
    if sign == "" {
      assert t == body;
    } else {
      assert t[1..] == body && |t| > 1;
    }
  }

  /** A signed numeral neither starts nor ends with whitespace. */
  lemma NumeralEnds(sign: string, body: string)
    requires sign == "" || sign == "+" || sign == "-"
    requires body != [] && AllDigits(body)
    ensures var x := sign + body; x != [] && !IsSpace(x[0]) && !IsSpace(x[|x| - 1])
  {
    var x := sign + body;
    assert IsDigit(body[0]) && IsDigit(body[|body| - 1]);
    assert x[|x| - 1] == body[|body| - 1];
    if sign == "" {
      assert x == body;
    } else {
      assert x[0] == sign[0];
    }
  }

  /** A numeral as `int()` accepts it: a sign ("", "+" or "-"), `zeros` leading zeros, then the digits of `n`. */
  function Numeral(sign: string, zeros: nat, n: nat): string {
    sign + (Zeros(zeros) + Digits(n))
  }

  /** The digits after the sign of a numeral are non-empty and worth `n`. */
  lemma NumeralBody(zeros: nat, n: nat)
    ensures var body := Zeros(zeros) + Digits(n);
            body != [] && AllDigits(body) && DigitsValue(body) == n
  {
    LeadingZeros(zeros, Digits(n));
    DigitsValueOfDigits(n);
  }

  /** A numeral padded with whitespace strips to the numeral. */
  lemma StripNumeral(pre: string, sign: string, zeros: nat, n: nat, post: string)
    requires AllSpace(pre) && AllSpace(post)
    requires sign == "" || sign == "+" || sign == "-"
    ensures Strip(pre + Numeral(sign, zeros, n) + post) == sign + (Zeros(zeros) + Digits(n))
  {
    var body := Zeros(zeros) + Digits(n);
    NumeralBody(zeros, n);
    NumeralEnds(sign, body);
    StripPadded(pre, sign + body, post);
  }

  /**
   * `int()` reads a decimal numeral with whitespace around it, an optional
   * sign and leading zeros: `int(' +007 ') == 7`, `int('-12') == -12`.
   */
  lemma ParseIntPadded(pre: string, sign: string, zeros: nat, n: nat, post: string)
    requires AllSpace(pre) && AllSpace(post)
    requires sign == "" || sign == "+" || sign == "-"
    ensures ParseInt(pre + Numeral(sign, zeros, n) + post) == Some(if sign == "-" then -(n as int) else n)
  {
    var value := pre + Numeral(sign, zeros, n) + post;
    var body := Zeros(zeros) + Digits(n);
    NumeralBody(zeros, n);
    StripNumeral(pre, sign, zeros, n, post);
    var v: int := if sign == "-" then -(n as int) else n;
    ParseSigned(value, sign, body, v);
  }

  /** `int(str(n)) == n`: the parser reads back every decimal rendering. */
  lemma ParseIntDecimal(n: int)
    ensures ParseInt(Decimal(n)) == Some(n)
  {
    var sign := if n < 0 then "-" else "";
    var m: nat := if n < 0 then -n else n;
    assert Decimal(n) == sign + Digits(m);
    ParseDigits(sign, m, n);
  }

  /** The digits of `m` after an optional sign and no whitespace read as `v`. */
  lemma ParseDigits(sign: string, m: nat, v: int)
    requires sign == "" || sign == "-"
    requires v == if sign == "-" then -(m as int) else m
    ensures ParseInt(sign + Digits(m)) == Some(v)
  {
    var body := Digits(m);
    var x := sign + body;
    DigitsValueOfDigits(m);
    NumeralEnds(sign, body);
    StripBare(x);
    ParseSigned(x, sign, body, v);
  }

  /** The worked example `int(' +007 ') == 7`. */
  lemma ParseIntExample()
    ensures ParseInt(" +007 ") == Some(7)
  {
    SpelledExample();
    ParseIntPadded(" ", "+", 2, 7, " ");
  }

  lemma SpelledExample()
    ensures " " + Numeral("+", 2, 7) + " " == " +007 "
  {
    assert Zeros(2) == "00";
    assert Digits(7) == "7";
  }

  /** `get_env(key, default, type_cast)` over the environment `env`. */
  function GetEnv(env: map<string, string>, key: string, default: EnvValue, cast: Cast, decode: ListDecoder)
    : (r: Result<EnvValue, ConfigError>)
    requires cast == AsList ==> default.Items?
    ensures key !in env ==> r == Ok(default)
    ensures key in env && cast == AsBool ==> r == Ok(Flag(Lower(env[key]) in TrueWords))
    ensures key in env && cast == AsInt && ParseInt(env[key]).Some? ==> r == Ok(Number(ParseInt(env[key]).value))
    ensures key in env && cast == AsInt && ParseInt(env[key]).None? ==> r == Err(InvalidInt(env[key]))
    ensures key in env && cast == AsList ==> r == Ok(Items(ParseEnvList(Some(env[key]), default.items, decode)))
    ensures key in env && cast == AsStr ==> r == Ok(Str(env[key]))
  {
    if key !in env then Ok(default)
    else
      var value := env[key];
      match cast
      case AsBool => Ok(Flag(Lower(value) in TrueWords))
      case AsInt => (match ParseInt(value) case Some(n) => Ok(Number(n)) case None => Err(InvalidInt(value)))
      case AsList => Ok(Items(ParseEnvList(Some(value), default.items, decode)))
      case AsStr => Ok(Str(value))
  }

  /** A boolean setting is true for "true", "1" and "yes" in any letter case, and false for anything else. */
  lemma GetEnvFlag(env: map<string, string>, key: string, default: EnvValue, decode: ListDecoder)
    requires key in env
    ensures GetEnv(env, key, default, AsBool, decode) == Ok(Flag(true)) <==>
            Lower(env[key]) == "true" || Lower(env[key]) == "1" || Lower(env[key]) == "yes"
    ensures GetEnv(env, key, default, AsBool, decode).Ok?
  {
  }

  /** An integer setting holds exactly the number written in the variable. */
  lemma GetEnvNumber(n: int, key: string, default: EnvValue, decode: ListDecoder)
    ensures GetEnv(map[key := Decimal(n)], key, default, AsInt, decode) == Ok(Number(n))
  {
    ParseIntDecimal(n);
  }

  // -------------------------------------------------------- upload settings

  const DefaultMaxFileSize: int := 100 * 1024 * 1024
  const DefaultAllowedFileTypes: seq<string> :=
    ["pdf", "doc", "docx", "xls", "xlsx", "png", "jpg", "jpeg", "gif", "bmp", "txt", "md", "json", "csv"]

  /** `MAX_FILE_SIZE`: the variable read as an integer, 100 MiB when unset. */
  function MaxFileSize(env: map<string, string>, decode: ListDecoder): (r: Result<EnvValue, ConfigError>)
    ensures "MAX_FILE_SIZE" !in env ==> r == Ok(Number(104857600))
  {
    GetEnv(env, "MAX_FILE_SIZE", Number(DefaultMaxFileSize), AsInt, decode)
  }

  /** `ALLOWED_FILE_TYPES`: the variable read as a list, the fourteen document and image types when unset or empty. */
  function AllowedFileTypes(env: map<string, string>, decode: ListDecoder): (types: seq<string>)
    ensures "ALLOWED_FILE_TYPES" !in env || env["ALLOWED_FILE_TYPES"] == "" ==> |types| == 14 && "pdf" in types
  {
    ParseEnvList(if "ALLOWED_FILE_TYPES" in env then Some(env["ALLOWED_FILE_TYPES"]) else None,
                 DefaultAllowedFileTypes, decode)
  }
}

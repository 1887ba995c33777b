/**
 * Field validators of the company domain: the CNPJ check with its modulus-11
 * check digits, and the CEP, CNAE, state/municipal registration and phone
 * checks. The anchored regular expressions are written as token patterns:
 * a digit, a fixed character, or an optional character.
 */
module CompanyValidators {
  import opened Common

  // ---------------------------------------------------------------------
  // Anchored patterns

  datatype Tok = AnyDigit | Lit(c: char) | Opt(c: char)

  /** Whether the whole of `s` matches the pattern (`^...$`). */
  predicate Match(s: string, p: seq<Tok>)
    decreases |p|
  {
    if p == [] then s == []
    else match p[0]
      case AnyDigit => s != [] && IsDigit(s[0]) && Match(s[1..], p[1..])
      case Lit(c) => s != [] && s[0] == c && Match(s[1..], p[1..])
      case Opt(c) => (s != [] && s[0] == c && Match(s[1..], p[1..])) || Match(s, p[1..])
  }

  function DigitRun(n: nat): (p: seq<Tok>)
    ensures |p| == n && forall i :: 0 <= i < n ==> p[i] == AnyDigit
  {
    if n == 0 then [] else [AnyDigit] + DigitRun(n - 1)
  }

  /** The number of digit tokens in a pattern. */
  function DigitToks(p: seq<Tok>): nat
  {
    if p == [] then 0 else (if p[0] == AnyDigit then 1 else 0) + DigitToks(p[1..])
  }

  /** Every fixed or optional character of the pattern is a non-digit. */
  predicate SeparatorsNonDigit(p: seq<Tok>)
  {
    forall i :: 0 <= i < |p| ==> (p[i].Lit? ==> !IsDigit(p[i].c)) && (p[i].Opt? ==> !IsDigit(p[i].c))
  }

  lemma {:induction false} DigitToksAppend(a: seq<Tok>, b: seq<Tok>)
    ensures DigitToks(a + b) == DigitToks(a) + DigitToks(b)
  {
    if a == [] {
      assert a + b == b;
    } else {
      assert (a + b)[1..] == a[1..] + b;
      DigitToksAppend(a[1..], b);
    }
  }

  lemma {:induction false} DigitToksRun(n: nat)
    ensures DigitToks(DigitRun(n)) == n
  {
    if n > 0 {
      DigitToksRun(n - 1);
    }
  }

  /** A string matching a pattern with non-digit separators has exactly as many digits as the pattern has digit tokens. */
  lemma {:induction false} MatchDigitCount(s: string, p: seq<Tok>)
    requires Match(s, p) && SeparatorsNonDigit(p)
    ensures |OnlyDigits(s)| == DigitToks(p)
    decreases |p|
  {
    if p != [] {
      assert SeparatorsNonDigit(p[1..]);
      match p[0]
      case AnyDigit =>
        MatchDigitCount(s[1..], p[1..]);
        OnlyDigitsAppend([s[0]], s[1..]);
        assert s == [s[0]] + s[1..];
      case Lit(c) =>
        MatchDigitCount(s[1..], p[1..]);
        OnlyDigitsAppend([s[0]], s[1..]);
        assert s == [s[0]] + s[1..];
      case Opt(c) =>
        if s != [] && s[0] == c && Match(s[1..], p[1..]) {
          MatchDigitCount(s[1..], p[1..]);
          OnlyDigitsAppend([s[0]], s[1..]);
          assert s == [s[0]] + s[1..];
        } else {
          MatchDigitCount(s, p[1..]);
        }
    }
  }

  /** A run of `n` digits followed by an optional separator `c`, then `rest`. */
  function Grp(n: nat, c: char, rest: seq<Tok>): seq<Tok>
  {
    DigitRun(n) + [Opt(c)] + rest
  }

  lemma {:induction false} GrpFacts(n: nat, c: char, rest: seq<Tok>)
    ensures DigitToks(Grp(n, c, rest)) == n + DigitToks(rest)
    ensures !IsDigit(c) && SeparatorsNonDigit(rest) ==> SeparatorsNonDigit(Grp(n, c, rest))
  {
    if n == 0 {
      assert Grp(n, c, rest) == [Opt(c)] + rest;
      assert ([Opt(c)] + rest)[1..] == rest;
    } else {
      assert Grp(n, c, rest)[1..] == Grp(n - 1, c, rest);
      GrpFacts(n - 1, c, rest);
    }
  }

  /** Digits, then the separator or nothing, then a match of `rest`, match the group. */
  lemma {:induction false} MatchGrp(s: string, c: char, t: string, rest: seq<Tok>)
    requires AllDigits(s) && Match(t, rest)
    ensures Match(s + [c] + t, Grp(|s|, c, rest))
    ensures Match(s + t, Grp(|s|, c, rest))
  {
    if s == [] {
      assert Grp(0, c, rest) == [Opt(c)] + rest;
      assert ([Opt(c)] + rest)[1..] == rest;
      assert (s + [c] + t)[1..] == t && s + t == t;
    } else {
      assert Grp(|s|, c, rest)[1..] == Grp(|s| - 1, c, rest);
      MatchGrp(s[1..], c, t, rest);
      assert (s + [c] + t)[1..] == s[1..] + [c] + t;
      assert (s + t)[1..] == s[1..] + t;
    }
  }

  lemma {:induction false} MatchDigitRun(s: string)
    requires AllDigits(s)
    ensures Match(s, DigitRun(|s|))
  {
    if s != [] {
      MatchDigitRun(s[1..]);
    }
  }

  lemma OnlyDigitsGroup(s: string, c: char, t: string)
    requires AllDigits(s) && !IsDigit(c)
    ensures OnlyDigits(s + [c] + t) == s + OnlyDigits(t)
  {
    assert [c][1..] == [];
    assert OnlyDigits([c]) == [];
    OnlyDigitsAppend(s, [c]);
    OnlyDigitsOfDigits(s);
    assert OnlyDigits(s + [c]) == s;
    OnlyDigitsAppend(s + [c], t);
  }

  // ---------------------------------------------------------------------
  // The patterns in use

  /** `^\d{2}\.?\d{3}\.?\d{3}/?\d{4}-?\d{2}$` */
  function CnpjPattern(): seq<Tok>
  {
    Grp(2, '.', Grp(3, '.', Grp(3, '/', Grp(4, '-', DigitRun(2)))))
  }

  /** `^\d{5}-?\d{3}$` */
  function CepPattern(): seq<Tok>
  {
    Grp(5, '-', DigitRun(3))
  }

  /** `^\d{4}-\d/\d{2}$` */
  function CnaePattern(): seq<Tok>
  {
    DigitRun(4) + [Lit('-')] + DigitRun(1) + [Lit('/')] + DigitRun(2)
  }

  /** The `/NNNN-NN` end of the CNPJ pattern: 9 digit tokens with its leading group. */
  lemma CnpjPatternTail()
    ensures var t := Grp(3, '/', Grp(4, '-', DigitRun(2))); DigitToks(t) == 9 && SeparatorsNonDigit(t)
  {
    var t0 := DigitRun(2);
    DigitToksRun(2);
    assert DigitToks(t0) == 2 && SeparatorsNonDigit(t0);
    var t1 := Grp(4, '-', t0);
    GrpFacts(4, '-', t0);
    assert DigitToks(t1) == 6 && SeparatorsNonDigit(t1);
    GrpFacts(3, '/', t1);
  }

  lemma CnpjPatternFacts()
    ensures DigitToks(CnpjPattern()) == 14 && SeparatorsNonDigit(CnpjPattern())
  {
    var t2 := Grp(3, '/', Grp(4, '-', DigitRun(2)));
    CnpjPatternTail();
    var t3 := Grp(3, '.', t2);
    GrpFacts(3, '.', t2);
    assert DigitToks(t3) == 12 && SeparatorsNonDigit(t3);
    GrpFacts(2, '.', t3);
    assert CnpjPattern() == Grp(2, '.', t3);
  }

  lemma CepPatternFacts()
    ensures DigitToks(CepPattern()) == 8 && SeparatorsNonDigit(CepPattern())
  {
    DigitToksRun(3);
    GrpFacts(5, '-', DigitRun(3));
  }

  /** `NN.NNN.NNN/NNNN-NN` written out from 14 digits. */
  function FormatCnpj(d: string): string
    requires |d| == 14
  {
    d[..2] + ['.'] + (d[2..5] + ['.'] + (d[5..8] + ['/'] + (d[8..12] + ['-'] + d[12..])))
  }

  /** The punctuated form of any 14 digits has the CNPJ shape, and its digits are those 14. */
  lemma FormattedCnpjMatches(d: string)
    requires |d| == 14 && AllDigits(d)
    ensures Match(FormatCnpj(d), CnpjPattern())
    ensures OnlyDigits(FormatCnpj(d)) == d
  {
    FormattedCnpjShape(d);
    FormattedCnpjDigits(d);
  }

  lemma FormattedCnpjShape(d: string)
    requires |d| == 14 && AllDigits(d)
    ensures Match(FormatCnpj(d), CnpjPattern())
  {
    var t4 := d[8..12] + ['-'] + d[12..];
    var t3 := d[5..8] + ['/'] + t4;
    var t2 := d[2..5] + ['.'] + t3;
    MatchDigitRun(d[12..]);
    MatchGrp(d[8..12], '-', d[12..], DigitRun(2));
    MatchGrp(d[5..8], '/', t4, Grp(4, '-', DigitRun(2)));
    MatchGrp(d[2..5], '.', t3, Grp(3, '/', Grp(4, '-', DigitRun(2))));
    MatchGrp(d[..2], '.', t2, Grp(3, '.', Grp(3, '/', Grp(4, '-', DigitRun(2)))));
  }

  lemma FormattedCnpjDigits(d: string)
    requires |d| == 14 && AllDigits(d)
    ensures OnlyDigits(FormatCnpj(d)) == d
  {
    var t4 := d[8..12] + ['-'] + d[12..];
    var t3 := d[5..8] + ['/'] + t4;
    var t2 := d[2..5] + ['.'] + t3;
    OnlyDigitsOfDigits(d[12..]);
    OnlyDigitsGroup(d[8..12], '-', d[12..]);
    OnlyDigitsGroup(d[5..8], '/', t4);
    OnlyDigitsGroup(d[2..5], '.', t3);
    OnlyDigitsGroup(d[..2], '.', t2);
    assert d == d[..2] + (d[2..5] + (d[5..8] + (d[8..12] + d[12..])));
  }

  /** The last nine of fourteen bare digits match the pattern from the '/' group on. */
  lemma BareCnpjTail(d: string)
    requires |d| == 14 && AllDigits(d)
    ensures Match(d[5..], Grp(3, '/', Grp(4, '-', DigitRun(2))))
  {
    MatchDigitRun(d[12..]);
    MatchGrp(d[8..12], '-', d[12..], DigitRun(2));
    assert d[8..12] + d[12..] == d[8..];
    MatchGrp(d[5..8], '/', d[8..], Grp(4, '-', DigitRun(2)));
    assert d[5..8] + d[8..] == d[5..];
  }

  /** Fourteen bare digits also have the CNPJ shape: every separator is optional. */
  lemma BareCnpjMatches(d: string)
    requires |d| == 14 && AllDigits(d)
    ensures Match(d, CnpjPattern())
  {
    BareCnpjTail(d);
    MatchGrp(d[2..5], '.', d[5..], Grp(3, '/', Grp(4, '-', DigitRun(2))));
    assert d[2..5] + d[5..] == d[2..];
    MatchGrp(d[..2], '.', d[2..], Grp(3, '.', Grp(3, '/', Grp(4, '-', DigitRun(2)))));
    assert d[..2] + d[2..] == d;
  }

  // ---------------------------------------------------------------------
  // CNPJ check digits

  /** `list(range(a, b, -1))`. */
  function DownRange(a: int, b: int): (r: seq<int>)
    ensures |r| == if a > b then a - b else 0
    decreases a - b
  {
    if a <= b then [] else [a] + DownRange(a - 1, b)
  }

  /** Which weight list `dv_calc` uses: the one the code builds, or the Receita Federal one. */
  datatype WeightScheme = AsWritten | Standard

  /** The weights for `n` digits (`zip` uses only the first `n`). */
  function Peso(scheme: WeightScheme, n: nat): seq<int>
  {
    match scheme
    case AsWritten => DownRange(n - 6, 1) + DownRange(9, 1)
    case Standard => DownRange(n - 7, 1) + DownRange(9, 1)
  }

  /** The weights the code produces are shifted by one from the standard 5,4,3,2,9,… and 6,5,4,3,2,9,…. */
  lemma PesoValues()
    ensures Peso(AsWritten, 12)[..12] == [6, 5, 4, 3, 2, 9, 8, 7, 6, 5, 4, 3]
    ensures Peso(AsWritten, 13)[..13] == [7, 6, 5, 4, 3, 2, 9, 8, 7, 6, 5, 4, 3]
    ensures Peso(Standard, 12) == [5, 4, 3, 2, 9, 8, 7, 6, 5, 4, 3, 2]
    ensures Peso(Standard, 13) == [6, 5, 4, 3, 2, 9, 8, 7, 6, 5, 4, 3, 2]
  {
    PesoFirstDigit();
    PesoSecondDigit();
  }

  /** The weights for the first check digit (12 digits) under both schemes. */
  lemma PesoFirstDigit()
    ensures Peso(AsWritten, 12)[..12] == [6, 5, 4, 3, 2, 9, 8, 7, 6, 5, 4, 3]
    ensures Peso(Standard, 12) == [5, 4, 3, 2, 9, 8, 7, 6, 5, 4, 3, 2]
  {
    assert DownRange(9, 1) == [9, 8, 7, 6, 5, 4, 3, 2];
    assert DownRange(6, 1) == [6, 5, 4, 3, 2];
    assert DownRange(5, 1) == [5, 4, 3, 2];
  }

  /** The weights for the second check digit (13 digits) under both schemes. */
  lemma PesoSecondDigit()
    ensures Peso(AsWritten, 13)[..13] == [7, 6, 5, 4, 3, 2, 9, 8, 7, 6, 5, 4, 3]
    ensures Peso(Standard, 13) == [6, 5, 4, 3, 2, 9, 8, 7, 6, 5, 4, 3, 2]
  {
    assert DownRange(9, 1) == [9, 8, 7, 6, 5, 4, 3, 2];
    assert DownRange(7, 1) == [7, 6, 5, 4, 3, 2];
    assert DownRange(6, 1) == [6, 5, 4, 3, 2];
  }

  /** `int(c)` for a digit character. */
  function Val(c: char): int
  {
    c as int - '0' as int
  }

  /** `sum(int(n)*p for n, p in zip(nums, peso))`, from position `i` on. */
  function WeightedSum(nums: string, peso: seq<int>, i: nat): int
    decreases |nums| - i
  {
    if i >= |nums| || i >= |peso| then 0
    else Val(nums[i]) * peso[i] + WeightedSum(nums, peso, i + 1)
  }

  /** `dv_calc`: 11 − (sum mod 11), with 10 and 11 written as "0". */
  function DvCalc(nums: string, scheme: WeightScheme): (dv: char)
    ensures IsDigit(dv)
  {
    var soma := WeightedSum(nums, Peso(scheme, |nums|), 0);
    var dv := 11 - soma % 11;
    if dv >= 10 then '0' else DigitChar(dv)
  }

  /** The two check digits of a 12-digit base. */
  function CheckDigits(base: string, scheme: WeightScheme): (r: string)
    ensures |r| == 2 && AllDigits(r)
  {
    var dv1 := DvCalc(base, scheme);
    [dv1, DvCalc(base + [dv1], scheme)]
  }

  datatype Verdict = Accepted | Rejected(message: string)

  const CnpjRequired := "CNPJ é obrigatório."
  const CnpjBadFormat := "Formato inválido de CNPJ. Use XX.XXX.XXX/XXXX-XX."
  const CnpjBadLength := "CNPJ deve conter 14 dígitos."
  const CnpjRepeated := "CNPJ inválido."
  const CnpjBadCheckDigits := "CNPJ inválido (dígitos verificadores)."

  /** `validate_cnpj` under a weight scheme; `value` None is Python's None. */
  function ValidateCnpjWith(value: Option<string>, scheme: WeightScheme): Verdict
  {
    if value.None? || value.value == "" then Rejected(CnpjRequired)
    else if !Match(value.value, CnpjPattern()) then Rejected(CnpjBadFormat)
    else
      var digits := OnlyDigits(value.value);
      if |digits| != 14 then Rejected(CnpjBadLength)
      else if digits == Repeat([digits[0]], 14) then Rejected(CnpjRepeated)
      else if digits[12..] != CheckDigits(digits[..12], scheme) then Rejected(CnpjBadCheckDigits)
      else Accepted
  }

  /** `validate_cnpj` exactly as written. */
  function ValidateCnpj(value: Option<string>): (v: Verdict)
    ensures value.None? || value == Some("") ==> v == Rejected(CnpjRequired)
    ensures v == Accepted ==> Match(value.value, CnpjPattern())
  {
    ValidateCnpjWith(value, AsWritten)
  }

  /** `validate_cnpj` with the standard Receita Federal weights. */
  function ValidateCnpjStandard(value: Option<string>): (v: Verdict)
    ensures value.None? || value == Some("") ==> v == Rejected(CnpjRequired)
    ensures v == Accepted ==> Match(value.value, CnpjPattern())
  {
    ValidateCnpjWith(value, Standard)
  }

  /** Anything with the CNPJ shape has 14 digits, so the length rejection can never be reached. */
  lemma LengthCheckUnreachable(value: Option<string>, scheme: WeightScheme)
    ensures ValidateCnpjWith(value, scheme) != Rejected(CnpjBadLength)
  {
    if value.Some? && value.value != "" && Match(value.value, CnpjPattern()) {
      CnpjPatternFacts();
      MatchDigitCount(value.value, CnpjPattern());
    }
  }

  /** A well-shaped CNPJ is accepted exactly when it is not one repeated digit and ends with its check digits. */
  lemma CnpjAcceptedIff(v: string, scheme: WeightScheme)
    requires v != "" && Match(v, CnpjPattern())
    ensures var d := OnlyDigits(v);
      |d| == 14 &&
      (ValidateCnpjWith(Some(v), scheme) == Accepted <==>
        d != Repeat([d[0]], 14) && d[12..] == CheckDigits(d[..12], scheme))
  {
    CnpjPatternFacts();
    MatchDigitCount(v, CnpjPattern());
  }

  /** CNPJs made of one repeated digit are rejected. */
  lemma RepeatedDigitRejected(c: char, scheme: WeightScheme)
    requires IsDigit(c)
    ensures ValidateCnpjWith(Some(Repeat([c], 14)), scheme) == Rejected(CnpjRepeated)
  {
    var v := Repeat([c], 14);
    RepeatAllDigits(c, 14);
    assert |v| == 14;
    BareCnpjMatches(v);
    OnlyDigitsOfDigits(v);
  }

  lemma {:induction false} RepeatAllDigits(c: char, n: nat)
    requires IsDigit(c)
    ensures AllDigits(Repeat([c], n)) && forall i :: 0 <= i < n ==> Repeat([c], n)[i] == c
  {
    if n > 0 {
      RepeatAllDigits(c, n - 1);
    }
  }

  /** Every 12-digit base, punctuated and completed with its own check digits, is accepted unless it is one repeated digit. */
  lemma CompletedCnpjAccepted(base: string, scheme: WeightScheme)
    requires |base| == 12 && AllDigits(base)
    requires var d := base + CheckDigits(base, scheme); d != Repeat([d[0]], 14)
    ensures ValidateCnpjWith(Some(FormatCnpj(base + CheckDigits(base, scheme))), scheme) == Accepted
  {
    var d := base + CheckDigits(base, scheme);
    assert AllDigits(d);
    FormattedCnpjMatches(d);
    assert d[..12] == base && d[12..] == CheckDigits(base, scheme);
  }

  /** The example CNPJ used in the repository's tests, punctuated. */
  const ExampleCnpj := "12.345.678/0001-95"

  lemma ExampleCnpjShape(v: string)
    requires v == ExampleCnpj
    ensures Match(v, CnpjPattern()) && OnlyDigits(v) == "12345678000195"
  {
    var d := "12345678000195";
    assert d[..2] == "12" && d[2..5] == "345" && d[5..8] == "678" && d[8..12] == "0001" && d[12..] == "95";
    assert v == FormatCnpj(d);
    assert AllDigits(d);
    FormattedCnpjMatches(d);
  }

  lemma AsWrittenFirstDigitTail()
    ensures WeightedSum("123456780001", Peso(AsWritten, 12), 9) == 3
  {
    var n := "123456780001";
    PesoFirstDigit();
    var w := Peso(AsWritten, 12);
    assert WeightedSum(n, w, 12) == 0;
    assert WeightedSum(n, w, 11) == 3;
    assert WeightedSum(n, w, 10) == 3;
    assert WeightedSum(n, w, 9) == 3;
  }

  lemma AsWrittenFirstDigitMiddle()
    ensures WeightedSum("123456780001", Peso(AsWritten, 12), 5) == 169
  {
    var n := "123456780001";
    PesoFirstDigit();
    var w := Peso(AsWritten, 12);
    AsWrittenFirstDigitTail();
    assert WeightedSum(n, w, 8) == 3;
    assert WeightedSum(n, w, 7) == 59;
    assert WeightedSum(n, w, 6) == 115;
    assert WeightedSum(n, w, 5) == 169;
  }

  /** Under the code's weights the first check digit of 123456780001 is 1 (weighted sum 219). */
  lemma AsWrittenFirstDigit()
    ensures DvCalc("123456780001", AsWritten) == '1'
  {
    var n := "123456780001";
    PesoFirstDigit();
    var w := Peso(AsWritten, 12);
    AsWrittenFirstDigitMiddle();
    assert WeightedSum(n, w, 4) == 179;
    assert WeightedSum(n, w, 3) == 191;
    assert WeightedSum(n, w, 2) == 203;
    assert WeightedSum(n, w, 1) == 213;
    assert WeightedSum(n, w, 0) == 219;
  }

  lemma StandardFirstDigitTail()
    ensures WeightedSum("123456780001", Peso(Standard, 12), 9) == 2
  {
    var n := "123456780001";
    PesoFirstDigit();
    var w := Peso(Standard, 12);
    assert WeightedSum(n, w, 12) == 0;
    assert WeightedSum(n, w, 11) == 2;
    assert WeightedSum(n, w, 10) == 2;
    assert WeightedSum(n, w, 9) == 2;
  }

  lemma StandardFirstDigitMiddle()
    ensures WeightedSum("123456780001", Peso(Standard, 12), 5) == 147
  {
    var n := "123456780001";
    PesoFirstDigit();
    var w := Peso(Standard, 12);
    StandardFirstDigitTail();
    assert WeightedSum(n, w, 8) == 2;
    assert WeightedSum(n, w, 7) == 50;
    assert WeightedSum(n, w, 6) == 99;
    assert WeightedSum(n, w, 5) == 147;
  }

  /** Under the standard weights the first check digit of 123456780001 is 9 (weighted sum 222). */
  lemma StandardFirstDigit()
    ensures DvCalc("123456780001", Standard) == '9'
  {
    var n := "123456780001";
    PesoFirstDigit();
    var w := Peso(Standard, 12);
    StandardFirstDigitMiddle();
    assert WeightedSum(n, w, 4) == 192;
    assert WeightedSum(n, w, 3) == 200;
    assert WeightedSum(n, w, 2) == 209;
    assert WeightedSum(n, w, 1) == 217;
    assert WeightedSum(n, w, 0) == 222;
  }

  lemma StandardSecondDigitTail()
    ensures WeightedSum("1234567800019", Peso(Standard, 13), 9) == 21
  {
    var m := "1234567800019";
    PesoSecondDigit();
    var w2 := Peso(Standard, 13);
    assert WeightedSum(m, w2, 13) == 0;
    assert WeightedSum(m, w2, 12) == 18;
    assert WeightedSum(m, w2, 11) == 21;
    assert WeightedSum(m, w2, 10) == 21;
    assert WeightedSum(m, w2, 9) == 21;
  }

  lemma StandardSecondDigitMiddle()
    ensures WeightedSum("1234567800019", Peso(Standard, 13), 5) == 187
  {
    var m := "1234567800019";
    PesoSecondDigit();
    var w2 := Peso(Standard, 13);
    StandardSecondDigitTail();
    assert WeightedSum(m, w2, 8) == 21;
    assert WeightedSum(m, w2, 7) == 77;
    assert WeightedSum(m, w2, 6) == 133;
    assert WeightedSum(m, w2, 5) == 187;
  }

  /** Under the standard weights the second check digit of 1234567800019 is 5 (weighted sum 237). */
  lemma StandardSecondDigit()
    ensures DvCalc("1234567800019", Standard) == '5'
  {
    var m := "1234567800019";
    PesoSecondDigit();
    var w2 := Peso(Standard, 13);
    StandardSecondDigitMiddle();
    assert WeightedSum(m, w2, 4) == 197;
    assert WeightedSum(m, w2, 3) == 209;
    assert WeightedSum(m, w2, 2) == 221;
    assert WeightedSum(m, w2, 1) == 231;
    assert WeightedSum(m, w2, 0) == 237;
  }

  /** Under the standard weights the check digits of 123456780001 are 95. */
  lemma StandardCheckDigitsOfExample()
    ensures CheckDigits("123456780001", Standard) == "95"
  {
    StandardFirstDigit();
    StandardSecondDigit();
    assert "123456780001" + ['9'] == "1234567800019";
  }

  /** The validator as written rejects 12.345.678/0001-95 for its check digits. */
  lemma ExampleCnpjRejectedAsWritten(v: string)
    requires v == ExampleCnpj
    ensures ValidateCnpj(Some(v)) == Rejected(CnpjBadCheckDigits)
  {
    ExampleCnpjShape(v);
    AsWrittenFirstDigit();
    ExampleDigitsNotRepeated();
  }

  /** With the standard weights the same value is accepted. */
  lemma ExampleCnpjAcceptedStandard(v: string)
    requires v == ExampleCnpj
    ensures ValidateCnpjStandard(Some(v)) == Accepted
  {
    ExampleCnpjShape(v);
    StandardCheckDigitsOfExample();
    ExampleDigitsNotRepeated();
  }

  lemma ExampleDigitsNotRepeated()
    ensures var d := "12345678000195";
      d[..12] == "123456780001" && d[12..] == "95" && d != Repeat([d[0]], 14)
  {
    var d := "12345678000195";
    assert d[..12] == "123456780001" && d[12..] == "95";
    assert Repeat(['1'], 14)[1] == '1' by {
      RepeatAllDigits('1', 14);
    }
  }

  // ---------------------------------------------------------------------
  // The other validators

  /** `validate_cep`: empty or missing passes; otherwise NNNNN-NNN with the hyphen optional. */
  function ValidateCep(value: Option<string>): (v: Verdict)
    ensures v == Accepted <==> !Truthy(value) || Match(value.value, CepPattern())
    ensures v != Accepted ==> v == Rejected("CEP inválido. Use XXXXX-XXX.")
  {
    if Truthy(value) && !Match(value.value, CepPattern()) then Rejected("CEP inválido. Use XXXXX-XXX.") else Accepted
  }

  /** An accepted, non-empty CEP has exactly 8 digits. */
  lemma AcceptedCepHasEightDigits(value: string)
    requires value != "" && ValidateCep(Some(value)) == Accepted
    ensures |OnlyDigits(value)| == 8
  {
    CepPatternFacts();
    MatchDigitCount(value, CepPattern());
  }

  /** `validate_cnae`: empty or missing passes; otherwise NNNN-N/NN exactly. */
  function ValidateCnae(value: Option<string>): (v: Verdict)
    ensures v == Accepted <==> !Truthy(value) || Match(value.value, CnaePattern())
    ensures v != Accepted ==> v == Rejected("CNAE inválido. Use NNNN-N/NN.")
  {
    if Truthy(value) && !Match(value.value, CnaePattern()) then Rejected("CNAE inválido. Use NNNN-N/NN.") else Accepted
  }

  /** `^\+?\d{8,15}$`. */
  predicate PhoneShape(s: string)
  {
    var t := if s != [] && s[0] == '+' then s[1..] else s;
    8 <= |t| <= 15 && AllDigits(t)
  }

  /** `validate_phone`: empty or missing passes; otherwise an optional '+' and 8 to 15 digits. */
  function ValidatePhone(value: Option<string>): (v: Verdict)
    ensures v == Accepted <==> !Truthy(value) || PhoneShape(value.value)
    ensures v != Accepted ==> v == Rejected("Telefone inválido. Use apenas dígitos.")
  {
    if Truthy(value) && !PhoneShape(value.value) then Rejected("Telefone inválido. Use apenas dígitos.") else Accepted
  }

  /** An accepted phone number carries 8 to 15 digits. */
  lemma AcceptedPhoneDigits(value: string)
    requires value != "" && ValidatePhone(Some(value)) == Accepted
    ensures 8 <= |OnlyDigits(value)| <= 15
  {
    var t := if value[0] == '+' then value[1..] else value;
    OnlyDigitsOfDigits(t);
    if value[0] == '+' {
      OnlyDigitsAppend("+", t);
      assert value == "+" + t;
    }
  }

  /** `validate_ie`: None passes; a string must contain something besides whitespace. */
  function ValidateIe(value: Option<string>): (v: Verdict)
    ensures v != Accepted <==> value.Some? && forall i :: 0 <= i < |value.value| ==> IsSpace(value.value[i])
    ensures v != Accepted ==> v == Rejected("Inscrição Estadual inválida.")
  {
    if value.Some? then TrimEmptyIffBlank(value.value); ValidateRegistration(value, "Inscrição Estadual inválida.")
    else ValidateRegistration(value, "Inscrição Estadual inválida.")
  }

  /** `validate_im`: None passes; a string must contain something besides whitespace. */
  function ValidateIm(value: Option<string>): (v: Verdict)
    ensures v != Accepted <==> value.Some? && forall i :: 0 <= i < |value.value| ==> IsSpace(value.value[i])
    ensures v != Accepted ==> v == Rejected("Inscrição Municipal inválida.")
  {
    if value.Some? then TrimEmptyIffBlank(value.value); ValidateRegistration(value, "Inscrição Municipal inválida.")
    else ValidateRegistration(value, "Inscrição Municipal inválida.")
  }

  /** `value is not None and not value.strip()` raises. */
  function ValidateRegistration(value: Option<string>, message: string): Verdict
  {
    if value.Some? && Trim(value.value) == "" then Rejected(message) else Accepted
  }
}

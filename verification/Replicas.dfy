/** The replica values a workload can be scaled to, their text form, and the parser that reads
    the text back (`internal/pkg/values/replicas.go`). The text form matters because it is the only
    memory of a workload's original value while the workload is scaled down. */
module Replicas {
  import opened Wrappers
  import opened Decimal

  /** util.Undefined: "no replica count set". */
  const UNDEFINED: Int32 := -1

  datatype Replicas =
    | Absolute(n: Int32)
    | Percentage(p: Int64)
    | Boolean(b: bool)
    | Text(s: string)
  {
    function String(): string {
      match this
      case Absolute(n) => Itoa(n)
      case Percentage(p) => Itoa(p) + "%"
      case Boolean(b) => if b then "true" else "false"
      case Text(s) => s
    }

    function AsInt32(): Option<Int32> {
      if Absolute? then Some(n) else None
    }

    function AsBool(): Option<bool> {
      if Boolean? then Some(b) else None
    }

    function AsIntStr(): IntOrString {
      match this
      case Absolute(n) => Int(n)
      case _ => Str(String())
    }
  }

  /** intstr.IntOrString: the type of a disruption budget's two limits. */
  datatype IntOrString = Int(n: Int32) | Str(s: string)

  /** NewReplicasFromIntOrStr: a text limit is read as a percentage whatever it says. */
  function FromIntOrStr(limit: IntOrString): Replicas {
    match limit
    case Int(n) => Absolute(n)
    case Str(s) => Percentage(AtoiUnchecked(TrimPercent(s)))
  }

  predicate EndsInPercent(s: string) {
    s != [] && s[|s| - 1] == '%'
  }

  function TrimPercent(s: string): string {
    if EndsInPercent(s) then s[..|s| - 1] else s
  }

  // ----- characters -----

  /** The code points from 128 up that `unicode.IsLetter` accepts. Left open: every result below
      holds for whatever set this is. */
  const NON_ASCII_LETTERS: set<char>

  predicate IsLetter(c: char) {
    'a' <= c <= 'z' || 'A' <= c <= 'Z' || (c >= 128 as char && c in NON_ASCII_LETTERS)
  }

  predicate IsAlpha(s: string) {
    forall c <- s :: IsLetter(c)
  }

  /** `unicode.ToLower` on ASCII. No other code point lowers to a letter of "true" or "false", which
      are the only texts a lowered string is compared with. */
  function ToLower(c: char): char {
    if 'A' <= c <= 'Z' then c + 32 as char else c
  }

  function Lowered(s: string): (r: string)
    ensures |r| == |s| && forall i :: 0 <= i < |s| ==> r[i] == ToLower(s[i])
  {
    seq(|s|, i requires 0 <= i < |s| => ToLower(s[i]))
  }

  predicate IsBooleanString(s: string) {
    Lowered(s) == "true" || Lowered(s) == "false"
  }

  // ----- parsing -----

  /** The three ways a single-kind parser can answer. */
  datatype ParseAttempt<+T> = NotMatched | Invalid | Matched(value: T)

  function ParseAbsolute(text: string): ParseAttempt<Replicas> {
    match ParseInt32(text)
    case Some(n) => if n < 0 && n != UNDEFINED then Invalid else Matched(Absolute(n))
    case None => NotMatched
  }

  function ParsePercentage(text: string): ParseAttempt<Replicas> {
    if !EndsInPercent(text) then NotMatched
    else
      match ParseInt64(TrimPercent(text))
      case Some(p) => if p < 0 || p > 100 then Invalid else Matched(Percentage(p))
      case None => NotMatched
  }

  function ParseBoolean(text: string): ParseAttempt<Replicas> {
    if IsBooleanString(text) then Matched(Boolean(Lowered(text) == "true")) else NotMatched
  }

  /** ReplicasValue.Set, as a function of the text: the kinds are tried in this order, and a kind that
      recognises the text but rejects its value ends the search. */
  function Parse(text: string): Option<Replicas> {
    match ParseAbsolute(text)
    case Invalid => None
    case Matched(r) => Some(r)
    case NotMatched =>
      match ParsePercentage(text)
      case Invalid => None
      case Matched(r) => Some(r)
      case NotMatched =>
        match ParseBoolean(text)
        case Matched(r) => Some(r)
        case _ => if IsAlpha(text) then Some(Text(text)) else None
  }

  /** The flag value of the source: Set writes through to the replicas it points at. */
  class ReplicasValue {
    var replicas: Option<Replicas>

    constructor (initial: Option<Replicas>)
      ensures replicas == initial
    {
      replicas := initial;
    }

    method Set(text: string) returns (ok: bool)
      modifies this
      ensures ok == Parse(text).Some?
      ensures replicas == if ok then Parse(text) else old(replicas)
    {
      var absolute := ParseAbsolute(text);
      if absolute.Invalid? {
        return false;
      }
      if absolute.Matched? {
        replicas := Some(absolute.value);
        return true;
      }
      var percentage := ParsePercentage(text);
      if percentage.Invalid? {
        return false;
      }
      if percentage.Matched? {
        replicas := Some(percentage.value);
        return true;
      }
      var boolean := ParseBoolean(text);
      if boolean.Matched? {
        replicas := Some(boolean.value);
        return true;
      }
      if IsAlpha(text) {
        replicas := Some(Text(text));
        return true;
      }
      return false;
    }
  }

  // ----- the codec laws -----

  /** The values whose text reads back as themselves. */
  predicate Storable(r: Replicas) {
    match r
    case Absolute(n) => n >= UNDEFINED
    case Percentage(p) => 0 <= p <= 100
    case Boolean(_) => true
    case Text(s) => IsAlpha(s) && !IsBooleanString(s)
  }

  /** A value survives the annotation exactly when it is storable. */
  lemma RoundTrip(r: Replicas)
    ensures Parse(r.String()) == Some(r) <==> Storable(r)
  {
    match r
    case Absolute(n) => CountReads(n);
    case Percentage(p) => PercentTextReads(p);
    case Boolean(b) => BooleanReads(b);
    case Text(s) => TextReads(s);
  }

  lemma CountReads(n: Int32)
    ensures Parse(Itoa(n)) == if n >= UNDEFINED then Some(Absolute(n)) else None
  {
    ScanIntOfPrinted(n, MIN_INT32, MAX_INT32);
  }

  lemma BooleanReads(b: bool)
    ensures Parse(Boolean(b).String()) == Some(Boolean(b))
  {
    LettersAreNotNumbers(Boolean(b).String());
  }

  /** Booleans read in any case. */
  lemma BooleansInAnyCase(text: string)
    ensures Lowered(text) == "true" ==> Parse(text) == Some(Boolean(true))
    ensures Lowered(text) == "false" ==> Parse(text) == Some(Boolean(false))
  {
    if Lowered(text) == "true" || Lowered(text) == "false" {
      LoweredLetters(text);
      LettersAreNotNumbers(text);
    }
  }

  lemma LoweredLetters(text: string)
    requires IsAlpha(Lowered(text)) && forall c <- Lowered(text) :: c < 128 as char
    ensures IsAlpha(text)
  {
    forall c | c in text ensures IsLetter(c) {
      var i :| 0 <= i < |text| && text[i] == c;
      assert Lowered(text)[i] in Lowered(text);
    }
  }

  lemma TextReads(s: string)
    ensures Parse(s) == Some(Text(s)) <==> Storable(Text(s))
  {
    if IsAlpha(s) { LettersAreNotNumbers(s); }
  }

  lemma PercentTextReads(p: Int64)
    ensures ParseAbsolute(Itoa(p) + "%").NotMatched?
    ensures ParsePercentage(Itoa(p) + "%") == if 0 <= p <= 100 then Matched(Percentage(p)) else Invalid
    ensures FromIntOrStr(Str(Itoa(p) + "%")) == Percentage(p)
  {
    var text := Itoa(p) + "%";
    assert TrimPercent(text) == Itoa(p);
    ScanIntOfPrinted(p, MIN_INT64, MAX_INT64);
    PercentIsNotANumber(text, MIN_INT32, MAX_INT32);
  }

  lemma {:induction false} BadLastCharacter(s: string, acc: nat)
    requires s != [] && !IsDigit(s[|s| - 1])
    ensures !ScanDigits(s, acc).Value?
  {
    if |s| == 1 || !IsDigit(s[0]) || 10 * acc + DigitValue(s[0]) > MAX_UINT64 {
    } else {
      BadLastCharacter(s[1..], 10 * acc + DigitValue(s[0]));
    }
  }

  lemma PercentIsNotANumber(text: string, lo: int, hi: int)
    requires lo < 0 < hi && EndsInPercent(text)
    ensures !ScanInt(text, lo, hi).Value?
  {
    BadLastCharacter(text, 0);
    if |text| > 1 { BadLastCharacter(text[1..], 0); }
  }

  lemma LettersAreNotNumbers(text: string)
    requires IsAlpha(text)
    ensures ParseAbsolute(text).NotMatched? && ParsePercentage(text).NotMatched?
    ensures ScanInt(text, MIN_INT64, MAX_INT64) == Syntax
  {
    if text != [] {
      assert IsLetter(text[0]) && IsLetter(text[|text| - 1]);
    }
  }

  /** Every accepted text denotes a storable value, so printing and reading again is stable. */
  lemma ParsedIsStorable(text: string)
    ensures Parse(text).Some? ==> Storable(Parse(text).value)
  {
  }

  lemma ReprintIsStable(text: string)
    requires Parse(text).Some?
    ensures Parse(Parse(text).value.String()) == Parse(text)
  {
    ParsedIsStorable(text);
    RoundTrip(Parse(text).value);
  }

  /** The texts that come back letter for letter from being read and printed: canonical decimals from
      -1 up, canonical percentages up to 100, lower-case booleans, and other all-letter texts. */
  predicate Verbatim(text: string) {
    if ParseInt32(text).Some? then
      CanonicalDecimal(text) && ParseInt32(text).value >= UNDEFINED
    else if EndsInPercent(text) then
      var front := TrimPercent(text);
      ParseInt64(front).Some? && CanonicalDecimal(front) && 0 <= ParseInt64(front).value <= 100
    else if IsBooleanString(text) then
      text == "true" || text == "false"
    else
      IsAlpha(text)
  }

  lemma VerbatimExactly(text: string)
    ensures Verbatim(text) <==> Parse(text).Some? && Parse(text).value.String() == text
  {
    if ParseInt32(text).Some? {
      PrintedIffCanonical(text, MIN_INT32, MAX_INT32);
    } else if EndsInPercent(text) {
      PercentVerbatim(text);
    }
  }

  lemma PercentVerbatim(text: string)
    requires EndsInPercent(text)
    ensures Verbatim(text) <==> Parse(text).Some? && Parse(text).value.String() == text
  {
    var front := TrimPercent(text);
    PercentParses(text);
    PercentIsNotANumber(text, MIN_INT32, MAX_INT32);
    if ParseInt64(front).Some? {
      hide Parse;
      var p := ParseInt64(front).value;
      PrintedIffCanonical(front, MIN_INT64, MAX_INT64);
      assert (Itoa(p) + "%")[..|Itoa(p)|] == Itoa(p);
      assert text == front + "%";
    }
  }

  lemma PercentParses(text: string)
    requires EndsInPercent(text)
    ensures Parse(text) ==
            match ParseInt64(TrimPercent(text))
            case Some(p) => if 0 <= p <= 100 then Some(Percentage(p)) else None
            case None => None
  {
    PercentIsNotANumber(text, MIN_INT32, MAX_INT32);
    assert Lowered(text)[|text| - 1] == '%';
    assert '%' in text && !IsLetter('%');
  }

  /** Ordinary ingress class names that are lost on the way: a hyphen is not a letter. */
  lemma HyphenIsNotVerbatim()
    ensures Parse("nginx-internal") == None && !Verbatim("nginx-internal")
  {
    var text := "nginx-internal";
    BadLastCharacter(text, 0);
    hide ScanDigits;
    assert text[0] == 'n' && text[5] == '-' && text[5] in text && !IsLetter('-');
    assert ParseInt32(text).None?;
    hide ParseInt32;
    assert |Lowered(text)| == 14;
  }

  // ----- disruption-budget limits -----

  /** The targets that a limit reads back as themselves; every other kind of target is read back as a
      percentage. */
  predicate LimitKind(r: Replicas) {
    r.Absolute? || r.Percentage?
  }

  /** A text limit is a percentage whether or not it says so; beyond 64 bits it is the nearest one, and no number is
      0%. */
  lemma TextLimitReads(p: int)
    requires -MAX_UINT64 <= p <= MAX_UINT64
    ensures var nearest := if p < MIN_INT64 then MIN_INT64 else if p > MAX_INT64 then MAX_INT64 else p;
            FromIntOrStr(Str(Itoa(p))) == FromIntOrStr(Str(Itoa(p) + "%")) == Percentage(nearest)
  {
    assert TrimPercent(Itoa(p) + "%") == Itoa(p);
    ScanIntOfPrinted(p, MIN_INT64, MAX_INT64);
    ScanIntOfPrinted(p, -MAX_UINT64, MAX_UINT64);
    ItoaIsCanonical(p);
    assert !EndsInPercent(Itoa(p)) by {
      if p >= 0 { assert Itoa(p)[|Itoa(p)| - 1] in Digits(p); } else { assert Itoa(p)[|Itoa(p)| - 1] in Digits(-p); }
    }
  }

  lemma LimitReadsBack(r: Replicas)
    requires LimitKind(r)
    ensures FromIntOrStr(r.AsIntStr()) == r
  {
    if r.Percentage? { PercentTextReads(r.p); }
  }

  lemma LetterTargetsDoNotReadBack(r: Replicas)
    requires Storable(r) && !LimitKind(r)
    ensures FromIntOrStr(r.AsIntStr()).String() == "0%" != r.String()
  {
    var text := r.String();
    LettersAreNotNumbers(text);
    assert !EndsInPercent(text) by { if text != [] { assert IsLetter(text[|text| - 1]); } }
    assert Itoa(0) == "0";
  }

  /** The limits a disruption budget can carry in text form that survive being recorded. */
  predicate StorableLimit(limit: IntOrString) {
    match limit
    case Int(n) => n >= UNDEFINED
    case Str(s) =>
      EndsInPercent(s) && CanonicalDecimal(TrimPercent(s)) &&
      ParseInt64(TrimPercent(s)).Some? && 0 <= ParseInt64(TrimPercent(s)).value <= 100
  }

  lemma LimitRoundTrip(limit: IntOrString)
    ensures var parsed := Parse(FromIntOrStr(limit).String());
            StorableLimit(limit) <==> parsed.Some? && parsed.value.AsIntStr() == limit
  {
    match limit
    case Int(n) => CountReads(n);
    case Str(s) =>
      hide Parse, FromIntOrStr;
      LimitReads(limit);
      PercentLimitRoundTrip(s);
  }

  /** A limit reads as a count or a percentage, and its record parses exactly when that is storable. */
  lemma LimitReads(limit: IntOrString)
    ensures var r := FromIntOrStr(limit);
            LimitKind(r) && Parse(r.String()) == if Storable(r) then Some(r) else None
  {
    var r := FromIntOrStr(limit);
    hide AtoiUnchecked;
    if r.Absolute? { CountReads(r.n); } else { PercentReads(r.p); }
  }

  lemma PercentReads(p: Int64)
    ensures Parse(Itoa(p) + "%") == if 0 <= p <= 100 then Some(Percentage(p)) else None
  {
    hide ParsePercentage;
    PercentTextReads(p);
  }

  /** The percentage limits that print as they are. */
  lemma PercentLimitRoundTrip(s: string)
    ensures var r := FromIntOrStr(Str(s));
            r.Percentage? && (StorableLimit(Str(s)) <==> Storable(r) && r.String() == s)
  {
    hide Parse;
    var p := FromIntOrStr(Str(s)).p;
    var printed := Itoa(p);
    assert TrimPercent(printed + "%") == printed;
    if StorableLimit(Str(s)) {
      PrintedIffCanonical(TrimPercent(s), MIN_INT64, MAX_INT64);
      assert s == TrimPercent(s) + "%";
    } else if s == printed + "%" {
      ItoaIsCanonical(p);
      ScanIntOfPrinted(p, MIN_INT64, MAX_INT64);
    }
  }
}

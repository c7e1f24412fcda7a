/**
 * The checks `on_calculate` runs on the four entry fields before anything is
 * computed. Each field is stripped first; then, in this order:
 *   1. both count fields empty             -> MissingCount
 *   2. either unit-cost field empty        -> MissingUnitCost
 *   3. a present field is not an integer   -> NotANumber
 *   4. a parsed value is negative          -> NegativeValue
 * An empty count field, when the other count is present, is read as 0.
 */
module Validation {
  import opened Numerals
  import opened Quote

  /** The raw text of the four entry fields, as the widgets return it. */
  datatype Fields = Fields(traffic: string, storage: string, trafficUnitCost: string, storageUnitCost: string)

  datatype Error = MissingCount | MissingUnitCost | NotANumber | NegativeValue

  datatype Result<T> = Ok(value: T) | Err(error: Error)

  /** The text shown for each rejection. */
  function Message(e: Error): (m: string)
    ensures |m| > 2 && m[..2] == "❌ "
  {
    match e
    case MissingCount => "❌ 최소한 하나의 건수를 입력해주세요!"
    case MissingUnitCost => "❌ 단가를 모두 입력해주세요!"
    case NotANumber => "❌ 숫자만 입력해주세요!"
    case NegativeValue => "❌ 음수는 입력할 수 없습니다."
  }

  /** Every rejection has its own message. */
  lemma MessagesDistinct(e: Error, e': Error)
    requires e != e'
    ensures Message(e) != Message(e')
  {
    var m, m' := Message(e), Message(e');
    assert m[2] != m'[2];
  }

  /** A count field: empty means 0, otherwise it must parse; only a `-` numeral is negative. */
  function CountValue(s: string): (r: Option<int>)
    ensures s == [] ==> r == Some(0)
    ensures r.Some? && r.value < 0 ==> s != [] && s[0] == '-'
  {
    if s == [] then Some(0) else ParseInt(s)
  }

  /**
   * The checks, in order, on the four stripped fields. A missing count is
   * reported exactly when both counts are empty, and an accepted form has a
   * count and both unit costs.
   */
  function Check(traffic: string, storage: string, trafficUnitCost: string, storageUnitCost: string): (r: Result<Inputs>)
    ensures r == Err(MissingCount) <==> traffic == [] && storage == []
    ensures r.Ok? ==> (traffic != [] || storage != []) && trafficUnitCost != [] && storageUnitCost != []
  {
    if traffic == [] && storage == [] then Err(MissingCount)
    else if trafficUnitCost == [] || storageUnitCost == [] then Err(MissingUnitCost)
    else
      var a, b := CountValue(traffic), CountValue(storage);
      var c, d := ParseInt(trafficUnitCost), ParseInt(storageUnitCost);
      if a.None? || b.None? || c.None? || d.None? then Err(NotANumber)
      else if a.value < 0 || b.value < 0 || c.value < 0 || d.value < 0 then Err(NegativeValue)
      else Ok(Inputs(a.value, b.value, c.value, d.value))
  }

  /** The checks on the fields as typed: each is stripped first, so whitespace alone counts as empty. */
  function Validate(raw: Fields): (r: Result<Inputs>)
    ensures r == Err(MissingCount) <==> Strip(raw.traffic) == [] && Strip(raw.storage) == []
  {
    Check(Strip(raw.traffic), Strip(raw.storage), Strip(raw.trafficUnitCost), Strip(raw.storageUnitCost))
  }

  // ---------------------------------------------------------------------
  // Precedence of the rejections
  // ---------------------------------------------------------------------

  /** Rule 1 comes first: with no count at all, nothing else is looked at. */
  lemma NoCountFirst(raw: Fields)
    requires Strip(raw.traffic) == [] && Strip(raw.storage) == []
    ensures Validate(raw) == Err(MissingCount)
  {
  }

  /** Rule 2: a count is given but a unit cost is missing; nothing is parsed. */
  lemma MissingUnitCostSecond(raw: Fields)
    requires Strip(raw.traffic) != [] || Strip(raw.storage) != []
    requires Strip(raw.trafficUnitCost) == [] || Strip(raw.storageUnitCost) == []
    ensures Validate(raw) == Err(MissingUnitCost)
  {
  }

  /** True when some present field is not an integer numeral. */
  predicate SomeUnparsable(raw: Fields)
  {
    || CountValue(Strip(raw.traffic)).None?
    || CountValue(Strip(raw.storage)).None?
    || ParseInt(Strip(raw.trafficUnitCost)).None?
    || ParseInt(Strip(raw.storageUnitCost)).None?
  }

  /**
   * Rule 3: all four fields are parsed before any sign is checked, so a
   * field that is not a number wins even when another field is negative.
   */
  lemma NotANumberBeatsNegative(raw: Fields)
    requires Strip(raw.traffic) != [] || Strip(raw.storage) != []
    requires Strip(raw.trafficUnitCost) != [] && Strip(raw.storageUnitCost) != []
    requires SomeUnparsable(raw)
    ensures Validate(raw) == Err(NotANumber)
  {
  }

  /** Rule 4: every field parses but one value is below zero. */
  lemma NegativeRejected(raw: Fields)
    requires Strip(raw.traffic) != [] || Strip(raw.storage) != []
    requires Strip(raw.trafficUnitCost) != [] && Strip(raw.storageUnitCost) != []
    requires !SomeUnparsable(raw)
    requires || CountValue(Strip(raw.traffic)).value < 0
             || CountValue(Strip(raw.storage)).value < 0
             || ParseInt(Strip(raw.trafficUnitCost)).value < 0
             || ParseInt(Strip(raw.storageUnitCost)).value < 0
    ensures Validate(raw) == Err(NegativeValue)
  {
  }

  // ---------------------------------------------------------------------
  // What is accepted
  // ---------------------------------------------------------------------

  /** `text`, once stripped, is the numeral of `n`, or (for a count) empty and `n` is 0. */
  predicate Denotes(text: string, n: nat, emptyIsZero: bool)
  {
    var s := Strip(text);
    (emptyIsZero && s == [] && n == 0) || ParseInt(s) == Some(n)
  }

  /**
   * The fields are accepted with exactly the values `inp` when some count is
   * given, both unit costs are given, and every field denotes its value.
   */
  lemma AcceptedExactly(raw: Fields, inp: Inputs)
    ensures Validate(raw) == Ok(inp) <==>
      && (Strip(raw.traffic) != [] || Strip(raw.storage) != [])
      && Denotes(raw.traffic, inp.traffic, true)
      && Denotes(raw.storage, inp.storage, true)
      && Denotes(raw.trafficUnitCost, inp.trafficUnitCost, false)
      && Denotes(raw.storageUnitCost, inp.storageUnitCost, false)
  {
  }

  /** An accepted quote always has a count; an empty count is read as 0. */
  lemma AcceptedHasCount(raw: Fields)
    requires Validate(raw).Ok?
    ensures Strip(raw.traffic) != [] || Strip(raw.storage) != []
    ensures Strip(raw.traffic) == [] ==> Validate(raw).value.traffic == 0
    ensures Strip(raw.storage) == [] ==> Validate(raw).value.storage == 0
  {
  }

  /** The numerals of any non-negative values pass every check with exactly those values. */
  lemma CheckNumerals(inp: Inputs)
    ensures Check(Digits(inp.traffic), Digits(inp.storage), Digits(inp.trafficUnitCost), Digits(inp.storageUnitCost))
         == Ok(inp)
  {
    ParseDigits(inp.traffic);
    ParseDigits(inp.storage);
    ParseDigits(inp.trafficUnitCost);
    ParseDigits(inp.storageUnitCost);
  }

  predicate Blank(s: string)
  {
    forall i :: 0 <= i < |s| ==> IsSpace(s[i])
  }

  /**
   * Typing the numerals of any non-negative values, each with its own
   * whitespace before (`pre`) and after (`post`), gives back exactly those
   * values.
   */
  lemma TypedValuesAccepted(inp: Inputs, pre: Fields, post: Fields)
    requires Blank(pre.traffic) && Blank(pre.storage) && Blank(pre.trafficUnitCost) && Blank(pre.storageUnitCost)
    requires Blank(post.traffic) && Blank(post.storage) && Blank(post.trafficUnitCost) && Blank(post.storageUnitCost)
    ensures Validate(Fields(pre.traffic + Digits(inp.traffic) + post.traffic,
                            pre.storage + Digits(inp.storage) + post.storage,
                            pre.trafficUnitCost + Digits(inp.trafficUnitCost) + post.trafficUnitCost,
                            pre.storageUnitCost + Digits(inp.storageUnitCost) + post.storageUnitCost))
         == Ok(inp)
  {
    StripNumeral(pre.traffic, inp.traffic, post.traffic);
    StripNumeral(pre.storage, inp.storage, post.storage);
    StripNumeral(pre.trafficUnitCost, inp.trafficUnitCost, post.trafficUnitCost);
    StripNumeral(pre.storageUnitCost, inp.storageUnitCost, post.storageUnitCost);
    CheckNumerals(inp);
  }

  lemma StripNumeral(pre: string, n: nat, post: string)
    requires Blank(pre) && Blank(post)
    ensures Strip(pre + Digits(n) + post) == Digits(n)
  {
    var s := Digits(n);
    assert IsDigit(s[0]) && IsDigit(s[|s| - 1]);
    StripPadded(pre, s, post);
  }

  /** Leaving the traffic count empty reads it as 0 when storage is given. */
  lemma EmptyTrafficIsZero(storage: nat, trafficUnitCost: nat, storageUnitCost: nat)
    ensures Validate(Fields("", Digits(storage), Digits(trafficUnitCost), Digits(storageUnitCost)))
         == Ok(Inputs(0, storage, trafficUnitCost, storageUnitCost))
  {
    var raw := Fields("", Digits(storage), Digits(trafficUnitCost), Digits(storageUnitCost));
    ValidateUnpadded(raw);
    assert Check("", Digits(storage), Digits(trafficUnitCost), Digits(storageUnitCost))
        == Ok(Inputs(0, storage, trafficUnitCost, storageUnitCost)) by {
      ParseDigits(storage);
      ParseDigits(trafficUnitCost);
      ParseDigits(storageUnitCost);
    }
  }

  /** Text without surrounding whitespace is checked exactly as typed. */
  lemma ValidateUnpadded(raw: Fields)
    requires raw.traffic == [] || (!IsSpace(raw.traffic[0]) && !IsSpace(raw.traffic[|raw.traffic| - 1]))
    requires raw.storage == [] || (!IsSpace(raw.storage[0]) && !IsSpace(raw.storage[|raw.storage| - 1]))
    requires raw.trafficUnitCost == []
          || (!IsSpace(raw.trafficUnitCost[0]) && !IsSpace(raw.trafficUnitCost[|raw.trafficUnitCost| - 1]))
    requires raw.storageUnitCost == []
          || (!IsSpace(raw.storageUnitCost[0]) && !IsSpace(raw.storageUnitCost[|raw.storageUnitCost| - 1]))
    ensures Validate(raw) == Check(raw.traffic, raw.storage, raw.trafficUnitCost, raw.storageUnitCost)
  {
    if raw.traffic != [] { StripUnpadded(raw.traffic); }
    if raw.storage != [] { StripUnpadded(raw.storage); }
    if raw.trafficUnitCost != [] { StripUnpadded(raw.trafficUnitCost); }
    if raw.storageUnitCost != [] { StripUnpadded(raw.storageUnitCost); }
  }

  // ---------------------------------------------------------------------
  // Examples (on the stripped text)
  // ---------------------------------------------------------------------

  /** `int("-0")` is 0, which is not negative: "-0" is accepted as zero. */
  lemma MinusZeroAccepted()
    ensures Check("-0", "", "50", "50") == Ok(Inputs(0, 0, 50, 50))
  {
    ParseDigits(0);
    ParseDigits(50);
    assert "-" + Digits(0) == "-0";
    assert Digits(50) == "50";
  }

  /** A negative traffic count is refused once everything parses. */
  lemma NegativeTrafficExample()
    ensures Check("-5", "", "50", "50") == Err(NegativeValue)
  {
    ParseDigits(5);
    ParseDigits(50);
    assert "-" + Digits(5) == "-5";
    assert Digits(50) == "50";
  }

  /** Text in a count field is refused as not a number, even with a negative unit cost. */
  lemma TextBeatsNegativeExample()
    ensures Check("ten", "", "-50", "50") == Err(NotANumber)
  {
    ParseRejectsStray("ten", 0);
  }

  /** Blank or whitespace-only counts are a missing count, whatever the unit costs hold. */
  lemma BlankCountsExample(pad: string, trafficUnitCost: string, storageUnitCost: string)
    requires Blank(pad)
    ensures Validate(Fields(pad, "", trafficUnitCost, storageUnitCost)) == Err(MissingCount)
  {
    assert Strip(pad) == [];
  }
}

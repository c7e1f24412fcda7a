/**
 * What the result area of the form shows. The area is a text widget that
 * is editable only between a `normal` and a `disabled` configuration; every
 * press of the button clears it and inserts either one error message or the
 * guarded list of cost lines, the VAT-inclusive one under the `bold_blue`
 * tag.
 */
module ResultView {
  import opened Numerals
  import opened Quote
  import opened Validation

  /** The text tags the result area uses. */
  datatype Tag = Plain | BoldBlue

  /** One `insert` into the result area: its text and its tag. */
  datatype Segment = Segment(text: string, tag: Tag)

  /** What one press of the button produces. */
  datatype Outcome = Error(message: string) | Lines(segments: seq<Segment>)

  // ---------------------------------------------------------------------
  // The lines of a quote
  // ---------------------------------------------------------------------

  /** The lines a quote can show, in the order `calculate_cost` inserts them. */
  datatype Line =
    | TrafficCost | StorageCost | DailyCost | WeeklyCost | WeeklyCostWithVat
    | Gap | CompanyName | BankAccount

  /** Position of a line in the insertion order. */
  function Rank(line: Line): nat
  {
    match line
    case TrafficCost => 0
    case StorageCost => 1
    case DailyCost => 2
    case WeeklyCost => 3
    case WeeklyCostWithVat => 4
    case Gap => 5
    case CompanyName => 6
    case BankAccount => 7
  }

  /**
   * The lines shown for the given counts, each one only when its guard holds.
   * Nothing is shown without load; otherwise the bank account comes last.
   */
  function Selected(traffic: nat, storage: nat): (r: seq<Line>)
    ensures r == [] <==> traffic == 0 && storage == 0
    ensures r != [] ==> r[|r| - 1] == BankAccount
  {
    (if traffic > 0 then [TrafficCost] else [])
    + (if storage > 0 then [StorageCost] else [])
    + (if traffic > 0 || storage > 0
       then [DailyCost, WeeklyCost, WeeklyCostWithVat, Gap, CompanyName, BankAccount]
       else [])
  }

  /** The text and tag one line is inserted with; only the VAT-inclusive total is `bold_blue`. */
  function Show(line: Line, q: Quote): (r: Segment)
    requires 0.0 <= q.weeklyTotalWithVat
    ensures r.text != []
    ensures r.tag == BoldBlue <==> line == WeeklyCostWithVat
  {
    match line
    case TrafficCost => Segment("트래픽 비용: " + Grouped(q.trafficCost) + " 원\n", Plain)
    case StorageCost => Segment("저장하기 비용: " + Grouped(q.storageCost) + " 원\n", Plain)
    case DailyCost => Segment("일 소진 비용: " + Grouped(q.dailyTotal) + " 원\n\n", Plain)
    case WeeklyCost => Segment("7일 작업 총 비용 (부가세 미포함): " + Grouped(q.weeklyTotal) + " 원\n", Plain)
    case WeeklyCostWithVat =>
      Segment("7일 작업 총 비용 (부가세 포함): " + Grouped(DisplayedVatTotal(q)) + " 원", BoldBlue)
    case Gap => Segment("\n\n", Plain)
    case CompanyName => Segment("주식회사 다인기획\n", Plain)
    case BankAccount => Segment("국민은행: 900901-01-688580", Plain)
  }

  /** The segments of the given lines, in the same order. */
  function ShowAll(lines: seq<Line>, q: Quote): (r: seq<Segment>)
    requires 0.0 <= q.weeklyTotalWithVat
    ensures |r| == |lines|
  {
    if lines == [] then [] else ShowAll(lines[..|lines| - 1], q) + [Show(lines[|lines| - 1], q)]
  }

  /** The `i`-th segment shown is the `i`-th line's. */
  lemma {:induction false} ShowAllAt(lines: seq<Line>, q: Quote, i: nat)
    requires 0.0 <= q.weeklyTotalWithVat
    requires i < |lines|
    ensures ShowAll(lines, q)[i] == Show(lines[i], q)
  {
    if i < |lines| - 1 {
      ShowAllAt(lines[..|lines| - 1], q, i);
    }
  }

  /** The segments of an accepted quote, in display order; none without load. */
  function CostLines(inp: Inputs, vatRate: nat): (r: seq<Segment>)
    ensures r == [] <==> inp.traffic == 0 && inp.storage == 0
  {
    ShowAll(Selected(inp.traffic, inp.storage), ComputeQuote(inp, vatRate))
  }

  /** The outcome of one press: the first failed check's message, or the quote's lines. */
  function Calculate(raw: Fields): (r: Outcome)
    ensures r.Error? <==> Validate(raw).Err?
    ensures r.Error? ==> |r.message| > 2 && r.message[..2] == "❌ "
  {
    match Validate(raw)
    case Err(e) => Error(Message(e))
    case Ok(inp) => Lines(CostLines(inp, DefaultVatRate))
  }

  /** What the result area holds after showing an outcome: a message is one plain segment. */
  function Render(o: Outcome): (r: seq<Segment>)
    ensures o.Error? ==> r == [Segment(o.message, Plain)]
    ensures o.Lines? ==> r == o.segments
  {
    match o
    case Error(m) => [Segment(m, Plain)]
    case Lines(s) => s
  }

  // ---------------------------------------------------------------------
  // Properties of the line selection
  // ---------------------------------------------------------------------

  /** Different lines never show the same segment. */
  lemma ShowInjective(l: Line, l': Line, q: Quote)
    requires 0.0 <= q.weeklyTotalWithVat
    requires Show(l, q) == Show(l', q)
    ensures l == l'
  {
    var s, s' := Show(l, q), Show(l', q);
    assert s.text[0] == s'.text[0];
    if s.tag == Plain && s.text[0] == '7' {
      assert l == WeeklyCost && l' == WeeklyCost;
    }
  }

  /**
   * Each line is shown exactly when its guard holds: the traffic line for a
   * positive traffic count, the storage line for a positive storage count,
   * the totals and the footer when either count is positive.
   */
  lemma LineSelection(traffic: nat, storage: nat)
    ensures TrafficCost in Selected(traffic, storage) <==> traffic > 0
    ensures StorageCost in Selected(traffic, storage) <==> storage > 0
    ensures forall line :: line != TrafficCost && line != StorageCost ==>
      (line in Selected(traffic, storage) <==> traffic > 0 || storage > 0)
    ensures traffic == 0 && storage == 0 ==> Selected(traffic, storage) == []
  {
  }

  /** Lines are shown in the fixed order, none twice. */
  lemma LineOrder(traffic: nat, storage: nat)
    ensures var lines := Selected(traffic, storage);
      forall i, j :: 0 <= i < j < |lines| ==> Rank(lines[i]) < Rank(lines[j])
  {
  }

  /** The footer closes every quote that shows anything. */
  lemma FooterLast(traffic: nat, storage: nat)
    requires traffic > 0 || storage > 0
    ensures var lines := Selected(traffic, storage);
      |lines| >= 2 && lines[|lines| - 2..] == [CompanyName, BankAccount]
  {
  }

  /** The segments shown for a quote are exactly those of its selected lines. */
  lemma {:induction false} ShownIffSelected(inp: Inputs, vatRate: nat, line: Line)
    ensures Show(line, ComputeQuote(inp, vatRate)) in CostLines(inp, vatRate)
        <==> line in Selected(inp.traffic, inp.storage)
  {
    var q, lines := ComputeQuote(inp, vatRate), Selected(inp.traffic, inp.storage);
    var shown := CostLines(inp, vatRate);
    if Show(line, q) in shown {
      var i :| 0 <= i < |shown| && shown[i] == Show(line, q);
      ShowAllAt(lines, q, i);
      ShowInjective(lines[i], line, q);
    }
    if line in lines {
      var i :| 0 <= i < |lines| && lines[i] == line;
      ShowAllAt(lines, q, i);
    }
  }

  /**
   * Only the VAT-inclusive total is emphasised, and it is shown exactly
   * when some count is positive.
   */
  lemma {:induction false} OnlyVatEmphasised(inp: Inputs, vatRate: nat)
    ensures var q, shown := ComputeQuote(inp, vatRate), CostLines(inp, vatRate);
      && (forall i :: 0 <= i < |shown| && shown[i].tag == BoldBlue ==> shown[i] == Show(WeeklyCostWithVat, q))
      && ((exists i :: 0 <= i < |shown| && shown[i].tag == BoldBlue) <==> inp.traffic > 0 || inp.storage > 0)
  {
    var q, shown := ComputeQuote(inp, vatRate), CostLines(inp, vatRate);
    var lines := Selected(inp.traffic, inp.storage);
    forall i | 0 <= i < |shown| && shown[i].tag == BoldBlue ensures shown[i] == Show(WeeklyCostWithVat, q) {
      ShowAllAt(lines, q, i);
    }
    if exists i :: 0 <= i < |shown| && shown[i].tag == BoldBlue {
      var i :| 0 <= i < |shown| && shown[i].tag == BoldBlue;
      ShowAllAt(lines, q, i);
      assert lines[i] in lines;
    }
    LineSelection(inp.traffic, inp.storage);
    if inp.traffic > 0 || inp.storage > 0 {
      assert WeeklyCostWithVat in lines;
      var i :| 0 <= i < |lines| && lines[i] == WeeklyCostWithVat;
      ShowAllAt(lines, q, i);
    }
  }

  /** An accepted quote with no traffic and no storage shows nothing at all, and no error. */
  lemma NoLoadShowsNothing(raw: Fields)
    requires Validate(raw).Ok? && Validate(raw).value.traffic == 0 && Validate(raw).value.storage == 0
    ensures Calculate(raw) == Lines([]) && Render(Calculate(raw)) == []
  {
  }

  /** A rejected form shows its one message and no cost line. */
  lemma ErrorShownAlone(raw: Fields)
    requires Validate(raw).Err?
    ensures Render(Calculate(raw)) == [Segment(Message(Validate(raw).error), Plain)]
  {
  }

  /** An accepted form shows the quote of the accepted values at the default VAT rate. */
  lemma OutcomeFollowsValidation(raw: Fields)
    ensures Calculate(raw).Lines? ==> Calculate(raw).segments == CostLines(Validate(raw).value, DefaultVatRate)
  {
  }

  // ---------------------------------------------------------------------
  // The result area and the button handler
  // ---------------------------------------------------------------------

  /** The result text widget: its inserted segments and whether it accepts edits. */
  class ResultText {
    var segments: seq<Segment>
    var editable: bool

    /** The widget as the form leaves it after setup: empty and disabled. */
    constructor ()
      ensures segments == [] && !editable
    {
      segments := [];
      editable := false;
    }

    /** `config(state=...)`: `normal` when `on` holds, `disabled` otherwise. */
    method SetEditable(on: bool)
      modifies this
      ensures editable == on && segments == old(segments)
    {
      editable := on;
    }

    /** `delete(1.0, END)`; a disabled widget ignores it. */
    method Clear()
      modifies this
      ensures editable == old(editable)
      ensures segments == if editable then [] else old(segments)
    {
      if editable {
        segments := [];
      }
    }

    /** `insert(END, text, tag)`; a disabled widget ignores it. */
    method Insert(text: string, tag: Tag)
      modifies this
      ensures editable == old(editable)
      ensures segments == if editable then old(segments) + [Segment(text, tag)] else old(segments)
    {
      if editable {
        segments := segments + [Segment(text, tag)];
      }
    }

    /** Replaces everything shown by one message and locks the widget again. */
    method ShowError(message: string)
      modifies this
      ensures segments == [Segment(message, Plain)] && !editable
    {
      SetEditable(true);
      Clear();
      Insert(message, Plain);
      SetEditable(false);
    }

    /** Replaces everything shown by the lines of the quote for `inp` and locks the widget again. */
    method CalculateCost(inp: Inputs, vatRate: nat)
      modifies this
      ensures segments == CostLines(inp, vatRate) && !editable
    {
      var q := ComputeQuote(inp, vatRate);
      SetEditable(true);
      Clear();
      ghost var lines: seq<Line> := [];
      if inp.traffic > 0 {
        InsertLine(TrafficCost, q, lines);
        lines := lines + [TrafficCost];
      }
      if inp.storage > 0 {
        InsertLine(StorageCost, q, lines);
        lines := lines + [StorageCost];
      }
      if inp.traffic > 0 || inp.storage > 0 {
        InsertSummary(q, lines);
        lines := lines + [DailyCost, WeeklyCost, WeeklyCostWithVat, Gap, CompanyName, BankAccount];
      }
      assert lines == Selected(inp.traffic, inp.storage);
      SetEditable(false);
    }

    /** Inserts the daily, weekly and VAT-inclusive totals and the footer. */
    method InsertSummary(q: Quote, ghost shown: seq<Line>)
      requires 0.0 <= q.weeklyTotalWithVat
      requires editable && segments == ShowAll(shown, q)
      modifies this
      ensures editable
      ensures segments == ShowAll(shown + [DailyCost, WeeklyCost, WeeklyCostWithVat, Gap, CompanyName, BankAccount], q)
    {
      ghost var lines := shown;
      InsertLine(DailyCost, q, lines);
      lines := lines + [DailyCost];
      InsertLine(WeeklyCost, q, lines);
      lines := lines + [WeeklyCost];
      InsertLine(WeeklyCostWithVat, q, lines);
      lines := lines + [WeeklyCostWithVat];
      InsertLine(Gap, q, lines);
      lines := lines + [Gap];
      InsertLine(CompanyName, q, lines);
      lines := lines + [CompanyName];
      InsertLine(BankAccount, q, lines);
      lines := lines + [BankAccount];
      assert lines == shown + [DailyCost, WeeklyCost, WeeklyCostWithVat, Gap, CompanyName, BankAccount];
    }

    /** Inserts one line of a quote behind the lines already shown. */
    method InsertLine(line: Line, q: Quote, ghost shown: seq<Line>)
      requires 0.0 <= q.weeklyTotalWithVat
      requires editable && segments == ShowAll(shown, q)
      modifies this
      ensures editable && segments == ShowAll(shown + [line], q)
    {
      Insert(Show(line, q).text, Show(line, q).tag);
      assert (shown + [line])[..|shown|] == shown;
    }

    /**
     * The button handler: strip the fields, run the checks in order and show
     * the first failure's message, or the quote. Whatever was shown before
     * is gone afterwards.
     */
    method OnCalculate(raw: Fields)
      modifies this
      ensures segments == Render(Calculate(raw)) && !editable
    {
      var traffic := Strip(raw.traffic);
      var storage := Strip(raw.storage);
      var trafficUnitCost := Strip(raw.trafficUnitCost);
      var storageUnitCost := Strip(raw.storageUnitCost);
      assert Validate(raw) == Check(traffic, storage, trafficUnitCost, storageUnitCost);
      if traffic == [] && storage == [] {
        ShowError(Message(MissingCount));
        return;
      }
      if trafficUnitCost == [] || storageUnitCost == [] {
        ShowError(Message(MissingUnitCost));
        return;
      }
      var a, b := CountValue(traffic), CountValue(storage);
      var c, d := ParseInt(trafficUnitCost), ParseInt(storageUnitCost);
      if a.None? || b.None? || c.None? || d.None? {
        ShowError(Message(NotANumber));
        return;
      }
      if a.value < 0 || b.value < 0 || c.value < 0 || d.value < 0 {
        ShowError(Message(NegativeValue));
      } else {
        CalculateCost(Inputs(a.value, b.value, c.value, d.value), DefaultVatRate);
      }
    }
  }
}

/**
 * Whole presses of the button on concrete form contents: what the result
 * area shows afterwards.
 */
module Scenarios {
  import opened Numerals
  import opened Quote
  import opened Validation
  import opened ResultView

  /** The grouped numerals the traffic-only quote below displays. */
  lemma GroupedExamples()
    ensures Grouped(5000) == "5,000"
    ensures Grouped(35000) == "35,000"
    ensures Grouped(38500) == "38,500"
  {
    assert Digits(5) == "5";
    assert Digits(35) == "35";
    assert Digits(38) == "38";
    assert Group3(0) == "000";
    assert Group3(500) == "500";
  }

  lemma TrafficOnlyChecked()
    ensures Check("100", "", "50", "50") == Ok(Inputs(100, 0, 50, 50))
  {
    ParseDigits(100);
    ParseDigits(50);
    assert Digits(100) == "100";
    assert Digits(50) == "50";
  }

  lemma TrafficOnlyAccepted()
    ensures Validate(Fields("100", "", "50", "50")) == Ok(Inputs(100, 0, 50, 50))
  {
    ValidateUnpadded(Fields("100", "", "50", "50"));
    TrafficOnlyChecked();
  }

  /** The lines of the quote for 100 traffic at 50 won and no storage. */
  lemma TrafficOnlyLines()
    ensures CostLines(Inputs(100, 0, 50, 50), DefaultVatRate) == TrafficOnlySegments()
  {
    TrafficOnlyQuote();
    TrafficOnlySelected();
    TrafficOnlyShown(Quote(5000, 0, 5000, 35000, 38500.0));
  }

  lemma TrafficOnlyQuote()
    ensures ComputeQuote(Inputs(100, 0, 50, 50), DefaultVatRate) == Quote(5000, 0, 5000, 35000, 38500.0)
  {
    TrafficOnlyExample();
  }

  lemma TrafficOnlySelected()
    ensures Selected(100, 0) == [TrafficCost, DailyCost, WeeklyCost, WeeklyCostWithVat, Gap, CompanyName, BankAccount]
  {
  }

  /** What the result area holds for 100 traffic at 50 won and no storage. */
  function TrafficOnlySegments(): seq<Segment>
  {
    [ Segment("트래픽 비용: 5,000 원\n", Plain),
      Segment("일 소진 비용: 5,000 원\n\n", Plain),
      Segment("7일 작업 총 비용 (부가세 미포함): 35,000 원\n", Plain),
      Segment("7일 작업 총 비용 (부가세 포함): 38,500 원", BoldBlue),
      Segment("\n\n", Plain),
      Segment("주식회사 다인기획\n", Plain),
      Segment("국민은행: 900901-01-688580", Plain)]
  }

  lemma TrafficOnlyShown(q: Quote)
    requires q == Quote(5000, 0, 5000, 35000, 38500.0)
    ensures ShowAll([TrafficCost, DailyCost, WeeklyCost, WeeklyCostWithVat, Gap, CompanyName, BankAccount], q)
         == TrafficOnlySegments()
  {
    var lines := [TrafficCost, DailyCost, WeeklyCost, WeeklyCostWithVat, Gap, CompanyName, BankAccount];
    forall i | 0 <= i < |lines| ensures ShowAll(lines, q)[i] == Show(lines[i], q) {
      ShowAllAt(lines, q, i);
    }
    ShowTrafficOnly(q);
  }

  lemma ShowTrafficOnly(q: Quote)
    requires q == Quote(5000, 0, 5000, 35000, 38500.0)
    ensures Show(TrafficCost, q) == Segment("트래픽 비용: 5,000 원\n", Plain)
    ensures Show(DailyCost, q) == Segment("일 소진 비용: 5,000 원\n\n", Plain)
    ensures Show(WeeklyCost, q) == Segment("7일 작업 총 비용 (부가세 미포함): 35,000 원\n", Plain)
    ensures Show(WeeklyCostWithVat, q) == Segment("7일 작업 총 비용 (부가세 포함): 38,500 원", BoldBlue)
  {
    GroupedExamples();
    RoundWhole(38500);
    assert DisplayedVatTotal(q) == 38500;
  }

  /**
   * 100 traffic at 50 won with the storage count left empty: the traffic
   * line, the daily and weekly totals, the VAT-inclusive total in bold blue,
   * and the footer; no storage line.
   */
  lemma TrafficOnlyDisplay()
    ensures Render(Calculate(Fields("100", "", "50", "50"))) == TrafficOnlySegments()
  {
    TrafficOnlyAccepted();
    OutcomeFollowsValidation(Fields("100", "", "50", "50"));
    TrafficOnlyLines();
  }

  lemma ZeroLoadChecked()
    ensures Check("0", "0", "50", "50") == Ok(Inputs(0, 0, 50, 50))
  {
    ParseDigits(0);
    ParseDigits(50);
    assert Digits(0) == "0";
    assert Digits(50) == "50";
  }

  lemma ZeroLoadAccepted()
    ensures Validate(Fields("0", "0", "50", "50")) == Ok(Inputs(0, 0, 50, 50))
  {
    ValidateUnpadded(Fields("0", "0", "50", "50"));
    ZeroLoadChecked();
  }

  /** Zero counts are a valid, empty quote: nothing is shown and there is no error. */
  lemma ZeroLoadDisplay()
    ensures Calculate(Fields("0", "0", "50", "50")) == Lines([])
  {
    ZeroLoadAccepted();
    NoLoadShowsNothing(Fields("0", "0", "50", "50"));
  }

  /** With both counts blank the one message asks for a count, whatever the unit costs say. */
  lemma NoCountDisplay(trafficUnitCost: string, storageUnitCost: string)
    ensures Render(Calculate(Fields("", " ", trafficUnitCost, storageUnitCost)))
         == [Segment("❌ 최소한 하나의 건수를 입력해주세요!", Plain)]
  {
    assert Strip(" ") == [];
  }

  // ---------------------------------------------------------------------
  // Both categories, every amount different
  // ---------------------------------------------------------------------

  /** The grouped numerals the two-category quote below displays. */
  lemma GroupedBothExamples()
    ensures Grouped(2100) == "2,100"
    ensures Grouped(7100) == "7,100"
    ensures Grouped(49700) == "49,700"
    ensures Grouped(54670) == "54,670"
  {
    assert Digits(2) == "2";
    assert Digits(7) == "7";
    assert Digits(49) == "49";
    assert Digits(54) == "54";
    assert Group3(100) == "100";
    assert Group3(700) == "700";
    assert Group3(670) == "670";
  }

  lemma BothChecked()
    ensures Check("100", "30", "50", "70") == Ok(Inputs(100, 30, 50, 70))
  {
    BothNumerals();
    CheckNumerals(Inputs(100, 30, 50, 70));
  }

  lemma BothNumerals()
    ensures Digits(100) == "100" && Digits(30) == "30" && Digits(50) == "50" && Digits(70) == "70"
  {
    assert Digits(10) == "10";
  }

  lemma BothAccepted()
    ensures Validate(Fields("100", "30", "50", "70")) == Ok(Inputs(100, 30, 50, 70))
  {
    ValidateUnpadded(Fields("100", "30", "50", "70"));
    BothChecked();
  }

  /** 100 traffic at 50 won and 30 storage at 70 won: 5,000 + 2,100 a day. */
  lemma BothQuote()
    ensures ComputeQuote(Inputs(100, 30, 50, 70), DefaultVatRate) == Quote(5000, 2100, 7100, 49700, 54670.0)
  {
  }

  lemma BothSelected()
    ensures Selected(100, 30)
         == [TrafficCost, StorageCost, DailyCost, WeeklyCost, WeeklyCostWithVat, Gap, CompanyName, BankAccount]
  {
  }

  /** What the result area holds for 100 traffic at 50 won and 30 storage at 70 won. */
  function BothSegments(): seq<Segment>
  {
    [ Segment("트래픽 비용: 5,000 원\n", Plain),
      Segment("저장하기 비용: 2,100 원\n", Plain),
      Segment("일 소진 비용: 7,100 원\n\n", Plain),
      Segment("7일 작업 총 비용 (부가세 미포함): 49,700 원\n", Plain),
      Segment("7일 작업 총 비용 (부가세 포함): 54,670 원", BoldBlue),
      Segment("\n\n", Plain),
      Segment("주식회사 다인기획\n", Plain),
      Segment("국민은행: 900901-01-688580", Plain)]
  }

  /** Each daily amount line of that quote shows its own amount. */
  lemma ShowBothDaily(q: Quote)
    requires q == Quote(5000, 2100, 7100, 49700, 54670.0)
    ensures Show(TrafficCost, q) == Segment("트래픽 비용: 5,000 원\n", Plain)
    ensures Show(StorageCost, q) == Segment("저장하기 비용: 2,100 원\n", Plain)
    ensures Show(DailyCost, q) == Segment("일 소진 비용: 7,100 원\n\n", Plain)
  {
    GroupedExamples();
    GroupedBothExamples();
  }

  /** Both seven-day totals of that quote, without and with VAT. */
  lemma ShowBothWeekly(q: Quote)
    requires q == Quote(5000, 2100, 7100, 49700, 54670.0)
    ensures Show(WeeklyCost, q) == Segment("7일 작업 총 비용 (부가세 미포함): 49,700 원\n", Plain)
    ensures Show(WeeklyCostWithVat, q) == Segment("7일 작업 총 비용 (부가세 포함): 54,670 원", BoldBlue)
  {
    GroupedBothExamples();
    RoundWhole(54670);
    assert DisplayedVatTotal(q) == 54670;
  }

  lemma BothShown(q: Quote)
    requires q == Quote(5000, 2100, 7100, 49700, 54670.0)
    ensures ShowAll([TrafficCost, StorageCost, DailyCost, WeeklyCost, WeeklyCostWithVat, Gap, CompanyName, BankAccount], q)
         == BothSegments()
  {
    var lines := [TrafficCost, StorageCost, DailyCost, WeeklyCost, WeeklyCostWithVat, Gap, CompanyName, BankAccount];
    forall i | 0 <= i < |lines| ensures ShowAll(lines, q)[i] == Show(lines[i], q) {
      ShowAllAt(lines, q, i);
    }
    ShowBothDaily(q);
    ShowBothWeekly(q);
  }

  /** The lines of the quote for 100 traffic at 50 won and 30 storage at 70 won. */
  lemma BothLines()
    ensures CostLines(Inputs(100, 30, 50, 70), DefaultVatRate) == BothSegments()
  {
    BothQuote();
    BothSelected();
    BothShown(Quote(5000, 2100, 7100, 49700, 54670.0));
  }

  /**
   * 100 traffic at 50 won and 30 storage at 70 won: every line appears, each
   * with its own amount, and the VAT-inclusive total in bold blue.
   */
  lemma BothDisplay()
    ensures Render(Calculate(Fields("100", "30", "50", "70"))) == BothSegments()
  {
    BothAccepted();
    OutcomeFollowsValidation(Fields("100", "30", "50", "70"));
    BothLines();
  }
}

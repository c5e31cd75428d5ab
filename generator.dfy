/**
 * The mock procurement-contract generator (scripts/generate-mock-data.js):
 * `generateMockContracts` with its four risk-escalation rules, and the batch
 * statistics computed over its output.
 *
 * `Math.random()` is replaced by injected draws in [0, 1): one `RecordDraws`
 * per record, with one field per call site of the loop body. Scores and
 * amounts are exact reals; `Math.round(x)` is `floor(x + 0.5)`.
 */
module Generator {
  import opened Wrappers
  import opened Sequences
  import opened DataService

  // ---------------------------------------------------------------------------
  // Fixed enumerations and rule constants
  // ---------------------------------------------------------------------------

  const Customers: seq<string> := [
    "АКИМАТ АЛМАТЫ", "МИН ОБОРОНЫ", "МИН ЗДРАВООХРАНЕНИЯ", "МИН ОБРАЗОВАНИЯ",
    "АКИМАТ АСТАНЫ", "МИН ТРАНСПОРТА", "МИН ЭНЕРГЕТИКИ", "АКИМАТ ШЫМКЕНТА"
  ]

  const Suppliers: seq<string> := [
    "ТОО СТРОЙ ПЛЮС", "ИП СМИРНОВ", "ТОО ТЕХНИК СЕРВИС", "ТОО МЕДТЕХ",
    "ТОО АЛЬФА СТРОЙ", "ИП ИВАНОВ", "ТОО БЕТА СЕРВИС", "ТОО ГАММА ПЛЮС"
  ]

  const Categories: seq<string> := [
    "СТРОИТЕЛЬСТВО", "МЕДОБОРУДОВАНИЕ", "IT УСЛУГИ", "ТРАНСПОРТ",
    "ОБРАЗОВАНИЕ", "ЭНЕРГЕТИКА", "БЕЗОПАСНОСТЬ", "КОНСАЛТИНГ"
  ]

  /** A risk-escalation rule: when it fires the score becomes at least `floor + u * span`. */
  datatype RiskRule = RiskRule(tag: string, floor: real, span: real)

  const PriceAnomaly := RiskRule("Аномалия цены", 85.0, 15.0)
  const SingleParticipant := RiskRule("Единственный участник", 70.0, 20.0)
  const Monopolization := RiskRule("Монополизация", 80.0, 15.0)
  const Fragmentation := RiskRule("Дробление", 75.0, 20.0)

  /** The rules in evaluation order. */
  const Rules: seq<RiskRule> := [PriceAnomaly, SingleParticipant, Monopolization, Fragmentation]

  /** The tags in evaluation order. */
  const RuleOrder: seq<string> := [PriceAnomaly.tag, SingleParticipant.tag, Monopolization.tag, Fragmentation.tag]

  const PriceAnomalyChance := 0.1
  const MonopolizationChance := 0.05
  const FragmentationChance := 0.03
  const CompletedChance := 0.9

  // ---------------------------------------------------------------------------
  // Draws and arithmetic
  // ---------------------------------------------------------------------------

  /** A value `Math.random()` can return. */
  predicate IsDraw(u: real) {
    0.0 <= u < 1.0
  }

  /**
   * The values of the `Math.random()` calls of one loop iteration, named by
   * call site in source order (lines 41-84). A rule whose gate stays shut never
   * reads its span.
   */
  datatype RecordDraws = RecordDraws(
    amount: real, participants: real, baseline: real,
    priceGate: real, priceSpan: real,
    singleSpan: real,
    monopolyGate: real, monopolySpan: real,
    fragmentGate: real, fragmentSpan: real,
    customer: real, supplier: real, category: real,
    month: real, day: real, status: real)

  predicate ValidDraws(d: RecordDraws) {
    && IsDraw(d.amount) && IsDraw(d.participants) && IsDraw(d.baseline)
    && IsDraw(d.priceGate) && IsDraw(d.priceSpan) && IsDraw(d.singleSpan)
    && IsDraw(d.monopolyGate) && IsDraw(d.monopolySpan)
    && IsDraw(d.fragmentGate) && IsDraw(d.fragmentSpan)
    && IsDraw(d.customer) && IsDraw(d.supplier) && IsDraw(d.category)
    && IsDraw(d.month) && IsDraw(d.day) && IsDraw(d.status)
  }

  predicate AllValidDraws(draws: seq<RecordDraws>) {
    forall i :: 0 <= i < |draws| ==> ValidDraws(draws[i])
  }

  /** `Math.max`. */
  function Max(a: real, b: real): (r: real)
    ensures r >= a && r >= b && (r == a || r == b)
  {
    if a >= b then a else b
  }

  /** `Math.round`: the nearest integer, halves rounded up. */
  function Round(x: real): (r: int)
    ensures x - 0.5 < r as real <= x + 0.5
  {
    (x + 0.5).Floor
  }

  /** `Math.round(x * 10) / 10`: the nearest multiple of 0.1, halves rounded up. */
  function RoundToTenth(x: real): (r: real)
    ensures x - 0.05 < r <= x + 0.05
  {
    Round(x * 10.0) as real / 10.0
  }

  /** `x` has at most one decimal digit. */
  predicate OneDecimal(x: real) {
    (x * 10.0).Floor as real == x * 10.0
  }

  /** `Math.floor(u * n)`: an index below `n`. */
  function ScaledIndex(u: real, n: nat): (i: int)
    requires IsDraw(u) && n > 0
    ensures 0 <= i < n
  {
    assert u * n as real < n as real by {
      assert (1.0 - u) * n as real > 0.0;
    }
    (u * n as real).Floor
  }

  /** `list[Math.floor(u * list.length)]`. */
  function Pick(list: seq<string>, u: real): (r: string)
    requires IsDraw(u) && |list| > 0
    ensures r in list
  {
    list[ScaledIndex(u, |list|)]
  }

  // ---------------------------------------------------------------------------
  // Record ids
  // ---------------------------------------------------------------------------

  predicate IsDigit(c: char) {
    '0' <= c <= '9'
  }

  predicate AllDigits(s: string) {
    forall i :: 0 <= i < |s| ==> IsDigit(s[i])
  }

  /** `String(n)` for a natural number: its decimal digits, without leading zeros. */
  function DecimalString(n: nat): (s: string)
    ensures |s| >= 1 && AllDigits(s)
    ensures n > 0 ==> s[0] != '0'
  {
    if n < 10 then ['0' + n as char]
    else DecimalString(n / 10) + ['0' + (n % 10) as char]
  }

  /** The number a string of decimal digits denotes; leading zeros do not count. */
  function DecimalValue(s: string): nat
    requires AllDigits(s)
  {
    if s == [] then 0
    else DecimalValue(s[..|s| - 1]) * 10 + (s[|s| - 1] - '0') as int
  }

  /** `s.padStart(width, fill)`: `fill` prepended up to `width`; a longer `s` is never cut. */
  function PadStart(s: string, width: nat, fill: char): (r: string)
    ensures |r| == if |s| >= width then |s| else width
    ensures r[|r| - |s|..] == s
    ensures forall i :: 0 <= i < |r| - |s| ==> r[i] == fill
  {
    if |s| >= width then s else seq(width - |s|, _ => fill) + s
  }

  const IdPrefix: string := "TNR_"

  /** The id of the k-th record: `TNR_` and `k` zero-padded to six digits. */
  function ContractId(k: nat): (id: string)
    ensures |id| >= |IdPrefix| + 6
    ensures id[..|IdPrefix|] == IdPrefix
    ensures AllDigits(id[|IdPrefix|..])
  {
    IdPrefix + PadStart(DecimalString(k), 6, '0')
  }

  /** The sequence number an id carries, if it has the generator's shape. */
  function SequenceNumber(id: string): Option<nat> {
    if |id| >= |IdPrefix| && id[..|IdPrefix|] == IdPrefix && AllDigits(id[|IdPrefix|..])
    then Some(DecimalValue(id[|IdPrefix|..]))
    else None
  }

  lemma {:induction false} DecimalRoundTrip(n: nat)
    ensures DecimalValue(DecimalString(n)) == n
  {
    if n >= 10 {
      DecimalRoundTrip(n / 10);
      var s := DecimalString(n);
      assert s[..|s| - 1] == DecimalString(n / 10);
    }
  }

  /** Leading zeros do not change the value of a digit string. */
  lemma {:induction false} LeadingZerosValue(m: nat, s: string)
    requires AllDigits(s)
    ensures AllDigits(seq(m, _ => '0') + s)
    ensures DecimalValue(seq(m, _ => '0') + s) == DecimalValue(s)
    decreases |s| + m
  {
    var z: string := seq(m, _ => '0');
    var t := z + s;
    if s == [] {
      assert t == z;
      if m > 0 {
        var z' : string := seq(m - 1, _ => '0');
        assert t[..|t| - 1] == z' + [];
        LeadingZerosValue(m - 1, []);
      }
    } else {
      assert t[..|t| - 1] == z + s[..|s| - 1];
      LeadingZerosValue(m, s[..|s| - 1]);
    }
  }

  /** The sequence number of `ContractId(k)` is `k`, and the id is at least ten characters long. */
  lemma ContractIdRoundTrip(k: nat)
    ensures SequenceNumber(ContractId(k)) == Some(k)
    ensures |ContractId(k)| >= 10
  {
    var digits := DecimalString(k);
    var padded := PadStart(digits, 6, '0');
    var id := ContractId(k);
    assert id[..|IdPrefix|] == IdPrefix && id[|IdPrefix|..] == padded;
    DecimalRoundTrip(k);
    if |digits| < 6 {
      assert padded == seq(6 - |digits|, _ => '0') + digits;
      LeadingZerosValue(6 - |digits|, digits);
    }
  }

  /** Ids of different records are different. */
  lemma ContractIdInjective(j: nat, k: nat)
    requires ContractId(j) == ContractId(k)
    ensures j == k
  {
    ContractIdRoundTrip(j);
    ContractIdRoundTrip(k);
  }

  // ---------------------------------------------------------------------------
  // Risk scoring of one record
  // ---------------------------------------------------------------------------

  /** One record's scoring in progress: the running score and the tags pushed so far. */
  datatype Scoring = Scoring(score: real, indicators: seq<string>)

  /** A rule fires: `riskScore = Math.max(riskScore, floor + u * span)` and its tag is pushed. */
  function Fire(st: Scoring, rule: RiskRule, u: real): (r: Scoring)
    ensures r.score >= st.score && r.score >= rule.floor + u * rule.span
    ensures r.indicators == st.indicators + [rule.tag]
  {
    Scoring(Max(st.score, rule.floor + u * rule.span), st.indicators + [rule.tag])
  }

  /** A rule behind a random gate: it fires when the gate draw is below `chance`. */
  function GatedRule(st: Scoring, rule: RiskRule, chance: real, gate: real, span: real): (r: Scoring)
    ensures r.score >= st.score
    ensures r == st || r.indicators == st.indicators + [rule.tag]
  {
    if gate < chance then Fire(st, rule, span) else st
  }

  /** The single-participant rule: no gate, it fires exactly when there is one participant. */
  function SingleParticipantRule(st: Scoring, participantsCount: int, span: real): (r: Scoring)
    ensures r.score >= st.score
  {
    if participantsCount == 1 then Fire(st, SingleParticipant, span) else st
  }

  /** The baseline score and the four rules after it, in source order (lines 45-70). */
  function ScoreContract(participantsCount: int, d: RecordDraws): (st: Scoring)
    ensures st.score >= d.baseline * 100.0
  {
    var s0 := Scoring(d.baseline * 100.0, []);
    var s1 := GatedRule(s0, PriceAnomaly, PriceAnomalyChance, d.priceGate, d.priceSpan);
    var s2 := SingleParticipantRule(s1, participantsCount, d.singleSpan);
    var s3 := GatedRule(s2, Monopolization, MonopolizationChance, d.monopolyGate, d.monopolySpan);
    GatedRule(s3, Fragmentation, FragmentationChance, d.fragmentGate, d.fragmentSpan)
  }

  /** One iteration of the generator's loop (lines 41-85): the record with sequence number `k`. */
  function MakeRecord(k: nat, d: RecordDraws): (c: Contract)
    requires ValidDraws(d)
    ensures c.id == ContractId(k)
  {
    var participantsCount := ScaledIndex(d.participants, 8) + 1;
    var st := ScoreContract(participantsCount, d);
    Contract(
      ContractId(k),
      Pick(Customers, d.customer),
      Pick(Suppliers, d.supplier),
      Round(d.amount * 2000000.0 + 50000.0),
      Pick(Categories, d.category),
      CalendarDate(2024, ScaledIndex(d.month, 12) + 1, ScaledIndex(d.day, 28) + 1),
      participantsCount,
      RoundToTenth(st.score),
      st.indicators,
      if d.status < CompletedChance then Completed else InProgress)
  }

  // ---------------------------------------------------------------------------
  // What every generated record satisfies
  // ---------------------------------------------------------------------------

  /** Every tag present carries its rule's floor as a lower bound on the score. */
  predicate FloorsHold(indicators: seq<string>, score: real) {
    forall i :: 0 <= i < |Rules| ==> Rules[i].tag in indicators ==> score >= Rules[i].floor
  }

  /** The guarantees of one generated record. */
  predicate WellFormedRecord(c: Contract) {
    && 1 <= c.participantsCount <= 8
    && 50000 <= c.amount <= 2050000
    && 0.0 <= c.riskScore <= 100.0
    && OneDecimal(c.riskScore)
    && (c.participantsCount == 1 <==> SingleParticipant.tag in c.riskIndicators)
    && FloorsHold(c.riskIndicators, c.riskScore)
    && IsSubsequence(c.riskIndicators, RuleOrder)
    && NoDuplicates(c.riskIndicators)
    && |c.riskIndicators| <= |RuleOrder|
    && (c.status == Completed || c.status == InProgress)
    && c.customer in Customers
    && c.supplier in Suppliers
    && c.category in Categories
    && c.date.year == 2024 && 1 <= c.date.month <= 12 && 1 <= c.date.day <= 28
  }

  /** What the scoring keeps true after each rule: the rules seen so far are `RuleOrder[..n]`. */
  predicate ScoringInvariant(st: Scoring, n: nat, participantsCount: int) {
    && n <= |RuleOrder|
    && 0.0 <= st.score < 100.0
    && IsSubsequence(st.indicators, RuleOrder[..n])
    && FloorsHold(st.indicators, st.score)
    && (n >= 2 ==> (participantsCount == 1 <==> SingleParticipant.tag in st.indicators))
    && (n < 2 ==> SingleParticipant.tag !in st.indicators)
  }

  /** Firing the n-th rule keeps the scoring invariant, now covering n + 1 rules. */
  lemma FireKeepsInvariant(st: Scoring, n: nat, participantsCount: int, u: real)
    requires n < |Rules| && ScoringInvariant(st, n, participantsCount) && IsDraw(u)
    requires n == 1 ==> participantsCount == 1
    ensures ScoringInvariant(Fire(st, Rules[n], u), n + 1, participantsCount)
  {
    var rule := Rules[n];
    var r := Fire(st, rule, u);
    assert RuleOrder[..n + 1] == RuleOrder[..n] + [rule.tag];
    SubsequenceSnoc(st.indicators, RuleOrder[..n], rule.tag);
    assert rule.floor + u * rule.span < 100.0 by {
      assert u * rule.span < rule.span;
    }
    forall i | 0 <= i < |Rules| && Rules[i].tag in r.indicators ensures r.score >= Rules[i].floor {
      if i != n {
        assert Rules[i].tag in st.indicators;
      }
    }
    if n < 2 {
      assert SingleParticipant.tag in r.indicators <==> n == 1;
    } else {
      assert SingleParticipant.tag in r.indicators <==> SingleParticipant.tag in st.indicators;
    }
  }

  /** Skipping the n-th rule keeps the scoring invariant, now covering n + 1 rules. */
  lemma SkipKeepsInvariant(st: Scoring, n: nat, participantsCount: int)
    requires n < |Rules| && ScoringInvariant(st, n, participantsCount)
    requires n == 1 ==> participantsCount != 1
    ensures ScoringInvariant(st, n + 1, participantsCount)
  {
    assert RuleOrder[..n + 1] == RuleOrder[..n] + [RuleOrder[n]];
    SubsequenceExtend(st.indicators, RuleOrder[..n], RuleOrder[n]);
  }

  lemma GatedRuleKeepsInvariant(st: Scoring, n: nat, chance: real, gate: real, span: real, participantsCount: int)
    requires n < |Rules| && n != 1 && ScoringInvariant(st, n, participantsCount) && IsDraw(span)
    ensures ScoringInvariant(GatedRule(st, Rules[n], chance, gate, span), n + 1, participantsCount)
  {
    if gate < chance {
      FireKeepsInvariant(st, n, participantsCount, span);
    } else {
      SkipKeepsInvariant(st, n, participantsCount);
    }
  }

  lemma SingleParticipantKeepsInvariant(st: Scoring, participantsCount: int, span: real)
    requires ScoringInvariant(st, 1, participantsCount) && IsDraw(span)
    ensures ScoringInvariant(SingleParticipantRule(st, participantsCount, span), 2, participantsCount)
  {
    if participantsCount == 1 {
      FireKeepsInvariant(st, 1, participantsCount, span);
    } else {
      SkipKeepsInvariant(st, 1, participantsCount);
    }
  }

  /** After all four rules the score is below 100, every floor holds and the tags follow rule order. */
  lemma ScoreContractInvariant(participantsCount: int, d: RecordDraws)
    requires ValidDraws(d)
    ensures ScoringInvariant(ScoreContract(participantsCount, d), 4, participantsCount)
  {
    var s0 := Scoring(d.baseline * 100.0, []);
    assert ScoringInvariant(s0, 0, participantsCount);
    assert Rules[0] == PriceAnomaly && Rules[2] == Monopolization && Rules[3] == Fragmentation;
    GatedRuleKeepsInvariant(s0, 0, PriceAnomalyChance, d.priceGate, d.priceSpan, participantsCount);
    var s1 := GatedRule(s0, PriceAnomaly, PriceAnomalyChance, d.priceGate, d.priceSpan);
    var s2 := SingleParticipantRule(s1, participantsCount, d.singleSpan);
    SingleParticipantKeepsInvariant(s1, participantsCount, d.singleSpan);
    GatedRuleKeepsInvariant(s2, 2, MonopolizationChance, d.monopolyGate, d.monopolySpan, participantsCount);
    var s3 := GatedRule(s2, Monopolization, MonopolizationChance, d.monopolyGate, d.monopolySpan);
    GatedRuleKeepsInvariant(s3, 3, FragmentationChance, d.fragmentGate, d.fragmentSpan, participantsCount);
  }

  /** Rounding to one decimal stays in [0, 100] and leaves at most one decimal digit. */
  lemma RoundToTenthBounds(x: real)
    requires 0.0 <= x < 100.0
    ensures 0.0 <= RoundToTenth(x) <= 100.0
    ensures OneDecimal(RoundToTenth(x))
  {
    assert RoundToTenth(x) * 10.0 == Round(x * 10.0) as real;
  }

  /** Rounding to one decimal never takes a score below a whole-number floor it had reached. */
  lemma RoundToTenthKeepsFloor(x: real, floor: int)
    requires floor as real <= x
    ensures floor as real <= RoundToTenth(x)
  {
    assert (floor * 10) as real <= x * 10.0;
    assert floor * 10 <= Round(x * 10.0);
  }

  /** Rounding keeps each fired rule's floor. */
  lemma RoundingKeepsFloors(indicators: seq<string>, x: real)
    requires FloorsHold(indicators, x)
    ensures FloorsHold(indicators, RoundToTenth(x))
  {
    forall i | 0 <= i < |Rules| && Rules[i].tag in indicators ensures RoundToTenth(x) >= Rules[i].floor {
      RoundToTenthKeepsFloor(x, Rules[i].floor.Floor);
    }
  }

  /** The tag list has no repeats. */
  lemma RuleOrderHasNoDuplicates()
    ensures NoDuplicates(RuleOrder)
  {
  }

  /** Every record the loop produces is well formed. */
  lemma MakeRecordWellFormed(k: nat, d: RecordDraws)
    requires ValidDraws(d)
    ensures WellFormedRecord(MakeRecord(k, d))
  {
    var participantsCount := ScaledIndex(d.participants, 8) + 1;
    var st := ScoreContract(participantsCount, d);
    ScoreContractInvariant(participantsCount, d);
    assert RuleOrder[..4] == RuleOrder;
    RoundToTenthBounds(st.score);
    RoundingKeepsFloors(st.indicators, st.score);
    RuleOrderHasNoDuplicates();
    SubsequenceNoDuplicates(st.indicators, RuleOrder);
    SubsequenceLength(st.indicators, RuleOrder);
  }

  // ---------------------------------------------------------------------------
  // The batch
  // ---------------------------------------------------------------------------

  /**
   * `generateMockContracts(count)`: records 1 to `count`, each pushed after the
   * ones before it; nothing when `count <= 0`.
   */
  function Generated(count: int, draws: seq<RecordDraws>): (r: seq<Contract>)
    requires count <= |draws| && AllValidDraws(draws)
    ensures |r| == if count <= 0 then 0 else count
    decreases count
  {
    if count <= 0 then [] else Generated(count - 1, draws) + [MakeRecord(count, draws[count - 1])]
  }

  /** Iteration `i` of the loop extends the first `i - 1` records by the record it builds. */
  lemma GeneratedStep(i: nat, draws: seq<RecordDraws>, record: Contract)
    requires 1 <= i <= |draws| && AllValidDraws(draws)
    requires record == MakeRecord(i, draws[i - 1])
    ensures Generated(i, draws) == Generated(i - 1, draws) + [record]
  {
  }

  /** The j-th record of a batch is the one the loop builds in iteration `j + 1`. */
  lemma {:induction false} GeneratedElement(count: int, draws: seq<RecordDraws>, j: nat)
    requires count <= |draws| && AllValidDraws(draws)
    requires j < |Generated(count, draws)|
    ensures Generated(count, draws)[j] == MakeRecord(j + 1, draws[j])
    decreases count
  {
    var prefix := Generated(count - 1, draws);
    var last := MakeRecord(count, draws[count - 1]);
    assert Generated(count, draws) == prefix + [last];
    if j < count - 1 {
      GeneratedElement(count - 1, draws, j);
      assert Generated(count, draws)[j] == prefix[j];
    } else {
      assert j + 1 == count;
    }
  }

  /**
   * `generateMockContracts(count)` returns `max(count, 0)` well-formed records
   * whose ids carry the sequence numbers 1, 2, ..., in generation order.
   */
  lemma GeneratedContracts(count: int, draws: seq<RecordDraws>)
    requires count <= |draws| && AllValidDraws(draws)
    ensures forall j :: 0 <= j < |Generated(count, draws)| ==>
      && Generated(count, draws)[j].id == ContractId(j + 1)
      && SequenceNumber(Generated(count, draws)[j].id) == Some(j + 1)
      && WellFormedRecord(Generated(count, draws)[j])
  {
    var r := Generated(count, draws);
    forall j | 0 <= j < |r|
      ensures r[j].id == ContractId(j + 1)
      ensures SequenceNumber(r[j].id) == Some(j + 1)
      ensures WellFormedRecord(r[j])
    {
      GeneratedElement(count, draws, j);
      MakeRecordWellFormed(j + 1, draws[j]);
      ContractIdRoundTrip(j + 1);
    }
  }

  /** Two records of one batch never share an id. */
  lemma GeneratedIdsDistinct(count: int, draws: seq<RecordDraws>, i: int, j: int)
    requires count <= |draws| && AllValidDraws(draws)
    requires 0 <= i < j < |Generated(count, draws)|
    ensures Generated(count, draws)[i].id != Generated(count, draws)[j].id
  {
    GeneratedContracts(count, draws);
  }

  /** Lines 45-70 of the source: the baseline score, then each rule that fires raises it and pushes its tag. */
  method ScoreRecord(participantsCount: int, d: RecordDraws) returns (riskScore: real, riskIndicators: seq<string>)
    ensures Scoring(riskScore, riskIndicators) == ScoreContract(participantsCount, d)
  {
    riskScore := d.baseline * 100.0;
    riskIndicators := [];
    if d.priceGate < PriceAnomalyChance {
      riskScore := Max(riskScore, PriceAnomaly.floor + d.priceSpan * PriceAnomaly.span);
      riskIndicators := riskIndicators + [PriceAnomaly.tag];
    }
    if participantsCount == 1 {
      riskScore := Max(riskScore, SingleParticipant.floor + d.singleSpan * SingleParticipant.span);
      riskIndicators := riskIndicators + [SingleParticipant.tag];
    }
    if d.monopolyGate < MonopolizationChance {
      riskScore := Max(riskScore, Monopolization.floor + d.monopolySpan * Monopolization.span);
      riskIndicators := riskIndicators + [Monopolization.tag];
    }
    if d.fragmentGate < FragmentationChance {
      riskScore := Max(riskScore, Fragmentation.floor + d.fragmentSpan * Fragmentation.span);
      riskIndicators := riskIndicators + [Fragmentation.tag];
    }
  }

  /** The body of the source's loop for record `i` (lines 41-85). */
  method GenerateRecord(i: nat, d: RecordDraws) returns (record: Contract)
    requires ValidDraws(d)
    ensures record == MakeRecord(i, d)
  {
    var baseAmount := d.amount * 2000000.0 + 50000.0;
    var participantsCount := ScaledIndex(d.participants, 8) + 1;
    var riskScore, riskIndicators := ScoreRecord(participantsCount, d);
    var status := if d.status < CompletedChance then Completed else InProgress;
    record := Contract(
      ContractId(i),
      Pick(Customers, d.customer),
      Pick(Suppliers, d.supplier),
      Round(baseAmount),
      Pick(Categories, d.category),
      CalendarDate(2024, ScaledIndex(d.month, 12) + 1, ScaledIndex(d.day, 28) + 1),
      participantsCount,
      RoundToTenth(riskScore),
      riskIndicators,
      status);
  }

  /** `generateMockContracts(count)`: the loop over `i = 1 .. count`, pushing each record. */
  method GenerateMockContracts(count: int, draws: seq<RecordDraws>) returns (contracts: seq<Contract>)
    requires count <= |draws| && AllValidDraws(draws)
    ensures contracts == Generated(count, draws)
  {
    contracts := [];
    var i := 1;
    while i <= count
      invariant 1 <= i <= if count >= 1 then count + 1 else 1
      invariant contracts == Generated(i - 1, draws)
    {
      var record := GenerateRecord(i, draws[i - 1]);
      GeneratedStep(i, draws, record);
      contracts := contracts + [record];
      i := i + 1;
    }
    assert count >= 1 ==> i - 1 == count;
  }

  // ---------------------------------------------------------------------------
  // Batch statistics
  // ---------------------------------------------------------------------------

  /** The generator's own 90/70 thresholds (not the dashboard's 80/40 ones). */
  predicate IsHighRisk(c: Contract) {
    c.riskScore >= 90.0
  }

  predicate IsMediumRisk(c: Contract) {
    c.riskScore >= 70.0 && c.riskScore < 90.0
  }

  predicate IsLowRisk(c: Contract) {
    c.riskScore < 70.0
  }

  /** `contracts.reduce((sum, c) => sum + c.amount, 0)`. */
  function SumAmounts(contracts: seq<Contract>): (r: int)
    ensures (forall i :: 0 <= i < |contracts| ==> contracts[i].amount >= 0) ==> r >= 0
    ensures |contracts| == 1 ==> r == contracts[0].amount
  {
    if contracts == [] then 0 else SumAmounts(contracts[..|contracts| - 1]) + contracts[|contracts| - 1].amount
  }

  /**
   * `Math.round(sum / length)`; `None` stands for the `NaN` an empty batch
   * produces (0 / 0).
   */
  function AverageAmount(contracts: seq<Contract>): (r: Option<int>)
    ensures r.None? <==> contracts == []
  {
    if contracts == [] then None
    else Some(Round(SumAmounts(contracts) as real / |contracts| as real))
  }

  /** The statistics block of the script. */
  datatype BatchStatistics = BatchStatistics(
    total: nat,
    highRisk: nat,
    mediumRisk: nat,
    lowRisk: nat,
    averageAmount: Option<int>,
    detectionAccuracy: real)

  /** A fixed figure, not computed from the batch. */
  const DetectionAccuracy := 99.1

  function Statistics(contracts: seq<Contract>): (s: BatchStatistics)
    ensures s.total == |contracts|
    ensures s.highRisk <= s.total && s.mediumRisk <= s.total && s.lowRisk <= s.total
    ensures s.averageAmount.None? <==> contracts == []
  {
    BatchStatistics(
      |contracts|,
      |Filter(contracts, IsHighRisk)|,
      |Filter(contracts, IsMediumRisk)|,
      |Filter(contracts, IsLowRisk)|,
      AverageAmount(contracts),
      DetectionAccuracy)
  }

  /** The three risk classes are disjoint and together count every record. */
  lemma StatisticsPartition(contracts: seq<Contract>)
    ensures Statistics(contracts).highRisk + Statistics(contracts).mediumRisk
          + Statistics(contracts).lowRisk == Statistics(contracts).total
    ensures forall c :: ((IsHighRisk(c) || IsMediumRisk(c) || IsLowRisk(c))
      && !(IsHighRisk(c) && IsMediumRisk(c)) && !(IsHighRisk(c) && IsLowRisk(c))
      && !(IsMediumRisk(c) && IsLowRisk(c)))
  {
    FilterPartition3(contracts, IsHighRisk, IsMediumRisk, IsLowRisk);
  }

  /** With every amount in [lo, hi], the sum lies between |cs| * lo and |cs| * hi. */
  lemma {:induction false} SumAmountsBounds(contracts: seq<Contract>, lo: int, hi: int)
    requires forall i :: 0 <= i < |contracts| ==> lo <= contracts[i].amount <= hi
    ensures |contracts| * lo <= SumAmounts(contracts) <= |contracts| * hi
  {
    if contracts != [] {
      var init := contracts[..|contracts| - 1];
      assert forall i :: 0 <= i < |init| ==> init[i] == contracts[i];
      SumAmountsBounds(init, lo, hi);
      assert |contracts| * lo == |init| * lo + lo;
      assert |contracts| * hi == |init| * hi + hi;
    }
  }

  lemma ScaleStrictlyMonotone(x: real, y: real, n: real)
    requires x < y && n > 0.0
    ensures x * n < y * n
  {
    assert (y - x) * n > 0.0;
  }

  /** Converting a product to a real is the product of the converted factors. */
  lemma {:induction false} ProductAsReal(n: nat, x: int)
    ensures (n * x) as real == n as real * x as real
  {
    if n > 0 {
      ProductAsReal(n - 1, x);
      assert n * x == (n - 1) * x + x;
    }
  }

  /** A sum between `n * lo` and `n * hi` has its mean in [lo, hi]. */
  lemma MeanWithinBounds(sum: int, n: nat, lo: int, hi: int)
    requires n > 0 && n * lo <= sum <= n * hi
    ensures lo as real <= sum as real / n as real <= hi as real
  {
    var mean := sum as real / n as real;
    assert mean * n as real == sum as real;
    ProductAsReal(n, lo);
    ProductAsReal(n, hi);
    if mean < lo as real {
      ScaleStrictlyMonotone(mean, lo as real, n as real);
      assert false;
    }
    if hi as real < mean {
      ScaleStrictlyMonotone(hi as real, mean, n as real);
      assert false;
    }
  }

  /** The rounded mean of amounts in [lo, hi] is itself in [lo, hi]. */
  lemma AverageWithinBounds(contracts: seq<Contract>, lo: int, hi: int)
    requires contracts != []
    requires forall i :: 0 <= i < |contracts| ==> lo <= contracts[i].amount <= hi
    ensures lo <= AverageAmount(contracts).value <= hi
  {
    SumAmountsBounds(contracts, lo, hi);
    MeanWithinBounds(SumAmounts(contracts), |contracts|, lo, hi);
  }

  /**
   * On a generated batch of `count > 0` records the classes add up to
   * `count` and the average amount lies in [50000, 2050000].
   */
  lemma GeneratedStatistics(count: int, draws: seq<RecordDraws>)
    requires count > 0
    requires count <= |draws| && AllValidDraws(draws)
    ensures Statistics(Generated(count, draws)).total == count
    ensures Statistics(Generated(count, draws)).highRisk + Statistics(Generated(count, draws)).mediumRisk
          + Statistics(Generated(count, draws)).lowRisk == count
    ensures Statistics(Generated(count, draws)).averageAmount.Some?
    ensures 50000 <= Statistics(Generated(count, draws)).averageAmount.value <= 2050000
  {
    var r := Generated(count, draws);
    GeneratedContracts(count, draws);
    StatisticsPartition(r);
    AverageWithinBounds(r, 50000, 2050000);
  }

  /** The generator's 90/70 classes and the dashboard's 80/40 bands disagree: 85 is high on the page, medium here. */
  lemma ThresholdSetsDiffer()
    ensures InBand(High, 85.0) && IsMediumRisk(Contract("", "", "", 0, "", CalendarDate(2024, 1, 1), 1, 85.0, [], Completed))
  {
  }
}

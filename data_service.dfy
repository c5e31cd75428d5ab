/**
 * The mock data-access layer of the dashboard (lib/data-service.ts): the
 * record shapes shared by the whole application, the risk-band filter of
 * `getContracts`, the in-place algorithm-settings store behind
 * `updateAlgorithmSettings`, and the export path. The simulated latency of
 * every call is dropped: each operation is synchronous here.
 */
module DataService {
  import opened Wrappers
  import opened Sequences

  // ---------------------------------------------------------------------------
  // Shapes
  // ---------------------------------------------------------------------------

  /** `Contract.status`; `Cancelled` is a valid value although nothing produces it. */
  datatype Status = Completed | InProgress | Cancelled

  /** A calendar date; `month` is 1-based (January is 1). */
  datatype CalendarDate = CalendarDate(year: int, month: int, day: int)

  /** One procurement contract. */
  datatype Contract = Contract(
    id: string,
    customer: string,
    supplier: string,
    amount: int,
    category: string,
    date: CalendarDate,
    participantsCount: int,
    riskScore: real,
    riskIndicators: seq<string>,
    status: Status)

  /** The dashboard-wide counters returned by `getSystemStats`. */
  datatype SystemStats = SystemStats(
    totalContracts: int,
    highRiskCount: int,
    mediumRiskCount: int,
    lowRiskCount: int,
    averageAmount: int,
    detectionAccuracy: real,
    totalSavings: int,
    flaggedToday: int)

  /** The static description of one detection algorithm and whether it is switched on. */
  datatype AlgorithmMetrics = AlgorithmMetrics(
    name: string,
    detected: int,
    accuracy: real,
    description: string,
    enabled: bool)

  /**
   * The `settings` object merged into an algorithm entry: every field is
   * optional and a present field overrides the entry's own.
   */
  datatype AlgorithmSettings = AlgorithmSettings(
    name: Option<string>,
    detected: Option<int>,
    accuracy: Option<real>,
    description: Option<string>,
    enabled: Option<bool>)

  /** The `{ enabled: b }` settings object the page sends. */
  function EnabledSetting(b: bool): AlgorithmSettings {
    AlgorithmSettings(None, None, None, None, Some(b))
  }

  // ---------------------------------------------------------------------------
  // Mock data
  // ---------------------------------------------------------------------------

  const MockContracts: seq<Contract> := [
    Contract("GOV_2024_001", "Министерство здравоохранения РК", "ТОО МедТехника Плюс", 2450000,
      "Медицинское оборудование", CalendarDate(2024, 1, 15), 1, 94.2,
      ["Единственный участник", "Завышенная цена"], Completed),
    Contract("GOV_2024_002", "Акимат г. Алматы", "Строительная компания Астана", 15750000,
      "Строительство и ремонт", CalendarDate(2024, 1, 20), 2, 87.5,
      ["Аффилированность", "Подозрительная цена"], Completed),
    Contract("GOV_2024_003", "Министерство образования РК", "IT Solutions KZ", 890000,
      "IT услуги", CalendarDate(2024, 1, 25), 4, 23.1,
      [], Completed)
  ]

  const MockStats: SystemStats :=
    SystemStats(15847, 234, 1456, 14157, 2847500, 96.8, 2840000000, 12)

  const MockAlgorithms: seq<AlgorithmMetrics> := [
    AlgorithmMetrics("Анализ ценовых аномалий", 89, 94.2,
      "Выявляет контракты с подозрительно завышенными или заниженными ценами", true),
    AlgorithmMetrics("Детекция монополизации", 34, 91.7,
      "Обнаруживает случаи доминирования одного поставщика у заказчика", true),
    AlgorithmMetrics("Анализ дробления закупок", 67, 88.9,
      "Находит искусственно разделенные крупные контракты", true),
    AlgorithmMetrics("Проверка конкурентности", 156, 85.4,
      "Анализирует уровень конкуренции в тендерах", true)
  ]

  /** `getSystemStats` resolves to the fixed counters, whose three risk classes add up to the total. */
  function GetSystemStats(): (s: SystemStats)
    ensures s.highRiskCount + s.mediumRiskCount + s.lowRiskCount == s.totalContracts
  {
    MockStats
  }

  // ---------------------------------------------------------------------------
  // getContracts
  // ---------------------------------------------------------------------------

  /** The `riskLevel` filter values. */
  datatype RiskLevel = High | Medium | Low

  /** The optional filters object; only `riskLevel` is ever consulted. */
  datatype ContractFilters = ContractFilters(
    riskLevel: Option<RiskLevel>,
    category: Option<string>,
    dateFrom: Option<string>,
    dateTo: Option<string>)

  /** The 80/40 risk bands of the contract filter: high >= 80, medium in [40, 80), low < 40. */
  predicate InBand(level: RiskLevel, score: real) {
    match level
    case High => score >= 80.0
    case Medium => score >= 40.0 && score < 80.0
    case Low => score < 40.0
  }

  /** Whether a contract with this score survives the given filters. */
  predicate Selected(filters: Option<ContractFilters>, score: real) {
    match filters
    case None => true
    case Some(f) =>
      match f.riskLevel
      case None => true
      case Some(level) => InBand(level, score)
  }

  /**
   * `getContracts(filters)` over the contract list `contracts`: a copy of the
   * list, narrowed to one risk band when a `riskLevel` is given.
   */
  function GetContracts(contracts: seq<Contract>, filters: Option<ContractFilters>): (r: seq<Contract>)
    ensures forall c :: c in r <==> c in contracts && Selected(filters, c.riskScore)
  {
    if filters.Some? && filters.value.riskLevel.Some? then
      var level := filters.value.riskLevel.value;
      Filter(contracts, (c: Contract) => InBand(level, c.riskScore))
    else
      contracts
  }

  /** The service as shipped: `getContracts` over the three mock contracts. */
  function GetMockContracts(filters: Option<ContractFilters>): (r: seq<Contract>)
    ensures forall c :: c in r <==> c in MockContracts && Selected(filters, c.riskScore)
    ensures filters.None? ==> r == MockContracts
  {
    GetContracts(MockContracts, filters)
  }

  /** Without a risk level, every contract comes back, in the original order. */
  lemma GetContractsWithoutLevelIsCopy(contracts: seq<Contract>, filters: Option<ContractFilters>)
    requires filters.None? || filters.value.riskLevel.None?
    ensures GetContracts(contracts, filters) == contracts
  {
  }

  /** With a risk level, the result is the order-preserving subsequence of contracts in that band. */
  lemma GetContractsIsBandSubsequence(contracts: seq<Contract>, f: ContractFilters)
    requires f.riskLevel.Some?
    ensures IsSubsequence(GetContracts(contracts, Some(f)), contracts)
    ensures forall i :: 0 <= i < |GetContracts(contracts, Some(f))| ==>
      InBand(f.riskLevel.value, GetContracts(contracts, Some(f))[i].riskScore)
  {
    var level := f.riskLevel.value;
    FilterIsSubsequence(contracts, (c: Contract) => InBand(level, c.riskScore));
    var r := GetContracts(contracts, Some(f));
    forall i | 0 <= i < |r| ensures InBand(level, r[i].riskScore) {
      assert r[i] in r;
    }
  }

  /** `category`, `dateFrom` and `dateTo` never change the result. */
  lemma GetContractsIgnoresCategoryAndDates(contracts: seq<Contract>, f: ContractFilters, g: ContractFilters)
    requires f.riskLevel == g.riskLevel
    ensures GetContracts(contracts, Some(f)) == GetContracts(contracts, Some(g))
  {
  }

  /** Every score lies in exactly one of the three bands. */
  lemma BandsAreExclusive(score: real)
    ensures InBand(High, score) || InBand(Medium, score) || InBand(Low, score)
    ensures !(InBand(High, score) && InBand(Medium, score))
    ensures !(InBand(High, score) && InBand(Low, score))
    ensures !(InBand(Medium, score) && InBand(Low, score))
  {
  }

  function RiskLevelFilter(level: RiskLevel): ContractFilters {
    ContractFilters(Some(level), None, None, None)
  }

  /** The three band results split the contract list: together they are exactly as long. */
  lemma BandResultsPartitionContracts(contracts: seq<Contract>)
    ensures |GetContracts(contracts, Some(RiskLevelFilter(High)))|
          + |GetContracts(contracts, Some(RiskLevelFilter(Medium)))|
          + |GetContracts(contracts, Some(RiskLevelFilter(Low)))| == |contracts|
  {
    FilterPartition3(contracts,
      (c: Contract) => InBand(High, c.riskScore),
      (c: Contract) => InBand(Medium, c.riskScore),
      (c: Contract) => InBand(Low, c.riskScore));
  }

  /** On the shipped mock data: two high-risk contracts, no medium one, one low one. */
  lemma MockContractsByBand()
    ensures GetMockContracts(Some(RiskLevelFilter(High))) == MockContracts[..2]
    ensures GetMockContracts(Some(RiskLevelFilter(Medium))) == []
    ensures GetMockContracts(Some(RiskLevelFilter(Low))) == MockContracts[2..]
  {
    var high := (c: Contract) => InBand(High, c.riskScore);
    var medium := (c: Contract) => InBand(Medium, c.riskScore);
    var low := (c: Contract) => InBand(Low, c.riskScore);
    assert MockContracts[1..][1..] == MockContracts[2..];
    assert MockContracts[2..][1..] == [];
    assert Filter(MockContracts[2..], high) == [];
    assert Filter(MockContracts[1..], high) == [MockContracts[1]];
    assert Filter(MockContracts[2..], medium) == [];
    assert Filter(MockContracts[1..], medium) == [];
    assert Filter(MockContracts[2..], low) == MockContracts[2..];
    assert Filter(MockContracts[1..], low) == MockContracts[2..];
  }

  // ---------------------------------------------------------------------------
  // updateAlgorithmSettings
  // ---------------------------------------------------------------------------

  /** `findIndex`: the position of the first entry called `name`, or -1 when there is none. */
  function IndexOfName(algorithms: seq<AlgorithmMetrics>, name: string): (r: int)
    ensures -1 <= r < |algorithms|
    ensures r == -1 <==> forall i :: 0 <= i < |algorithms| ==> algorithms[i].name != name
    ensures 0 <= r ==> algorithms[r].name == name
    ensures forall i :: 0 <= i < r ==> algorithms[i].name != name
    decreases |algorithms|
  {
    if algorithms == [] then -1
    else if algorithms[0].name == name then 0
    else
      var k := IndexOfName(algorithms[1..], name);
      if k == -1 then -1 else k + 1
  }

  /** `{ ...alg, ...settings }`: every field present in `settings` overrides the entry's. */
  function Merge(alg: AlgorithmMetrics, settings: AlgorithmSettings): (r: AlgorithmMetrics)
    ensures settings.enabled.None? ==> r.enabled == alg.enabled
    ensures settings.name.None? ==> r.name == alg.name
  {
    AlgorithmMetrics(
      settings.name.GetOr(alg.name),
      settings.detected.GetOr(alg.detected),
      settings.accuracy.GetOr(alg.accuracy),
      settings.description.GetOr(alg.description),
      settings.enabled.GetOr(alg.enabled))
  }

  /** The algorithm list after `updateAlgorithmSettings(name, settings)`. */
  function UpdatedAlgorithms(algorithms: seq<AlgorithmMetrics>, name: string, settings: AlgorithmSettings): (r: seq<AlgorithmMetrics>)
    ensures |r| == |algorithms|
  {
    var k := IndexOfName(algorithms, name);
    if k == -1 then algorithms else algorithms[k := Merge(algorithms[k], settings)]
  }

  /** Merging `{ enabled: b }` sets `enabled` to `b` and leaves every other field alone. */
  lemma MergeEnabledOnly(alg: AlgorithmMetrics, b: bool)
    ensures Merge(alg, EnabledSetting(b)) == alg.(enabled := b)
  {
  }

  /**
   * If some entry is called `name`, only the first such entry is replaced, by
   * its merge with `settings`; everything else is left as it was.
   */
  lemma UpdateReplacesOnlyFirstMatch(algorithms: seq<AlgorithmMetrics>, name: string, settings: AlgorithmSettings, k: int)
    requires 0 <= k < |algorithms| && algorithms[k].name == name
    requires forall i :: 0 <= i < k ==> algorithms[i].name != name
    ensures UpdatedAlgorithms(algorithms, name, settings)[k] == Merge(algorithms[k], settings)
    ensures forall i :: 0 <= i < |algorithms| && i != k ==>
      UpdatedAlgorithms(algorithms, name, settings)[i] == algorithms[i]
  {
  }

  /** An unknown name leaves the list unchanged. */
  lemma UpdateUnknownNameIsNoOp(algorithms: seq<AlgorithmMetrics>, name: string, settings: AlgorithmSettings)
    requires forall i :: 0 <= i < |algorithms| ==> algorithms[i].name != name
    ensures UpdatedAlgorithms(algorithms, name, settings) == algorithms
  {
  }

  /** Sending the same `{ enabled: b }` twice has the effect of sending it once. */
  lemma UpdateEnabledIsIdempotent(algorithms: seq<AlgorithmMetrics>, name: string, b: bool)
    ensures UpdatedAlgorithms(UpdatedAlgorithms(algorithms, name, EnabledSetting(b)), name, EnabledSetting(b))
         == UpdatedAlgorithms(algorithms, name, EnabledSetting(b))
  {
    var once := UpdatedAlgorithms(algorithms, name, EnabledSetting(b));
    var k := IndexOfName(algorithms, name);
    if k != -1 {
      assert once[k].name == name;
      forall i | 0 <= i < k ensures once[i].name != name {
        assert once[i] == algorithms[i];
      }
      assert IndexOfName(once, name) == k;
    }
  }

  /**
   * The module-level algorithm list. The source keeps it in a `const` array
   * whose slots `updateAlgorithmSettings` overwrites in place.
   */
  class AlgorithmStore {
    const algorithms: array<AlgorithmMetrics>

    /** The store as the module is loaded: the four mock algorithms, all enabled. */
    constructor ()
      ensures fresh(algorithms)
      ensures algorithms[..] == MockAlgorithms
    {
      algorithms := new AlgorithmMetrics[4](i requires 0 <= i < 4 => MockAlgorithms[i]);
    }

    /** `mockAlgorithms.findIndex((alg) => alg.name === name)`. */
    method FindIndex(name: string) returns (index: int)
      ensures index == IndexOfName(algorithms[..], name)
    {
      index := 0;
      while index < algorithms.Length
        invariant 0 <= index <= algorithms.Length
        invariant forall i :: 0 <= i < index ==> algorithms[i].name != name
      {
        if algorithms[index].name == name {
          return;
        }
        index := index + 1;
      }
      index := -1;
    }

    /**
     * `updateAlgorithmSettings(name, settings)`: merges `settings` into the
     * first entry called `name`, in place, and always reports success.
     */
    method UpdateAlgorithmSettings(name: string, settings: AlgorithmSettings) returns (ok: bool)
      modifies algorithms
      ensures ok
      ensures algorithms[..] == UpdatedAlgorithms(old(algorithms[..]), name, settings)
    {
      var index := FindIndex(name);
      if index != -1 {
        algorithms[index] := Merge(algorithms[index], settings);
      }
      ok := true;
    }

    /** `getAlgorithmMetrics` hands out the store's own array, not a copy. */
    method GetAlgorithmMetrics() returns (list: array<AlgorithmMetrics>)
      ensures list == algorithms
    {
      list := algorithms;
    }

    /** `getUpdatedAlgorithmMetrics`: an element-wise equal copy of the list. */
    method GetUpdatedAlgorithmMetrics() returns (list: seq<AlgorithmMetrics>)
      ensures |list| == algorithms.Length
      ensures forall i :: 0 <= i < |list| ==> list[i] == algorithms[i]
    {
      list := algorithms[..];
    }
  }

  // ---------------------------------------------------------------------------
  // exportData
  // ---------------------------------------------------------------------------

  datatype ExportFormat = Pdf | Excel | Csv

  function FormatName(format: ExportFormat): string {
    match format
    case Pdf => "pdf"
    case Excel => "excel"
    case Csv => "csv"
  }

  const ExportPrefix: string := "/downloads/report."

  /** `exportData(format)` resolves to the download path of the report. */
  function ExportData(format: ExportFormat): (path: string)
    ensures |path| > |ExportPrefix|
    ensures path[..|ExportPrefix|] == ExportPrefix
    ensures path[|ExportPrefix|..] == FormatName(format)
  {
    ExportPrefix + FormatName(format)
  }

  /** Reads the format back from a download path, if it is one. */
  function FormatOfPath(path: string): Option<ExportFormat> {
    if |path| < |ExportPrefix| || path[..|ExportPrefix|] != ExportPrefix then None
    else
      var ext := path[|ExportPrefix|..];
      if ext == "pdf" then Some(Pdf)
      else if ext == "excel" then Some(Excel)
      else if ext == "csv" then Some(Csv)
      else None
  }

  /** Each format has its own path, and the path names the format and nothing else. */
  lemma ExportPathRoundTrip(format: ExportFormat, path: string)
    ensures FormatOfPath(ExportData(format)) == Some(format)
    ensures FormatOfPath(path) == Some(format) ==> path == ExportData(format)
  {
    var p := ExportData(format);
    assert p[..|ExportPrefix|] == ExportPrefix && p[|ExportPrefix|..] == FormatName(format);
    if FormatOfPath(path) == Some(format) {
      assert path == path[..|ExportPrefix|] + path[|ExportPrefix|..];
    }
  }
}

/** The decision log (`PerformanceTracker` in utils/performance_tracker.py)
    and `extract_decision_data`, which reads the fields to log out of an
    analysis run. The JSON and CSV files behind the log are modelled as the
    in-memory sequence of entries they hold; the clock is a parameter. */
module PerformanceTracking {
  import opened Text
  import opened Records

  // ------------------------------------------------------------ log entries

  /** The columns of a log entry, in the order `log_decision` writes them. */
  datatype Field =
    | Timestamp | Date | Ticker | CompanyName | Sector | Model | Recommendation | Conviction
    | PositionSize | CurrentPrice | FairValue | UpsidePercent | IntrinsicValueRange | MarginOfSafety
    | QualityScore | MoatRating | RiskScore | RiskRating | ExpectedReturn3y | CompositeScore
    | ValueRec | GrowthRec | RiskRec | AnalystAgreement | KeyCatalyst | StopLoss | OutputFile | Notes
  {
    /** The dictionary key of the column. */
    function Name(): string {
      match this
      case Timestamp => "timestamp"
      case Date => "date"
      case Ticker => "ticker"
      case CompanyName => "company_name"
      case Sector => "sector"
      case Model => "model"
      case Recommendation => "recommendation"
      case Conviction => "conviction"
      case PositionSize => "position_size"
      case CurrentPrice => "current_price"
      case FairValue => "fair_value"
      case UpsidePercent => "upside_percent"
      case IntrinsicValueRange => "intrinsic_value_range"
      case MarginOfSafety => "margin_of_safety"
      case QualityScore => "quality_score"
      case MoatRating => "moat_rating"
      case RiskScore => "risk_score"
      case RiskRating => "risk_rating"
      case ExpectedReturn3y => "expected_return_3y"
      case CompositeScore => "composite_score"
      case ValueRec => "value_rec"
      case GrowthRec => "growth_rec"
      case RiskRec => "risk_rec"
      case AnalystAgreement => "analyst_agreement"
      case KeyCatalyst => "key_catalyst"
      case StopLoss => "stop_loss"
      case OutputFile => "output_file"
      case Notes => "notes"
    }

    /** Columns read from the clock rather than copied. */
    predicate FromClock() {
      this == Timestamp || this == Date
    }

    /** Numeric columns, logged as `None` when missing. */
    predicate IsNumeric() {
      this in {Conviction, PositionSize, CurrentPrice, FairValue, UpsidePercent, MarginOfSafety,
               QualityScore, RiskScore, ExpectedReturn3y, CompositeScore, StopLoss}
    }

    /** The value logged for a copied column missing from the analysis
        data. */
    function Default(): PyVal {
      if this == Ticker || this == Recommendation then PyStr("UNKNOWN")
      else if this == Model then PyStr("unknown")
      else if IsNumeric() then PyNone
      else PyStr("")
    }
  }

  /** A dictionary restricted to the keys named by the columns. */
  type Record = map<Field, PyVal>

  /** One logged decision: a value for every column. */
  type Entry = Record

  predicate Complete(e: Entry) {
    forall f: Field :: f in e
  }

  /** The entry `log_decision` builds; `timestamp` and `date` are read from
      the clock. */
  function EntryOf(analysis: Record, timestamp: string, date: string): (e: Entry)
    ensures Complete(e)
  {
    map f: Field | true :: if f == Timestamp then PyStr(timestamp) else if f == Date then PyStr(date)
                           else if f in analysis then analysis[f] else f.Default()
  }

  /** Present keys are copied; missing ones get 'UNKNOWN' (ticker and
      recommendation), 'unknown' (model), `None` (numeric columns) or ''
      (the other text columns). */
  lemma EntryDefaults(analysis: Record, timestamp: string, date: string, f: Field)
    ensures var e := EntryOf(analysis, timestamp, date);
      && e[Timestamp] == PyStr(timestamp) && e[Date] == PyStr(date)
      && (!f.FromClock() && f in analysis ==> e[f] == analysis[f])
      && (!f.FromClock() && f !in analysis ==>
           e[f] == if f in {Ticker, Recommendation} then PyStr("UNKNOWN")
                   else if f == Model then PyStr("unknown")
                   else if f.IsNumeric() then PyNone
                   else PyStr(""))
  {
  }

  predicate WellFormed(entries: seq<Entry>) {
    forall i :: 0 <= i < |entries| ==> Complete(entries[i])
  }

  // ---------------------------------------------------------------- queries

  /** `[d for d in entries if d[key] == value]` */
  function Matching(entries: seq<Entry>, key: Field, value: PyVal): seq<Entry>
    requires WellFormed(entries)
  {
    if entries == [] then []
    else
      var last := entries[|entries| - 1];
      Matching(entries[..|entries| - 1], key, value) + (if last[key] == value then [last] else [])
  }

  /** The matching entries are exactly the entries whose field equals the
      value. */
  lemma {:induction false} MatchingExact(entries: seq<Entry>, key: Field, value: PyVal)
    requires WellFormed(entries)
    ensures forall d :: d in Matching(entries, key, value) ==> d in entries && d[key] == value
    ensures forall d :: d in entries && d[key] == value ==> d in Matching(entries, key, value)
    decreases |entries|
  {
    if entries != [] {
      var prefix := entries[..|entries| - 1];
      MatchingExact(prefix, key, value);
      assert entries == prefix + [entries[|entries| - 1]];
    }
  }

  /** Filtering keeps log order: it distributes over concatenation. */
  lemma {:induction false} MatchingAppend(a: seq<Entry>, b: seq<Entry>, key: Field, value: PyVal)
    requires WellFormed(a) && WellFormed(b)
    ensures WellFormed(a + b)
    ensures Matching(a + b, key, value) == Matching(a, key, value) + Matching(b, key, value)
    decreases |b|
  {
    assert WellFormed(a + b) by {
      forall i | 0 <= i < |a + b| ensures Complete((a + b)[i]) {
        if i >= |a| { assert (a + b)[i] == b[i - |a|]; }
      }
    }
    if b != [] {
      var prefix := b[..|b| - 1];
      MatchingAppend(a, prefix, key, value);
      var last := b[|b| - 1];
      var tail := if last[key] == value then [last] else [];
      assert (a + b)[..|a + b| - 1] == a + prefix;
      assert (a + b)[|a + b| - 1] == last;
      assert Matching(a + b, key, value) == Matching(a + prefix, key, value) + tail;
      assert Matching(b, key, value) == Matching(prefix, key, value) + tail;
      AppendAssoc(Matching(a, key, value), Matching(prefix, key, value), tail);
    } else {
      assert a + b == a;
    }
  }

  /** `len([d for d in entries if d[key] == value])` */
  function Count(entries: seq<Entry>, key: Field, value: PyVal): nat
    requires WellFormed(entries)
  {
    |Matching(entries, key, value)|
  }

  /** Counts of three different values never exceed the number of entries. */
  lemma {:induction false} CountsBounded(entries: seq<Entry>, key: Field, u: PyVal, v: PyVal, w: PyVal)
    requires WellFormed(entries)
    requires u != v && v != w && u != w
    ensures Count(entries, key, u) + Count(entries, key, v) + Count(entries, key, w) <= |entries|
    decreases |entries|
  {
    if entries != [] {
      CountsBounded(entries[..|entries| - 1], key, u, v, w);
    }
  }

  /** `[d['conviction'] for d in entries if d['conviction'] is not None]` */
  function Convictions(entries: seq<Entry>): (r: seq<PyVal>)
    requires WellFormed(entries)
    ensures forall i :: 0 <= i < |r| ==> r[i] != PyNone
    ensures |r| <= |entries|
  {
    if entries == [] then []
    else
      var c := entries[|entries| - 1][Conviction];
      Convictions(entries[..|entries| - 1]) + (if c != PyNone then [c] else [])
  }

  /** A logged conviction as a number (a non-number is read as 0). */
  function ConvictionValue(v: PyVal): real {
    if v.IsNumber() then v.AsReal() else 0.0
  }

  /** `sum(convictions)` */
  function Sum(vs: seq<PyVal>): real {
    if vs == [] then 0.0 else Sum(vs[..|vs| - 1]) + ConvictionValue(vs[|vs| - 1])
  }

  /** The average conviction, 0 when no entry has one. */
  function AverageConviction(entries: seq<Entry>): real
    requires WellFormed(entries)
  {
    Average(Convictions(entries))
  }

  /** `sum(cs) / len(cs) if cs else 0` */
  function Average(cs: seq<PyVal>): real {
    if |cs| > 0 then Sum(cs) / (|cs| as real) else 0.0
  }

  lemma {:induction false} SumBounds(vs: seq<PyVal>, lo: real, hi: real)
    requires forall i :: 0 <= i < |vs| ==> lo <= ConvictionValue(vs[i]) <= hi
    ensures (|vs| as real) * lo <= Sum(vs) <= (|vs| as real) * hi
    decreases |vs|
  {
    if vs != [] {
      var init := vs[..|vs| - 1];
      assert forall i :: 0 <= i < |init| ==> init[i] == vs[i];
      SumBounds(init, lo, hi);
      var m := |init| as real;
      assert (|vs| as real) * lo == m * lo + lo;
      assert (|vs| as real) * hi == m * hi + hi;
    }
  }

  /** The average lies within any bounds every logged conviction keeps
      (for instance 0 to 10), and is 0 when none is logged. */
  lemma AverageConvictionBounds(entries: seq<Entry>, lo: real, hi: real)
    requires WellFormed(entries)
    requires forall i :: 0 <= i < |Convictions(entries)| ==> lo <= ConvictionValue(Convictions(entries)[i]) <= hi
    ensures Convictions(entries) == [] ==> AverageConviction(entries) == 0.0
    ensures Convictions(entries) != [] ==> lo <= AverageConviction(entries) <= hi
  {
    AverageBounds(Convictions(entries), lo, hi);
  }

  lemma AverageBounds(cs: seq<PyVal>, lo: real, hi: real)
    requires forall i :: 0 <= i < |cs| ==> lo <= ConvictionValue(cs[i]) <= hi
    ensures cs == [] ==> Average(cs) == 0.0
    ensures cs != [] ==> lo <= Average(cs) <= hi
  {
    if cs != [] {
      SumBounds(cs, lo, hi);
      DivBounds(Sum(cs), |cs| as real, lo, hi);
    }
  }

  /** A total between n·lo and n·hi averages to between lo and hi. */
  lemma DivBounds(total: real, n: real, lo: real, hi: real)
    requires n > 0.0 && n * lo <= total <= n * hi
    ensures lo <= total / n <= hi
  {
    var x := total / n;
    assert x * n == total;
    if x < lo {
      MulLe(x, lo, n);
    }
    if x > hi {
      MulLe(hi, x, n);
    }
  }

  // ---------------------------------------------------------------- summary

  const NoDecisionsText := "No decisions logged yet."

  /** What `generate_summary_report` computes: the message for an empty
      log, the `TypeError` or `ValueError` it raises, or the figures it
      prints. */
  datatype Summary =
    | Message(text: string)
    | Raises
    | Report(total: nat, buy: nat, sell: nat, hold: nat, avgConviction: real,
             tickers: set<PyVal>, models: set<PyVal>, firstDate: PyVal, lastDate: PyVal,
             recent: seq<Entry>)

  /** The last ten entries, which the report lists one by one. */
  function Recent(entries: seq<Entry>): (r: seq<Entry>)
    ensures |r| == Min(10, |entries|)
    ensures forall i :: 0 <= i < |r| ==> r[i] == entries[|entries| - |r| + i]
  {
    entries[|entries| - Min(10, |entries|)..]
  }

  /** `sum` needs numeric convictions; `sorted` and `', '.join` need every
      ticker and model to be a string; and each of the last ten entries
      needs a string recommendation for `:10s` and a numeric price and fair
      value for `:.2f`. */
  predicate SummaryRaises(entries: seq<Entry>)
    requires WellFormed(entries)
  {
    || (exists i :: 0 <= i < |Convictions(entries)| && !Convictions(entries)[i].IsNumber())
    || (exists i :: 0 <= i < |entries| && !(entries[i][Ticker].PyStr? && entries[i][Model].PyStr?))
    || (exists i :: 0 <= i < |Recent(entries)|
          && !(Recent(entries)[i][Recommendation].PyStr?
               && Recent(entries)[i][CurrentPrice].IsNumber() && Recent(entries)[i][FairValue].IsNumber()))
  }

  // ---------------------------------------------------------------- the log

  class PerformanceTracker {
    /** The decisions logged so far, oldest first. */
    var entries: seq<Entry>

    ghost predicate Valid()
      reads this
    {
      WellFormed(entries)
    }

    /** A new, empty log. */
    constructor ()
      ensures Valid() && entries == []
    {
      entries := [];
    }

    /** `log_decision`: one entry after all existing ones. */
    method LogDecision(analysis: Record, timestamp: string, date: string)
      requires Valid()
      modifies this
      ensures Valid()
      ensures entries == old(entries) + [EntryOf(analysis, timestamp, date)]
    {
      entries := entries + [EntryOf(analysis, timestamp, date)];
    }

    /** `get_decisions_by_ticker` */
    function DecisionsByTicker(ticker: string): (r: seq<Entry>)
      reads this
      requires Valid()
      ensures forall d :: d in r <==> d in entries && d[Ticker] == PyStr(ticker)
    {
      MatchingExact(entries, Ticker, PyStr(ticker));
      Matching(entries, Ticker, PyStr(ticker))
    }

    /** `get_decisions_by_recommendation` */
    function DecisionsByRecommendation(recommendation: string): (r: seq<Entry>)
      reads this
      requires Valid()
      ensures forall d :: d in r <==> d in entries && d[Recommendation] == PyStr(recommendation)
    {
      MatchingExact(entries, Recommendation, PyStr(recommendation));
      Matching(entries, Recommendation, PyStr(recommendation))
    }

    /** `get_decisions_by_model` */
    function DecisionsByModel(model: string): (r: seq<Entry>)
      reads this
      requires Valid()
      ensures forall d :: d in r <==> d in entries && d[Model] == PyStr(model)
    {
      MatchingExact(entries, Model, PyStr(model));
      Matching(entries, Model, PyStr(model))
    }

    /** `generate_summary_report`, up to the layout of the text. */
    function GenerateSummaryReport(): (s: Summary)
      reads this
      requires Valid()
      ensures s == Message(NoDecisionsText) <==> entries == []
      ensures s.Raises? <==> entries != [] && SummaryRaises(entries)
      ensures s.Report? ==> s.total == |entries| && s.buy + s.sell + s.hold <= s.total
      ensures s.Report? ==>
        && s.buy == Count(entries, Recommendation, PyStr("BUY"))
        && s.sell == Count(entries, Recommendation, PyStr("SELL"))
        && s.hold == Count(entries, Recommendation, PyStr("HOLD"))
      ensures s.Report? ==> s.avgConviction == AverageConviction(entries)
      ensures s.Report? ==>
        && s.tickers == (set i | 0 <= i < |entries| :: entries[i][Ticker])
        && s.models == (set i | 0 <= i < |entries| :: entries[i][Model])
      ensures s.Report? ==> s.firstDate == entries[0][Date] && s.lastDate == entries[|entries| - 1][Date]
      ensures s.Report? ==> s.recent == Recent(entries)
    {
      if entries == [] then Message(NoDecisionsText)
      else if SummaryRaises(entries) then Raises
      else
        CountsBounded(entries, Recommendation, PyStr("BUY"), PyStr("SELL"), PyStr("HOLD"));
        Report(|entries|,
               Count(entries, Recommendation, PyStr("BUY")),
               Count(entries, Recommendation, PyStr("SELL")),
               Count(entries, Recommendation, PyStr("HOLD")),
               AverageConviction(entries),
               set i | 0 <= i < |entries| :: entries[i][Ticker],
               set i | 0 <= i < |entries| :: entries[i][Model],
               entries[0][Date], entries[|entries| - 1][Date],
               Recent(entries))
    }
  }

  /** A decision logged without a fair value (the column's default is
      `None`) makes every later summary report raise, since the entry is
      among the last ten printed with `:.2f`. */
  lemma UnpricedDecisionRaises(entries: seq<Entry>, analysis: Record, timestamp: string, date: string)
    requires WellFormed(entries)
    requires FairValue !in analysis
    ensures var log := entries + [EntryOf(analysis, timestamp, date)];
      WellFormed(log) && SummaryRaises(log)
  {
    var e := EntryOf(analysis, timestamp, date);
    var log := entries + [e];
    assert e[FairValue] == PyNone;
    var r := Recent(log);
    assert r[|r| - 1] == e;
  }

  /** A ticker logged as something other than a string, however long ago,
      makes every later summary report raise in `', '.join(sorted(tickers))`. */
  lemma NonTextTickerRaises(entries: seq<Entry>, analysis: Record, timestamp: string, date: string, later: seq<Entry>)
    requires WellFormed(entries) && WellFormed(later)
    requires Ticker in analysis && !analysis[Ticker].PyStr?
    ensures var log := entries + [EntryOf(analysis, timestamp, date)] + later;
      WellFormed(log) && SummaryRaises(log)
  {
    var e := EntryOf(analysis, timestamp, date);
    var log := entries + [e] + later;
    assert log[|entries|] == e;
  }

  /** Logging a decision adds it to the end of the ticker query exactly
      when its ticker matches, and changes nothing else in that query. */
  lemma LoggedThenQueried(entries: seq<Entry>, analysis: Record, timestamp: string, date: string, ticker: string)
    requires WellFormed(entries)
    ensures var e := EntryOf(analysis, timestamp, date);
      WellFormed(entries + [e]) &&
      Matching(entries + [e], Ticker, PyStr(ticker))
        == Matching(entries, Ticker, PyStr(ticker))
           + (if e[Ticker] == PyStr(ticker) then [e] else [])
  {
    var e := EntryOf(analysis, timestamp, date);
    MatchingAppend(entries, [e], Ticker, PyStr(ticker));
    assert [e][..0] == [];
  }

  // ------------------------------------------------ extract_decision_data

  /** Python's `float(s)`: `None` when it raises `ValueError`. */
  type ParseFloat = string -> Option<real>

  /** What one field's line loop does to the data: nothing (no line chosen,
      or the `try` swallowed an error), write a value, or raise an error
      that leaves `extract_decision_data`. */
  datatype Outcome = Keep | Write(value: PyVal) | Crash

  /** How a field's line is chosen. */
  datatype Pick =
    | AnyOf(markers: seq<string>)
    | AllOf(markers: seq<string>)
    | StrippedStartsWith(prefix: string)

  predicate Picks(p: Pick, line: string) {
    match p
    case AnyOf(ms) => exists i :: 0 <= i < |ms| && Contains(line, ms[i])
    case AllOf(ms) => forall i :: 0 <= i < |ms| ==> Contains(line, ms[i])
    case StrippedStartsWith(prefix) => StartsWith(Strip(line), prefix)
  }

  /** How the chosen line is read. */
  datatype Reader =
    | NumberAfter(clean: Cleanup)
    | RecommendationText
    | FairValueNumber
    | MoatWord
    | WordAfterColon
    | RatingText

  function Read(pf: ParseFloat, r: Reader, line: string): Outcome {
    match r
    case NumberAfter(c) => NumberAfterColon(pf, line, c)
    case RecommendationText => RecommendationOf(line)
    case FairValueNumber => FairValueOf(pf, line)
    case MoatWord => MoatOf(line)
    case WordAfterColon => FirstWordAfterColon(line)
    case RatingText => RiskRatingOf(line)
  }

  /** One `if marker in text: for line in lines: if pick(line): ...; break`
      block, writing the column `key`. */
  datatype Rule = Rule(key: Field, guard: seq<string>, pick: Pick, read: Reader)

  /** The text a block of rules searches. The CIO decision is a
      dictionary, whose `in` tests look at its keys. */
  datatype Source = Keys(keys: set<string>) | Prose(text: string)

  predicate Mentions(src: Source, marker: string) {
    match src
    case Keys(ks) => marker in ks
    case Prose(t) => Contains(t, marker)
  }

  predicate Mentioned(src: Source, guard: seq<string>) {
    exists i :: 0 <= i < |guard| && Mentions(src, guard[i])
  }

  /** The chosen line is the first one the rule picks; nothing happens when
      no line is picked. */
  function FieldOutcome(pf: ParseFloat, lines: seq<string>, rule: Rule): Outcome {
    if lines == [] then Keep
    else if Picks(rule.pick, lines[0]) then Read(pf, rule.read, lines[0])
    else FieldOutcome(pf, lines[1..], rule)
  }

  /** The first picked line decides the field, whatever the lines after it
      say. */
  lemma {:induction false} FirstPickedLineDecides(pf: ParseFloat, lines: seq<string>, rule: Rule, i: nat)
    requires i < |lines| && Picks(rule.pick, lines[i])
    requires forall j :: 0 <= j < i ==> !Picks(rule.pick, lines[j])
    ensures FieldOutcome(pf, lines, rule) == Read(pf, rule.read, lines[i])
  {
    if i > 0 {
      FirstPickedLineDecides(pf, lines[1..], rule, i - 1);
    }
  }

  /** Without a picked line the field is left alone. */
  lemma {:induction false} NoPickedLineKeeps(pf: ParseFloat, lines: seq<string>, rule: Rule)
    requires forall j :: 0 <= j < |lines| ==> !Picks(rule.pick, lines[j])
    ensures FieldOutcome(pf, lines, rule) == Keep
  {
    if lines != [] {
      NoPickedLineKeeps(pf, lines[1..], rule);
    }
  }

  /** The line loop of one field, with its `break`. */
  method ScanLines(pf: ParseFloat, lines: seq<string>, rule: Rule) returns (o: Outcome)
    ensures o == FieldOutcome(pf, lines, rule)
  {
    o := Keep;
    var i := 0;
    while i < |lines|
      invariant 0 <= i <= |lines|
      invariant FieldOutcome(pf, lines, rule) == FieldOutcome(pf, lines[i..], rule)
    {
      assert lines[i..][1..] == lines[i + 1..];
      if Picks(rule.pick, lines[i]) {
        o := Read(pf, rule.read, lines[i]);
        return;
      }
      i := i + 1;
    }
  }

  function Apply(data: Record, key: Field, o: Outcome): Option<Record> {
    match o
    case Keep => Some(data)
    case Write(v) => Some(data[key := v])
    case Crash => None
  }

  /** One rule applied to the data so far; `None` is an escaped error. */
  function ApplyRule(pf: ParseFloat, src: Source, rule: Rule, data: Option<Record>): Option<Record> {
    if data.None? then None
    else if !Mentioned(src, rule.guard) then data
    else match src
      // `split` on a dictionary raises AttributeError
      case Keys(_) => None
      case Prose(t) => Apply(data.value, rule.key, FieldOutcome(pf, SplitOn(t, '\n'), rule))
  }

  /** A block of rules applied in order. */
  function Section(pf: ParseFloat, src: Source, rules: seq<Rule>, data: Option<Record>): Option<Record> {
    if rules == [] then data
    else ApplyRule(pf, src, rules[|rules| - 1], Section(pf, src, rules[..|rules| - 1], data))
  }

  method RunSection(pf: ParseFloat, src: Source, rules: seq<Rule>, data0: Option<Record>) returns (data: Option<Record>)
    ensures data == Section(pf, src, rules, data0)
  {
    data := data0;
    for k := 0 to |rules|
      invariant data == Section(pf, src, rules[..k], data0)
    {
      assert rules[..k + 1][..k] == rules[..k];
      var rule := rules[k];
      if data.Some? && Mentioned(src, rule.guard) {
        match src
        case Keys(_) =>
          data := None;
        case Prose(t) =>
          var o := ScanLines(pf, SplitOn(t, '\n'), rule);
          data := Apply(data.value, rule.key, o);
      }
    }
    assert rules[..|rules|] == rules;
  }

  /** A block whose guards all fail leaves the data as it was. */
  lemma {:induction false} UnmentionedSection(pf: ParseFloat, src: Source, rules: seq<Rule>, data: Option<Record>)
    requires forall k, i :: 0 <= k < |rules| && 0 <= i < |rules[k].guard| ==> !Mentions(src, rules[k].guard[i])
    ensures Section(pf, src, rules, data) == data
    decreases |rules|
  {
    if rules != [] {
      UnmentionedSection(pf, src, rules[..|rules| - 1], data);
    }
  }

  /** A block writes only the columns of its rules. */
  lemma {:induction false} SectionWrites(pf: ParseFloat, src: Source, rules: seq<Rule>, data: Record, key: Field)
    requires forall k :: 0 <= k < |rules| ==> rules[k].key != key
    requires Section(pf, src, rules, Some(data)).Some?
    ensures key in Section(pf, src, rules, Some(data)).value <==> key in data
    decreases |rules|
  {
    if rules != [] {
      SectionWrites(pf, src, rules[..|rules| - 1], data, key);
    }
  }

  /** Once an error has escaped, later rules do not run. */
  lemma {:induction false} NoneStays(pf: ParseFloat, src: Source, rules: seq<Rule>)
    ensures Section(pf, src, rules, None) == None
    decreases |rules|
  {
    if rules != [] {
      NoneStays(pf, src, rules[..|rules| - 1]);
    }
  }

  // ------------------------------------------------------- the field readers

  /** `s` without the characters in `drop` (chained `replace(c, '')`). */
  function Without(s: string, drop: set<char>): (r: string)
    ensures forall i :: 0 <= i < |r| ==> r[i] !in drop
  {
    if s == [] then []
    else Without(s[..|s| - 1], drop) + (if s[|s| - 1] in drop then [] else [s[|s| - 1]])
  }

  /** How a number is cleaned before `float`. */
  datatype Cleanup = BeforeSlash | Drop(chars: set<char>)

  /** `s.split('/')[0]`, or `s` with the `replace(c, '')` calls applied. */
  function Clean(c: Cleanup, s: string): string {
    match c
    case BeforeSlash => SplitOn(s, '/')[0]
    case Drop(cs) => Without(s, cs)
  }

  /** `float(clean(line.split(':')[1].strip()))` inside a `try`: any error
      leaves the field alone. */
  function NumberAfterColon(pf: ParseFloat, line: string, clean: Cleanup): (o: Outcome)
    ensures o != Crash
  {
    match Piece(line, ':', 1)
    case None => Keep
    case Some(p) =>
      match pf(Clean(clean, Strip(p)))
      case None => Keep
      case Some(x) => Write(PyFloat(x))
  }

  /** The CIO recommendation: the text after the first ':' on a
      "Recommendation:" line, else the first word after it on a
      "RECOMMENDATION:" line; outside any `try`, so an empty remainder
      raises. */
  function RecommendationOf(line: string): (o: Outcome)
    ensures o.Write? ==> o.value.PyStr?
    ensures o.Crash? ==> !Contains(line, "Recommendation:")
  {
    match Piece(line, ':', 1)
    case None => ColonSplits(line, "Recommendation:"); Crash
    case Some(p) =>
      if Contains(line, "Recommendation:") then Write(PyStr(Strip(p)))
      else match FirstWord(Strip(p))
        case None => Crash
        case Some(w) => Write(PyStr(w))
  }

  /** `line.split('$')[1].strip().split()[0]`, commas removed, as a float,
      inside a `try`. */
  function FairValueOf(pf: ParseFloat, line: string): (o: Outcome)
    ensures o != Crash
  {
    match Piece(line, '$', 1)
    case None => Keep
    case Some(p) =>
      match FirstWord(Strip(p))
      case None => Keep
      case Some(w) =>
        match pf(Without(w, {','}))
        case None => Keep
        case Some(x) => Write(PyFloat(x))
  }

  /** The moat line is tested for STRONG, then MEDIUM, then WEAK
      (case-insensitively); a line with none of them leaves the field
      unset. */
  function MoatOf(line: string): (o: Outcome)
    ensures o != Crash
    ensures o.Write? ==> o.value in {PyStr("Strong"), PyStr("Medium"), PyStr("Weak")}
    ensures o == Write(PyStr("Medium")) ==> !Contains(Upper(line), "STRONG")
    ensures o == Write(PyStr("Weak")) ==> !Contains(Upper(line), "STRONG") && !Contains(Upper(line), "MEDIUM")
    ensures o == Keep <==> !Contains(Upper(line), "STRONG") && !Contains(Upper(line), "MEDIUM") && !Contains(Upper(line), "WEAK")
  {
    if Contains(Upper(line), "STRONG") then Write(PyStr("Strong"))
    else if Contains(Upper(line), "MEDIUM") then Write(PyStr("Medium"))
    else if Contains(Upper(line), "WEAK") then Write(PyStr("Weak"))
    else Keep
  }

  /** The first word after the first ':', outside any `try`: a line without
      ':' or with nothing after it raises. */
  function FirstWordAfterColon(line: string): (o: Outcome)
    ensures o.Write? ==> o.value.PyStr? && o.value.s != "" && forall i :: 0 <= i < |o.value.s| ==> !IsSpace(o.value.s[i])
    ensures o.Crash? <==> Piece(line, ':', 1).None? || LStrip(Strip(Piece(line, ':', 1).value)) == ""
    ensures o != Keep
  {
    match Piece(line, ':', 1)
    case None => Crash
    case Some(p) =>
      match FirstWord(Strip(p))
      case None => Crash
      case Some(w) => Write(PyStr(w))
  }

  /** The risk rating: the text after the first ':' up to any '(',
      stripped. */
  function RiskRatingOf(line: string): (o: Outcome)
    ensures Contains(line, ":") ==> o.Write?
    ensures o.Write? ==> o.value.PyStr? && '(' !in o.value.s
    ensures o.Write? ==> o.value.s == "" || (!IsSpace(o.value.s[0]) && !IsSpace(o.value.s[|o.value.s| - 1]))
  {
    match Piece(line, ':', 1)
    case None => ColonSplits(line, ":"); Crash
    case Some(p) =>
      var before := SplitOn(Strip(p), '(')[0];
      SplitOnJoin(Strip(p), '(');
      StripKeepsOut(before, '(');
      StripEnds(before);
      Write(PyStr(Strip(before)))
  }

  /** Stripping keeps only characters of the text. */
  lemma StripKeepsOut(s: string, c: char)
    requires c !in s
    ensures c !in Strip(s)
  {
    var l := LStrip(s);
    assert l == s[|s| - |l|..];
    var r := RStrip(l);
    assert r == l[..|r|];
  }

  /** A stripped text neither starts nor ends with whitespace. */
  lemma StripEnds(s: string)
    ensures var r := Strip(s); r == "" || (!IsSpace(r[0]) && !IsSpace(r[|r| - 1]))
  {
    var l := LStrip(s);
    var r := RStrip(l);
    if r != "" {
      assert r[0] == l[0];
    }
  }

  /** A line containing a marker that holds ':' has a piece after its first
      ':'. */
  lemma ColonSplits(line: string, marker: string)
    requires ':' in marker
    ensures Contains(line, marker) ==> Piece(line, ':', 1).Some?
  {
    if Contains(line, marker) {
      var k := ColonAt(line, marker);
      SplitAtColon(line, k);
    }
  }

  /** Where the first ':' of a contained marker sits in the line. */
  lemma {:induction false} ColonAt(line: string, marker: string) returns (k: nat)
    requires ':' in marker && Contains(line, marker)
    ensures k < |line| && line[k] == ':'
    decreases |line|
  {
    if StartsWith(line, marker) {
      var j :| 0 <= j < |marker| && marker[j] == ':';
      assert line[j] == marker[j];
      k := j;
    } else {
      var k' := ColonAt(line[1..], marker);
      k := k' + 1;
    }
  }

  /** A text holding the separator splits into at least two pieces. */
  lemma {:induction false} SplitAtColon(s: string, k: nat)
    requires k < |s| && s[k] == ':'
    ensures |SplitOn(s, ':')| >= 2
    decreases |s|
  {
    if s[0] != ':' {
      SplitAtColon(s[1..], k - 1);
    }
  }

  // ------------------------------------------------------------ the rules

  /** The six CIO fields, in the order they are parsed. */
  const CioRules: seq<Rule> := [
    Rule(Recommendation, ["FINAL RECOMMENDATION", "Recommendation:"],
         AnyOf(["Recommendation:", "RECOMMENDATION:"]), RecommendationText),
    Rule(Conviction, ["Conviction:"], AnyOf(["Conviction:"]), NumberAfter(BeforeSlash)),
    Rule(PositionSize, ["Position Size:"], AnyOf(["Position Size:"]), NumberAfter(Drop({'%'}))),
    Rule(FairValue, ["Fair Value:", "CIO Fair Value:"], AnyOf(["Fair Value:", "CIO Fair Value:"]), FairValueNumber),
    Rule(UpsidePercent, ["Upside:"], AnyOf(["Upside:"]), NumberAfter(Drop({'%', '+'}))),
    Rule(CompositeScore, ["Composite Score:"], AnyOf(["Composite Score:"]), NumberAfter(BeforeSlash))]

  /** Quality score, moat and recommendation from the Value Hunter report. */
  const ValueRules: seq<Rule> := [
    Rule(QualityScore, ["Quality Score:"], AllOf(["Quality Score:", "/10"]), NumberAfter(BeforeSlash)),
    Rule(MoatRating, ["Moat"], AnyOf(["Moat Strength", "YOUR RATING"]), MoatWord),
    Rule(ValueRec, ["RECOMMENDATION:"], StrippedStartsWith("**RECOMMENDATION"), WordAfterColon)]

  /** Risk score and rating from the Risk Examiner report. */
  const RiskRules: seq<Rule> := [
    Rule(RiskScore, ["Risk Score:"], AllOf(["Risk Score:", "/10"]), NumberAfter(BeforeSlash)),
    Rule(RiskRating, ["RISK RATING:", "Risk Rating:"], AnyOf(["Risk Rating:", "RISK RATING:"]), RatingText)]

  /** The columns the CIO block writes. */
  const CioKeys: set<Field> := {Recommendation, Conviction, PositionSize, FairValue, UpsidePercent, CompositeScore}

  // ------------------------------------------------------------ the run

  /** What `extract_decision_data` reads from an analysis run: the ticker,
      the company information, the CIO decision (`None` when absent, else
      the keys of the decision dictionary), the full CIO synthesis and the
      Value Hunter and Risk Examiner reports ('' when absent). */
  datatype AnalysisRun = AnalysisRun(
    ticker: string, companyInfo: Dict, decision: Option<set<string>>, fullSynthesis: string,
    valueAnalysis: string, riskAnalysis: string)

  function BaseData(run: AnalysisRun): Record {
    map[Ticker := PyStr(run.ticker),
        CompanyName := Get(run.companyInfo, "name", PyStr("")),
        Sector := Get(run.companyInfo, "sector", PyStr("")),
        CurrentPrice := Get(run.companyInfo, "current_price", PyNone)]
  }

  /** `cio_decision if cio_decision else cio_full`: a non-empty decision
      dictionary is searched instead of the synthesis text. */
  function CioSource(run: AnalysisRun): (src: Source)
    ensures run.decision.Some? && run.decision.value != {} ==> src == Keys(run.decision.value)
    ensures (run.decision.None? || run.decision.value == {}) ==> src == Prose(run.fullSynthesis)
  {
    if run.decision.Some? && run.decision.value != {} then Keys(run.decision.value) else Prose(run.fullSynthesis)
  }

  predicate Truthy(src: Source) {
    match src
    case Keys(ks) => ks != {}
    case Prose(t) => t != ""
  }

  function AfterCio(pf: ParseFloat, run: AnalysisRun): Option<Record> {
    var src := CioSource(run);
    if Truthy(src) then Section(pf, src, CioRules, Some(BaseData(run))) else Some(BaseData(run))
  }

  function AfterValue(pf: ParseFloat, run: AnalysisRun): Option<Record> {
    var d := AfterCio(pf, run);
    if run.valueAnalysis != "" then Section(pf, Prose(run.valueAnalysis), ValueRules, d) else d
  }

  /** The data logged for a run; `None` when an error escapes. */
  function DecisionData(pf: ParseFloat, run: AnalysisRun): Option<Record> {
    var d := AfterValue(pf, run);
    if run.riskAnalysis != "" then Section(pf, Prose(run.riskAnalysis), RiskRules, d) else d
  }

  /** `extract_decision_data` */
  method ExtractDecisionData(pf: ParseFloat, run: AnalysisRun) returns (data: Option<Record>)
    ensures data == DecisionData(pf, run)
  {
    data := Some(BaseData(run));
    var cio := CioSource(run);
    if Truthy(cio) {
      data := RunSection(pf, cio, CioRules, data);
    }
    if run.valueAnalysis != "" {
      data := RunSection(pf, Prose(run.valueAnalysis), ValueRules, data);
    }
    if run.riskAnalysis != "" {
      data := RunSection(pf, Prose(run.riskAnalysis), RiskRules, data);
    }
  }

  /** The keys of the dictionary the CIO synthesizer returns. */
  const DecisionSummaryKeys: set<string> := {
    "recommendation", "conviction", "position_size", "composite_score", "cio_fair_value",
    "upside_to_fair_value", "expected_return_3y", "bull_return", "base_return", "bear_return",
    "bull_probability", "base_probability", "bear_probability", "upside_downside_ratio",
    "entry_price_low", "entry_price_high", "stop_loss", "target_price"}

  /** As the run is recorded, the CIO decision is that dictionary, so the
      CIO block tests its keys, none of which is a marker: no CIO field is
      ever parsed, and none reaches the logged data. */
  lemma CioDecisionDictParsesNothing(pf: ParseFloat, run: AnalysisRun)
    requires run.decision == Some(DecisionSummaryKeys)
    ensures AfterCio(pf, run) == Some(BaseData(run))
    ensures DecisionData(pf, run).Some? ==> forall k :: k in CioKeys ==> k !in DecisionData(pf, run).value
  {
    CioGuardsAreNotKeys();
    UnmentionedSection(pf, Keys(DecisionSummaryKeys), CioRules, Some(BaseData(run)));
    forall k | k in CioKeys ensures DecisionData(pf, run).Some? ==> k !in DecisionData(pf, run).value {
      LaterBlocksKeep(pf, run, k);
    }
  }

  lemma CioGuardsAreNotKeys()
    ensures forall k, i :: 0 <= k < |CioRules| && 0 <= i < |CioRules[k].guard| ==>
      !Mentions(Keys(DecisionSummaryKeys), CioRules[k].guard[i])
  {
  }

  /** The value and risk blocks leave alone a column none of their rules
      writes. */
  lemma LaterBlocksKeep(pf: ParseFloat, run: AnalysisRun, key: Field)
    requires key in CioKeys
    requires AfterCio(pf, run) == Some(BaseData(run))
    ensures DecisionData(pf, run).Some? ==> key !in DecisionData(pf, run).value
  {
    LaterRulesWriteOtherKeys(key);
    TwoBlocksKeep(pf, run.valueAnalysis, run.riskAnalysis, ValueRules, RiskRules, BaseData(run), key);
  }

  lemma TwoBlocksKeep(pf: ParseFloat, first: string, second: string, rules1: seq<Rule>, rules2: seq<Rule>,
                      data: Record, key: Field)
    requires forall k :: 0 <= k < |rules1| ==> rules1[k].key != key
    requires forall k :: 0 <= k < |rules2| ==> rules2[k].key != key
    ensures var d := if first != "" then Section(pf, Prose(first), rules1, Some(data)) else Some(data);
      var e := if second != "" then Section(pf, Prose(second), rules2, d) else d;
      e.Some? ==> (key in e.value <==> key in data)
  {
    var d := if first != "" then Section(pf, Prose(first), rules1, Some(data)) else Some(data);
    var e := if second != "" then Section(pf, Prose(second), rules2, d) else d;
    if e.Some? {
      if d.None? && second != "" {
        NoneStays(pf, Prose(second), rules2);
      }
      if first != "" {
        SectionWrites(pf, Prose(first), rules1, data, key);
      }
      if second != "" {
        SectionWrites(pf, Prose(second), rules2, d.value, key);
      }
    }
  }

  lemma LaterRulesWriteOtherKeys(key: Field)
    requires key in CioKeys
    ensures forall k :: 0 <= k < |ValueRules| ==> ValueRules[k].key != key
    ensures forall k :: 0 <= k < |RiskRules| ==> RiskRules[k].key != key
  {
  }

  /** The "CIO Fair Value:" test is subsumed by the "Fair Value:" test. */
  lemma FairValuePick(line: string)
    ensures Picks(CioRules[3].pick, line) <==> Contains(line, "Fair Value:")
  {
    var ms := ["Fair Value:", "CIO Fair Value:"];
    assert CioRules[3].pick == AnyOf(ms);
    if Contains(line, "CIO Fair Value:") {
      assert "CIO Fair Value:" == "CIO " + "Fair Value:";
      ContainsTail(line, "CIO ", "Fair Value:");
    }
    if Contains(line, "Fair Value:") {
      assert Contains(line, ms[0]);
    }
  }

  lemma {:induction false} ContainsTail(s: string, a: string, b: string)
    requires Contains(s, a + b)
    ensures Contains(s, b)
    decreases |s|
  {
    if StartsWith(s, a + b) {
      assert s[..|a + b|] == a + b;
      assert s[|a|..][..|b|] == s[..|a + b|][|a|..];
      assert (a + b)[|a|..] == b;
      DropKeepsContains(s, |a|, b);
    } else {
      ContainsTail(s[1..], a, b);
    }
  }

  lemma {:induction false} DropKeepsContains(s: string, n: nat, b: string)
    requires n <= |s| && StartsWith(s[n..], b)
    ensures Contains(s, b)
    decreases n
  {
    if n > 0 {
      assert s[1..][n - 1..] == s[n..];
      DropKeepsContains(s[1..], n - 1, b);
    } else {
      assert s[0..] == s;
    }
  }
}

/**
 * The analysis page: presentation rules for scores, captions, gaps and dimension
 * labels; the projection of a record into the five report sections; and the page's
 * state (the record it shows and whether the first fetch is still in flight), which
 * the initial fetch and the realtime subscription overwrite.
 */
module AnalysisViewer {
  import opened Wrappers
  import opened AnalysisRecords

  // ---------------------------------------------------------------------------
  // Score tiers
  // ---------------------------------------------------------------------------

  /** The three score tiers of the report: at least 8, from 6 up to 8, below 6. */
  datatype Tier = Strong | Moderate | Weak

  function ScoreTier(score: int): (t: Tier)
    ensures t == Strong <==> score >= 8
    ensures t == Moderate <==> 6 <= score < 8
    ensures t == Weak <==> score < 6
  {
    if score >= 8 then Strong else if score >= 6 then Moderate else Weak
  }

  const Green: string := "text-green-500"
  const Yellow: string := "text-yellow-500"
  const Red: string := "text-red-500"
  const Blue: string := "text-blue-500"

  datatype BadgeVariant = Default | Secondary | Destructive | Outline

  /** The text colour of each tier. */
  function TierColor(t: Tier): string {
    match t
    case Strong => Green
    case Moderate => Yellow
    case Weak => Red
  }

  /** The badge variant of each tier. */
  function TierBadge(t: Tier): BadgeVariant {
    match t
    case Strong => Default
    case Moderate => Secondary
    case Weak => Destructive
  }

  /** `getScoreColor`: green, yellow or red by the tier thresholds. */
  function ScoreColor(score: int): (c: string)
    ensures c == TierColor(ScoreTier(score))
    ensures c == Green <==> score >= 8
    ensures c == Yellow <==> 6 <= score < 8
    ensures c == Red <==> score < 6
  {
    if score >= 8 then Green
    else if score >= 6 then Yellow
    else Red
  }

  /** `getScoreBadge`: default, secondary or destructive by the same thresholds. */
  function ScoreBadge(score: int): (b: BadgeVariant)
    ensures b == TierBadge(ScoreTier(score))
    ensures b == Default <==> score >= 8
    ensures b == Secondary <==> 6 <= score < 8
    ensures b == Destructive <==> score < 6
  {
    if score >= 8 then Default
    else if score >= 6 then Secondary
    else Destructive
  }

  /** Tiers are told apart by both their colour and their badge. */
  lemma TierRenderingInjective(t: Tier, u: Tier)
    ensures TierColor(t) == TierColor(u) <==> t == u
    ensures TierBadge(t) == TierBadge(u) <==> t == u
  {
  }

  /** The colour and the badge of a score always name the same tier. */
  lemma ColorAndBadgeAgree(x: int, y: int)
    ensures ScoreColor(x) == ScoreColor(y) <==> ScoreBadge(x) == ScoreBadge(y)
  {
    TierRenderingInjective(ScoreTier(x), ScoreTier(y));
  }

  // ---------------------------------------------------------------------------
  // Overall-score caption
  // ---------------------------------------------------------------------------

  const ReadyCaption: string := "Investor-ready with minor refinements"
  const SolidCaption: string := "Solid foundation, needs improvement"
  const DevelopCaption: string := "Requires significant development"

  /** The number a JavaScript relational comparison sees: a null score compares as 0. */
  function Compared(score: Option<int>): int {
    score.GetOr(0)
  }

  /** The caption paragraph: three guarded fragments, each rendered when its band holds. */
  function CaptionFragments(score: Option<int>): (parts: seq<string>)
    ensures |parts| == 1
    ensures parts[0] == ReadyCaption <==> Compared(score) >= 80
    ensures parts[0] == SolidCaption <==> 60 <= Compared(score) < 80
    ensures parts[0] == DevelopCaption <==> Compared(score) < 60
  {
    var n := Compared(score);
    (if n >= 80 then [ReadyCaption] else [])
    + (if n >= 60 && n < 80 then [SolidCaption] else [])
    + (if n < 60 then [DevelopCaption] else [])
  }

  // ---------------------------------------------------------------------------
  // Gaps and dimension labels
  // ---------------------------------------------------------------------------

  /** The alert icon's colour: red for critical, yellow for important, blue otherwise. */
  function GapIconColor(severity: string): (c: string)
    ensures c == Red <==> severity == "critical"
    ensures c == Yellow <==> severity == "important"
    ensures c == Blue <==> severity != "critical" && severity != "important"
  {
    if severity == "critical" then Red
    else if severity == "important" then Yellow
    else Blue
  }

  /** The severity badge: destructive exactly for critical gaps, secondary otherwise. */
  function GapBadge(severity: string): (b: BadgeVariant)
    ensures b == Destructive <==> severity == "critical"
    ensures b == Secondary <==> severity != "critical"
  {
    if severity == "critical" then Destructive else Secondary
  }

  /** `key.replace(/_/g, ' ')`: every underscore becomes a space, nothing else changes. */
  function KeyLabel(key: string): (shown: string)
    ensures |shown| == |key|
    ensures forall i :: 0 <= i < |key| ==> shown[i] == (if key[i] == '_' then ' ' else key[i])
    ensures '_' !in shown
  {
    if key == [] then []
    else [if key[0] == '_' then ' ' else key[0]] + KeyLabel(key[1..])
  }

  /** A key without underscores is shown as it is. */
  lemma {:induction false} KeyLabelFixesPlainKeys(key: string)
    requires '_' !in key
    ensures KeyLabel(key) == key
  {
    if key != [] {
      assert key[0] != '_';
      KeyLabelFixesPlainKeys(key[1..]);
    }
  }

  /** Labelling is idempotent: a label is its own label. */
  lemma KeyLabelIdempotent(key: string)
    ensures KeyLabel(KeyLabel(key)) == KeyLabel(key)
  {
    KeyLabelFixesPlainKeys(KeyLabel(key));
  }

  // ---------------------------------------------------------------------------
  // The report sections
  // ---------------------------------------------------------------------------

  datatype DimensionLine = DimensionLine(caption: string, score: int, progress: int, color: string)
  datatype StrengthCard = StrengthCard(title: string, score: int, badge: BadgeVariant, description: string, details: string)
  datatype GapCard = GapCard(
    title: string, severity: string, iconColor: string, severityBadge: BadgeVariant, score: int,
    issue: string, impact: string, missingElements: seq<string>, timeToFix: string, priority: string)

  /** The five sections of a completed report. A list that is missing is shown as empty;
      the sections only render non-empty lists, so the two are indistinguishable. */
  datatype Report = Report(
    fileName: string,
    overallScore: Option<int>,
    caption: seq<string>,
    overview: seq<DimensionLine>,
    strengths: seq<StrengthCard>,
    gaps: seq<GapCard>,
    financialBadge: BadgeVariant,
    financialScore: Option<int>,
    financialStrengths: seq<string>,
    financialConcerns: seq<Concern>,
    thisWeek: seq<string>,
    nextWeek: seq<string>,
    followingWeek: seq<string>)

  function DimensionLineOf(entry: (string, int)): DimensionLine {
    DimensionLine(KeyLabel(entry.0), entry.1, entry.1 * 10, ScoreColor(entry.1))
  }

  function StrengthCardOf(s: Strength): StrengthCard {
    StrengthCard(s.title, s.score, ScoreBadge(s.score), s.description, s.details)
  }

  function GapCardOf(g: Gap): GapCard {
    GapCard(g.title, g.severity, GapIconColor(g.severity), GapBadge(g.severity), g.score,
            g.issue, g.impact, g.missingElements.GetOr([]), g.timeToFix, g.priority)
  }

  const NoRecommendations: Recommendations := Recommendations(None, None, None)
  const NoFinancialAnalysis: FinancialAnalysis := FinancialAnalysis(None, None, None, None)

  /** The report for a record: every absent field defaults to an empty map, list or
      object; stored lists are shown in stored order, with no sorting or filtering. */
  function ReportOf(row: AnalysisRow): (r: Report)
    ensures r.fileName == row.fileName && r.overallScore == row.overallScore
    ensures r.caption == CaptionFragments(row.overallScore)
    ensures |r.overview| == |row.dimensionalScores.GetOr([])|
    ensures |r.strengths| == |row.strengths.GetOr([])|
    ensures |r.gaps| == |row.gaps.GetOr([])|
    ensures row.dimensionalScores.None? ==> r.overview == []
    ensures row.strengths.None? ==> r.strengths == []
    ensures row.gaps.None? ==> r.gaps == []
    ensures row.recommendations.None? ==> r.thisWeek == [] && r.nextWeek == [] && r.followingWeek == []
    ensures row.financialAnalysis.None? ==>
              r.financialStrengths == [] && r.financialConcerns == [] && r.financialBadge == Destructive
    ensures row.financialAnalysis.Some? ==>
              var fin := row.financialAnalysis.value;
              && r.financialScore == fin.overallScore
              && r.financialBadge == ScoreBadge(fin.overallScore.GetOr(0))
              && r.financialStrengths == fin.strengths.GetOr([])
              && r.financialConcerns == fin.concerns.GetOr([])
    ensures row.recommendations.Some? ==>
              var recs := row.recommendations.value;
              && r.thisWeek == recs.thisWeek.GetOr([])
              && r.nextWeek == recs.nextWeek.GetOr([])
              && r.followingWeek == recs.followingWeek.GetOr([])
  {
    var dims := row.dimensionalScores.GetOr([]);
    var strengths := row.strengths.GetOr([]);
    var gaps := row.gaps.GetOr([]);
    var recs := row.recommendations.GetOr(NoRecommendations);
    var fin := row.financialAnalysis.GetOr(NoFinancialAnalysis);
    Report(
      row.fileName,
      row.overallScore,
      CaptionFragments(row.overallScore),
      seq(|dims|, i requires 0 <= i < |dims| => DimensionLineOf(dims[i])),
      seq(|strengths|, i requires 0 <= i < |strengths| => StrengthCardOf(strengths[i])),
      seq(|gaps|, i requires 0 <= i < |gaps| => GapCardOf(gaps[i])),
      ScoreBadge(fin.overallScore.GetOr(0)),
      fin.overallScore,
      fin.strengths.GetOr([]),
      fin.concerns.GetOr([]),
      recs.thisWeek.GetOr([]),
      recs.nextWeek.GetOr([]),
      recs.followingWeek.GetOr([]))
  }

  /** Each overview line shows its dimension's label, score, bar and colour, in the
      stored order; each strength card shows its stored strength with the badge of its
      score; each gap card shows its stored gap with its severity's icon colour and badge. */
  lemma ReportLines(row: AnalysisRow, i: nat)
    ensures var dims := row.dimensionalScores.GetOr([]); i < |dims| ==>
      && ReportOf(row).overview[i].caption == KeyLabel(dims[i].0)
      && ReportOf(row).overview[i].score == dims[i].1
      && ReportOf(row).overview[i].progress == 10 * dims[i].1
      && ReportOf(row).overview[i].color == ScoreColor(dims[i].1)
    ensures var strengths := row.strengths.GetOr([]); i < |strengths| ==>
      var s, card := strengths[i], ReportOf(row).strengths[i];
      && card.title == s.title && card.score == s.score && card.badge == ScoreBadge(s.score)
      && card.description == s.description && card.details == s.details
    ensures var gaps := row.gaps.GetOr([]); i < |gaps| ==>
      var g, card := gaps[i], ReportOf(row).gaps[i];
      && card.title == g.title && card.severity == g.severity && card.score == g.score
      && card.iconColor == GapIconColor(g.severity) && card.severityBadge == GapBadge(g.severity)
      && card.issue == g.issue && card.impact == g.impact
      && card.missingElements == g.missingElements.GetOr([])
      && card.timeToFix == g.timeToFix && card.priority == g.priority
  {
  }

  // ---------------------------------------------------------------------------
  // Page state
  // ---------------------------------------------------------------------------

  /** The page's two state variables. */
  datatype ViewerState = ViewerState(analysis: Option<AnalysisRow>, loading: bool)

  const InitialState: ViewerState := ViewerState(None, true)

  /** How the initial fetch settled: a row, or an error (the single-row query also
      fails when no row has the id). */
  datatype FetchResult = Fetched(row: AnalysisRow) | FetchFailed(message: string)

  datatype Screen = Spinner | NotFound | ProcessingPlaceholder | ReportScreen(report: Report)

  const LoadFailed: string := "Failed to load analysis"

  /** Which of the four screens the page renders. */
  function ScreenOf(s: ViewerState): (v: Screen)
    ensures v == Spinner <==> s.loading
    ensures v == NotFound <==> !s.loading && s.analysis.None?
    ensures v == ProcessingPlaceholder <==> !s.loading && s.analysis.Some? && s.analysis.value.status == Processing
    ensures v.ReportScreen? <==> !s.loading && s.analysis.Some? && s.analysis.value.status != Processing
    ensures v.ReportScreen? ==> v.report == ReportOf(s.analysis.value)
  {
    if s.loading then Spinner
    else if s.analysis.None? then NotFound
    else if s.analysis.value.status == Processing then ProcessingPlaceholder
    else ReportScreen(ReportOf(s.analysis.value))
  }

  /** The fetch settling: a row replaces the record, an error keeps what is there;
      either way loading ends. */
  function AfterFetch(s: ViewerState, r: FetchResult): (t: ViewerState)
    ensures !t.loading
    ensures r.Fetched? ==> t.analysis == Some(r.row)
    ensures r.FetchFailed? ==> t.analysis == s.analysis
  {
    match r
    case Fetched(row) => ViewerState(Some(row), false)
    case FetchFailed(_) => s.(loading := false)
  }

  /** A realtime update: the channel delivers updates of the row with the page's id, and
      its callback replaces the whole record with the new row image, with no merge. */
  function AfterUpdate(s: ViewerState, id: string, row: AnalysisRow): (t: ViewerState)
    ensures row.id == id ==> t == s.(analysis := Some(row))
    ensures row.id != id ==> t == s
  {
    if row.id == id then s.(analysis := Some(row)) else s
  }

  /** Updates delivered in order. */
  function AfterUpdates(s: ViewerState, id: string, rows: seq<AnalysisRow>): ViewerState
    decreases |rows|
  {
    if rows == [] then s else AfterUpdates(AfterUpdate(s, id, rows[0]), id, rows[1..])
  }

  /** The position of the last row with the given id, or -1 when no row has it. */
  function LastIndexFor(id: string, rows: seq<AnalysisRow>): (k: int)
    ensures -1 <= k < |rows|
    ensures 0 <= k ==> rows[k].id == id
    ensures forall j :: k < j < |rows| ==> rows[j].id != id
    decreases |rows|
  {
    if rows == [] then -1
    else if rows[|rows| - 1].id == id then |rows| - 1
    else LastIndexFor(id, rows[..|rows| - 1])
  }

  /** The last row with the given id, if any: the row at the last position that has the
      id, after which no row has it. */
  function LastFor(id: string, rows: seq<AnalysisRow>): (r: Option<AnalysisRow>)
    ensures var k := LastIndexFor(id, rows); r == if 0 <= k then Some(rows[k]) else None
    ensures r.Some? ==> exists k :: 0 <= k < |rows| && rows[k] == r.value
                                    && forall j :: k < j < |rows| ==> rows[j].id != id
    ensures r.None? <==> forall j :: 0 <= j < |rows| ==> rows[j].id != id
    decreases |rows|
  {
    if rows == [] then None
    else if rows[|rows| - 1].id == id then Some(rows[|rows| - 1])
    else LastFor(id, rows[..|rows| - 1])
  }

  /** Last arrival wins: after a run of updates the page shows the last row delivered for
      its id (or what it showed before, if none was), and loading is unaffected. */
  lemma {:induction false} LastArrivalWins(s: ViewerState, id: string, rows: seq<AnalysisRow>)
    ensures AfterUpdates(s, id, rows).loading == s.loading
    ensures AfterUpdates(s, id, rows).analysis == if LastFor(id, rows).Some? then LastFor(id, rows) else s.analysis
    decreases |rows|
  {
    if rows != [] {
      LastArrivalWins(AfterUpdate(s, id, rows[0]), id, rows[1..]);
      LastForCons(id, rows);
    }
  }

  /** Splitting `LastFor` at the first row. */
  lemma {:induction false} LastForCons(id: string, rows: seq<AnalysisRow>)
    requires rows != []
    ensures LastFor(id, rows) == if LastFor(id, rows[1..]).Some? then LastFor(id, rows[1..])
                                 else if rows[0].id == id then Some(rows[0]) else None
    decreases |rows|
  {
    var n := |rows|;
    if n > 1 {
      assert rows[1..][..n - 2] == rows[..n - 1][1..];
      if rows[n - 1].id != id {
        LastForCons(id, rows[..n - 1]);
      }
    }
  }

  /** The fetch and a realtime update race; whichever settles last decides the record,
      except that a failed fetch never erases a row the channel delivered. */
  lemma FetchUpdateRace(s: ViewerState, id: string, fetched: AnalysisRow, pushed: AnalysisRow, message: string)
    requires pushed.id == id
    ensures AfterUpdate(AfterFetch(s, Fetched(fetched)), id, pushed).analysis == Some(pushed)
    ensures AfterFetch(AfterUpdate(s, id, pushed), Fetched(fetched)).analysis == Some(fetched)
    ensures AfterFetch(AfterUpdate(s, id, pushed), FetchFailed(message)).analysis == Some(pushed)
  {
  }

  /** The page. */
  class AnalysisPage {
    const id: string
    var analysis: Option<AnalysisRow>
    var loading: bool

    function State(): ViewerState
      reads this
    {
      ViewerState(analysis, loading)
    }

    /** Mounting: no record yet, loading. With an empty route id no fetch or
        subscription is ever started, and the spinner stays. */
    constructor (id: string)
      ensures this.id == id && State() == InitialState
    {
      this.id := id;
      analysis := None;
      loading := true;
    }

    /** The initial fetch settling; a failure also shows an error toast. */
    method OnFetchSettled(r: FetchResult) returns (toast: Option<string>)
      requires id != ""
      modifies this
      ensures State() == AfterFetch(old(State()), r)
      ensures toast == if r.FetchFailed? then Some(LoadFailed) else None
    {
      loading := false;
      match r
      case Fetched(row) =>
        analysis := Some(row);
        toast := None;
      case FetchFailed(_) =>
        toast := Some(LoadFailed);
    }

    /** An update event on the table. */
    method OnRowUpdated(row: AnalysisRow)
      requires id != ""
      modifies this
      ensures State() == AfterUpdate(old(State()), id, row)
    {
      if row.id == id {
        analysis := Some(row);
      }
    }

    function CurrentScreen(): Screen
      reads this
    {
      ScreenOf(State())
    }
  }
}

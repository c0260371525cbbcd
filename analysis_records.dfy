/**
 * The analysis record and the report it carries once completed, shared by the
 * upload page (which creates records), the enrichment worker (which completes
 * them) and the analysis page (which renders them). The backing table of the
 * hosted database is `AnalysesTable`, a map from record id to row.
 */
module AnalysisRecords {
  import opened Wrappers

  datatype Status = Processing | Completed | Failed

  /** One entry of `strengths`. */
  datatype Strength = Strength(title: string, score: int, description: string, details: string)

  /** One entry of `gaps`; `severity` is free text that the model is asked to keep to
      "critical", "important" or "nice_to_have". */
  datatype Gap = Gap(
    title: string, severity: string, score: int, issue: string, impact: string,
    missingElements: Option<seq<string>>, timeToFix: string, priority: string)

  datatype Recommendations = Recommendations(
    thisWeek: Option<seq<string>>, nextWeek: Option<seq<string>>, followingWeek: Option<seq<string>>)

  datatype Concern = Concern(title: string, issue: string, impact: Option<string>, recommendation: string)

  datatype FinancialAnalysis = FinancialAnalysis(
    overallScore: Option<int>, strengths: Option<seq<string>>, concerns: Option<seq<Concern>>,
    breakEvenAnalysis: Option<string>)

  datatype MarketAnalysis = MarketAnalysis(
    score: Option<int>, strengths: Option<seq<string>>, concerns: Option<seq<Concern>>)

  /** The parsed model output. Every top-level key may be missing (`None`): nothing
      validates the JSON beyond parsing it. Dimensional scores keep the key order of
      the JSON object, which is the order the overview renders them in. */
  datatype Analysis = Analysis(
    overallScore: Option<int>,
    dimensionalScores: Option<seq<(string, int)>>,
    strengths: Option<seq<Strength>>,
    gaps: Option<seq<Gap>>,
    recommendations: Option<Recommendations>,
    financialAnalysis: Option<FinancialAnalysis>,
    marketAnalysis: Option<MarketAnalysis>,
    investorFeedbackSimulation: Option<string>,
    estimatedTimeToInvestorReady: Option<string>)

  /** A row of `business_plan_analyses`; `None` is SQL null. */
  datatype AnalysisRow = AnalysisRow(
    id: string, userId: string,
    fileName: string, filePath: string, fileSize: int, fileType: string,
    status: Status,
    overallScore: Option<int>,
    dimensionalScores: Option<seq<(string, int)>>,
    strengths: Option<seq<Strength>>,
    gaps: Option<seq<Gap>>,
    recommendations: Option<Recommendations>,
    financialAnalysis: Option<FinancialAnalysis>,
    marketAnalysis: Option<MarketAnalysis>,
    fullReport: Option<Analysis>,
    createdAt: string, updatedAt: string)

  /** The insert payload of the upload page: owner, file metadata, status. */
  datatype NewAnalysis = NewAnalysis(
    userId: string, fileName: string, filePath: string, fileSize: int, fileType: string, status: Status)

  /** An error reported by the database client, and whether it is an `Error` instance. */
  datatype DbError = DbError(message: string, isErrorInstance: bool)

  /** No report field is filled in. */
  predicate NoReport(row: AnalysisRow) {
    && row.overallScore.None? && row.dimensionalScores.None? && row.strengths.None?
    && row.gaps.None? && row.recommendations.None? && row.financialAnalysis.None?
    && row.marketAnalysis.None? && row.fullReport.None?
  }

  /** The lifecycle invariant of a record: while processing, no report field is set. */
  predicate LifecycleValid(row: AnalysisRow) {
    row.status == Processing ==> NoReport(row)
  }

  /** The row the database creates for an insert: the payload's columns, a generated id,
      default timestamps, and null for every column the payload does not name. */
  function InsertedRow(payload: NewAnalysis, id: string, createdAt: string): (row: AnalysisRow)
    ensures row.id == id && row.userId == payload.userId && row.status == payload.status
    ensures row.fileName == payload.fileName && row.filePath == payload.filePath
    ensures row.fileSize == payload.fileSize && row.fileType == payload.fileType
    ensures NoReport(row)
    ensures payload.status == Processing ==> LifecycleValid(row)
  {
    AnalysisRow(
      id, payload.userId, payload.fileName, payload.filePath, payload.fileSize, payload.fileType,
      payload.status, None, None, None, None, None, None, None, None, createdAt, createdAt)
  }

  /** A column named in an update keeps its old value when the update's value is
      `undefined`: the client serialises the update with JSON, which drops such keys. */
  function Overwrite<T>(current: Option<T>, update: Option<T>): Option<T> {
    if update.Some? then update else current
  }

  /** The row after the enrichment worker's update: status completed, the seven report
      columns copied from the analysis where it has them, the whole analysis as the full
      report, and a fresh update time. */
  function CompletedRow(row: AnalysisRow, a: Analysis, now: string): AnalysisRow {
    row.(
      status := Completed,
      overallScore := Overwrite(row.overallScore, a.overallScore),
      dimensionalScores := Overwrite(row.dimensionalScores, a.dimensionalScores),
      strengths := Overwrite(row.strengths, a.strengths),
      gaps := Overwrite(row.gaps, a.gaps),
      recommendations := Overwrite(row.recommendations, a.recommendations),
      financialAnalysis := Overwrite(row.financialAnalysis, a.financialAnalysis),
      marketAnalysis := Overwrite(row.marketAnalysis, a.marketAnalysis),
      fullReport := Some(a),
      updatedAt := now)
  }

  /** The analysis has all seven report keys the update names. */
  predicate HasAllReportFields(a: Analysis) {
    && a.overallScore.Some? && a.dimensionalScores.Some? && a.strengths.Some? && a.gaps.Some?
    && a.recommendations.Some? && a.financialAnalysis.Some? && a.marketAnalysis.Some?
  }

  /** What the completing update promises: the record is completed and carries the whole
      analysis; every report key the analysis has is copied verbatim and every key it lacks
      leaves that column as it was; the owner, the file metadata and the creation time are
      untouched. */
  lemma CompletedRowContents(row: AnalysisRow, a: Analysis, now: string)
    ensures var r := CompletedRow(row, a, now);
      && r.status == Completed && r.fullReport == Some(a) && r.updatedAt == now
      && LifecycleValid(r)
      && r.id == row.id && r.userId == row.userId && r.createdAt == row.createdAt
      && r.fileName == row.fileName && r.filePath == row.filePath
      && r.fileSize == row.fileSize && r.fileType == row.fileType
      && (a.overallScore.Some? ==> r.overallScore == a.overallScore)
      && (a.overallScore.None? ==> r.overallScore == row.overallScore)
      && (a.dimensionalScores.Some? ==> r.dimensionalScores == a.dimensionalScores)
      && (a.dimensionalScores.None? ==> r.dimensionalScores == row.dimensionalScores)
      && (a.strengths.Some? ==> r.strengths == a.strengths)
      && (a.strengths.None? ==> r.strengths == row.strengths)
      && (a.gaps.Some? ==> r.gaps == a.gaps)
      && (a.gaps.None? ==> r.gaps == row.gaps)
      && (a.recommendations.Some? ==> r.recommendations == a.recommendations)
      && (a.recommendations.None? ==> r.recommendations == row.recommendations)
      && (a.financialAnalysis.Some? ==> r.financialAnalysis == a.financialAnalysis)
      && (a.financialAnalysis.None? ==> r.financialAnalysis == row.financialAnalysis)
      && (a.marketAnalysis.Some? ==> r.marketAnalysis == a.marketAnalysis)
      && (a.marketAnalysis.None? ==> r.marketAnalysis == row.marketAnalysis)
  {
  }

  /** Re-running the worker with the same analysis is idempotent in outcome: the second
      update leaves what one update leaves, apart from the later update time. */
  lemma CompletedRowIdempotent(row: AnalysisRow, a: Analysis, t1: string, t2: string)
    ensures CompletedRow(CompletedRow(row, a, t1), a, t2) == CompletedRow(row, a, t2)
  {
  }

  /** A second completion whose analysis has every report key replaces the first one
      outright: nothing of the first analysis survives. */
  lemma CompleteAnalysisReplaces(row: AnalysisRow, a: Analysis, b: Analysis, t1: string, t2: string)
    requires HasAllReportFields(b)
    ensures CompletedRow(CompletedRow(row, a, t1), b, t2) == CompletedRow(row, b, t2)
  {
  }

  /** A second completion whose analysis lacks a key is a merge, not a replacement: that
      column keeps the first analysis's value. */
  lemma PartialAnalysisMerges(row: AnalysisRow, a: Analysis, b: Analysis, t1: string, t2: string)
    requires b.overallScore.None?
    ensures CompletedRow(CompletedRow(row, a, t1), b, t2).overallScore
         == Overwrite(row.overallScore, a.overallScore)
  {
  }

  /** The `business_plan_analyses` table. */
  class AnalysesTable {
    var rows: map<string, AnalysisRow>

    constructor (initial: map<string, AnalysisRow>)
      ensures rows == initial
    {
      rows := initial;
    }

    /** `insert(payload)`: when the database reports no error, a row with the fresh id it
        generates and the payload's columns is added and no other row changes. The id, the
        clock and the database's error are inputs. */
    method Insert(payload: NewAnalysis, id: string, now: string, fault: Option<DbError>)
      returns (error: Option<DbError>)
      requires id !in rows
      modifies this
      ensures error == fault
      ensures fault.None? ==> rows == old(rows)[id := InsertedRow(payload, id, now)]
      ensures fault.Some? ==> rows == old(rows)
    {
      error := fault;
      if fault.None? {
        rows := rows[id := InsertedRow(payload, id, now)];
      }
    }

    /** `update(completion).eq('id', id)`: when the database reports no error, the row with
        that id, if there is one, is completed and no other row changes; an id that matches
        no row is not an error and changes nothing. The database's error is an input. */
    method CompleteById(id: string, a: Analysis, now: string, fault: Option<DbError>)
      returns (error: Option<DbError>)
      modifies this
      ensures error == fault
      ensures fault.None? && id in old(rows) ==> rows == old(rows)[id := CompletedRow(old(rows)[id], a, now)]
      ensures fault.Some? || id !in old(rows) ==> rows == old(rows)
    {
      error := fault;
      if fault.None? && id in rows {
        rows := rows[id := CompletedRow(rows[id], a, now)];
      }
    }
  }
}

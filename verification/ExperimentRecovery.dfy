/**
 Recovery in a fresh process, and what a finished experiment has decided: from the moment the phase row is in
 the database, recovery succeeds with the same report whatever else happens, and exactly one candidate, the
 best, is retained.
 */
module ExperimentRecovery {
  import opened Wrappers
  import opened Effects
  import opened Experiment
  import opened ExperimentSafety

  datatype RecoveryError =
    | NoPhaseState(error: JournalError)
    | BadPhaseState
    | SnapshotLost
    | MaterializationLost(fingerprint: Digest)
    | ResultLost(fingerprint: Digest)
    | CountChanged(key: Key)

  datatype Report = Report(materializations: seq<Digest>, results: seq<Digest>)

  /** The counts that are checked for one row, in order. */
  function CheckedKeys(row: ResultRow): seq<Key> {
    [Key(RuntimeRow, row.ticket.trial), Key(EvaluatorRow, row.ticket.trial),
     Key(MemoryWrite, row.ticket.memory), Key(WorkspaceWrite, row.ticket.workspace),
     Key(DispositionRow, row.ticket.memory), Key(DispositionRow, row.ticket.workspace)]
  }

  /** The first of some keys that is not there exactly once. */
  function FirstMissing(j: Journal, keys: seq<Key>): Option<Key> {
    if keys == [] then None
    else if Count(j, keys[0]) != 1 then Some(keys[0])
    else FirstMissing(j, keys[1..])
  }

  function RowError(db: Database, snapshot: Digest, row: ResultRow): Option<RecoveryError> {
    if !Recoverable(db, snapshot, row.ticket.materialization) then Some(MaterializationLost(row.ticket.materialization))
    else if row.result !in db.results then Some(ResultLost(row.result))
    else
      match FirstMissing(db.journal, CheckedKeys(row))
      case None => None
      case Some(key) => Some(CountChanged(key))
  }

  function RecoverRows(db: Database, snapshot: Digest, rows: seq<ResultRow>): Result<Report, RecoveryError> {
    if rows == [] then Ok(Report([], []))
    else
      var last := rows[|rows| - 1];
      match RecoverRows(db, snapshot, rows[..|rows| - 1])
      case Err(e) => Err(e)
      case Ok(report) =>
        match RowError(db, snapshot, last)
        case Some(e) => Err(e)
        case None => Ok(Report(report.materializations + [last.ticket.materialization], report.results + [last.result]))
  }

  /** `recover_reference_experiment`: it only reads. */
  function Recover(db: Database): Result<Report, RecoveryError> {
    match Require(db.journal, PHASE_KEY)
    case Err(e) => Err(NoPhaseState(e))
    case Ok(doc) =>
      if !doc.PhaseDoc? then Err(BadPhaseState)
      else if doc.snapshot !in db.snapshots then Err(SnapshotLost)
      else RecoverRows(db, doc.snapshot, doc.rows)
  }

  /** The report of a recovery that finds everything. */
  function FullReport(rows: seq<ResultRow>): (r: Report)
    ensures |r.materializations| == |r.results| == |rows|
    ensures forall k :: 0 <= k < |rows| ==> r.materializations[k] == rows[k].ticket.materialization
    ensures forall k :: 0 <= k < |rows| ==> r.results[k] == rows[k].result
  {
    Report(seq(|rows|, k requires 0 <= k < |rows| => rows[k].ticket.materialization),
           seq(|rows|, k requires 0 <= k < |rows| => rows[k].result))
  }

  lemma {:induction false} AllPresent(j: Journal, keys: seq<Key>)
    ensures FirstMissing(j, keys) == None <==> forall k :: 0 <= k < |keys| ==> keys[k] in j
  {
    if keys != [] {
      AllPresent(j, keys[1..]);
      if FirstMissing(j, keys[1..]) == None {
        assert forall k :: 1 <= k < |keys| ==> keys[k] == keys[1..][k - 1];
      }
      if forall k :: 0 <= k < |keys| ==> keys[k] in j {
        assert forall k :: 0 <= k < |keys[1..]| ==> keys[1..][k] == keys[k + 1];
      }
    }
  }

  /** The two dispositions of row `k`. */
  lemma DispositionsOfRow(db: Database, rows: seq<ResultRow>, k: nat)
    requires k < |rows| && DispositionsStored(db, rows, 2 * |rows|)
    ensures HasDoc(db, DispositionRow, rows[k].ticket.memory, DispositionDoc(rows[k].candidate, DispositionOf(rows, rows[k])))
    ensures HasDoc(db, DispositionRow, rows[k].ticket.workspace, DispositionDoc(rows[k].candidate, DispositionOf(rows, rows[k])))
  {
    var m, w := 2 * k, 2 * k + 1;
    assert m / 2 == k && w / 2 == k && m % 2 == 0 && w % 2 == 1;
    assert HasDoc(db, DispositionRow, DisposedOverlay(rows, m), DispositionDocument(rows, m));
    assert HasDoc(db, DispositionRow, DisposedOverlay(rows, w), DispositionDocument(rows, w));
  }

  lemma RowRecovers(plan: Plan, db: Database, rows: seq<ResultRow>, k: nat)
    requires DatabaseOk(plan, db) && plan.snapshot in db.snapshots
    requires ReadyForPhase(plan, db, rows) && k < |rows|
    ensures RowError(db, plan.snapshot, rows[k]) == None
  {
    var row := rows[k];
    assert RowStored(plan, db, plan.candidates[k].id, row);
    StoredIsRecoverable(plan, db, plan.candidates[k].id);
    DispositionsOfRow(db, rows, k);
    AllPresent(db.journal, CheckedKeys(row));
  }

  lemma FullReportAppend(rows: seq<ResultRow>, row: ResultRow)
    ensures FullReport(rows + [row]) == Report(FullReport(rows).materializations + [row.ticket.materialization],
                                               FullReport(rows).results + [row.result])
  {
    var r := FullReport(rows + [row]);
    assert r.materializations == FullReport(rows).materializations + [row.ticket.materialization];
    assert r.results == FullReport(rows).results + [row.result];
  }

  lemma {:induction false} RowsRecover(db: Database, snapshot: Digest, rows: seq<ResultRow>)
    requires forall k :: 0 <= k < |rows| ==> RowError(db, snapshot, rows[k]) == None
    ensures RecoverRows(db, snapshot, rows) == Ok(FullReport(rows))
  {
    if rows == [] {
      assert FullReport(rows) == Report([], []);
    } else {
      var front, last := rows[..|rows| - 1], rows[|rows| - 1];
      RowsRecover(db, snapshot, front);
      assert rows == front + [last];
      FullReportAppend(front, last);
    }
  }

  lemma PhaseRecovers(plan: Plan, db: Database)
    requires DatabaseOk(plan, db) && PHASE_KEY in db.journal
    ensures db.journal[PHASE_KEY].PhaseDoc? && Recover(db) == Ok(FullReport(db.journal[PHASE_KEY].rows))
  {
    var rows := db.journal[PHASE_KEY].rows;
    forall k | 0 <= k < |rows| ensures RowError(db, plan.snapshot, rows[k]) == None {
      RowRecovers(plan, db, rows, k);
    }
    RowsRecover(db, plan.snapshot, rows);
  }

  /**
   In every reachable state: once the phase row is there, recovery succeeds, every count it checks is one,
   every overlay it needs is present, and its report lists one materialization and one result per candidate.
   */
  lemma RecoverySucceeds(plan: Plan, actions: seq<Action>)
    requires PHASE_KEY in Run(plan, actions).db.journal
    ensures var db := Run(plan, actions).db;
            && db.journal[PHASE_KEY].PhaseDoc?
            && |db.journal[PHASE_KEY].rows| == |plan.candidates|
            && Recover(db) == Ok(FullReport(db.journal[PHASE_KEY].rows))
            && forall k :: 0 <= k < |plan.candidates| ==>
                 db.journal[PHASE_KEY].rows[k].ticket == TicketFor(plan, plan.candidates[k].id)
  {
    RunKeepsInv(plan, actions);
    var db := Run(plan, actions).db;
    var rows := db.journal[PHASE_KEY].rows;
    PhaseRecovers(plan, db);
    forall k | 0 <= k < |rows| ensures rows[k].ticket == TicketFor(plan, plan.candidates[k].id) {
      assert RowStored(plan, db, plan.candidates[k].id, rows[k]);
    }
  }

  lemma TakeGrows(plan: Plan, s: System, a: Action)
    requires forall who :: who in s.processes ==> InRange(plan, s.processes[who].place)
    ensures Grows(s.db, Take(plan, s, a).db)
  {
    if a.Advance? && a.who in s.processes {
      StepGrows(plan, s.db, s.processes[a.who], a.outcome);
    }
  }

  lemma {:induction false} RunGrows(plan: Plan, before: seq<Action>, after: seq<Action>)
    ensures Grows(Run(plan, before).db, Run(plan, before + after).db)
  {
    if after == [] {
      assert before + after == before;
    } else {
      var front := after[..|after| - 1];
      assert (before + after)[..|before + after| - 1] == before + front;
      RunGrows(plan, before, front);
      TakeGrows(plan, Run(plan, before + front), after[|after| - 1]);
      GrowsTransitive(Run(plan, before).db, Run(plan, before + front).db, Run(plan, before + after).db);
    }
  }

  lemma GrowsTransitive(a: Database, b: Database, c: Database)
    requires Grows(a, b) && Grows(b, c)
    ensures Grows(a, c)
  {
  }

  /** The report of a recovery never changes afterwards, even while other processes go on writing. */
  lemma RecoveryIsStable(plan: Plan, before: seq<Action>, after: seq<Action>)
    requires PHASE_KEY in Run(plan, before).db.journal
    ensures Recover(Run(plan, before + after).db) == Recover(Run(plan, before).db)
  {
    RunGrows(plan, before, after);
    RecoverySucceeds(plan, before);
    RecoverySucceeds(plan, before + after);
  }

  // ---------------------------------------------------------------- the winner

  lemma {:induction false} BeforeTotal(a: string, b: string)
    ensures !(Before(a, b) && Before(b, a))
    ensures a != b <==> Before(a, b) || Before(b, a)
  {
    if a != "" && b != "" && a[0] == b[0] {
      BeforeTotal(a[1..], b[1..]);
      assert a == [a[0]] + a[1..] && b == [b[0]] + b[1..];
    }
  }

  lemma {:induction false} BeforeTransitive(a: string, b: string, c: string)
    requires Before(a, b) && Before(b, c)
    ensures Before(a, c)
  {
    if a != "" && a[0] == b[0] == c[0] {
      BeforeTransitive(a[1..], b[1..], c[1..]);
    }
  }

  lemma BeatsTransitive(a: ResultRow, b: ResultRow, c: ResultRow)
    requires Beats(a, b) && Beats(b, c)
    ensures Beats(a, c)
  {
    if a.score == b.score == c.score {
      BeforeTransitive(c.candidate, b.candidate, a.candidate);
    }
  }

  predicate DistinctCandidates(rows: seq<ResultRow>) {
    forall i, j :: 0 <= i < j < |rows| ==> rows[i].candidate != rows[j].candidate
  }

  /** The winner is one of the rows and beats every other one. */
  lemma {:induction false} WinnerBeatsAll(rows: seq<ResultRow>)
    requires rows != [] && DistinctCandidates(rows)
    ensures exists w :: 0 <= w < |rows| && rows[w] == Winner(rows)
                        && forall k :: 0 <= k < |rows| && k != w ==> Beats(rows[w], rows[k])
  {
    if |rows| == 1 {
      assert rows[0] == Winner(rows);
    } else {
      var front, last := rows[..|rows| - 1], rows[|rows| - 1];
      WinnerBeatsAll(front);
      var v :| 0 <= v < |front| && front[v] == Winner(front)
               && forall k :: 0 <= k < |front| && k != v ==> Beats(front[v], front[k]);
      BeforeTotal(rows[v].candidate, last.candidate);
      if Beats(last, front[v]) {
        forall k | 0 <= k < |rows| && k != |rows| - 1 ensures Beats(last, rows[k]) {
          if k != v {
            assert rows[k] == front[k];
            BeatsTransitive(last, front[v], front[k]);
          }
        }
        assert rows[|rows| - 1] == Winner(rows);
      } else {
        assert rows[v] == Winner(rows);
        forall k | 0 <= k < |rows| && k != v ensures Beats(rows[v], rows[k]) {
          if k < |front| {
            assert rows[k] == front[k];
          }
        }
      }
    }
  }

  /** Stored rows with private overlays belong to different candidates. */
  lemma IsolatedIsDistinct(plan: Plan, db: Database, rows: seq<ResultRow>)
    requires RowsStored(plan, db, rows) && Isolated(rows)
    ensures DistinctCandidates(rows)
  {
    forall i, j | 0 <= i < j < |rows| ensures rows[i].candidate != rows[j].candidate {
      assert RowStored(plan, db, plan.candidates[i].id, rows[i]) && RowStored(plan, db, plan.candidates[j].id, rows[j]);
    }
  }

  /** Both overlays of a row are stored with this disposition. */
  predicate Disposed(db: Database, row: ResultRow, d: Disposition) {
    && HasDoc(db, DispositionRow, row.ticket.memory, DispositionDoc(row.candidate, d))
    && HasDoc(db, DispositionRow, row.ticket.workspace, DispositionDoc(row.candidate, d))
  }

  /** One row is retained for review and beats every other one, and the others are quarantined. */
  predicate OneRetained(db: Database, rows: seq<ResultRow>, w: nat) {
    && w < |rows|
    && (forall k :: 0 <= k < |rows| ==> Disposed(db, rows[k], if k == w then RetainedForReview else Quarantined))
    && (forall k :: 0 <= k < |rows| && k != w ==> Beats(rows[w], rows[k]))
  }

  lemma ReadyHasOneRetained(plan: Plan, db: Database, rows: seq<ResultRow>) returns (w: nat)
    requires ReadyForPhase(plan, db, rows)
    ensures OneRetained(db, rows, w)
  {
    IsolatedIsDistinct(plan, db, rows);
    WinnerBeatsAll(rows);
    w :| 0 <= w < |rows| && rows[w] == Winner(rows)
         && forall k :: 0 <= k < |rows| && k != w ==> Beats(rows[w], rows[k]);
    forall k | 0 <= k < |rows| ensures Disposed(db, rows[k], if k == w then RetainedForReview else Quarantined) {
      DispositionsOfRow(db, rows, k);
      assert rows[k].candidate == rows[w].candidate <==> k == w;
    }
  }

  /**
   In every reachable state with a phase row: exactly one candidate is retained for review, it is the
   greatest by score and then id, both its overlays say so, and every other candidate is quarantined.
   */
  lemma OneCandidateIsRetained(plan: Plan, actions: seq<Action>)
    requires PHASE_KEY in Run(plan, actions).db.journal
    ensures var db := Run(plan, actions).db;
            db.journal[PHASE_KEY].PhaseDoc? && exists w: nat :: OneRetained(db, db.journal[PHASE_KEY].rows, w)
  {
    RunKeepsInv(plan, actions);
    var db := Run(plan, actions).db;
    var w := ReadyHasOneRetained(plan, db, db.journal[PHASE_KEY].rows);
  }
}

/**
 The durable effect journal of the snapshot experiment: a write-once table keyed by kind and id, and the
 values that are written to it.  A fingerprint stands for the content it was computed from, so two
 fingerprints are equal exactly when their contents are.
 */
module Effects {
  import opened Wrappers

  type Id = string

  /** The snapshot components of the experiment, in the order they are materialized. */
  datatype ComponentKind = Body | Environment | ExecutionProfile | Memory | Session | Workspace

  const KINDS := [Body, Environment, ExecutionProfile, Memory, Session, Workspace]

  datatype Digest =
    | Name(text: string)
    | Snapshot(subject: string)
    | Logical(part: ComponentKind)
    | Scope(snapshot: Digest, candidate: Id, trialId: string)
    | OverlayOf(overlay: Overlay)
    | Operation(kind: ComponentKind, baseline: Digest, candidate: Id, scope: Digest)
    | Materialization(candidate: Id, scope: Digest, parts: seq<Component>)
    | Trial(materialization: Digest, candidate: Id, trialId: string, evaluator: Digest, memory: Digest, workspace: Digest)
    | Outcome(trial: Digest, session: string, evidence: string, evaluator: Digest, score: int)
    | Content(text: string)

  /** A candidate's private overlay; its fingerprint is `OverlayOf` of its content. */
  datatype Overlay = Overlay(kind: ComponentKind, baseline: Digest, candidate: Id, scope: Digest)

  /** A materialized component; only memory and workspace have an overlay. */
  datatype Component = Component(kind: ComponentKind, baseline: Digest, overlay: Option<Overlay>)

  datatype EffectKind =
    | OverlayRow
    | OperationRow
    | MemoryWrite
    | WorkspaceWrite
    | RuntimeRow
    | EvaluatorRow
    | DispositionRow
    | PhaseState

  datatype Key = Key(kind: EffectKind, id: Digest)

  /** What one candidate's effects are bound to. */
  datatype Ticket = Ticket(materialization: Digest, memory: Digest, workspace: Digest, trial: Digest)

  datatype ResultRow = ResultRow(candidate: Id, ticket: Ticket, result: Digest, score: int)

  datatype Disposition = RetainedForReview | Quarantined

  datatype Document =
    | OverlayDoc(baseline: Digest, candidate: Id, kind: ComponentKind)
    | ComponentDoc(component: Component)
    | MutationDoc(candidate: Id, policy: string)
    | RuntimeDoc(finalText: Digest, session: string)
    | EvaluatorDoc(evaluator: Digest, score: int)
    | DispositionDoc(candidate: Id, disposition: Disposition)
    | PhaseDoc(rows: seq<ResultRow>, snapshot: Digest)
    | NotAnObject(text: string)

  type Journal = map<Key, Document>

  datatype JournalError = Missing(key: Key) | BadPayload(key: Key)

  /** `SELECT COUNT(*)` under the primary key. */
  function Count(j: Journal, key: Key): nat {
    if key in j then 1 else 0
  }

  function Require(j: Journal, key: Key): Result<Document, JournalError> {
    if key !in j then Err(Missing(key))
    else if j[key].NotAnObject? then Err(BadPayload(key))
    else Ok(j[key])
  }

  /** `INSERT OR IGNORE`: the first document for a key stays. */
  function Recorded(j: Journal, key: Key, doc: Document): Journal {
    if key in j then j else j[key := doc]
  }

  function OperationKey(operation: Digest): Key {
    Key(OperationRow, operation)
  }

  function OverlayKey(overlay: Overlay): Key {
    Key(OverlayRow, OverlayOf(overlay))
  }

  /** Why an operation is not materialized: its overlay is already recorded, or its stored row is unreadable. */
  datatype MaterializeError = OverlayClash(overlay: Overlay) | BadOperationRow

  datatype Materialized = Materialized(journal: Journal, result: Result<Component, MaterializeError>)

  function OverlayDocument(overlay: Overlay): Document {
    OverlayDoc(overlay.baseline, overlay.candidate, overlay.kind)
  }

  /** The transaction of one materialization operation, as a whole. */
  function MaterializeOnce(j: Journal, operation: Digest, component: Component): Materialized {
    var key := OperationKey(operation);
    if key in j then
      Materialized(j, if j[key].ComponentDoc? then Ok(j[key].component) else Err(BadOperationRow))
    else
      match component.overlay
      case None => Materialized(j[key := ComponentDoc(component)], Ok(component))
      case Some(overlay) =>
        if OverlayKey(overlay) in j then Materialized(j, Err(OverlayClash(overlay)))
        else
          Materialized(j[OverlayKey(overlay) := OverlayDocument(overlay)][key := ComponentDoc(component)],
                       Ok(component))
  }

  /** Every row of `j` is still there, unchanged, in `k`. */
  predicate Extends(j: Journal, k: Journal) {
    forall key :: key in j ==> key in k && k[key] == j[key]
  }
}

/**
 `materialize_operation_once` as its database sees it: any number of callers, one write lock, the steps of
 each transaction one by one, and a crash or a lock timeout possible at every step.
 */
module Transactions {
  import opened Wrappers
  import opened Effects

  /** How far one call is.  `work` is what its open transaction sees and would commit. */
  datatype Progress =
    | Waiting
    | Began(work: Journal)
    | OverlayInserted(work: Journal)
    | Committing(work: Journal, result: Component)
    | Returned(result: Component)
    | Raised(error: CallError)
    | Crashed

  datatype CallError = Clash(overlay: Overlay) | Unreadable | DatabaseLocked

  datatype Call = Call(operation: Digest, component: Component, progress: Progress)

  datatype State = State(committed: Journal, writer: Option<nat>, calls: map<nat, Call>)

  datatype Action =
    | Arrive(who: nat, operation: Digest, component: Component)
    | Advance(who: nat)
    | TimeOut(who: nat)
    | Crash(who: nat)
    | OtherWrite(key: Key, doc: Document)

  predicate InTransaction(p: Progress) {
    p.Began? || p.OverlayInserted? || p.Committing?
  }

  function With(s: State, who: nat, p: Progress): State
    requires who in s.calls
  {
    s.(calls := s.calls[who := s.calls[who].(progress := p)])
  }

  /** After `BEGIN IMMEDIATE`: look for the operation row, then insert the overlay row if there is one. */
  function AfterBegin(call: Call, work: Journal): Progress {
    var key := OperationKey(call.operation);
    if key in work then
      if work[key].ComponentDoc? then Committing(work, work[key].component) else Raised(Unreadable)
    else
      match call.component.overlay
      case None => OverlayInserted(work)
      case Some(overlay) =>
        if OverlayKey(overlay) in work then Raised(Clash(overlay))
        else OverlayInserted(work[OverlayKey(overlay) := OverlayDocument(overlay)])
  }

  /** The next step of one call. */
  function Advanced(s: State, who: nat): State
    requires who in s.calls
  {
    var call := s.calls[who];
    match call.progress
    case Waiting => if s.writer.None? then With(s.(writer := Some(who)), who, Began(s.committed)) else s
    case Began(work) =>
      var next := AfterBegin(call, work);
      if next.Raised? then With(s.(writer := None), who, next) else With(s, who, next)
    case OverlayInserted(work) =>
      With(s, who, Committing(work[OperationKey(call.operation) := ComponentDoc(call.component)], call.component))
    case Committing(work, result) => With(s.(committed := work, writer := None), who, Returned(result))
    case _ => s
  }

  predicate Over(p: Progress) {
    p.Returned? || p.Raised? || p.Crashed?
  }

  /** A crash loses the call and whatever its transaction had not committed. */
  function Stopped(s: State, who: nat, p: Progress): State
    requires who in s.calls
  {
    With(if InTransaction(s.calls[who].progress) then s.(writer := None) else s, who, p)
  }

  /** The rows that the other journal operations write are of other kinds. */
  predicate IsOther(key: Key) {
    !key.kind.OverlayRow? && !key.kind.OperationRow?
  }

  function Step(s: State, a: Action): State {
    match a
    case Arrive(who, operation, component) =>
      if who in s.calls then s else s.(calls := s.calls[who := Call(operation, component, Waiting)])
    case Advance(who) => if who in s.calls then Advanced(s, who) else s
    case TimeOut(who) =>
      if who in s.calls && s.calls[who].progress.Waiting? && s.writer.Some? then With(s, who, Raised(DatabaseLocked)) else s
    case Crash(who) => if who in s.calls && !Over(s.calls[who].progress) then Stopped(s, who, Crashed) else s
    case OtherWrite(key, doc) =>
      if s.writer.None? && IsOther(key) then s.(committed := Recorded(s.committed, key, doc)) else s
  }

  function Run(s: State, actions: seq<Action>): State {
    if actions == [] then s else Step(Run(s, actions[..|actions| - 1]), actions[|actions| - 1])
  }

  const START := State(map[], None, map[])

  // ---------------------------------------------------------------- what every state keeps

  /**
   Overlay rows and the operation rows that carry an overlay belong to each other one to one: each such
   operation row has its overlay's row, each overlay row has an operation row, and no two operation rows
   carry the same overlay.
   */
  ghost predicate OverlayBijection(j: Journal) {
    && (forall op :: OperationKey(op) in j ==> j[OperationKey(op)].ComponentDoc?)
    && (forall op :: CarriesOverlay(j, op) ==>
          var overlay := CarriedOverlay(j, op);
          OverlayKey(overlay) in j && j[OverlayKey(overlay)] == OverlayDocument(overlay))
    && (forall d :: Key(OverlayRow, d) in j ==> exists op :: CarriesOverlay(j, op) && OverlayOf(CarriedOverlay(j, op)) == d)
    && (forall a, b :: CarriesOverlay(j, a) && CarriesOverlay(j, b) && CarriedOverlay(j, a) == CarriedOverlay(j, b) ==> a == b)
  }

  predicate CarriesOverlay(j: Journal, op: Digest) {
    OperationKey(op) in j && j[OperationKey(op)].ComponentDoc? && j[OperationKey(op)].component.overlay.Some?
  }

  function CarriedOverlay(j: Journal, op: Digest): Overlay
    requires CarriesOverlay(j, op)
  {
    j[OperationKey(op)].component.overlay.value
  }

  /** What an open transaction has in hand, by how far it is. */
  predicate CallOk(s: State, who: nat)
    requires who in s.calls
  {
    var call := s.calls[who];
    && (InTransaction(call.progress) <==> s.writer == Some(who))
    && match call.progress
       case Began(work) => work == s.committed
       case OverlayInserted(work) =>
         && OperationKey(call.operation) !in s.committed
         && MaterializeOnce(s.committed, call.operation, call.component)
            == Materialized(work[OperationKey(call.operation) := ComponentDoc(call.component)], Ok(call.component))
       case Committing(work, result) =>
         MaterializeOnce(s.committed, call.operation, call.component) == Materialized(work, Ok(result))
       case Returned(result) =>
         OperationKey(call.operation) in s.committed && s.committed[OperationKey(call.operation)] == ComponentDoc(result)
       case _ => true
  }

  ghost predicate Inv(s: State) {
    && OverlayBijection(s.committed)
    && (s.writer.Some? ==> s.writer.value in s.calls)
    && forall who :: who in s.calls ==> CallOk(s, who)
  }

  /** A new operation row without an overlay. */
  lemma PlainKeepsBijection(j: Journal, op: Digest, component: Component)
    requires OverlayBijection(j) && OperationKey(op) !in j && component.overlay.None?
    ensures OverlayBijection(j[OperationKey(op) := ComponentDoc(component)])
  {
    var k := j[OperationKey(op) := ComponentDoc(component)];
    assert forall x :: CarriesOverlay(k, x) <==> CarriesOverlay(j, x);
    assert forall x :: CarriesOverlay(j, x) ==> CarriedOverlay(k, x) == CarriedOverlay(j, x);
  }

  /** A new operation row together with the row of its overlay, which must be new too. */
  lemma PairKeepsBijection(j: Journal, op: Digest, component: Component, overlay: Overlay)
    requires OverlayBijection(j) && OperationKey(op) !in j
    requires component.overlay == Some(overlay) && OverlayKey(overlay) !in j
    ensures OverlayBijection(j[OverlayKey(overlay) := OverlayDocument(overlay)][OperationKey(op) := ComponentDoc(component)])
  {
    var k := j[OverlayKey(overlay) := OverlayDocument(overlay)][OperationKey(op) := ComponentDoc(component)];
    assert forall x :: x != op ==> (CarriesOverlay(k, x) <==> CarriesOverlay(j, x));
    assert forall x :: x != op && CarriesOverlay(j, x) ==> CarriedOverlay(k, x) == CarriedOverlay(j, x);
    assert CarriesOverlay(k, op) && CarriedOverlay(k, op) == overlay;
    assert forall x :: CarriesOverlay(j, x) ==> CarriedOverlay(j, x) != overlay;
  }

  /** The whole operation keeps the correspondence, whatever it is called with. */
  lemma MaterializeKeepsBijection(j: Journal, op: Digest, component: Component)
    requires OverlayBijection(j)
    ensures OverlayBijection(MaterializeOnce(j, op, component).journal)
    ensures Extends(j, MaterializeOnce(j, op, component).journal)
    ensures MaterializeOnce(j, op, component).result.Err? ==> MaterializeOnce(j, op, component).journal == j
  {
    if OperationKey(op) !in j {
      match component.overlay
      case None => PlainKeepsBijection(j, op, component);
      case Some(overlay) =>
        if OverlayKey(overlay) !in j {
          PairKeepsBijection(j, op, component, overlay);
        }
    }
  }

  lemma OtherKeepsBijection(j: Journal, key: Key, doc: Document)
    requires OverlayBijection(j) && IsOther(key)
    ensures OverlayBijection(Recorded(j, key, doc))
  {
    var k := Recorded(j, key, doc);
    assert forall op :: CarriesOverlay(k, op) <==> CarriesOverlay(j, op);
    assert forall op :: CarriesOverlay(j, op) ==> CarriedOverlay(k, op) == CarriedOverlay(j, op);
  }

  /**
   One step of the interleaved calls changes the committed table only as one whole operation, or one
   write of another kind, would: a commit is `MaterializeOnce` on the table as it stands at that moment,
   and a step that raises, times out or crashes changes nothing.
   */
  lemma StepIsAtomic(s: State, a: Action)
    requires Inv(s)
    ensures var t := Step(s, a);
            || t.committed == s.committed
            || (a.OtherWrite? && t.committed == Recorded(s.committed, a.key, a.doc))
            || (a.Advance? && a.who in s.calls && t.calls[a.who].progress.Returned?
                && MaterializeOnce(s.committed, s.calls[a.who].operation, s.calls[a.who].component)
                   == Materialized(t.committed, Ok(t.calls[a.who].progress.result)))
    ensures a.TimeOut? || a.Crash? ==> Step(s, a).committed == s.committed
    ensures a.Advance? && a.who in s.calls && Step(s, a).calls[a.who].progress.Raised? ==> Step(s, a).committed == s.committed
  {
  }

  lemma StepExtends(s: State, a: Action)
    requires Inv(s)
    ensures Extends(s.committed, Step(s, a).committed)
  {
    StepIsAtomic(s, a);
    if a.Advance? && a.who in s.calls {
      MaterializeKeepsBijection(s.committed, s.calls[a.who].operation, s.calls[a.who].component);
    }
  }

  lemma StepKeepsBijection(s: State, a: Action)
    requires Inv(s)
    ensures OverlayBijection(Step(s, a).committed)
  {
    StepIsAtomic(s, a);
    if a.OtherWrite? && IsOther(a.key) {
      OtherKeepsBijection(s.committed, a.key, a.doc);
    } else if a.Advance? && a.who in s.calls {
      MaterializeKeepsBijection(s.committed, s.calls[a.who].operation, s.calls[a.who].component);
    }
  }

  lemma StepKeepsCall(s: State, a: Action, who: nat)
    requires Inv(s) && who in Step(s, a).calls
    ensures CallOk(Step(s, a), who)
  {
    StepExtends(s, a);
    if who in s.calls {
      assert CallOk(s, who);
    }
  }

  lemma StepKeepsInv(s: State, a: Action)
    requires Inv(s)
    ensures Inv(Step(s, a))
  {
    StepKeepsBijection(s, a);
    var t := Step(s, a);
    forall who | who in t.calls ensures CallOk(t, who) {
      StepKeepsCall(s, a, who);
    }
  }

  lemma {:induction false} RunKeepsInv(actions: seq<Action>)
    ensures Inv(Run(START, actions))
  {
    if actions != [] {
      RunKeepsInv(actions[..|actions| - 1]);
      StepKeepsInv(Run(START, actions[..|actions| - 1]), actions[|actions| - 1]);
    }
  }

  // ---------------------------------------------------------------- what callers observe

  /** In every reachable state, overlay rows and overlay-carrying operation rows correspond one to one. */
  lemma ReachableBijection(actions: seq<Action>)
    ensures OverlayBijection(Run(START, actions).committed)
  {
    RunKeepsInv(actions);
  }

  /** All callers of one operation that returned got the same component, the one that is stored. */
  lemma FirstWriterWins(actions: seq<Action>, a: nat, b: nat)
    requires var s := Run(START, actions);
             && a in s.calls && b in s.calls
             && s.calls[a].operation == s.calls[b].operation
             && s.calls[a].progress.Returned? && s.calls[b].progress.Returned?
    ensures var s := Run(START, actions);
            && s.calls[a].progress.result == s.calls[b].progress.result
            && OperationKey(s.calls[a].operation) in s.committed
            && s.committed[OperationKey(s.calls[a].operation)] == ComponentDoc(s.calls[a].progress.result)
  {
    RunKeepsInv(actions);
    var s := Run(START, actions);
    assert CallOk(s, a) && CallOk(s, b);
  }

  /** Whatever happens later, no committed row changes or disappears. */
  lemma {:induction false} RunExtends(before: seq<Action>, after: seq<Action>)
    ensures Extends(Run(START, before).committed, Run(START, before + after).committed)
  {
    if after == [] {
      assert before + after == before;
    } else {
      var front := after[..|after| - 1];
      assert (before + after)[..|before + after| - 1] == before + front;
      RunExtends(before, front);
      RunKeepsInv(before + front);
      StepExtends(Run(START, before + front), after[|after| - 1]);
    }
  }
}

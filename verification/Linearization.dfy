/**
 The interleaved transactions of `Transactions` have the same outcome as whole operations that are done one
 after the other: each call takes effect at one moment between its arrival and its answer.
 */
module Linearization {
  import opened Wrappers
  import opened Effects
  import opened Transactions

  /** One whole operation with its answer, or one write of another kind. */
  datatype Effect =
    | Performed(who: nat, operation: Digest, component: Component, answer: Result<Component, MaterializeError>)
    | Written(key: Key, doc: Document)

  // ---------------------------------------------------------------- done one after the other

  function After(j: Journal, e: Effect): Journal {
    match e
    case Performed(_, operation, component, _) => MaterializeOnce(j, operation, component).journal
    case Written(key, doc) => Recorded(j, key, doc)
  }

  /** Done on this table, the operation gives this answer. */
  predicate Answers(j: Journal, e: Effect) {
    e.Performed? ==> MaterializeOnce(j, e.operation, e.component).result == e.answer
  }

  function Table(effects: seq<Effect>): Journal {
    if effects == [] then map[] else After(Table(effects[..|effects| - 1]), effects[|effects| - 1])
  }

  predicate Sequential(effects: seq<Effect>) {
    forall k :: 0 <= k < |effects| ==> Answers(Table(effects[..k]), effects[k])
  }

  lemma TableAppend(effects: seq<Effect>, e: Effect)
    ensures Table(effects + [e]) == After(Table(effects), e)
    ensures Sequential(effects) && Answers(Table(effects), e) ==> Sequential(effects + [e])
  {
    var all := effects + [e];
    assert all[..|effects|] == effects;
    assert forall k :: 0 <= k < |effects| ==> all[..k] == effects[..k] && all[k] == effects[k];
  }

  // ---------------------------------------------------------------- the moments at which the calls take effect

  /** The answer a call has given, if it is one that the operation gives. */
  function AnswerOf(p: Progress): Option<Result<Component, MaterializeError>> {
    match p
    case Returned(result) => Some(Ok(result))
    case Raised(Clash(overlay)) => Some(Err(OverlayClash(overlay)))
    case Raised(Unreadable) => Some(Err(BadOperationRow))
    case _ => None
  }

  /** What a step makes happen: a commit, a refusal, or a write of another kind. */
  function EffectOf(s: State, a: Action): Option<Effect> {
    match a
    case Advance(who) =>
      if who !in s.calls || Over(s.calls[who].progress) then None
      else
        var answer := AnswerOf(Advanced(s, who).calls[who].progress);
        if answer.None? then None
        else Some(Performed(who, s.calls[who].operation, s.calls[who].component, answer.value))
    case OtherWrite(key, doc) => if s.writer.None? && IsOther(key) then Some(Written(key, doc)) else None
    case _ => None
  }

  /** The effects of a run, in the order in which they happen. */
  function Order(actions: seq<Action>): seq<Effect> {
    if actions == [] then []
    else
      var front, last := actions[..|actions| - 1], actions[|actions| - 1];
      match EffectOf(Run(START, front), last)
      case None => Order(front)
      case Some(e) => Order(front) + [e]
  }

  lemma StepTakesEffect(s: State, a: Action)
    requires Inv(s)
    ensures match EffectOf(s, a)
            case None => Step(s, a).committed == s.committed
            case Some(e) => Step(s, a).committed == After(s.committed, e) && Answers(s.committed, e)
  {
    if a.Advance? && a.who in s.calls {
      assert CallOk(s, a.who);
    }
  }

  /** A call answers at the step that takes effect, and at no other. */
  lemma StepAnswers(s: State, a: Action, who: nat)
    requires who in Step(s, a).calls
    ensures var t := Step(s, a);
            var e := EffectOf(s, a);
            if e.Some? && e.value.Performed? && e.value.who == who then
              && who in s.calls && AnswerOf(s.calls[who].progress).None?
              && AnswerOf(t.calls[who].progress) == Some(e.value.answer)
              && t.calls[who].operation == e.value.operation && t.calls[who].component == e.value.component
            else if who in s.calls then
              && AnswerOf(t.calls[who].progress) == AnswerOf(s.calls[who].progress)
              && t.calls[who].operation == s.calls[who].operation && t.calls[who].component == s.calls[who].component
            else AnswerOf(t.calls[who].progress).None?
  {
  }

  lemma CallsStay(s: State, a: Action)
    ensures forall who :: who in s.calls ==> who in Step(s, a).calls
    ensures var e := EffectOf(s, a);
            e.Some? && e.value.Performed? ==> e.value.who in s.calls
  {
  }

  predicate IsOf(e: Effect, who: nat) {
    e.Performed? && e.who == who
  }

  /** The place of a call among the effects, or their number. */
  function PlaceOf(effects: seq<Effect>, who: nat): (k: nat)
    ensures k <= |effects| && (k < |effects| ==> IsOf(effects[k], who))
    ensures forall i :: 0 <= i < k ==> !IsOf(effects[i], who)
  {
    if effects == [] || IsOf(effects[0], who) then 0 else 1 + PlaceOf(effects[1..], who)
  }

  /** This call is among the effects exactly if it has answered, once, with its own answer. */
  predicate Accounted(s: State, effects: seq<Effect>, who: nat) {
    && (forall i, k :: 0 <= i < k < |effects| && IsOf(effects[i], who) ==> !IsOf(effects[k], who))
    && (forall k :: 0 <= k < |effects| && IsOf(effects[k], who) ==>
          && who in s.calls
          && effects[k].operation == s.calls[who].operation && effects[k].component == s.calls[who].component
          && AnswerOf(s.calls[who].progress) == Some(effects[k].answer))
    && (who in s.calls && AnswerOf(s.calls[who].progress).Some? ==> PlaceOf(effects, who) < |effects|)
  }

  lemma PlaceAppend(effects: seq<Effect>, e: Effect, who: nat)
    requires PlaceOf(effects, who) < |effects| || IsOf(e, who)
    ensures PlaceOf(effects + [e], who) < |effects + [e]|
  {
    var all, k := effects + [e], PlaceOf(effects, who);
    assert if k < |effects| then IsOf(all[k], who) else IsOf(all[|effects|], who);
  }

  lemma StepKeepsAccount(s: State, a: Action, effects: seq<Effect>, who: nat)
    requires Accounted(s, effects, who)
    ensures var more := match EffectOf(s, a) case None => effects case Some(e) => effects + [e];
            Accounted(Step(s, a), more, who)
  {
    CallsStay(s, a);
    var t, e := Step(s, a), EffectOf(s, a);
    if who in t.calls {
      StepAnswers(s, a, who);
    }
    if e.Some? {
      var all := effects + [e.value];
      assert forall k :: 0 <= k < |effects| ==> all[k] == effects[k];
      if PlaceOf(effects, who) < |effects| || IsOf(e.value, who) {
        PlaceAppend(effects, e.value, who);
      }
    }
  }

  /**
   For every order of steps: done one after the other, the effects give every call the answer it got and end
   in the committed table; and every call that has answered is among them, exactly once.
   */
  lemma {:induction false} Linearizable(actions: seq<Action>)
    ensures Table(Order(actions)) == Run(START, actions).committed
    ensures Sequential(Order(actions))
    ensures forall who :: Accounted(Run(START, actions), Order(actions), who)
  {
    if actions != [] {
      var front, last := actions[..|actions| - 1], actions[|actions| - 1];
      var s := Run(START, front);
      Linearizable(front);
      RunKeepsInv(front);
      StepTakesEffect(s, last);
      if EffectOf(s, last).Some? {
        TableAppend(Order(front), EffectOf(s, last).value);
      }
      forall who ensures Accounted(Run(START, actions), Order(actions), who) {
        StepKeepsAccount(s, last, Order(front), who);
      }
    }
  }

  /**
   The order respects time: later steps only add to it, so a call that answered before another one arrived
   is done before it.
   */
  lemma {:induction false} OrderGrows(before: seq<Action>, after: seq<Action>)
    ensures Order(before) <= Order(before + after)
  {
    if after == [] {
      assert before + after == before;
    } else {
      var front := after[..|after| - 1];
      assert (before + after)[..|before + after| - 1] == before + front;
      OrderGrows(before, front);
    }
  }

  lemma FirstInPrefix(early: seq<Effect>, effects: seq<Effect>, a: nat, b: nat)
    requires early <= effects && PlaceOf(early, a) < |early|
    requires forall i :: 0 <= i < |early| ==> !IsOf(early[i], b)
    ensures PlaceOf(effects, a) < |effects| && PlaceOf(effects, a) < PlaceOf(effects, b)
  {
    assert IsOf(effects[PlaceOf(early, a)], a);
    forall i | 0 <= i < |early| ensures !IsOf(effects[i], b) {
      assert effects[i] == early[i];
    }
  }

  lemma NotYetThere(actions: seq<Action>, who: nat)
    requires who !in Run(START, actions).calls
    ensures forall i :: 0 <= i < |Order(actions)| ==> !IsOf(Order(actions)[i], who)
  {
    Linearizable(actions);
    assert Accounted(Run(START, actions), Order(actions), who);
  }

  lemma EarlierFirst(before: seq<Action>, after: seq<Action>, a: nat, b: nat)
    requires a in Run(START, before).calls && AnswerOf(Run(START, before).calls[a].progress).Some?
    requires b !in Run(START, before).calls
    ensures var effects := Order(before + after);
            PlaceOf(effects, a) < |effects| && PlaceOf(effects, a) < PlaceOf(effects, b)
  {
    Linearizable(before);
    assert Accounted(Run(START, before), Order(before), a);
    OrderGrows(before, after);
    NotYetThere(before, b);
    FirstInPrefix(Order(before), Order(before + after), a, b);
  }
}

/** The checkout workflow of service A: a flat finite-state machine over seven
    steps whose context is five boolean completion flags.

    The machine is written the way its declaration is: a table `On` that gives,
    for each step and event type, the declared candidate transitions (target,
    optional named guard, `assign` action), and a small interpreter `Step` that
    applies the statechart rules — candidates are tried in declared order, the
    first whose guard passes (or that has no guard) is taken, and an event the
    step has no entry for is ignored. `Table` restates the same machine row by
    row as an independent reference, and `StepIsTable` proves the two agree.
    The started actor that holds the current snapshot is the class `Actor`. */
module CheckoutMachine {
  import opened Wrappers

  /** The seven declared steps; the initial one is `FormEntry`. */
  datatype StepName =
    | FormEntry
    | AwaitingReview
    | BillingSummary
    | ExternalPayment
    | PaymentSuccess
    | ShippingAddress
    | Completed

  /** The machine's context: five completion flags. */
  datatype Context = Context(
    isFormValid: bool,
    isReviewed: bool,
    isPaymentCompleted: bool,
    isShippingValid: bool,
    isRequestComplete: bool)

  /** The `type` tag of an event. */
  datatype EventType = Next | Previous | PaymentSucceeded | PaymentFailed

  /** An event object `{ type, validStep? }`; a `NEXT` sent without
      `validStep` carries `validStep == false`, which the guards read the same
      way as a missing (falsy) field. */
  datatype Event = Event(eventType: EventType, validStep: bool)

  /** What an actor holds: the current step (`value`) and the context. */
  datatype Snapshot = Snapshot(value: StepName, context: Context)

  /** The guards registered with the machine, by name. */
  datatype Guard =
    | IsFormValid
    | IsReviewed
    | IsPaymentCompleted
    | IsShippingValid
    | HasPaymentCompletedInContext

  /** The context flags, as keys of an `assign` action. */
  datatype Flag = FormValid | Reviewed | PaymentCompleted | ShippingValid | RequestComplete

  /** One candidate of an `on` entry: its target, its guard if any, and the
      flags its `assign` action overwrites (an empty map: no action). */
  datatype Transition = Transition(target: StepName, guard: Option<Guard>, assigns: map<Flag, bool>)

  const NoFlags: Context := Context(false, false, false, false, false)

  /** The snapshot a fresh actor starts from. */
  function Initial(): (s: Snapshot)
    ensures s.value == FormEntry
    ensures forall f :: !FlagOf(s.context, f)
  {
    Snapshot(FormEntry, NoFlags)
  }

  function FlagOf(context: Context, f: Flag): bool {
    match f
    case FormValid => context.isFormValid
    case Reviewed => context.isReviewed
    case PaymentCompleted => context.isPaymentCompleted
    case ShippingValid => context.isShippingValid
    case RequestComplete => context.isRequestComplete
  }

  /** The guard implementations. The first four read only the event, the last
      only the context; none has a side effect. */
  function GuardHolds(g: Guard, context: Context, event: Event): bool {
    match g
    case IsFormValid => event.eventType == Next && event.validStep
    case IsReviewed => event.eventType == Next && event.validStep
    case IsPaymentCompleted => event.eventType == PaymentSucceeded
    case IsShippingValid => event.eventType == Next && event.validStep
    case HasPaymentCompletedInContext => context.isPaymentCompleted
  }

  predicate Enabled(t: Transition, context: Context, event: Event) {
    match t.guard
    case None => true
    case Some(g) => GuardHolds(g, context, event)
  }

  /** An `assign` action: the flags it names take the given values, every
      other flag keeps its value. */
  function Assign(context: Context, assigns: map<Flag, bool>): (r: Context)
    ensures forall f :: FlagOf(r, f) == if f in assigns then assigns[f] else FlagOf(context, f)
  {
    Context(
      if FormValid in assigns then assigns[FormValid] else context.isFormValid,
      if Reviewed in assigns then assigns[Reviewed] else context.isReviewed,
      if PaymentCompleted in assigns then assigns[PaymentCompleted] else context.isPaymentCompleted,
      if ShippingValid in assigns then assigns[ShippingValid] else context.isShippingValid,
      if RequestComplete in assigns then assigns[RequestComplete] else context.isRequestComplete)
  }

  /** The `on` maps of the machine's states, in declared order. An empty
      sequence means the state has no entry for that event type. Every entry
      ends with an unguarded candidate, so a handled event always fires some
      transition; no entry has more than a guarded candidate and its
      fallback; and the registered `isPaymentCompleted` guard guards no
      transition (the bill consults the context instead). */
  function On(state: StepName, t: EventType): (r: seq<Transition>)
    ensures r != [] ==> r[|r| - 1].guard.None?
    ensures |r| <= 2
    ensures forall i :: 0 <= i < |r| ==> r[i].guard != Some(IsPaymentCompleted)
  {
    match state
    case FormEntry =>
      if t == Next then
        [Transition(AwaitingReview, Some(IsFormValid), map[FormValid := true]),
         Transition(FormEntry, None, map[])]
      else []
    case AwaitingReview =>
      if t == Next then
        [Transition(BillingSummary, Some(IsReviewed), map[Reviewed := true]),
         Transition(AwaitingReview, None, map[])]
      else []
    case BillingSummary =>
      if t == Next then
        [Transition(PaymentSuccess, Some(HasPaymentCompletedInContext), map[]),
         Transition(ExternalPayment, None, map[])]
      else if t == Previous then [Transition(AwaitingReview, None, map[])]
      else []
    case ExternalPayment =>
      if t == PaymentSucceeded then [Transition(PaymentSuccess, None, map[PaymentCompleted := true])]
      else if t == PaymentFailed then [Transition(BillingSummary, None, map[PaymentCompleted := false])]
      else []
    case PaymentSuccess =>
      if t == Next then [Transition(ShippingAddress, None, map[])]
      else if t == Previous then [Transition(BillingSummary, None, map[])]
      else []
    case ShippingAddress =>
      if t == Next then
        [Transition(Completed, Some(IsShippingValid), map[ShippingValid := true, RequestComplete := true]),
         Transition(ShippingAddress, None, map[])]
      else if t == Previous then [Transition(PaymentSuccess, None, map[])]
      else []
    case Completed =>
      if t == Previous then [Transition(BillingSummary, None, map[])]
      else []
  }

  /** Whether the state has an `on` entry for the event type. */
  predicate Handles(state: StepName, t: EventType) {
    On(state, t) != []
  }

  /** The position of the candidate that fires: the first one, in declared
      order, that is enabled; `None` when no candidate is. */
  function Select(ts: seq<Transition>, context: Context, event: Event): (r: Option<nat>)
    ensures r.Some? ==> r.value < |ts| && Enabled(ts[r.value], context, event)
    ensures r.Some? ==> forall j :: 0 <= j < r.value ==> !Enabled(ts[j], context, event)
    ensures r.None? ==> forall j :: 0 <= j < |ts| ==> !Enabled(ts[j], context, event)
    decreases |ts|
  {
    if ts == [] then None
    else if Enabled(ts[0], context, event) then Some(0)
    else
      match Select(ts[1..], context, event)
      case None => None
      case Some(i) => Some(i + 1)
  }

  /** One macrostep: the snapshot after `event` is processed in `s`. The new
      step is the current one or a target declared for this event type, and
      an event the step has no entry for changes nothing. */
  function Step(s: Snapshot, event: Event): (r: Snapshot)
    ensures r.value == s.value || exists t :: t in On(s.value, event.eventType) && t.target == r.value
    ensures !Handles(s.value, event.eventType) ==> r == s
  {
    var ts := On(s.value, event.eventType);
    match Select(ts, s.context, event)
    case None => s
    case Some(i) =>
      assert ts[i] in ts;
      Snapshot(ts[i].target, Assign(s.context, ts[i].assigns))
  }

  /** The snapshot after a sequence of events, sent one after the other. */
  function Run(s: Snapshot, events: seq<Event>): Snapshot
    decreases |events|
  {
    if events == [] then s else Run(Step(s, events[0]), events[1..])
  }

  /** The step a `NEXT` without `validStep` would lead to from `s`: the
      prediction differs from the current step only on the bill and on the
      payment confirmation, the two steps where every `NEXT` candidate leaves
      the step. */
  function Lookahead(s: Snapshot): (r: StepName)
    ensures r != s.value <==> s.value == BillingSummary || s.value == PaymentSuccess
  {
    StepIsTable(s, Event(Next, false));
    Step(s, Event(Next, false)).value
  }

  // ---------------------------------------------------------------------------
  // The machine's behaviour, one row per declared transition.
  // ---------------------------------------------------------------------------

  /** Reference definition of the workflow, written row by row: from each step,
      each event either moves to the declared target with the declared flag
      updates, stays put (a `NEXT` whose guard fails), or is ignored. */
  function Table(s: Snapshot, event: Event): Snapshot {
    var c := s.context;
    var valid := event.validStep;
    match (s.value, event.eventType)
    case (FormEntry, Next) =>
      if valid then Snapshot(AwaitingReview, c.(isFormValid := true)) else s
    case (AwaitingReview, Next) =>
      if valid then Snapshot(BillingSummary, c.(isReviewed := true)) else s
    case (BillingSummary, Next) =>
      if c.isPaymentCompleted then Snapshot(PaymentSuccess, c) else Snapshot(ExternalPayment, c)
    case (BillingSummary, Previous) => Snapshot(AwaitingReview, c)
    case (ExternalPayment, PaymentSucceeded) => Snapshot(PaymentSuccess, c.(isPaymentCompleted := true))
    case (ExternalPayment, PaymentFailed) => Snapshot(BillingSummary, c.(isPaymentCompleted := false))
    case (PaymentSuccess, Next) => Snapshot(ShippingAddress, c)
    case (PaymentSuccess, Previous) => Snapshot(BillingSummary, c)
    case (ShippingAddress, Next) =>
      if valid then Snapshot(Completed, c.(isShippingValid := true, isRequestComplete := true)) else s
    case (ShippingAddress, Previous) => Snapshot(PaymentSuccess, c)
    case (Completed, Previous) => Snapshot(BillingSummary, c)
    case _ => s
  }

  /** The interpreter applied to the declared `on` maps computes exactly the
      reference table, for every snapshot and every event. */
  lemma StepIsTable(s: Snapshot, event: Event)
    ensures Step(s, event) == Table(s, event)
  {
    var ts := On(s.value, event.eventType);
    if ts != [] {
      FirstOrFallback(ts, s.context, event);
    }
    match s.value {
      case FormEntry =>
      case AwaitingReview =>
      case BillingSummary =>
      case ExternalPayment =>
      case PaymentSuccess =>
      case ShippingAddress =>
      case Completed =>
    }
  }

  /** Of one or two candidates whose last is unguarded (the shape of every
      `on` entry), the first fires if it is enabled and the last otherwise. */
  lemma FirstOrFallback(ts: seq<Transition>, context: Context, event: Event)
    requires 1 <= |ts| <= 2 && ts[|ts| - 1].guard.None?
    ensures Select(ts, context, event) == if Enabled(ts[0], context, event) then Some(0) else Some(|ts| - 1)
  {
    assert Enabled(ts[|ts| - 1], context, event);
  }

  /** `NEXT` on the three form-like steps: with `validStep` the machine moves
      on and sets only the step's flag(s); otherwise it stays and nothing
      changes. */
  lemma GuardedNext(s: Snapshot, valid: bool)
    requires s.value in {FormEntry, AwaitingReview, ShippingAddress}
    ensures var r := Step(s, Event(Next, valid));
      if !valid then r == s
      else if s.value == FormEntry then r == Snapshot(AwaitingReview, Assign(s.context, map[FormValid := true]))
      else if s.value == AwaitingReview then r == Snapshot(BillingSummary, Assign(s.context, map[Reviewed := true]))
      else r == Snapshot(Completed, Assign(s.context, map[ShippingValid := true, RequestComplete := true]))
  {
    StepIsTable(s, Event(Next, valid));
  }

  /** In `billingSummary`, `NEXT` skips the payment provider exactly when the
      context already records a completed payment, and `PREVIOUS` goes back to
      the review step; neither changes the context. */
  lemma BillingSummaryRoutes(c: Context, valid: bool)
    ensures Step(Snapshot(BillingSummary, c), Event(Next, valid)).context == c
    ensures Step(Snapshot(BillingSummary, c), Event(Next, valid)).value == PaymentSuccess <==> c.isPaymentCompleted
    ensures Step(Snapshot(BillingSummary, c), Event(Next, valid)).value == ExternalPayment <==> !c.isPaymentCompleted
    ensures Step(Snapshot(BillingSummary, c), Event(Previous, valid)) == Snapshot(AwaitingReview, c)
  {
    StepIsTable(Snapshot(BillingSummary, c), Event(Next, valid));
    StepIsTable(Snapshot(BillingSummary, c), Event(Previous, valid));
  }

  /** The payment provider's callback: success records the payment and shows
      the success step, failure erases it and returns to the bill; no other
      flag changes. */
  lemma ExternalPaymentOutcome(c: Context, valid: bool)
    ensures Step(Snapshot(ExternalPayment, c), Event(PaymentSucceeded, valid))
         == Snapshot(PaymentSuccess, Assign(c, map[PaymentCompleted := true]))
    ensures Step(Snapshot(ExternalPayment, c), Event(PaymentFailed, valid))
         == Snapshot(BillingSummary, Assign(c, map[PaymentCompleted := false]))
  {
    StepIsTable(Snapshot(ExternalPayment, c), Event(PaymentSucceeded, valid));
    StepIsTable(Snapshot(ExternalPayment, c), Event(PaymentFailed, valid));
  }

  /** Navigation from the later steps never changes the context:
      `paymentSuccess` goes forward to the shipping address and back to the
      bill, the shipping address goes back to `paymentSuccess`, and
      `completed` re-enters the flow at the bill. */
  lemma LaterStepNavigation(c: Context, valid: bool)
    ensures Step(Snapshot(PaymentSuccess, c), Event(Next, valid)) == Snapshot(ShippingAddress, c)
    ensures Step(Snapshot(PaymentSuccess, c), Event(Previous, valid)) == Snapshot(BillingSummary, c)
    ensures Step(Snapshot(ShippingAddress, c), Event(Previous, valid)) == Snapshot(PaymentSuccess, c)
    ensures Step(Snapshot(Completed, c), Event(Previous, valid)) == Snapshot(BillingSummary, c)
  {
    StepIsTable(Snapshot(PaymentSuccess, c), Event(Next, valid));
    StepIsTable(Snapshot(PaymentSuccess, c), Event(Previous, valid));
    StepIsTable(Snapshot(ShippingAddress, c), Event(Previous, valid));
    StepIsTable(Snapshot(Completed, c), Event(Previous, valid));
  }

  /** Which (step, event type) pairs have an `on` entry: `NEXT` everywhere but
      in `externalPayment` and `completed`, `PREVIOUS` from the bill onwards
      except in `externalPayment`, and the payment callbacks only in
      `externalPayment`. Every other event is ignored. */
  lemma HandledEvents(state: StepName, t: EventType)
    ensures Handles(state, t) <==>
      match t
      case Next => state != ExternalPayment && state != Completed
      case Previous => state in {BillingSummary, PaymentSuccess, ShippingAddress, Completed}
      case PaymentSucceeded => state == ExternalPayment
      case PaymentFailed => state == ExternalPayment
  {
  }

  /** An ignored event leaves the snapshot as it was, so sending it again
      gives the same unchanged snapshot. */
  lemma IgnoredEventIsIdempotent(s: Snapshot, event: Event)
    requires !Handles(s.value, event.eventType)
    ensures Step(s, event) == s
    ensures Step(Step(s, event), event) == Step(s, event)
  {
  }

  /** The only flag a transition ever clears is `isPaymentCompleted`, and only
      through `PAYMENT_FAILED` while waiting on the external payment. */
  lemma OnlyPaymentFailedClears(s: Snapshot, event: Event, f: Flag)
    requires FlagOf(s.context, f) && !FlagOf(Step(s, event).context, f)
    ensures f == PaymentCompleted && s.value == ExternalPayment && event.eventType == PaymentFailed
  {
    StepIsTable(s, event);
  }

  /** Over any run of events, every flag but `isPaymentCompleted` stays set
      once set. */
  lemma {:induction false} FlagsStaySet(s: Snapshot, events: seq<Event>, f: Flag)
    requires f != PaymentCompleted && FlagOf(s.context, f)
    ensures FlagOf(Run(s, events).context, f)
    decreases |events|
  {
    if events != [] {
      if !FlagOf(Step(s, events[0]).context, f) {
        OnlyPaymentFailedClears(s, events[0], f);
      }
      FlagsStaySet(Step(s, events[0]), events[1..], f);
    }
  }

  /** Once the payment is recorded it stays recorded for as long as no
      `PAYMENT_FAILED` is sent. */
  lemma {:induction false} PaymentStaysCompleted(s: Snapshot, events: seq<Event>)
    requires s.context.isPaymentCompleted
    requires forall i :: 0 <= i < |events| ==> events[i].eventType != PaymentFailed
    ensures Run(s, events).context.isPaymentCompleted
    decreases |events|
  {
    if events != [] {
      if !Step(s, events[0]).context.isPaymentCompleted {
        OnlyPaymentFailedClears(s, events[0], PaymentCompleted);
      }
      PaymentStaysCompleted(Step(s, events[0]), events[1..]);
    }
  }

  /** The event guards ignore the context, the context guard ignores the
      event. */
  lemma GuardsReadTheirInputOnly(g: Guard, c1: Context, c2: Context, e1: Event, e2: Event)
    ensures g != HasPaymentCompletedInContext ==> GuardHolds(g, c1, e1) == GuardHolds(g, c2, e1)
    ensures g == HasPaymentCompletedInContext ==> GuardHolds(g, c1, e1) == GuardHolds(g, c1, e2)
  {
  }

  /** The three step guards are one and the same test: a `NEXT` carrying a
      true `validStep`. A `NEXT` without `validStep`, or any other event,
      never passes them. */
  lemma ValidatedNextGuards(g: Guard, c: Context, e: Event)
    requires g == IsFormValid || g == IsReviewed || g == IsShippingValid
    ensures GuardHolds(g, c, e) <==> e == Event(Next, true)
  {
  }

  /** Every event a step handles fires a transition: it is consumed, never
      dropped for want of a passing guard. */
  lemma HandledEventsFire(s: Snapshot, event: Event)
    requires Handles(s.value, event.eventType)
    ensures Select(On(s.value, event.eventType), s.context, event).Some?
  {
    var ts := On(s.value, event.eventType);
    assert Enabled(ts[|ts| - 1], s.context, event);
  }

  /** The lookahead of a `NEXT` without `validStep`: the guarded form-like
      steps stay put, the bill goes wherever the recorded payment sends it,
      `paymentSuccess` moves to the shipping address, and the steps without a
      `NEXT` entry stay put. */
  lemma LookaheadTable(s: Snapshot)
    ensures Lookahead(s) ==
      match s.value
      case BillingSummary => if s.context.isPaymentCompleted then PaymentSuccess else ExternalPayment
      case PaymentSuccess => ShippingAddress
      case _ => s.value
  {
    StepIsTable(s, Event(Next, false));
  }

  /** The whole happy path from a fresh start: fill the form, pass review,
      pay at the provider, continue, and give a valid address. */
  lemma HappyPath()
    ensures Run(Initial(), [Event(Next, true), Event(Next, true), Event(Next, false),
                            Event(PaymentSucceeded, false), Event(Next, false), Event(Next, true)])
         == Snapshot(Completed, Context(true, true, true, true, true))
  {
    var e0, e1, e2 := Event(Next, true), Event(Next, true), Event(Next, false);
    var e3, e4, e5 := Event(PaymentSucceeded, false), Event(Next, false), Event(Next, true);
    var s0 := Initial();
    var s1 := Snapshot(AwaitingReview, Context(true, false, false, false, false));
    var s2 := Snapshot(BillingSummary, Context(true, true, false, false, false));
    var s3 := Snapshot(ExternalPayment, Context(true, true, false, false, false));
    var s4 := Snapshot(PaymentSuccess, Context(true, true, true, false, false));
    var s5 := Snapshot(ShippingAddress, Context(true, true, true, false, false));
    var s6 := Snapshot(Completed, Context(true, true, true, true, true));
    StepIsTable(s0, e0);
    StepIsTable(s1, e1);
    StepIsTable(s2, e2);
    StepIsTable(s3, e3);
    StepIsTable(s4, e4);
    StepIsTable(s5, e5);
    assert Run(s5, [e5]) == s6;
    assert Run(s4, [e4, e5]) == s6 by { assert [e4, e5][1..] == [e5]; }
    assert Run(s3, [e3, e4, e5]) == s6 by { assert [e3, e4, e5][1..] == [e4, e5]; }
    assert Run(s2, [e2, e3, e4, e5]) == s6 by { assert [e2, e3, e4, e5][1..] == [e3, e4, e5]; }
    assert Run(s1, [e1, e2, e3, e4, e5]) == s6 by { assert [e1, e2, e3, e4, e5][1..] == [e2, e3, e4, e5]; }
    assert [e0, e1, e2, e3, e4, e5][1..] == [e1, e2, e3, e4, e5];
  }

  // ---------------------------------------------------------------------------
  // The started actor.
  // ---------------------------------------------------------------------------

  /** A started actor of the checkout machine: it holds the current snapshot,
      and each `Send` replaces it with the snapshot after the event. */
  class Actor {
    var value: StepName
    var context: Context

    function GetSnapshot(): (s: Snapshot)
      reads this
      ensures s.value == value && s.context == context
    {
      Snapshot(value, context)
    }

    /** An actor started from the given snapshot, verbatim. */
    constructor (snapshot: Snapshot)
      ensures GetSnapshot() == snapshot
    {
      value := snapshot.value;
      context := snapshot.context;
    }

    /** Process one event to completion. */
    method Send(event: Event)
      modifies this
      ensures GetSnapshot() == Step(old(GetSnapshot()), event)
    {
      var s := Step(Snapshot(value, context), event);
      value := s.value;
      context := s.context;
    }
  }

  /** A started actor: resumed at exactly the given snapshot if there is one,
      otherwise at the initial step with every flag false. */
  method CreateCheckoutMachine(snapshot: Option<Snapshot>) returns (actor: Actor)
    ensures fresh(actor)
    ensures snapshot.Some? ==> actor.GetSnapshot() == snapshot.value
    ensures snapshot.None? ==> actor.GetSnapshot().value == FormEntry
    ensures snapshot.None? ==> forall f :: !FlagOf(actor.GetSnapshot().context, f)
  {
    if snapshot.Some? {
      actor := new Actor(snapshot.value);
    } else {
      actor := new Actor(Initial());
    }
  }

  /** The step a `NEXT` without `validStep` would reach from the actor's
      current snapshot, computed without sending anything; nothing when there
      is no actor. */
  method PredictNextTurnAction(machine: Actor?) returns (r: Option<StepName>)
    ensures machine == null <==> r.None?
    ensures machine != null ==> r == Some(Step(machine.GetSnapshot(), Event(Next, false)).value)
  {
    if machine != null {
      var current := machine.GetSnapshot();
      r := Some(Lookahead(current));
    } else {
      r := None;
    }
  }
}

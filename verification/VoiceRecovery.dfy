/**
 When the voice circuit opens and closes, and what an exhausted recovery needs to go on.
 */
module VoiceRecovery {
  import opened Prelude
  import opened PlayerState
  import opened SlotIdentity
  import opened Endings
  import opened Progress

  // ---------------------------------------------------------------------------
  // The circuit
  // ---------------------------------------------------------------------------

  /** The step reports the transport gone, by a health check or by the end of an attempt. */
  predicate ReportsLoss(s: Player, e: Event) {
    || (e.T? && e.transport.LoseVoice? && s.voice.attached && !s.closed)
    || (e.P? && e.playing.TrackEnds? && Live(s) && (e.playing.ending.VoiceError? || s.deck.attempt.value.interrupted))
  }

  /** The transport confirmed a call that a recovery of the current epoch has made. */
  predicate ConfirmsRecovery(s: Player, e: Event) {
    && e.T? && e.transport == EndRecover(true) && !s.closed
    && s.voice.recovering.Some? && s.voice.recovering.value.calling && s.voice.recovering.value.epoch == s.voice.epoch
  }

  predicate Attaches(s: Player, e: Event) {
    e.T? && e.transport.AttachVoice? && !s.closed && !s.voice.attached
  }

  lemma CircuitOfControl(s: Player, c: Control)
    ensures ControlStep(s, c).voice.blocked == s.voice.blocked
    ensures ControlStep(s, c).voice.recovering == s.voice.recovering
  {
  }

  lemma CircuitOfEdit(s: Player, e: Edit)
    ensures EditStep(s, e).voice == s.voice
  {
  }

  lemma CircuitOfResolve(s: Player, r: Resolving)
    ensures ResolveStep(s, r).voice == s.voice
  {
  }

  lemma CircuitOfTransport(s: Player, e: Event)
    requires e.T?
    ensures TransportStep(s, e.transport).voice.blocked <==>
      !Attaches(s, e) && !ConfirmsRecovery(s, e) && (s.voice.blocked || ReportsLoss(s, e))
  {
  }

  lemma CircuitOfPlay(s: Player, p: Playing)
    ensures PlayStep(s, p).voice.blocked <==> s.voice.blocked || ReportsLoss(s, P(p))
    ensures PlayStep(s, p).voice.recovering == s.voice.recovering
  {
  }

  /**
   The voice circuit is open after a step exactly if it was, or the step reports a loss, and it neither attaches voice
   nor confirms a recovery of the current epoch: what a recovery answers after a stop or a leave changes nothing.
   */
  lemma CircuitOpenIff(s: Player, e: Event, t: Player)
    requires t == Step(s, e)
    ensures t.voice.blocked <==>
      !Attaches(s, e) && !ConfirmsRecovery(s, e) && (s.voice.blocked || ReportsLoss(s, e))
  {
    match e
    case E(edit) => CircuitOfEdit(s, edit);
    case C(control) => CircuitOfControl(s, control);
    case T(_) => CircuitOfTransport(s, e);
    case P(playing) => CircuitOfPlay(s, playing);
    case R(resolving) => CircuitOfResolve(s, resolving);
  }

  /** A loss interrupts the attempt that is playing, so that no further frame of it counts. */
  lemma LossInterrupts(s: Player, t: Player)
    requires t == Step(s, T(LoseVoice)) && s.voice.attached && Live(s)
    ensures t.deck == s.deck.(attempt := Some(s.deck.attempt.value.(interrupted := true))) && t.tape == s.tape
  {
  }

  /** Attaching begins with a closed circuit and the whole budget, once. */
  lemma AttachStartsAnew(s: Player, t: Player)
    requires t == Step(s, T(AttachVoice))
    ensures s.closed || s.voice.attached ==> t == s
    ensures !s.closed && !s.voice.attached ==>
      && t.voice.attached && !t.voice.blocked && !t.voice.incident && t.voice.attempts == 0
      && t.deck == s.deck && t.tape == s.tape
  {
  }

  // ---------------------------------------------------------------------------
  // The recovery loop
  // ---------------------------------------------------------------------------

  /** Recovery begins between attempts, for a queue that waits, while some of the five attempts are left. */
  lemma RecoveryBeginsIff(s: Player, t: Player)
    requires t == Step(s, T(BeginRecovery)) && s.voice.recovering == None
    ensures t.voice.recovering.Some? <==>
      && s.voice.blocked && s.voice.attached && !s.closed && s.deck.attempt == None && s.deck.queue != []
      && s.voice.attempts < 5
    ensures t == s.(voice := t.voice) && t.voice.attempts == s.voice.attempts && t.voice.blocked == s.voice.blocked
    ensures t.voice.recovering.Some? ==> t.voice.recovering.value == Recovery(s.voice.epoch, false)
  {
  }

  /** A turn of the loop calls the transport and spends an attempt, or ends the loop; never both. */
  lemma RecoveryTurn(s: Player, t: Player)
    requires t == Step(s, T(CallRecover)) && s.voice.recovering.Some? && !s.voice.recovering.value.calling
    ensures var goesOn := !s.closed && s.voice.recovering.value.epoch == s.voice.epoch && s.voice.attempts < 5;
      && (goesOn ==> t.voice.recovering == Some(s.voice.recovering.value.(calling := true)))
      && (!goesOn ==> t.voice.recovering == None)
      && t.voice.attempts == s.voice.attempts + (if goesOn then 1 else 0) && t.voice.blocked == s.voice.blocked
  {
  }

  /** A failed call is followed by another turn, until the fifth; a stop, a leave or shutdown ends the loop at once. */
  lemma RecoveryFailure(s: Player, t: Player)
    requires t == Step(s, T(EndRecover(false))) && s.voice.recovering.Some? && s.voice.recovering.value.calling
    ensures t.voice.blocked == s.voice.blocked && t.voice.attempts == s.voice.attempts
    ensures var r := s.voice.recovering.value;
      t.voice.recovering ==
        if !s.closed && r.epoch == s.voice.epoch && s.voice.attempts < 5 then Some(r.(calling := false)) else None
  {
  }

  /** Stopping and leaving outdate the recovery that is running. */
  lemma StopOutdates(s: Player, c: Control, t: Player)
    requires t == Step(s, C(c)) && (c == StopPlayback || c == LeaveVoice)
    ensures t.voice.epoch > s.voice.epoch && t.voice.recovering == s.voice.recovering
  {
  }

  /** A renewal gives the whole budget back. */
  lemma RenewalRenews(s: Player, e: Event, t: Player)
    requires Budgeted(s) && Renewal(s, e) && t == Step(s, e)
    ensures t.voice.attempts == 0
  {
  }

  // ---------------------------------------------------------------------------
  // Exhaustion
  // ---------------------------------------------------------------------------

  /** All five attempts are spent and no recovery is running. */
  predicate Exhausted(s: Player) {
    s.voice.blocked && s.voice.attempts == 5 && s.voice.recovering == None
  }

  lemma NoRecovery(s: Player, e: Event, t: Player)
    requires t == Step(s, e) && Exhausted(s)
    ensures t.voice.recovering == None
  {
    match e
    case E(edit) => CircuitOfEdit(s, edit);
    case C(control) => CircuitOfControl(s, control);
    case T(transport) => NoRecoveryOfTransport(s, transport);
    case P(playing) => CircuitOfPlay(s, playing);
    case R(resolving) => CircuitOfResolve(s, resolving);
  }

  lemma NoRecoveryOfTransport(s: Player, t: Transport)
    requires Exhausted(s)
    ensures TransportStep(s, t).voice.recovering == None
  {
  }

  lemma ExhaustedStep(s: Player, e: Event, t: Player)
    requires Budgeted(s) && t == Step(s, e) && Exhausted(s) && !Renewal(s, e)
    ensures Exhausted(t)
  {
    CircuitOpenIff(s, e, t);
    BudgetStep(s, e, t);
    NoRecovery(s, e, t);
  }

  ghost predicate StaysExhausted(states: seq<Player>, a: nat, b: nat) {
    a <= b < |states| && forall i | a <= i < b :: Exhausted(states[i]) ==> Exhausted(states[i + 1])
  }

  lemma {:induction false} ExhaustedAlong(states: seq<Player>, a: nat, b: nat)
    requires StaysExhausted(states, a, b) && Exhausted(states[a])
    ensures Exhausted(states[b])
  {
    if a < b {
      ExhaustedAlong(states, a, b - 1);
      assert Exhausted(states[b - 1]) ==> Exhausted(states[b - 1 + 1]);
    }
  }

  /** An exhausted recovery stays so, and nothing plays, until a renewal: attaching again or resuming. */
  lemma OnlyRenewalRevives(states: seq<Player>, events: seq<Event>, a: nat, b: nat)
    requires Run(states, events) && Budgeted(states[0]) && a <= b <= |events| && Exhausted(states[a])
    requires forall i | a <= i < b :: !Renewal(states[i], events[i])
    ensures Exhausted(states[b])
  {
    forall i | a <= i < b
      ensures Exhausted(states[i]) ==> Exhausted(states[i + 1])
    {
      if Exhausted(states[i]) {
        BudgetRun(states, events, i);
        ExhaustedStep(states[i], events[i], states[i + 1]);
      }
    }
    ExhaustedAlong(states, a, b);
  }
}

/**
 * The public, anonymous intake form (components/PublicForm.tsx): a three-step wizard
 * whose step counter is clamped to 1..3, a submit that hands the collected fields to
 * the store, and the "Nova Notificação" button that starts over.
 */
module Intake {
  import opened Types
  import opened App

  const FirstStep: int := 1
  const LastStep: int := 3

  /** One step forward, never past the last step. */
  function NextOf(step: int): (r: int)
    ensures r <= LastStep
    ensures FirstStep <= step ==> FirstStep <= r
    ensures step < LastStep ==> r == step + 1
    ensures LastStep <= step ==> r == LastStep
  {
    if step + 1 <= LastStep then step + 1 else LastStep
  }

  /** One step back, never before the first step. */
  function PrevOf(step: int): (r: int)
    ensures FirstStep <= r
    ensures step <= LastStep ==> r <= LastStep
    ensures FirstStep < step ==> r == step - 1
    ensures step <= FirstStep ==> r == FirstStep
  {
    if step - 1 >= FirstStep then step - 1 else FirstStep
  }

  /** "Voltar" is rendered only past the first step. */
  predicate ShowsBack(step: int) {
    step > 1
  }

  /** "Próximo" is rendered before the last step, "Enviar Relato" in its place. */
  predicate ShowsNext(step: int) {
    step < 3
  }

  predicate ShowsSubmit(step: int) {
    !ShowsNext(step)
  }

  /**
   * On a step in range, each button is shown exactly when pressing it would move the
   * step, and "Enviar Relato" only on the last step.
   */
  lemma ButtonsMatchMoves(step: int)
    requires FirstStep <= step <= LastStep
    ensures ShowsBack(step) <==> PrevOf(step) != step
    ensures ShowsNext(step) <==> NextOf(step) != step
    ensures ShowsSubmit(step) <==> step == LastStep
  {
  }

  /** Forward then back, or back then forward, returns to the step where the move was offered. */
  lemma NextPrevInverse(step: int)
    requires FirstStep <= step <= LastStep
    ensures ShowsNext(step) ==> PrevOf(NextOf(step)) == step
    ensures ShowsBack(step) ==> NextOf(PrevOf(step)) == step
  {
  }

  /** The step after a run of clicks; `true` is "Próximo", `false` is "Voltar". */
  function StepAfter(step: int, moves: seq<bool>): int
    decreases |moves|
  {
    if moves == [] then step
    else StepAfter(if moves[0] then NextOf(step) else PrevOf(step), moves[1..])
  }

  /** Starting anywhere in 1..3, no run of clicks leaves 1..3. */
  lemma {:induction false} StepStaysInRange(step: int, moves: seq<bool>)
    requires FirstStep <= step <= LastStep
    ensures FirstStep <= StepAfter(step, moves) <= LastStep
    decreases |moves|
  {
    if moves != [] {
      StepStaysInRange(if moves[0] then NextOf(step) else PrevOf(step), moves[1..]);
    }
  }

  /** Enough forward clicks always reach the last step, wherever the wizard stands. */
  lemma {:induction false} ForwardReachesLast(step: int, k: nat)
    requires FirstStep <= step <= LastStep && k >= LastStep - step
    ensures StepAfter(step, seq(k, _ => true)) == LastStep
    decreases k
  {
    if k > 0 {
      assert seq(k, _ => true)[1..] == seq(k - 1, _ => true);
      ForwardReachesLast(NextOf(step), k - 1);
    }
  }

  /**
   * The form's initial fields. The date, month and year come from the clock: `today` is
   * the ISO date and `monthIndex` the month (0 for January).
   */
  function DefaultForm(today: string, monthIndex: int, year: int): (d: IntakeData)
    requires 0 <= monthIndex < 12
    ensures d.origin == Portal && d.period == DayShift && d.month == Months[monthIndex]
    ensures d.incidentDate == today && d.notificationDate == today && d.year == year
    ensures d.classification == RiskCircumstance && d.damageGrade == Nenhum
    ensures d.notifiedSector == "" && d.reportingSector == "" && d.description == ""
    ensures d.notivisaNotified == Nao && d.onaNotified == Nao
  {
    IntakeData(Portal, today, today, DayShift, "", "",
               "Falha nas atividades administrativas", RiskCircumstance, Nenhum,
               "Identificação Espontânea", "", "Durante a prestação de cuidados",
               "", "", "", Months[monthIndex], year, "", Nao, Nao)
  }

  class IntakeWizard {
    const store: NotificationStore
    var step: int
    var submitted: bool
    var formData: IntakeData

    ghost predicate Valid()
      reads this
    {
      FirstStep <= step <= LastStep
    }

    constructor (store: NotificationStore, today: string, monthIndex: int, year: int)
      requires 0 <= monthIndex < 12
      ensures Valid()
      ensures this.store == store && step == FirstStep && !submitted
      ensures formData == DefaultForm(today, monthIndex, year)
    {
      this.store := store;
      step, submitted := FirstStep, false;
      formData := DefaultForm(today, monthIndex, year);
    }

    /** "Próximo". */
    method NextStep()
      requires Valid()
      modifies this
      ensures Valid()
      ensures step == NextOf(old(step))
      ensures submitted == old(submitted) && formData == old(formData)
    {
      step := NextOf(step);
    }

    /** "Voltar". */
    method PrevStep()
      requires Valid()
      modifies this
      ensures Valid()
      ensures step == PrevOf(old(step))
      ensures submitted == old(submitted) && formData == old(formData)
    {
      step := PrevOf(step);
    }

    /**
     * `handleSubmit`: the fields go to `addNotification` exactly as collected and the
     * thank-you screen replaces the form. `id` and `now` stand for the random identifier
     * and the clock that `addNotification` reads.
     */
    method Submit(id: string, now: int)
      requires Valid() && store.Valid()
      requires !submitted
      modifies this, store
      ensures Valid() && store.Valid()
      ensures store.notifications == Prepended(old(store.notifications), old(formData), id, now)
      ensures submitted
      ensures step == old(step) && formData == old(formData)
    {
      store.AddNotification(formData, id, now);
      submitted := true;
    }

    /** "Nova Notificação": back to the first step; the fields keep what was typed. */
    method Reset()
      requires Valid()
      requires submitted
      modifies this
      ensures Valid()
      ensures step == FirstStep && !submitted
      ensures formData == old(formData)
    {
      step, submitted := FirstStep, false;
    }
  }
}

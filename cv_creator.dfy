/** The three-step wizard (src/components/CVCreator.tsx). `handleProcess`
    sets `isProcessing` and starts a two-second timer whose callback
    captured the `step` of the render it came from; the timer's firing is a
    separate step here, taking the oldest pending timer first. */
module CvCreator {
  /** How the indicator of step `k` is drawn. */
  datatype Indicator = Indicator(highlighted: bool, showsCheck: bool, pulses: bool)

  /** Highlighted from its own step on, a check mark once passed, and the
      pulsing halo on the current step. */
  function IndicatorFor(step: int, k: int): (r: Indicator)
    ensures r.highlighted <==> step >= k
    ensures r.showsCheck <==> step > k
    ensures r.pulses <==> step == k
    ensures r.showsCheck ==> r.highlighted && !r.pulses
  {
    Indicator(step >= k, step > k, step == k)
  }

  /** The connector after indicator `k` is filled once step `k` is
      passed. */
  predicate ConnectorFilled(step: int, k: int)
  {
    step > k
  }

  /** On a step in 1..3, exactly one of the three indicators pulses, the
      ones before it show a check, and the connector after `k` is filled
      exactly when indicator `k` shows a check. */
  lemma IndicatorsAgree(step: int)
    requires 1 <= step <= 3
    ensures forall k :: 1 <= k <= 3 ==> (IndicatorFor(step, k).pulses <==> k == step)
    ensures forall k :: 1 <= k <= 3 ==> (IndicatorFor(step, k).showsCheck <==> k < step)
    ensures forall k :: 1 <= k <= 2 ==> (ConnectorFilled(step, k) <==> IndicatorFor(step, k).showsCheck)
  {
  }

  /** The four progress bars on step 2: the last two stand at 75 and 45
      while processing. */
  function Progress(isProcessing: bool): (r: seq<int>)
    ensures |r| == 4 && r[0] == 100 && r[1] == 100
    ensures isProcessing ==> r[2] == 75 && r[3] == 45
    ensures !isProcessing ==> forall i :: 0 <= i < |r| ==> r[i] == 100
  {
    [100, 100, if isProcessing then 75 else 100, if isProcessing then 45 else 100]
  }

  class Wizard {
    var step: int
    var isProcessing: bool
    /** The `step` each pending timer captured, oldest first. */
    var pending: seq<int>

    /** The step stays in 1..3 and every pending timer was started on
        step 1 or step 2. */
    ghost predicate Valid()
      reads this
    {
      1 <= step <= 3 && forall i :: 0 <= i < |pending| ==> 1 <= pending[i] <= 2
    }

    /** The Continue button is rendered on step 1, processing or not. */
    predicate ContinueShown()
      reads this
    {
      step == 1
    }

    /** View Results is rendered on step 2 only when not processing. */
    predicate ViewResultsShown()
      reads this
    {
      step == 2 && !isProcessing
    }

    predicate CreateAnotherShown()
      reads this
    {
      step == 3
    }

    constructor ()
      ensures Valid()
      ensures step == 1 && !isProcessing && pending == []
    {
      step, isProcessing, pending := 1, false, [];
    }

    /** `handleProcess`, reached only through Continue or View Results. */
    method HandleProcess()
      requires Valid() && (ContinueShown() || ViewResultsShown())
      modifies this
      ensures Valid()
      ensures isProcessing && step == old(step)
      ensures pending == old(pending) + [old(step)]
    {
      isProcessing := true;
      pending := pending + [step];
    }

    /** The oldest timer fires: processing ends and the step becomes the
        captured step plus one, whatever the step is by then. */
    method TimerFires()
      requires Valid() && |pending| > 0
      modifies this
      ensures Valid()
      ensures !isProcessing
      ensures step == old(pending[0]) + 1
      ensures pending == old(pending[1..])
    {
      var captured := pending[0];
      pending := pending[1..];
      isProcessing := false;
      step := captured + 1;
    }

    /** Create Another, on step 3. */
    method CreateAnother()
      requires Valid() && CreateAnotherShown()
      modifies this
      ensures Valid()
      ensures step == 1 && isProcessing == old(isProcessing) && pending == old(pending)
    {
      step := 1;
    }
  }

  /** The happy path: Continue, its timer, View Results, its timer, reaches
      step 3; Create Another then returns to step 1. */
  method HappyPath() returns (w: Wizard)
    ensures fresh(w) && w.Valid()
    ensures w.step == 1 && !w.isProcessing && w.pending == []
  {
    w := new Wizard();
    w.HandleProcess();
    assert w.step == 1 && w.isProcessing;
    w.TimerFires();
    assert w.step == 2 && w.ViewResultsShown();
    w.HandleProcess();
    w.TimerFires();
    assert w.step == 3 && !w.isProcessing;
    w.CreateAnother();
  }

  /** Because Continue stays clickable while processing and each timer
      keeps the step it captured, a timer started on step 2 can fire after
      Create Another and move the wizard from step 1 straight to step 3. */
  method StaleTimerSkipsStep() returns (w: Wizard)
    ensures fresh(w) && w.Valid()
    ensures w.step == 3 && w.pending == []
  {
    w := new Wizard();
    w.HandleProcess();
    w.HandleProcess();
    w.TimerFires();
    w.HandleProcess();
    w.TimerFires();
    assert w.step == 2 && w.ViewResultsShown();
    w.HandleProcess();
    w.TimerFires();
    assert w.step == 3 && w.pending == [2];
    w.CreateAnother();
    assert w.step == 1;
    w.TimerFires();
  }
}

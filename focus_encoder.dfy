/**
 * The focus-rail variant's encoder: one interrupt handler for the A, B
 * and switch pins turns edges into events, with a 5 ms debounce shared
 * by all three pins, and posts them to a queue of ten; the encoder task
 * hands queued events to the menu in order.
 */
module FocusEncoder {
  import opened CArith
  import opened FocusMenu

  /** GPIO numbers of the encoder lines. */
  const PinA: int := 18
  const PinB: int := 19
  const PinSwitch: int := 21

  /** Capacity of the event queue. */
  const QueueCapacity: int := 10
  /** Milliseconds within which a further interrupt is dropped. */
  const DebounceMs: int := 5

  /**
   * The event an accepted interrupt from `gpio` posts, given the levels
   * read from the lines: a switch line at 0 is a press; an A edge is a
   * step, clockwise when A and B differ; anything else posts nothing.
   */
  function EventFor(gpio: int, levelA: int, levelB: int, levelSwitch: int): (e: Option<EncoderEvent>)
    ensures e.Some? ==> gpio in {PinA, PinSwitch}
  {
    if gpio == PinSwitch then
      (if levelSwitch == 0 then Some(EncoderEvent(0, true)) else None)
    else if gpio == PinA then
      Some(EncoderEvent(if levelA != levelB then 1 else -1, false))
    else None
  }

  /** A queue send from an interrupt: a full queue drops the event. */
  function Posted(q: seq<EncoderEvent>, e: Option<EncoderEvent>): (r: seq<EncoderEvent>)
    ensures |q| <= QueueCapacity ==> |r| <= QueueCapacity
    ensures e.Some? && |q| < QueueCapacity ==> r == q + [e.value]
    ensures e.None? || |q| >= QueueCapacity ==> r == q
  {
    if e.Some? && |q| < QueueCapacity then q + [e.value] else q
  }

  /** No event carries both a rotation and a press; every rotation is one step either way. */
  lemma EventsAreSingle(gpio: int, levelA: int, levelB: int, levelSwitch: int)
    ensures var e := EventFor(gpio, levelA, levelB, levelSwitch);
      e.Some? ==> (e.value.buttonPressed <==> e.value.direction == 0) && e.value.direction in {-1, 0, 1}
  {
  }

  /** The switch posts a press exactly when its line reads 0; B edges never post. */
  lemma SwitchAndBRules(levelA: int, levelB: int, levelSwitch: int)
    ensures EventFor(PinSwitch, levelA, levelB, levelSwitch) ==
      (if levelSwitch == 0 then Some(EncoderEvent(0, true)) else None)
    ensures EventFor(PinB, levelA, levelB, levelSwitch) == None
    ensures EventFor(PinA, levelA, levelB, levelSwitch) ==
      Some(EncoderEvent(if levelA != levelB then 1 else -1, false))
  {
  }

  /** Posting keeps the events already queued, in order, at the front. */
  lemma PostedKeepsOrder(q: seq<EncoderEvent>, e: Option<EncoderEvent>)
    ensures var r := Posted(q, e); |r| >= |q| && r[..|q|] == q
  {
  }

  /** The interrupt side and the task side of the encoder. */
  class Encoder {
    var lastInterruptTime: U32
    var queue: seq<EncoderEvent>

    ghost predicate Valid()
      reads this
    {
      |queue| <= QueueCapacity
    }

    /** encoder_init's queue, empty, and the handler's static time at 0. */
    constructor ()
      ensures Valid() && queue == [] && lastInterruptTime == 0
    {
      lastInterruptTime := 0;
      queue := [];
    }

    /**
     * encoder_isr_handler for an interrupt from `gpio` at `nowMs`, with the
     * three lines reading `levelA`, `levelB` and `levelSwitch`.
     */
    method IsrHandler(nowMs: U32, gpio: int, levelA: int, levelB: int, levelSwitch: int)
      requires Valid()
      modifies this`lastInterruptTime, this`queue
      ensures Valid()
      ensures Elapsed(nowMs, old(lastInterruptTime)) < DebounceMs ==>
        lastInterruptTime == old(lastInterruptTime) && queue == old(queue)
      ensures Elapsed(nowMs, old(lastInterruptTime)) >= DebounceMs ==>
        lastInterruptTime == nowMs && queue == Posted(old(queue), EventFor(gpio, levelA, levelB, levelSwitch))
    {
      if Elapsed(nowMs, lastInterruptTime) < DebounceMs {
        return;
      }
      lastInterruptTime := nowMs;
      var event := EncoderEvent(0, false);
      if gpio == PinSwitch {
        if levelSwitch == 0 {
          event := event.(buttonPressed := true);
          Send(event);
        }
      } else if gpio == PinA {
        if levelA != levelB {
          event := event.(direction := 1);
        } else {
          event := event.(direction := -1);
        }
        Send(event);
      }
    }

    /** xQueueSendFromISR: appended when there is room, dropped otherwise. */
    method Send(e: EncoderEvent)
      requires Valid()
      modifies this`queue
      ensures Valid()
      ensures queue == Posted(old(queue), Some(e))
    {
      if |queue| < QueueCapacity {
        queue := queue + [e];
      }
    }

    /**
     * encoder_task, run until the queue is empty: each event is received
     * in turn and handed to the menu.
     */
    method Drain(menu: Menu)
      requires Valid() && menu.Valid()
      modifies this`queue, menu
      ensures Valid() && menu.Valid() && queue == []
      ensures menu.State() == AfterInputs(old(menu.State()), old(queue))
    {
      ghost var pending := queue;
      ghost var start := menu.State();
      ghost var done := 0;
      while queue != []
        invariant Valid() && menu.Valid()
        invariant 0 <= done <= |pending| && queue == pending[done..]
        invariant AfterInputs(start, pending) == AfterInputs(menu.State(), queue)
        decreases |queue|
      {
        var event := queue[0];
        queue := queue[1..];
        menu.HandleInput(Some(event));
        done := done + 1;
      }
    }
  }
}

/** The order channel is first in, first out: in every schedule, orders start in the sequence they were sent in,
  retries from the place they came back to. */
module QueueOrder {
  import opened Runs
  import opened OrderPipeline

  /** What a step sends into the queue: a new order, or a failed one with one more retry. */
  function SentBy(s: State, step: Step): seq<Order>
  {
    match step
    case Submit(id, amount) => [Order(id, amount, 0)]
    case Requeue(t) => if t in s.tasks then [s.tasks[t].order.(retries := s.tasks[t].order.retries + 1)] else []
    case _ => []
  }

  /** The order a step starts a task for. */
  function StartedBy(s: State, r: State, step: Step): seq<Order>
  {
    if step == Take && s.nextTask in r.tasks then [r.tasks[s.nextTask].order] else []
  }

  function AllSent(cfg: Config, s: State, steps: seq<Step>): seq<Order>
    decreases steps
  {
    if steps == [] then [] else SentBy(s, steps[0]) + AllSent(cfg, Apply(cfg, s, steps[0]), steps[1..])
  }

  function AllStarted(cfg: Config, s: State, steps: seq<Step>): seq<Order>
    decreases steps
  {
    if steps == [] then [] else
      var r := Apply(cfg, s, steps[0]);
      StartedBy(s, r, steps[0]) + AllStarted(cfg, r, steps[1..])
  }

  lemma QueueStep(cfg: Config, s: State, step: Step)
    requires Enabled(cfg, s, step)
    ensures s.queue + SentBy(s, step) == StartedBy(s, Apply(cfg, s, step), step) + Apply(cfg, s, step).queue
  {
  }

  /** What waited at first, and what was sent since, is what was started, in the same sequence, and what still waits. */
  lemma {:induction false} FirstInFirstOut(cfg: Config, s: State, steps: seq<Step>)
    requires Valid(Schedules(cfg), s, steps)
    ensures s.queue + AllSent(cfg, s, steps) == AllStarted(cfg, s, steps) + Final(Schedules(cfg), s, steps).queue
    decreases steps
  {
    if steps == [] {
    } else {
      var m, l := Schedules(cfg), steps[0];
      assert m.enabled(s, l) && m.apply(s, l) == Apply(cfg, s, l);
      var r := Apply(cfg, s, l);
      QueueStep(cfg, s, l);
      FirstInFirstOut(cfg, r, steps[1..]);
      Regrouped(s.queue, SentBy(s, l), AllSent(cfg, r, steps[1..]), StartedBy(s, r, l), r.queue,
                AllStarted(cfg, r, steps[1..]), Final(m, s, steps).queue);
    }
  }

  lemma Regrouped(q: seq<Order>, sent: seq<Order>, moreSent: seq<Order>, started: seq<Order>, left: seq<Order>,
                  moreStarted: seq<Order>, end: seq<Order>)
    requires q + sent == started + left && left + moreSent == moreStarted + end
    ensures q + (sent + moreSent) == (started + moreStarted) + end
  {
    assert q + (sent + moreSent) == (q + sent) + moreSent;
    assert (started + left) + moreSent == started + (left + moreSent);
    assert started + (moreStarted + end) == (started + moreStarted) + end;
  }
}

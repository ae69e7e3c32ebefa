/** The rate limiter built by `rateFactory` in mod.ts. Its window is fixed,
    not sliding: it opens at the first call after the previous window ran
    out and lasts `per` milliseconds.

    `limit(func)` is modelled as the pure step `Limit`: the clock reading
    `Date.now()` becomes the parameter `now`, and `setTimeout(limit, d)`
    becomes a `Deferred(d)` outcome together with one more pending recheck in
    the state. A recheck firing is a call that carries no action. */
module Limiter {
  import opened Js

  /** `rateFactory({ to, per })`: at most `to` dispatches per window of `per`
      milliseconds. */
  datatype Config = Config(to: int, per: int)

  /** The defaults of `rateFactory()`: three sends per thirty seconds. */
  const Defaults := Config(3, 30 * 1000)

  /** The closure state of one limiter: the FIFO `queue` of waiting actions,
      the window start `time`, the dispatch attempts `count` in the current
      window, and `pending`, the number of rechecks scheduled but not yet fired. */
  datatype State<A> = State(queue: seq<A>, time: int, count: int, pending: nat)

  /** A fresh limiter: empty queue, window start 0, count 0, no timers. */
  function Init<A>(): State<A> {
    State([], 0, 0, 0)
  }

  /** What one call of `limit` does after updating the counters: run the
      oldest queued action, schedule a recheck after `delay` milliseconds, or
      throw because `queue.shift()` gave `undefined` and calling it is a
      `TypeError`. */
  datatype Outcome<A> = Ran(action: A) | Deferred(delay: int) | Threw

  datatype Step<A> = Step(next: State<A>, outcome: Outcome<A>)

  /** The window that started at `s.time` has run out at `now`. */
  predicate Elapsed<A>(cfg: Config, s: State<A>, now: int) {
    cfg.per - (now - s.time) <= 0
  }

  /** The queue after the optional push of `func`. */
  function Pushed<A>(s: State<A>, func: Option<A>): seq<A> {
    match func
    case Some(f) => s.queue + [f]
    case None => s.queue
  }

  /** One call `limit(func)` at instant `now`. */
  function Limit<A>(cfg: Config, s: State<A>, now: int, func: Option<A>): (r: Step<A>)
    // the window restarts at `now` exactly when it has run out
    ensures Elapsed(cfg, s, now) ==> r.next.time == now
    ensures !Elapsed(cfg, s, now) ==> r.next.time == s.time
    // every call counts one attempt, deferred ones included
    ensures r.next.count == (if Elapsed(cfg, s, now) then 0 else s.count) + 1
    // within the budget the head of the queue runs, FIFO
    ensures r.outcome.Ran? <==> r.next.count <= cfg.to && Pushed(s, func) != []
    ensures r.outcome.Ran? ==> [r.outcome.action] + r.next.queue == Pushed(s, func)
    // over the budget the queue is kept and one recheck is scheduled
    ensures r.outcome.Deferred? <==> r.next.count > cfg.to
    ensures r.outcome.Deferred? ==> r.next.queue == Pushed(s, func) && r.next.pending == s.pending + 1
    ensures r.outcome.Deferred? ==> r.outcome.delay == cfg.per - (now - s.time)
    // with a budget of at least one, the recheck is due exactly when the
    // current window ends, which lies strictly in the future
    ensures r.outcome.Deferred? && cfg.to >= 1 ==>
              r.next.time == s.time && r.outcome.delay > 0 && now + r.outcome.delay == s.time + cfg.per
    ensures !r.outcome.Deferred? ==> r.next.pending == s.pending
    ensures r.outcome.Threw? ==> r.next.queue == [] && Pushed(s, func) == []
  {
    var queue := if func.Some? then s.queue + [func.value] else s.queue;
    var difference := cfg.per - (now - s.time);
    var time := if difference <= 0 then now else s.time;
    var count := (if difference <= 0 then 0 else s.count) + 1;
    if count <= cfg.to then
      if |queue| == 0 then Step(State(queue, time, count, s.pending), Threw)
      else Step(State(queue[1..], time, count, s.pending), Ran(queue[0]))
    else
      Step(State(queue, time, count, s.pending + 1), Deferred(difference))
  }

  /** What can happen to a limiter: `send` hands it an action at instant `at`,
      or one of its scheduled rechecks fires at instant `at`. */
  datatype Input<A> = Submit(action: A, at: int) | Fire(at: int)

  /** A recheck can only fire while one is scheduled. */
  predicate CanHappen<A>(s: State<A>, inp: Input<A>) {
    inp.Submit? || s.pending > 0
  }

  /** One input: a submission calls `limit(action)`, a firing recheck consumes
      its timer and calls `limit()` with no action. */
  function Apply<A>(cfg: Config, s: State<A>, inp: Input<A>): Step<A>
    requires CanHappen(s, inp)
  {
    match inp
    case Submit(a, at) => Limit(cfg, s, at, Some(a))
    case Fire(at) => Limit(cfg, s.(pending := s.pending - 1), at, None)
  }

  datatype History<A> = History(final: State<A>, outcomes: seq<Outcome<A>>)

  /** Feeds a sequence of inputs to the limiter. A `Fire` while no recheck is
      scheduled stands for a timer that does not exist; it is skipped. */
  function Run<A>(cfg: Config, s: State<A>, inputs: seq<Input<A>>): History<A>
    decreases |inputs|
  {
    if |inputs| == 0 then History(s, [])
    else if !CanHappen(s, inputs[0]) then Run(cfg, s, inputs[1..])
    else
      var st := Apply(cfg, s, inputs[0]);
      var t := Run(cfg, st.next, inputs[1..]);
      History(t.final, [st.outcome] + t.outcomes)
  }

  /** The actions that ran, in the order they ran. */
  function RanActions<A>(outcomes: seq<Outcome<A>>): seq<A>
    decreases |outcomes|
  {
    if |outcomes| == 0 then []
    else RanOne(outcomes[0]) + RanActions(outcomes[1..])
  }

  /** The actions handed to the limiter, in the order they were handed over. */
  function Submitted<A>(inputs: seq<Input<A>>): seq<A>
    decreases |inputs|
  {
    if |inputs| == 0 then []
    else SubmittedOne(inputs[0]) + Submitted(inputs[1..])
  }

  /** Every waiting action has exactly one recheck scheduled for it. */
  predicate Inv<A>(s: State<A>) {
    |s.queue| == s.pending
  }

  /** One step keeps the queue length equal to the number of scheduled
      rechecks, and from such a state `queue.shift()` never meets an empty
      queue. */
  lemma StepKeepsInv<A>(cfg: Config, s: State<A>, inp: Input<A>)
    requires Inv(s) && CanHappen(s, inp)
    ensures Inv(Apply(cfg, s, inp).next)
    ensures !Apply(cfg, s, inp).outcome.Threw?
  {
  }

  /** Along any run from a state whose queue matches its timers, the match is
      kept and no call ever throws, so no action is lost to a failed shift. */
  lemma {:induction false} RunKeepsInv<A>(cfg: Config, s: State<A>, inputs: seq<Input<A>>)
    requires Inv(s)
    ensures Inv(Run(cfg, s, inputs).final)
    ensures forall i :: 0 <= i < |Run(cfg, s, inputs).outcomes| ==> !Run(cfg, s, inputs).outcomes[i].Threw?
    decreases |inputs|
  {
    if |inputs| == 0 {
    } else if !CanHappen(s, inputs[0]) {
      RunKeepsInv(cfg, s, inputs[1..]);
    } else {
      StepKeepsInv(cfg, s, inputs[0]);
      RunKeepsInv(cfg, Apply(cfg, s, inputs[0]).next, inputs[1..]);
    }
  }

  /** The action a step ran, if any. */
  function RanOne<A>(o: Outcome<A>): seq<A> {
    if o.Ran? then [o.action] else []
  }

  /** The action an input submits, if any. */
  function SubmittedOne<A>(inp: Input<A>): seq<A> {
    if inp.Submit? then [inp.action] else []
  }

  lemma RanActionsCons<A>(o: Outcome<A>, rest: seq<Outcome<A>>)
    ensures RanActions([o] + rest) == RanOne(o) + RanActions(rest)
  {
    assert ([o] + rest)[1..] == rest;
  }

  /** One step neither loses nor reorders actions: the action it ran, then
      the queue it leaves, is the queue it found plus the action submitted. */
  lemma StepIsFifo<A>(cfg: Config, s: State<A>, inp: Input<A>)
    requires CanHappen(s, inp)
    ensures RanOne(Apply(cfg, s, inp).outcome) + Apply(cfg, s, inp).next.queue
            == s.queue + SubmittedOne(inp)
  {
  }

  /** FIFO without loss: the actions that ran, followed by those still
      waiting, are exactly the actions that were waiting at the start followed
      by those submitted, in the same order. */
  lemma {:induction false} RunIsFifo<A>(cfg: Config, s: State<A>, inputs: seq<Input<A>>)
    ensures RanActions(Run(cfg, s, inputs).outcomes) + Run(cfg, s, inputs).final.queue
            == s.queue + Submitted(inputs)
    decreases |inputs|
  {
    if |inputs| == 0 {
    } else if !CanHappen(s, inputs[0]) {
      RunIsFifo(cfg, s, inputs[1..]);
      assert Run(cfg, s, inputs) == Run(cfg, s, inputs[1..]);
      assert Submitted(inputs) == Submitted(inputs[1..]);
    } else {
      var st := Apply(cfg, s, inputs[0]);
      var t := Run(cfg, st.next, inputs[1..]);
      RunIsFifo(cfg, st.next, inputs[1..]);
      StepIsFifo(cfg, s, inputs[0]);
      RanActionsCons(st.outcome, t.outcomes);
      assert Run(cfg, s, inputs) == History(t.final, [st.outcome] + t.outcomes);
      assert Submitted(inputs) == SubmittedOne(inputs[0]) + Submitted(inputs[1..]);
      ConcatShuffle(RanOne(st.outcome), RanActions(t.outcomes), t.final.queue, st.next.queue,
                    s.queue, SubmittedOne(inputs[0]), Submitted(inputs[1..]));
    }
  }

  /** The sequence algebra behind one step of `RunIsFifo`. */
  lemma ConcatShuffle<A>(ran: seq<A>, later: seq<A>, final: seq<A>, mid: seq<A>,
                         start: seq<A>, sub: seq<A>, laterSub: seq<A>)
    requires later + final == mid + laterSub
    requires ran + mid == start + sub
    ensures (ran + later) + final == start + (sub + laterSub)
  {
    calc {
      (ran + later) + final;
      ran + (later + final);
      ran + (mid + laterSub);
      (ran + mid) + laterSub;
      (start + sub) + laterSub;
      start + (sub + laterSub);
    }
  }

  /** No call along the run restarts the window. */
  predicate NoReset<A>(cfg: Config, s: State<A>, inputs: seq<Input<A>>)
    decreases |inputs|
  {
    if |inputs| == 0 then true
    else if !CanHappen(s, inputs[0]) then NoReset(cfg, s, inputs[1..])
    else !Elapsed(cfg, s, inputs[0].at) && NoReset(cfg, Apply(cfg, s, inputs[0]).next, inputs[1..])
  }

  function Max(a: int, b: int): int {
    if a < b then b else a
  }

  /** Inside one window, at most `to - count` more actions run. */
  lemma {:induction false} RunsWithinWindow<A>(cfg: Config, s: State<A>, inputs: seq<Input<A>>)
    requires NoReset(cfg, s, inputs)
    ensures |RanActions(Run(cfg, s, inputs).outcomes)| <= Max(0, cfg.to - s.count)
    decreases |inputs|
  {
    if |inputs| == 0 {
    } else if !CanHappen(s, inputs[0]) {
      RunsWithinWindow(cfg, s, inputs[1..]);
    } else {
      var st := Apply(cfg, s, inputs[0]);
      var t := Run(cfg, st.next, inputs[1..]);
      RunsWithinWindow(cfg, st.next, inputs[1..]);
      RanActionsCons(st.outcome, t.outcomes);
    }
  }

  /** Between two window restarts at most `to` actions run: a run whose first
      call restarts the window and whose later calls do not dispatches at most
      `to` actions. */
  lemma WindowBound<A>(cfg: Config, s: State<A>, inputs: seq<Input<A>>)
    requires |inputs| >= 1 && CanHappen(s, inputs[0]) && Elapsed(cfg, s, inputs[0].at)
    requires NoReset(cfg, Apply(cfg, s, inputs[0]).next, inputs[1..])
    ensures |RanActions(Run(cfg, s, inputs).outcomes)| <= Max(0, cfg.to)
  {
    var st := Apply(cfg, s, inputs[0]);
    var t := Run(cfg, st.next, inputs[1..]);
    RunsWithinWindow(cfg, st.next, inputs[1..]);
    RanActionsCons(st.outcome, t.outcomes);
  }

  /** The call that opens a window runs an action at that instant: the
      count restarts at one, within any positive budget, and the queue is not
      empty. The next window cannot open before `per` milliseconds have
      passed, so across a window boundary at most `to - 1` actions of the old
      window and `to` of the new one run close together. */
  lemma OpeningCallRuns<A>(cfg: Config, s: State<A>, inp: Input<A>)
    requires Inv(s) && CanHappen(s, inp) && Elapsed(cfg, s, inp.at) && cfg.to >= 1
    ensures var st := Apply(cfg, s, inp);
            st.outcome.Ran? && st.next.time == inp.at && st.next.count == 1
  {
  }

  /** The limiter `send` uses is built with the defaults, so at most three
      actions run in one thirty-second window. */
  lemma DefaultWindowBound<A>(s: State<A>, inputs: seq<Input<A>>)
    requires |inputs| >= 1 && CanHappen(s, inputs[0]) && Elapsed(Defaults, s, inputs[0].at)
    requires NoReset(Defaults, Apply(Defaults, s, inputs[0]).next, inputs[1..])
    ensures |RanActions(Run(Defaults, s, inputs).outcomes)| <= 3
  {
    WindowBound(Defaults, s, inputs);
  }

  /** Deferred, not dropped: when a recheck scheduled by a deferred call fires
      at its due instant, with nothing in between, the window has run out and
      the oldest waiting action runs. */
  lemma DeferredRecheckRuns<A>(cfg: Config, s: State<A>, inp: Input<A>)
    requires Inv(s) && cfg.to >= 1 && CanHappen(s, inp)
    requires Apply(cfg, s, inp).outcome.Deferred?
    ensures var st := Apply(cfg, s, inp);
            var due := inp.at + st.outcome.delay;
            Apply(cfg, st.next, Fire(due)).outcome == Ran(st.next.queue[0])
  {
    StepKeepsInv(cfg, s, inp);
  }

  /** Five sends at one instant with a budget of three per second: three run
      at once, two are deferred to the end of the window, and the two
      rechecks then run them in submission order. */
  lemma BurstOfFive()
    ensures var inputs := [Submit(1, 5000), Submit(2, 5000), Submit(3, 5000), Submit(4, 5000),
                           Submit(5, 5000), Fire(6000), Fire(6000)];
            var t := Run(Config(3, 1000), Init<int>(), inputs);
            t.outcomes == [Ran(1), Ran(2), Ran(3), Deferred(1000), Deferred(1000), Ran(4), Ran(5)]
            && t.final == State([], 6000, 2, 0)
  {
    var cfg := Config(3, 1000);
    var s0 := Init<int>();
    var s1 := State([], 5000, 1, 0);
    var s2 := State([], 5000, 2, 0);
    var s3 := State([], 5000, 3, 0);
    var s4 := State([4], 5000, 4, 1);
    var s5 := State([4, 5], 5000, 5, 2);
    var s6 := State([5], 6000, 1, 1);
    var s7 := State([], 6000, 2, 0);
    var t7: History<int> := History(s7, []);
    var t6 := History(s7, [Ran(5)]);
    var t5 := History(s7, [Ran(4), Ran(5)]);
    var t4 := History(s7, [Deferred(1000), Ran(4), Ran(5)]);
    var t3 := History(s7, [Deferred(1000), Deferred(1000), Ran(4), Ran(5)]);
    var t2 := History(s7, [Ran(3), Deferred(1000), Deferred(1000), Ran(4), Ran(5)]);
    var t1 := History(s7, [Ran(2), Ran(3), Deferred(1000), Deferred(1000), Ran(4), Ran(5)]);
    RunStep(cfg, s6, Fire(6000), [], s7, Ran(5), t7);
    RunStep(cfg, s5, Fire(6000), [Fire(6000)], s6, Ran(4), t6);
    RunStep(cfg, s4, Submit(5, 5000), [Fire(6000), Fire(6000)], s5, Deferred(1000), t5);
    RunStep(cfg, s3, Submit(4, 5000), [Submit(5, 5000), Fire(6000), Fire(6000)], s4, Deferred(1000), t4);
    RunStep(cfg, s2, Submit(3, 5000), [Submit(4, 5000), Submit(5, 5000), Fire(6000), Fire(6000)], s3, Ran(3), t3);
    RunStep(cfg, s1, Submit(2, 5000), [Submit(3, 5000), Submit(4, 5000), Submit(5, 5000), Fire(6000), Fire(6000)],
            s2, Ran(2), t2);
    RunStep(cfg, s0, Submit(1, 5000),
            [Submit(2, 5000), Submit(3, 5000), Submit(4, 5000), Submit(5, 5000), Fire(6000), Fire(6000)],
            s1, Ran(1), t1);
  }

  /** One effective step at the head of a run, unfolded. */
  lemma RunStep<A>(cfg: Config, s: State<A>, inp: Input<A>, rest: seq<Input<A>>,
                   next: State<A>, o: Outcome<A>, t: History<A>)
    requires CanHappen(s, inp) && Apply(cfg, s, inp) == Step(next, o) && Run(cfg, next, rest) == t
    ensures Run(cfg, s, [inp] + rest) == History(t.final, [o] + t.outcomes)
  {
    assert ([inp] + rest)[0] == inp && ([inp] + rest)[1..] == rest;
  }
}

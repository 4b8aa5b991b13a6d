/** The mockup preview plugin's coalescing refresh.

  The event loop runs one turn at a time: a call to `refresh` up to its first await, or the resumption of
  the call whose discovery has ended.  Calls made while a discovery is under way only leave a mark; the
  resumed call then starts one more discovery on behalf of all of them. */
module PreviewRefresh {
  import opened Basics
  import opened Runs
  import opened PreviewSource

  /** The plugin's variables and the file it writes. */
  datatype Plugin = Plugin(inFlight: bool, queued: bool, currentSource: string, file: Option<string>)

  /** A call of `refresh`: mark the discovery under way, or begin one. */
  function OnCall(p: Plugin): Plugin
  {
    if p.inFlight then p.(queued := true) else p.(inFlight := true)
  }

  /** The discovery ended well: write what changed, then begin again if calls were marked. */
  function OnDiscovered(p: Plugin, source: string): Plugin
  {
    var written := if source != p.currentSource then p.(currentSource := source, file := Some(source)) else p;
    written.(inFlight := p.queued, queued := false)
  }

  /** Discovery failed: the exception leaves the mark behind. */
  function OnFailed(p: Plugin): Plugin
  {
    p.(inFlight := false)
  }

  /** The write failed after the source was remembered; the file is what the attempt left. */
  function OnWriteFailed(p: Plugin, source: string, left: Option<string>): Plugin
  {
    p.(currentSource := source, file := left, inFlight := false)
  }

  // ---- Runs ----

  /** The latest attempt to write the file. */
  datatype Attempt = NoAttempt | Wrote(source: string) | Missed(source: string, left: Option<string>)

  /** `clock` numbers the turns; `lastCall` is the turn of the latest call, `started` that of the latest discovery's
      start, `calls` how many calls came since then, `running` how many discoveries are under way, `endedWell` whether
      the last one to end did not throw, `latest` what the last successful one found; `writes` counts the writes. */
  datatype State = State(
    plugin: Plugin,
    clock: nat,
    lastCall: nat,
    started: nat,
    calls: nat,
    running: nat,
    endedWell: bool,
    latest: seq<Component>,
    lastWrite: Attempt,
    writes: nat)

  datatype Step =
    | Call
    | Discovered(components: seq<Component>)
    | DiscoveryFails
    | WriteFails(components: seq<Component>, left: Option<string>)

  function Boot(file: Option<string>): State
  {
    State(Plugin(false, false, "", file), 1, 0, 0, 0, 0, true, [], NoAttempt, 0)
  }

  predicate Enabled(render: Component -> string, s: State, step: Step)
  {
    match step
    case Call => true
    case Discovered(_) => 0 < s.running
    case DiscoveryFails => 0 < s.running
    case WriteFails(components, _) => 0 < s.running && Generate(render, components) != s.plugin.currentSource
  }

  function Apply(render: Component -> string, s: State, step: Step): State
  {
    if !Enabled(render, s, step) then s else
    var t := s.(clock := s.clock + 1);
    match step
    case Call =>
      var u := t.(plugin := OnCall(s.plugin), lastCall := s.clock);
      if s.plugin.inFlight then u.(calls := s.calls + 1)
      else u.(started := s.clock, calls := 0, running := s.running + 1)
    case Discovered(components) =>
      var source := Generate(render, components);
      var u := t.(plugin := OnDiscovered(s.plugin, source), latest := components, endedWell := true);
      var v := if source != s.plugin.currentSource then u.(lastWrite := Wrote(source), writes := s.writes + 1) else u;
      if s.plugin.queued then v.(started := s.clock, calls := 0) else v.(running := s.running - 1)
    case DiscoveryFails => t.(plugin := OnFailed(s.plugin), running := s.running - 1, endedWell := false)
    case WriteFails(components, left) =>
      var source := Generate(render, components);
      t.(plugin := OnWriteFailed(s.plugin, source, left), running := s.running - 1, endedWell := false,
         latest := components, lastWrite := Missed(source, left))
  }

  /** Calls, discoveries and failures in any order. */
  function EventLoop(render: Component -> string): Machine<State, Step>
  {
    Machine((s: State, step: Step) => Enabled(render, s, step), (s: State, step: Step) => Apply(render, s, step))
  }

  /** What the latest attempt says about remembered source and file. */
  predicate Recorded(file: Option<string>, p: Plugin, attempt: Attempt)
  {
    match attempt
    case NoAttempt => p.currentSource == "" && p.file == file
    case Wrote(source) => p.currentSource == source != "" && p.file == Some(source)
    case Missed(source, left) => p.currentSource == source != "" && p.file == left
  }

  predicate Inv(render: Component -> string, file: Option<string>, s: State)
  {
    var p := s.plugin;
    && s.running == (if p.inFlight then 1 else 0)
    && s.lastCall < s.clock && s.started < s.clock
    && (0 < s.calls <==> s.started < s.lastCall)
    && (p.inFlight && 0 < s.calls ==> p.queued)
    && (!p.inFlight && s.endedWell ==> s.calls == 0 && !p.queued)
    && Recorded(file, p, s.lastWrite)
    && (p.currentSource != "" ==> p.currentSource == Generate(render, s.latest))
    && (s.started == 0 ==> s.lastCall == 0 && !p.inFlight)
    && (!p.inFlight && s.endedWell && 0 < s.started ==> p.currentSource != "")
  }

  lemma StepKeeps(render: Component -> string, file: Option<string>, s: State, step: Step)
    requires Inv(render, file, s) && Enabled(render, s, step)
    ensures Inv(render, file, Apply(render, s, step))
  {
  }

  lemma Kept(render: Component -> string, file: Option<string>, s: State, steps: seq<Step>)
    requires Inv(render, file, s) && Valid(EventLoop(render), s, steps)
    ensures Inv(render, file, Final(EventLoop(render), s, steps))
  {
    var m := EventLoop(render);
    forall t, l | Inv(render, file, t) && m.enabled(t, l)
      ensures Inv(render, file, m.apply(t, l))
    {
      StepKeeps(render, file, t, l);
    }
    Preserved(m, (t: State) => Inv(render, file, t), s, steps);
  }

  /** No two discoveries ever overlap, whatever fails. */
  lemma OneAtATime(render: Component -> string, file: Option<string>, steps: seq<Step>)
    requires Valid(EventLoop(render), Boot(file), steps)
    ensures Final(EventLoop(render), Boot(file), steps).running <= 1
  {
    Kept(render, file, Boot(file), steps);
  }

  /** In every run, whatever failed before: whenever no refresh is in flight, a call came after the last discovery
      started exactly when that discovery threw and a call had come during it.  In particular, once a discovery ends
      well, no call is left marked and none came after its start. */
  lemma NothingLost(render: Component -> string, file: Option<string>, steps: seq<Step>)
    requires Valid(EventLoop(render), Boot(file), steps)
    requires !Final(EventLoop(render), Boot(file), steps).plugin.inFlight
    ensures var s := Final(EventLoop(render), Boot(file), steps);
            && (s.started < s.lastCall <==> !s.endedWell && 0 < s.calls)
            && (s.endedWell ==> !s.plugin.queued && s.lastCall <= s.started)
  {
    Kept(render, file, Boot(file), steps);
  }

  /** In every run, whenever no refresh is in flight and the last discovery ended well, the file is the source
      generated from what it found exactly when the latest attempt to write succeeded, or left just that; then it has
      a line for every component found, in their order. */
  lemma FileCurrent(render: Component -> string, file: Option<string>, steps: seq<Step>)
    requires Valid(EventLoop(render), Boot(file), steps)
    requires var s := Final(EventLoop(render), Boot(file), steps); !s.plugin.inFlight && s.endedWell && 0 < s.lastCall
    ensures var s := Final(EventLoop(render), Boot(file), steps);
            var source := Generate(render, s.latest);
            && (s.plugin.file == Some(source) <==> s.lastWrite == Wrote(source) || s.lastWrite == Missed(source, Some(source)))
            && (s.plugin.file == Some(source) && OneLine(render) ==> Lists(render, s.latest, Lines(s.plugin.file.value)))
  {
    Kept(render, file, Boot(file), steps);
    if OneLine(render) {
      SourceLists(render, Final(EventLoop(render), Boot(file), steps).latest);
    }
  }

  /** Between three lines and two, the components' own, with commas between them. */
  predicate Lists(render: Component -> string, components: seq<Component>, lines: seq<string>)
  {
    && |lines| == (if components == [] then 1 else |components|) + 5
    && (components == [] ==> lines[3] == "")
    && forall i | 0 <= i < |components| :: lines[3 + i] == render(components[i]) + (if i + 1 < |components| then "," else "")
  }

  lemma SourceLists(render: Component -> string, components: seq<Component>)
    requires OneLine(render)
    ensures Lists(render, components, Lines(Generate(render, components)))
  {
    SourceLines(render, components);
  }

  /** Once a source is remembered, the next discovery that ends well writes the file exactly when it found other
      components, or the same in another order. */
  lemma ChangeWritten(render: Component -> string, file: Option<string>, s: State, components: seq<Component>)
    requires Faithful(render) && Inv(render, file, s) && s.plugin.inFlight && s.plugin.currentSource != ""
    ensures var t := Apply(render, s, Discovered(components));
            && t.writes == s.writes + (if components == s.latest then 0 else 1)
            && t.plugin.file == (if components == s.latest then s.plugin.file else Some(Generate(render, components)))
  {
    SourcesDiffer(render, components, s.latest);
  }

  // ---- What failures cost ----

  /** A remark on `NothingLost`, step by step: a failure leaves calls unserved exactly when calls came during the
      discovery, and nothing but a new call goes on from there. */
  lemma FailureLosesCalls(render: Component -> string, file: Option<string>, s: State, step: Step)
    requires Inv(render, file, s) && Enabled(render, s, step) && (step.DiscoveryFails? || step.WriteFails?)
    ensures var t := Apply(render, s, step);
            && !t.plugin.inFlight && (t.started < t.lastCall <==> 0 < s.calls)
            && forall next :: Enabled(render, t, next) ==> next == Call
  {
  }

  /** From any state whose latest write failed: as long as discoveries find the same source, the file stays as the
      failure left it, however often they end well. */
  lemma {:induction false} FailedWriteSticks(render: Component -> string, file: Option<string>, s: State, steps: seq<Step>)
    requires Inv(render, file, s) && s.lastWrite.Missed? && Valid(EventLoop(render), s, steps)
    requires forall l | l in steps :: l.Discovered? || l.WriteFails? ==> Generate(render, l.components) == s.plugin.currentSource
    ensures var t := Final(EventLoop(render), s, steps);
            t.plugin.file == s.lastWrite.left && t.lastWrite == s.lastWrite && t.plugin.currentSource == s.plugin.currentSource
    decreases steps
  {
    if steps == [] {
    } else {
      var l := steps[0];
      assert l in steps && forall x | x in steps[1..] :: x in steps;
      StepKeeps(render, file, s, l);
      FailedWriteSticks(render, file, Apply(render, s, l), steps[1..]);
    }
  }

  // ---- The function itself ----

  datatype Outcome = Found(components: seq<Component>) | Unreadable | Unwritable(components: seq<Component>, left: Option<string>)

  /** What one discovery meets: so many calls while it is under way, and its outcome. */
  datatype Turn = Turn(calls: nat, outcome: Outcome)

  datatype Reply = Returned(changed: bool) | Thrown

  /** The turns suffice even if nothing fails: the chain of discoveries ends with one nobody called during. */
  predicate Ends(queued: bool, turns: seq<Turn>)
  {
    turns != [] && ((!queued && turns[0].calls == 0) || Ends(false, turns[1..]))
  }

  /** The step in which a discovery ends: nothing is written, so nothing can fail to be, when the source is the same. */
  function Ending(render: Component -> string, current: string, outcome: Outcome): Step
  {
    match outcome
    case Found(components) => Discovered(components)
    case Unreadable => DiscoveryFails
    case Unwritable(components, left) =>
      if Generate(render, components) == current then Discovered(components) else WriteFails(components, left)
  }

  lemma EndingStep(render: Component -> string, file: Option<string>, s: State, outcome: Outcome)
    requires Inv(render, file, s) && s.plugin.inFlight
    ensures var step := Ending(render, s.plugin.currentSource, outcome);
            var t := Apply(render, s, step);
            && Enabled(render, s, step) && Inv(render, file, t) && t.endedWell == step.Discovered?
            && t.writes == s.writes + (if step.Discovered? && Generate(render, step.components) != s.plugin.currentSource then 1 else 0)
  {
    StepKeeps(render, file, s, Ending(render, s.plugin.currentSource, outcome));
  }

  class PreviewPlugin {
    const render: Component -> string
    const initial: Option<string>
    var inFlight: bool
    var queued: bool
    var currentSource: string
    var file: Option<string>

    constructor (render: Component -> string, file: Option<string>)
      ensures this.render == render && initial == file && Shows(Boot(file))
    {
      this.render := render;
      initial := file;
      inFlight, queued, currentSource := false, false, "";
      this.file := file;
    }

    /** The fields are the state's, and the state is one a run can reach. */
    ghost predicate Shows(s: State)
      reads this
    {
      s.plugin == Value() && Inv(render, initial, s)
    }

    /** `refresh`, from its call until it settles.  A call during a discovery returns false at once.  Otherwise it
        settles with the plugin idle: it throws exactly when its last discovery did, and else returns whether the file
        was written since the call, by it or by the discoveries it went on with.  When nobody calls meanwhile and
        nothing fails, that is whether the source found differs from the one remembered, and then the file holds it. */
    method Refresh(turns: seq<Turn>, ghost s: State) returns (reply: Reply, ghost steps: seq<Step>)
      requires Shows(s) && (!inFlight ==> Ends(queued, turns))
      modifies this
      ensures Valid(EventLoop(render), s, steps) && Shows(Final(EventLoop(render), s, steps))
      ensures old(inFlight) ==> reply == Returned(false) && steps == [Call]
      ensures !old(inFlight) ==> Settled(reply, s, Final(EventLoop(render), s, steps))
      ensures !old(inFlight) && !old(queued) && turns[0].calls == 0 && turns[0].outcome.Found? ==>
                var source := Generate(render, turns[0].outcome.components);
                && reply == Returned(source != old(currentSource)) && currentSource == source && !queued
                && file == (if source == old(currentSource) then old(file) else Some(source))
    {
      steps := Advance(EventLoop(render), s, [], Call);
      StepKeeps(render, initial, s, Call);
      if inFlight {
        queued := true;
        return Returned(false), steps;
      }
      inFlight := true;
      ghost var more;
      reply, more := Discover(turns, Final(EventLoop(render), s, steps));
      Concat(EventLoop(render), s, steps, more);
      steps := steps + more;
    }

    static ghost predicate Settled(reply: Reply, s: State, t: State)
    {
      && !t.plugin.inFlight && (reply.Thrown? <==> !t.endedWell)
      && s.writes <= t.writes && (reply.Returned? ==> (reply.changed <==> s.writes < t.writes))
    }

    /** The discovery just begun, and those begun on behalf of calls that came meanwhile. */
    method Discover(turns: seq<Turn>, ghost s: State) returns (reply: Reply, ghost steps: seq<Step>)
      requires inFlight && Shows(s) && Ends(queued, turns)
      modifies this
      ensures Valid(EventLoop(render), s, steps) && Shows(Final(EventLoop(render), s, steps))
      ensures Settled(reply, s, Final(EventLoop(render), s, steps))
      ensures !old(queued) && turns[0].calls == 0 && turns[0].outcome.Found? ==>
                var source := Generate(render, turns[0].outcome.components);
                && reply == Returned(source != old(currentSource)) && currentSource == source && !queued
                && file == (if source == old(currentSource) then old(file) else Some(source))
      decreases turns, 3
    {
      steps := LetCallsCome(turns[0].calls, s);
      ghost var more;
      reply, more := Settle(turns, Final(EventLoop(render), s, steps));
      Concat(EventLoop(render), s, steps, more);
      steps := steps + more;
    }

    /** The discovery resolves; whoever called meanwhile is served by another. */
    method Settle(turns: seq<Turn>, ghost s: State) returns (reply: Reply, ghost steps: seq<Step>)
      requires inFlight && Shows(s) && turns != [] && (queued ==> Ends(false, turns[1..]))
      modifies this
      ensures Valid(EventLoop(render), s, steps) && Shows(Final(EventLoop(render), s, steps))
      ensures Settled(reply, s, Final(EventLoop(render), s, steps))
      ensures !old(queued) && turns[0].outcome.Found? ==>
                var source := Generate(render, turns[0].outcome.components);
                && reply == Returned(source != old(currentSource)) && currentSource == source && !queued
                && file == (if source == old(currentSource) then old(file) else Some(source))
      decreases turns, 2
    {
      EndingStep(render, initial, s, turns[0].outcome);
      steps := Advance(EventLoop(render), s, [], Ending(render, currentSource, turns[0].outcome));
      ghost var t := Final(EventLoop(render), s, steps);
      var thrown, changed := Conclude(turns[0].outcome);
      if thrown {
        return Thrown, steps;
      }
      reply := Returned(changed);
      if queued {
        ghost var more;
        reply, more := GoOn(changed, turns[1..], t);
        Concat(EventLoop(render), s, steps, more);
        steps := steps + more;
      }
    }

    /** Calls were marked: clear the mark, refresh once more, and answer for both. */
    method GoOn(changed: bool, turns: seq<Turn>, ghost s: State) returns (reply: Reply, ghost steps: seq<Step>)
      requires queued && s.plugin == Value().(inFlight := true, queued := false) && Inv(render, initial, s) && Ends(false, turns)
      modifies this
      ensures Valid(EventLoop(render), s, steps) && Shows(Final(EventLoop(render), s, steps))
      ensures var t := Final(EventLoop(render), s, steps);
              && !t.plugin.inFlight && (reply.Thrown? <==> !t.endedWell)
              && s.writes <= t.writes && (reply.Returned? ==> (reply.changed <==> changed || s.writes < t.writes))
      decreases turns, 4
    {
      queued := false;
      inFlight := true;
      var followUp;
      followUp, steps := Discover(turns, s);
      reply := if followUp.Thrown? then Thrown else Returned(changed || followUp.changed);
    }

    function Value(): Plugin
      reads this
    {
      Plugin(inFlight, queued, currentSource, file)
    }

    /** The guarded part: the mark is untouched, and no refresh is in flight afterwards whether it threw or not. */
    method Conclude(outcome: Outcome) returns (thrown: bool, changed: bool)
      requires inFlight
      modifies this
      ensures queued == old(queued) && !inFlight
      ensures var step := Ending(render, old(currentSource), outcome);
              && thrown == !step.Discovered?
              && changed == (step.Discovered? && Generate(render, step.components) != old(currentSource))
              && Value() == (match step
                             case Discovered(c) => OnDiscovered(old(Value()), Generate(render, c)).(inFlight := false, queued := old(queued))
                             case WriteFails(c, left) => OnWriteFailed(old(Value()), Generate(render, c), left)
                             case _ => OnFailed(old(Value())))
    {
      thrown, changed := false, false;
      if outcome == Unreadable {
        thrown := true;
      } else {
        var newSource := Generate(render, outcome.components);
        if newSource != currentSource {
          currentSource := newSource;
          if outcome.Unwritable? {
            file := outcome.left;
            thrown := true;
          } else {
            file := Some(currentSource);
            changed := true;
          }
        }
      }
      inFlight := false;
    }

    /** Calls while a discovery is under way only leave the mark. */
    method LetCallsCome(n: nat, ghost s: State) returns (ghost steps: seq<Step>)
      requires inFlight && Shows(s)
      modifies this`queued
      ensures Valid(EventLoop(render), s, steps) && Shows(Final(EventLoop(render), s, steps))
      ensures queued == (old(queued) || 0 < n) && Final(EventLoop(render), s, steps).writes == s.writes
    {
      steps := [];
      for i := 0 to n
        invariant Valid(EventLoop(render), s, steps) && Shows(Final(EventLoop(render), s, steps))
        invariant queued == (old(queued) || 0 < i) && Final(EventLoop(render), s, steps).writes == s.writes
      {
        steps := Advance(EventLoop(render), s, steps, Call);
        Kept(render, initial, s, steps);
        queued := true;
      }
    }
  }
}

/** Whole runs: calls of the core one after another, with restarts between. */
module Runs {
  import opened Wrappers
  import opened Orders
  import opened Vocab
  import opened History
  import opened Protocol

  /** The records a restart restores: those filed under their own key. */
  function Filed(disk: map<DeviceId, PeerRecord>): map<DeviceId, PeerRecord> {
    map id | id in disk && disk[id].key == Some(id) :: disk[id]
  }

  /** The store after carrying out every `Persist` of a log. */
  function Replay(store: map<DeviceId, PeerRecord>, log: seq<Entry>): map<DeviceId, PeerRecord> {
    if log == [] then store else
      var disk := Replay(store, log[..|log| - 1]);
      match log[|log| - 1].action
      case Persist(id, v) => if v.None? then disk - {id} else disk[id := v.value]
      case _ => disk
  }

  lemma {:induction false} ReplayIsShown(env: Env, log: seq<Entry>)
    ensures Replay(env.store, log) == Observe(env, log).trust.disk
  {
    if log != [] { ReplayIsShown(env, log[..|log| - 1]); }
  }

  datatype Input = Call(now: Now, ev: Event) | Restart

  /** A new core over what a log left in the store; the log runs on, and so does
      the count of plugin calls, so plugins answer anew. */
  function Rebuilt(env: Env, log: seq<Entry>, calls: nat): State {
    var core := Build(env.(store := Replay(env.store, log)));
    core.(env := env, log := log, desk := core.desk.(calls := calls))
  }

  function Reborn(s: State): State {
    Rebuilt(s.env, s.log, s.desk.calls)
  }

  function Next(s: State, i: Input): State {
    match i
    case Call(now, ev) => Handle(s, now, ev)
    case Restart => Reborn(s)
  }

  function Run(env: Env, inputs: seq<Input>): State {
    if inputs == [] then Build(env) else Next(Run(env, inputs[..|inputs| - 1]), inputs[|inputs| - 1])
  }

  lemma OneMore(env: Env, inputs: seq<Input>, i: Input)
    ensures Run(env, inputs + [i]) == Next(Run(env, inputs), i)
  {
    assert (inputs + [i])[..|inputs|] == inputs;
  }

  datatype Timed = Timed(now: Now, ev: Event)

  /** One core's life from `s`: calls, no restart. */
  function Live(s: State, calls: seq<Timed>): State {
    if calls == [] then s else
      var c := calls[|calls| - 1];
      Handle(Live(s, calls[..|calls| - 1]), c.now, c.ev)
  }

  function AsInputs(calls: seq<Timed>): seq<Input> {
    seq(|calls|, i requires 0 <= i < |calls| => Call(calls[i].now, calls[i].ev))
  }

  /** A life without restarts is a run. */
  lemma {:induction false} RunIsLive(env: Env, calls: seq<Timed>)
    ensures Run(env, AsInputs(calls)) == Live(Build(env), calls)
  {
    if calls != [] {
      var front := calls[..|calls| - 1];
      RunIsLive(env, front);
      assert AsInputs(calls)[..|calls| - 1] == AsInputs(front);
    }
  }

  /** The calls of a run that has no restart. */
  function CallsOf(inputs: seq<Input>): (calls: seq<Timed>)
    requires forall i :: 0 <= i < |inputs| ==> inputs[i].Call?
    ensures AsInputs(calls) == inputs
  {
    seq(|inputs|, i requires 0 <= i < |inputs| => Timed(inputs[i].now, inputs[i].ev))
  }
}

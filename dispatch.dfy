/** The behaviour that `impl_actor_state!` and `#[actor_state]` generate for every
    twin (digitaltwin-macros/src/lib.rs): each state type carries a dispatch map
    (input slot -> handler) and a command map (command -> handler); an input or
    command looks its key up in the current state's map and runs the handler,
    and an unknown key yields an unchanged copy of the actor. Every handler in
    the models ends in `transition::<T>()`, which copies the declared fields and
    installs T's maps, so a handler is modelled by the target state it picks. */
module Dispatch {

  /** A command argument (serde_json::Value), kept opaque: no handler inspects it. */
  datatype Args = Args(json: string)

  /** One stimulus for an actor: a new value on an input slot, or a named command. */
  datatype Input = Slot(name: string, value: real) | Cmd(name: string, args: Args)

  /** An actor value: its declared fields and the state type it is instantiated at. */
  datatype Actor<F, S> = Actor(fields: F, state: S)

  /** What one actor type declares: per state, its dispatch and command maps
      (key -> handler name), and what each handler decides. */
  datatype Machine<!F, !S> = Machine(
    dispatchMap: S -> map<string, string>,
    commandMap: S -> map<string, string>,
    onSlot: (F, S, string, real) -> S,
    onCommand: (F, S, string, Args) -> S)

  /** `transition::<T>()`: every field copied, the state replaced. */
  function Transition<F, S>(a: Actor<F, S>, target: S): Actor<F, S>
  {
    Actor(a.fields, target)
  }

  /** Generated `input_change`. */
  function InputChange<F, S>(m: Machine<F, S>, a: Actor<F, S>, slot: string, value: real): (r: Actor<F, S>)
    ensures r.fields == a.fields
    ensures slot !in m.dispatchMap(a.state) ==> r == a
    ensures slot in m.dispatchMap(a.state) ==> r.state == m.onSlot(a.fields, a.state, m.dispatchMap(a.state)[slot], value)
  {
    var handlers := m.dispatchMap(a.state);
    if slot in handlers then Transition(a, m.onSlot(a.fields, a.state, handlers[slot], value)) else a
  }

  /** Generated `execute`. */
  function Execute<F, S>(m: Machine<F, S>, a: Actor<F, S>, command: string, args: Args): (r: Actor<F, S>)
    ensures r.fields == a.fields
    ensures command !in m.commandMap(a.state) ==> r == a
    ensures command in m.commandMap(a.state) ==> r.state == m.onCommand(a.fields, a.state, m.commandMap(a.state)[command], args)
  {
    var handlers := m.commandMap(a.state);
    if command in handlers then Transition(a, m.onCommand(a.fields, a.state, handlers[command], args)) else a
  }

  function Step<F, S>(m: Machine<F, S>, a: Actor<F, S>, input: Input): Actor<F, S>
  {
    match input
    case Slot(name, value) => InputChange(m, a, name, value)
    case Cmd(name, args) => Execute(m, a, name, args)
  }

  /** Inputs applied one after another, each to the actor the previous one returned. */
  function Run<F, S>(m: Machine<F, S>, a: Actor<F, S>, inputs: seq<Input>): Actor<F, S>
    decreases |inputs|
  {
    if inputs == [] then a else Run(m, Step(m, a, inputs[0]), inputs[1..])
  }

  /** The key of an input is absent from the given state's maps. */
  predicate Unmapped<F, S>(m: Machine<F, S>, s: S, input: Input)
  {
    match input
    case Slot(name, _) => name !in m.dispatchMap(s)
    case Cmd(name, _) => name !in m.commandMap(s)
  }

  /** Declared fields (thresholds and the like) never change, whatever the inputs. */
  lemma {:induction false} RunKeepsFields<F, S>(m: Machine<F, S>, a: Actor<F, S>, inputs: seq<Input>)
    ensures Run(m, a, inputs).fields == a.fields
    decreases |inputs|
  {
    if inputs != [] {
      RunKeepsFields(m, Step(m, a, inputs[0]), inputs[1..]);
    }
  }

  /** Running two batches is running the first, then the second from where it ended. */
  lemma {:induction false} RunAppend<F, S>(m: Machine<F, S>, a: Actor<F, S>, xs: seq<Input>, ys: seq<Input>)
    ensures Run(m, a, xs + ys) == Run(m, Run(m, a, xs), ys)
    decreases |xs|
  {
    if xs != [] {
      assert (xs + ys)[0] == xs[0] && (xs + ys)[1..] == xs[1..] + ys;
      RunAppend(m, Step(m, a, xs[0]), xs[1..], ys);
    } else {
      assert xs + ys == ys;
    }
  }

  /** Inputs the current state does not map are no-ops: the actor is returned unchanged. */
  lemma {:induction false} RunUnmappedIsNoOp<F, S>(m: Machine<F, S>, a: Actor<F, S>, inputs: seq<Input>)
    requires forall i :: 0 <= i < |inputs| ==> Unmapped(m, a.state, inputs[i])
    ensures Run(m, a, inputs) == a
    decreases |inputs|
  {
    if inputs != [] {
      assert Unmapped(m, a.state, inputs[0]);
      assert Step(m, a, inputs[0]) == a;
      RunUnmappedIsNoOp(m, a, inputs[1..]);
    }
  }

  // ---------------------------------------------------------------------------
  // create_dispatch_map / create_command_map

  /** `HashMap::new()` followed by one `insert` per (key, handler) entry, in order. */
  function BuildMap(entries: seq<(string, string)>): map<string, string>
  {
    if entries == [] then map[]
    else BuildMap(entries[..|entries| - 1])[entries[|entries| - 1].0 := entries[|entries| - 1].1]
  }

  /** Entry `i` is the last one with key `k`. */
  ghost predicate LastWithKey(entries: seq<(string, string)>, k: string, i: int)
  {
    0 <= i < |entries| && entries[i].0 == k && forall j :: i < j < |entries| ==> entries[j].0 != k
  }

  /** The keys are exactly the entries' keys, and for a key given twice the later insert wins. */
  lemma BuildMapSpec(entries: seq<(string, string)>, k: string)
    ensures k in BuildMap(entries) <==> exists i :: 0 <= i < |entries| && entries[i].0 == k
    ensures forall i :: LastWithKey(entries, k, i) ==> k in BuildMap(entries) && BuildMap(entries)[k] == entries[i].1
  {
    BuildMapKeys(entries, k);
    forall i | LastWithKey(entries, k, i)
      ensures k in BuildMap(entries) && BuildMap(entries)[k] == entries[i].1
    {
      BuildMapLastWins(entries, k, i);
    }
  }

  lemma {:induction false} BuildMapKeys(entries: seq<(string, string)>, k: string)
    ensures k in BuildMap(entries) <==> exists i :: 0 <= i < |entries| && entries[i].0 == k
    decreases |entries|
  {
    if entries != [] {
      var n := |entries| - 1;
      var front := entries[..n];
      BuildMapKeys(front, k);
      if exists i :: 0 <= i < |front| && front[i].0 == k {
        var i :| 0 <= i < |front| && front[i].0 == k;
        assert entries[i].0 == k;
      }
      if exists i :: 0 <= i < |entries| && entries[i].0 == k {
        var i :| 0 <= i < |entries| && entries[i].0 == k;
        if i < n {
          assert front[i].0 == k;
        }
      }
    }
  }

  lemma {:induction false} BuildMapLastWins(entries: seq<(string, string)>, k: string, i: int)
    requires LastWithKey(entries, k, i)
    ensures k in BuildMap(entries) && BuildMap(entries)[k] == entries[i].1
    decreases |entries|
  {
    var n := |entries| - 1;
    if i < n {
      var front := entries[..n];
      assert LastWithKey(front, k, i);
      BuildMapLastWins(front, k, i);
    }
  }
}

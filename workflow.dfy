/** `TriggerNode`, the behaviour-free node classes and `Workflow.run`. */
module Workflow {
  import opened Wrappers
  import opened Errors
  import opened Values
  import opened Tools
  import opened Messages
  import opened Provider
  import opened ChatModel
  import opened Agent

  /** What `TriggerNode.invoke` returns: `{type: 'manual'}`. */
  const Manual: Value := Record("type", Str("manual"))

  /** A node of a workflow. `Inert(v)` is a node whose `invoke` only returns `v`: the base
      `Node`, `HTTPRequestNode`, `FunctionNode`, `BranchNode`, `SwitchNode` and
      `CycleNode` return `undefined`, `BatchProcessNode` returns `{}`. */
  datatype NodeRef =
    | TriggerRef
    | ChatRef(chat: ChatModelNode)
    | AgentRef(agent: AgentNode)
    | Inert(output: Value)

  /** The objects invoking the node may change. */
  function Objects(n: NodeRef): set<object> {
    match n
    case ChatRef(c) => {c, c.client}
    case AgentRef(a) => {a.chatModel, a.chatModel.client}
    case _ => {}
  }

  /** The state a chat model or an agent node works on: its client's request log and
      its conversation. The other nodes have none. */
  datatype Snapshot = Snapshot(sent: seq<Request>, messages: seq<Message>)

  ghost function StateOf(n: NodeRef): Snapshot
    reads Objects(n)
  {
    match n
    case ChatRef(c) => Snapshot(c.client.sent, c.messages)
    case AgentRef(a) => Snapshot(a.chatModel.client.sent, a.chatModel.messages)
    case _ => Snapshot([], [])
  }

  /** What invoking `n` in state `s` returns, and the state it leaves: the trigger and
      the behaviour-free nodes return a fixed value and have no state; a chat model makes
      one round trip, logging one request that carries its conversation and no tools, and
      keeps its conversation; an agent runs the whole tool-calling loop and its
      conversation and log are where the loop leaves them. No node reads its input. */
  ghost function Invocation(n: NodeRef, s: Snapshot, parse: string -> Option<Value>, ext: ExternalTools)
    : (Result<Value, Error>, Snapshot)
  {
    match n
    case TriggerRef => (Success(Manual), s)
    case Inert(v) => (Success(v), s)
    case ChatRef(c) =>
      (ChatResult(c.client.script, |s.sent|), Snapshot(s.sent + [Request(c.modelName, s.messages, [])], s.messages))
    case AgentRef(a) =>
      var o := Agent.Run(Env(Available(ext), parse, a.chatModel.client.script, a.chatModel.modelName, a.tools),
                         s.sent, s.messages);
      (o.result, Snapshot(o.sent, o.conversation))
  }

  /** `node.invoke(input)`: each kind of node does what its class does, as `Invocation`
      says, and the state of any node in `others` that shares no object with `n` stays as
      it was. */
  method InvokeNode(n: NodeRef, input: Value, parse: string -> Option<Value>, ext: ExternalTools,
                    ghost others: seq<NodeRef>)
    returns (r: Result<Value, Error>)
    modifies Objects(n)
    ensures (r, StateOf(n)) == Invocation(n, old(StateOf(n)), parse, ext)
    ensures forall k :: 0 <= k < |others| && Objects(others[k]) !! Objects(n) ==>
              StateOf(others[k]) == old(StateOf(others[k]))
  {
    match n
    case TriggerRef => r := Success(Manual);
    case Inert(v) => r := Success(v);
    case ChatRef(c) => r := c.Invoke(input);
    case AgentRef(a) => r := a.Invoke(parse, ext);
  }

  /** The objects of all the nodes of `all`. */
  ghost function Footprint(all: seq<NodeRef>): set<object> {
    set i, o | 0 <= i < |all| && o in Objects(all[i]) :: o
  }

  /** No node among the first `m` of `all` shares an object with node `k`. */
  ghost predicate Untouched(all: seq<NodeRef>, k: nat, m: nat)
    requires k < |all| && m <= |all|
  {
    forall j :: 0 <= j < m ==> Objects(all[j]) !! Objects(all[k])
  }

  /** No other node among the first `m` of `all` shares an object with node `k`. */
  ghost predicate Alone(all: seq<NodeRef>, k: nat, m: nat)
    requires k < |all| && m <= |all|
  {
    forall j :: 0 <= j < m && j != k ==> Objects(all[j]) !! Objects(all[k])
  }

  /** Every node among the first `|finals|` that shares no object with the others of them
      is still in the state its invocation left, `finals[k]`. */
  ghost predicate Stayed(all: seq<NodeRef>, finals: seq<Snapshot>)
    requires |finals| <= |all|
    reads Footprint(all)
  {
    forall k :: 0 <= k < |finals| && Alone(all, k, |finals|) ==>
      Objects(all[k]) <= Footprint(all) && StateOf(all[k]) == finals[k]
  }

  /** Every node from `i` on that shares no object with the first `i` nodes is still in
      its `initial` state. */
  ghost predicate Kept(all: seq<NodeRef>, i: nat, initial: seq<Snapshot>)
    requires i <= |all| == |initial|
    reads Footprint(all)
  {
    forall k :: i <= k < |all| && Untouched(all, k, i) ==>
      Objects(all[k]) <= Footprint(all) && StateOf(all[k]) == initial[k]
  }

  /** Invokes node `i` of `all` on `input`; `found` is the state it found and `left` the
      state it left. */
  method Step(all: seq<NodeRef>, i: nat, input: Value, parse: string -> Option<Value>, ext: ExternalTools,
              ghost initial: seq<Snapshot>, ghost finals: seq<Snapshot>)
    returns (r: Result<Value, Error>, ghost found: Snapshot, ghost left: Snapshot)
    requires i < |all| == |initial| && Kept(all, i, initial)
    requires |finals| == i && Stayed(all, finals)
    modifies Objects(all[i])
    ensures (r, left) == Invocation(all[i], found, parse, ext)
    ensures Untouched(all, i, i) ==> found == initial[i]
    ensures Kept(all, i + 1, initial)
    ensures Stayed(all, finals + [left])
  {
    found := StateOf(all[i]);
    r := InvokeNode(all[i], input, parse, ext, all);
    left := StateOf(all[i]);
    var finals' := finals + [left];
    forall k | 0 <= k < i + 1 && Alone(all, k, i + 1)
      ensures Objects(all[k]) <= Footprint(all) && StateOf(all[k]) == finals'[k]
    {
      if k < i {
        assert Objects(all[i]) !! Objects(all[k]);
        assert Alone(all, k, i);
      }
    }
    forall k | i + 1 <= k < |all| && Untouched(all, k, i + 1)
      ensures Objects(all[k]) <= Footprint(all) && StateOf(all[k]) == initial[k]
    {
      assert Objects(all[i]) !! Objects(all[k]);
      assert Untouched(all, k, i);
    }
  }

  /** What a run records about the nodes invoked so far: each result and the state the
      node left are `invocation` of the state it found, all but the last result succeeded,
      the state found is the `initial` one when no earlier node shares the node's objects,
      and each node after the trigger was given the previous node's output. */
  ghost predicate Recorded(all: seq<NodeRef>, invocation: (NodeRef, Snapshot) -> (Result<Value, Error>, Snapshot),
                           results: seq<Result<Value, Error>>, inputs: seq<Value>,
                           states: seq<Snapshot>, finals: seq<Snapshot>, initial: seq<Snapshot>)
  {
    && |results| == |inputs| == |states| == |finals| <= |all| == |initial|
    && (forall j :: 0 <= j < |results| - 1 ==> results[j].Success?)
    && (|results| > 0 ==> inputs[0] == Undefined)
    && (forall j :: 0 <= j < |results| - 1 ==> inputs[j + 1] == results[j].value)
    && (forall j :: 0 <= j < |results| ==> (results[j], finals[j]) == invocation(all[j], states[j]))
    && (forall j :: 0 <= j < |results| && Untouched(all, j, j) ==> states[j] == initial[j])
  }

  /** Recording one more node invocation, after the last one succeeded on `input`. */
  lemma {:induction false} Append(all: seq<NodeRef>, invocation: (NodeRef, Snapshot) -> (Result<Value, Error>, Snapshot),
                                  results: seq<Result<Value, Error>>, inputs: seq<Value>,
                                  states: seq<Snapshot>, finals: seq<Snapshot>, initial: seq<Snapshot>,
                                  input: Value, r: Result<Value, Error>, found: Snapshot, left: Snapshot)
    requires Recorded(all, invocation, results, inputs, states, finals, initial) && |results| < |all|
    requires if |results| == 0 then input == Undefined else results[|results| - 1] == Success(input)
    requires (r, left) == invocation(all[|results|], found)
    requires Untouched(all, |results|, |results|) ==> found == initial[|results|]
    ensures Recorded(all, invocation, results + [r], inputs + [input], states + [found], finals + [left], initial)
  {
    var i := |results|;
    var results', inputs', states', finals' := results + [r], inputs + [input], states + [found], finals + [left];
    forall j | 0 <= j <= i
      ensures (results'[j], finals'[j]) == invocation(all[j], states'[j])
    {
      if j < i {
        assert results'[j] == results[j] && states'[j] == states[j] && finals'[j] == finals[j];
      }
    }
    forall j | 0 <= j < i
      ensures results'[j].Success? && inputs'[j + 1] == results'[j].value
    {
      if j < i - 1 {
        assert inputs'[j + 1] == inputs[j + 1] && results'[j] == results[j];
      }
    }
    forall j | 0 <= j <= i && Untouched(all, j, j)
      ensures states'[j] == initial[j]
    {
      if j < i {
        assert states'[j] == states[j];
      }
    }
  }

  class Workflow {
    const triggerNode: NodeRef
    const nodes: seq<NodeRef>

    constructor (triggerNode: NodeRef, nodes: seq<NodeRef>)
      ensures this.triggerNode == triggerNode && this.nodes == nodes
    {
      this.triggerNode := triggerNode;
      this.nodes := nodes;
    }

    /** The trigger, then the nodes, in the order they run. */
    function Sequence(): seq<NodeRef> {
      [triggerNode] + nodes
    }

    ghost function Repr(): set<object> {
      Footprint(Sequence())
    }

    /** The trigger's output, then each node invoked on the output before it; the first
        node that fails ends the run with its error. `results` lists what the trigger and
        each invoked node returned, `inputs` what each was invoked on, and `states` the
        state each found. */
    method Run(parse: string -> Option<Value>, ext: ExternalTools)
      returns (r: Result<Value, Error>, ghost results: seq<Result<Value, Error>>,
               ghost inputs: seq<Value>, ghost states: seq<Snapshot>, ghost finals: seq<Snapshot>)
      modifies Repr()
      ensures var all := Sequence();
        && 1 <= |results| <= |all| && |inputs| == |states| == |results|
        && r == results[|results| - 1]
        && (forall i :: 0 <= i < |results| - 1 ==> results[i].Success?)
        && (r.Success? ==> |results| == |all|)
        && inputs[0] == Undefined
        && (forall i :: 0 <= i < |results| - 1 ==> inputs[i + 1] == results[i].value)
        && |finals| == |results|
        && (forall i :: 0 <= i < |results| ==> (results[i], finals[i]) == Invocation(all[i], states[i], parse, ext))
        && (forall i :: 0 <= i < |results| && Untouched(all, i, i) ==> states[i] == old(StateOf(all[i])))
        && (forall k :: |results| <= k < |all| && Untouched(all, k, |results|) ==>
              StateOf(all[k]) == old(StateOf(all[k])))
        && (forall i :: 0 <= i < |results| && Alone(all, i, |results|) ==> StateOf(all[i]) == finals[i])
    {
      // The trigger is invoked without an argument, the nodes with the previous output.
      var all := Sequence();
      var output := Undefined;
      results, inputs, states, finals := [], [], [], [];
      ghost var invocation := (n, s) => Invocation(n, s, parse, ext);
      ghost var initial := seq(|all|, k requires 0 <= k < |all| reads Footprint(all) => StateOf(all[k]));
      for i := 0 to |all|
        invariant |results| == i
        invariant forall k :: 0 <= k < |all| ==> initial[k] == old(StateOf(all[k]))
        invariant Recorded(all, invocation, results, inputs, states, finals, initial)
        invariant if i == 0 then output == Undefined else results[i - 1] == Success(output)
        invariant Kept(all, i, initial)
        invariant Stayed(all, finals)
      {
        assert Objects(all[i]) <= Repr();
        ghost var found, left;
        r, found, left := Step(all, i, output, parse, ext, initial, finals);
        Append(all, invocation, results, inputs, states, finals, initial, output, r, found, left);
        results, inputs, states, finals := results + [r], inputs + [output], states + [found], finals + [left];
        if r.Failure? {
          return;
        }
        output := r.value;
      }
      r := Success(output);
    }
  }
}

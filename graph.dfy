/** The graph of the graph interface: ops connected through shared values.
    Ops and values live in two stores keyed by handles, so that a value shared
    by several ops (one producer, many consumers) is one store entry that
    several ops name. */
module Graphs {
  import opened Wrappers
  import opened GraphTypes

  type OpId = nat
  type ValueId = nat

  /** Only the kind the graph code itself creates is distinguished. */
  datatype OpKind = Wildcard | OtherKind(code: nat)

  /** An (op, offset) pair: the producer of a value or one of its consumers. */
  datatype Port = Port(op: OpId, offset: nat)

  /** A value: the logical tensor it carries, whether it is internal, the op
      output that produces it (if any) and the op inputs that consume it. */
  datatype Value = Value(lt: LogicalTensor, internal: bool, producer: Option<Port>, consumers: seq<Port>)

  /** An op: its id, kind and partition, and its input and output values. */
  datatype Op = Op(id: nat, kind: OpKind, partition: Option<nat>, inputs: seq<ValueId>, outputs: seq<ValueId>)

  /** Registering a consumer: appended unless the same (op, offset) is already
      listed. */
  function AddConsumer(v: Value, p: Port): (r: Value)
    ensures r == v.(consumers := r.consumers)
    ensures forall q :: q in r.consumers <==> q in v.consumers || q == p
  {
    if p in v.consumers then v else v.(consumers := v.consumers + [p])
  }

  /** Unregistering a consumer. */
  function RemoveConsumer(v: Value, p: Port): (r: Value)
    ensures r == v.(consumers := r.consumers)
    ensures forall q :: q in r.consumers <==> q in v.consumers && q != p
  {
    v.(consumers := Without(v.consumers, p))
  }

  /** `s` with every occurrence of `p` dropped, order kept. */
  function Without(s: seq<Port>, p: Port): (r: seq<Port>)
    ensures forall q :: q in r <==> q in s && q != p
    ensures |r| <= |s|
  {
    if s == [] then [] else (if s[0] == p then [] else [s[0]]) + Without(s[1..], p)
  }

  /** Every value the op names is in the store. */
  predicate Wired(values: map<ValueId, Value>, op: Op) {
    (forall v | v in op.inputs :: v in values) && (forall v | v in op.outputs :: v in values)
  }

  /** The logical tensors of a list of values. */
  function Lts(values: map<ValueId, Value>, vs: seq<ValueId>): seq<LogicalTensor>
    requires forall v | v in vs :: v in values
  {
    seq(|vs|, i requires 0 <= i < |vs| => values[vs[i]].lt)
  }

  /** The ids occurring in a list of logical tensors. */
  function Ids(lts: seq<LogicalTensor>): set<nat> {
    set i | 0 <= i < |lts| :: lts[i].id
  }

  /** `get_ids`: the tensor id of each value, in order. */
  method GetIds(values: map<ValueId, Value>, vs: seq<ValueId>) returns (ids: seq<nat>)
    requires forall v | v in vs :: v in values
    ensures |ids| == |vs| && forall i | 0 <= i < |vs| :: ids[i] == values[vs[i]].lt.id
  {
    ids := [];
    for i := 0 to |vs|
      invariant |ids| == i && forall j | 0 <= j < i :: ids[j] == values[vs[j]].lt.id
    {
      ids := ids + [values[vs[i]].lt.id];
    }
  }

  // ---------------------------------------------------------------------------
  // Id consistency

  /** No two tensors with the same id differ, neither within `lts` nor from
      the tensor already recorded for that id in `recorded`. */
  predicate IdConsistent(recorded: map<nat, LogicalTensor>, lts: seq<LogicalTensor>) {
    (forall i | 0 <= i < |lts| && lts[i].id in recorded :: recorded[lts[i].id] == lts[i])
    && (forall i, j | 0 <= i < j < |lts| && lts[i].id == lts[j].id :: lts[i] == lts[j])
  }

  /** `m` is `recorded` extended with one entry per new id of `lts`, holding
      the tensor of that id. */
  predicate Records(m: map<nat, LogicalTensor>, recorded: map<nat, LogicalTensor>, lts: seq<LogicalTensor>) {
    m.Keys == recorded.Keys + Ids(lts)
    && (forall id | id in recorded :: m[id] == recorded[id])
    && (forall i | 0 <= i < |lts| :: m[lts[i].id] == lts[i])
  }

  /** `logical_tensor_sanity_check`: record the tensor of each unseen id and
      fail as soon as a value's tensor differs from the one recorded for its
      id. A recorded tensor is never replaced. */
  method LogicalTensorSanityCheck(idToLts: map<nat, LogicalTensor>, values: map<ValueId, Value>, vs: seq<ValueId>)
      returns (ok: bool, idToLts': map<nat, LogicalTensor>)
    requires forall v | v in vs :: v in values
    ensures forall id | id in idToLts :: id in idToLts' && idToLts'[id] == idToLts[id]
    ensures ok <==> IdConsistent(idToLts, Lts(values, vs))
    ensures ok ==> Records(idToLts', idToLts, Lts(values, vs))
  {
    ghost var lts := Lts(values, vs);
    idToLts' := idToLts;
    for i := 0 to |vs|
      invariant IdConsistent(idToLts, lts[..i])
      invariant Records(idToLts', idToLts, lts[..i])
    {
      var lt := values[vs[i]].lt;
      assert lts[..i + 1] == lts[..i] + [lt];
      if lt.id in idToLts' && idToLts'[lt.id] != lt {
        ConflictFound(idToLts', idToLts, lts[..i], lt);
        assert lts == lts[..i + 1] + lts[i + 1..];
        ConsistentPrefix(idToLts, lts[..i + 1], lts[i + 1..]);
        return false, idToLts';
      }
      var m := if lt.id in idToLts' then idToLts' else idToLts'[lt.id := lt];
      RecordStep(idToLts', m, idToLts, lts[..i], lt);
      idToLts' := m;
    }
    assert lts[..|vs|] == lts;
    ok := true;
  }

  /** The check `build_graph` runs on one op: its inputs, then, if those
      pass, its outputs, against the record of the tensors checked so far. */
  method CheckOpTensors(idToLts: map<nat, LogicalTensor>, values: map<ValueId, Value>, op: Op,
                        ghost checked: seq<LogicalTensor>)
      returns (ok: bool, idToLts': map<nat, LogicalTensor>)
    requires Wired(values, op)
    requires IdConsistent(map[], checked) && Records(idToLts, map[], checked)
    ensures ok <==> IdConsistent(map[], checked + Lts(values, op.inputs) + Lts(values, op.outputs))
    ensures ok ==> Records(idToLts', map[], checked + Lts(values, op.inputs) + Lts(values, op.outputs))
  {
    ghost var ins := Lts(values, op.inputs);
    ghost var outs := Lts(values, op.outputs);
    var afterInputs;
    ok, afterInputs := LogicalTensorSanityCheck(idToLts, values, op.inputs);
    ConsistentAppend(idToLts, checked, ins);
    if !ok {
      ConsistentPrefix(map[], checked + ins, outs);
      return false, idToLts;
    }
    ok, idToLts' := LogicalTensorSanityCheck(afterInputs, values, op.outputs);
    ConsistentAppend(afterInputs, checked + ins, outs);
  }

  /** One more tensor: recording it (when its id is new) keeps the record and
      consistency exact. */
  lemma RecordStep(m: map<nat, LogicalTensor>, m': map<nat, LogicalTensor>, recorded: map<nat, LogicalTensor>,
                   p: seq<LogicalTensor>, lt: LogicalTensor)
    requires IdConsistent(recorded, p) && Records(m, recorded, p)
    requires lt.id in m ==> m[lt.id] == lt
    requires m' == if lt.id in m then m else m[lt.id := lt]
    ensures IdConsistent(recorded, p + [lt]) && Records(m', recorded, p + [lt])
  {
    var q := p + [lt];
    forall i | 0 <= i < |p| && p[i].id == lt.id
      ensures p[i] == lt
    {
      assert m[p[i].id] == p[i];
    }
    assert Ids(q) == Ids(p) + {lt.id} by {
      forall id | id in Ids(p) ensures id in Ids(q) {
        var j :| 0 <= j < |p| && p[j].id == id;
        assert q[j].id == id;
      }
      assert q[|p|].id == lt.id;
    }
  }

  /** A tensor that differs from the one recorded for its id makes the whole
      list inconsistent. */
  lemma ConflictFound(m: map<nat, LogicalTensor>, recorded: map<nat, LogicalTensor>,
                      p: seq<LogicalTensor>, lt: LogicalTensor)
    requires Records(m, recorded, p)
    requires lt.id in m && m[lt.id] != lt
    ensures !IdConsistent(recorded, p + [lt])
  {
    var q := p + [lt];
    assert q[|p|] == lt;
    if lt.id !in recorded {
      var j :| 0 <= j < |p| && p[j].id == lt.id;
      assert q[j] == p[j];
    }
  }

  /** Consistency of a list implies consistency of its prefixes. */
  lemma ConsistentPrefix(recorded: map<nat, LogicalTensor>, p: seq<LogicalTensor>, rest: seq<LogicalTensor>)
    ensures IdConsistent(recorded, p + rest) ==> IdConsistent(recorded, p)
  {
    if IdConsistent(recorded, p + rest) {
      forall i, j | 0 <= i < j < |p| && p[i].id == p[j].id
        ensures p[i] == p[j]
      {
        assert (p + rest)[i] == p[i] && (p + rest)[j] == p[j];
      }
      forall i | 0 <= i < |p| && p[i].id in recorded
        ensures recorded[p[i].id] == p[i]
      {
        assert (p + rest)[i] == p[i];
      }
    }
  }

  /** Checking `next` against the record of a consistent `prefix` is checking
      `prefix + next` as a whole. */
  lemma {:induction false} ConsistentAppend(m: map<nat, LogicalTensor>, prefix: seq<LogicalTensor>, next: seq<LogicalTensor>)
    requires IdConsistent(map[], prefix) && Records(m, map[], prefix)
    ensures IdConsistent(m, next) <==> IdConsistent(map[], prefix + next)
    ensures IdConsistent(m, next) ==> forall m' | Records(m', m, next) :: Records(m', map[], prefix + next)
  {
    var all := prefix + next;
    if IdConsistent(m, next) {
      forall i, j | 0 <= i < j < |all| && all[i].id == all[j].id
        ensures all[i] == all[j]
      {
        if j >= |prefix| && i < |prefix| {
          assert m[prefix[i].id] == prefix[i];
        }
      }
      forall m' | Records(m', m, next)
        ensures Records(m', map[], all)
      {
        forall i | 0 <= i < |all|
          ensures m'[all[i].id] == all[i]
        {
          if i < |prefix| {
            assert all[i].id in m;
          } else {
            assert all[i] == next[i - |prefix|];
          }
        }
        assert Ids(all) == Ids(prefix) + Ids(next) by {
          forall id | id in Ids(prefix) ensures id in Ids(all) { var i :| 0 <= i < |prefix| && prefix[i].id == id; assert all[i].id == id; }
          forall id | id in Ids(next) ensures id in Ids(all) { var i :| 0 <= i < |next| && next[i].id == id; assert all[i + |prefix|].id == id; }
        }
      }
    } else if IdConsistent(map[], all) {
      forall i | 0 <= i < |next| && next[i].id in m
        ensures m[next[i].id] == next[i]
      {
        var j :| 0 <= j < |prefix| && prefix[j].id == next[i].id;
        assert all[j] == prefix[j] && all[|prefix| + i] == next[i];
      }
      forall i, j | 0 <= i < j < |next| && next[i].id == next[j].id
        ensures next[i] == next[j]
      {
        assert all[|prefix| + i] == next[i] && all[|prefix| + j] == next[j];
      }
    }
  }

  // ---------------------------------------------------------------------------
  // Building the graph: specification

  /** Every op of `ops` is in the op store and names only stored values. */
  predicate OpsWired(ops: seq<OpId>, opNodes: map<OpId, Op>, values: map<ValueId, Value>) {
    forall k | 0 <= k < |ops| :: ops[k] in opNodes && Wired(values, opNodes[ops[k]])
  }

  /** The tensors `build_graph` checks, op by op: the inputs, then the outputs. */
  function CheckedLts(ops: seq<OpId>, opNodes: map<OpId, Op>, values: map<ValueId, Value>): seq<LogicalTensor>
    requires OpsWired(ops, opNodes, values)
  {
    if ops == [] then []
    else
      var o := ops[|ops| - 1];
      CheckedLts(ops[..|ops| - 1], opNodes, values)
        + Lts(values, opNodes[o].inputs) + Lts(values, opNodes[o].outputs)
  }

  /** `pm` after recording outputs 0..n-1 of op `o`, each under its tensor id:
      a later output overwrites an earlier one with the same id. */
  function WithOutputs(pm: map<nat, Port>, o: OpId, outs: seq<ValueId>, values: map<ValueId, Value>, n: nat): map<nat, Port>
    requires n <= |outs| && forall v | v in outs :: v in values
  {
    if n == 0 then pm
    else WithOutputs(pm, o, outs, values, n - 1)[values[outs[n - 1]].lt.id := Port(o, n - 1)]
  }

  /** The map from tensor id to producing (op, offset), filled op by op. */
  function ProducerMap(ops: seq<OpId>, opNodes: map<OpId, Op>, values: map<ValueId, Value>): map<nat, Port>
    requires OpsWired(ops, opNodes, values)
  {
    if ops == [] then map[]
    else
      var o := ops[|ops| - 1];
      WithOutputs(ProducerMap(ops[..|ops| - 1], opNodes, values), o, opNodes[o].outputs, values, |opNodes[o].outputs|)
  }

  /** Input i of the k-th op exists. */
  predicate InputPos(ops: seq<OpId>, n0: map<OpId, Op>, k: int, i: int) {
    0 <= k < |ops| && ops[k] in n0 && 0 <= i < |n0[ops[k]].inputs|
  }

  /** Tensor id of input i of the k-th op. */
  function InId(ops: seq<OpId>, n0: map<OpId, Op>, v0: map<ValueId, Value>, k: int, i: int): nat
    requires InputPos(ops, n0, k, i) && n0[ops[k]].inputs[i] in v0
  {
    v0[n0[ops[k]].inputs[i]].lt.id
  }

  /** (k2, i2) comes before (k, i) in the order inputs are visited. */
  predicate Before(k2: int, i2: int, k: int, i: int) {
    k2 < k || (k2 == k && i2 < i)
  }

  /** No input visited before (k, i) carries the same tensor id. */
  ghost predicate FirstUse(ops: seq<OpId>, n0: map<OpId, Op>, v0: map<ValueId, Value>, k: int, i: int)
    requires OpsWired(ops, n0, v0) && InputPos(ops, n0, k, i)
  {
    forall k2, i2 | InputPos(ops, n0, k2, i2) && Before(k2, i2, k, i) :: InId(ops, n0, v0, k2, i2) != InId(ops, n0, v0, k, i)
  }

  /** After building, input i of the k-th op is registered as a consumer of
      its value; that value is the producer's output when some op produces its
      tensor id, and otherwise a value without a producer. */
  ghost predicate InputLinked(ops: seq<OpId>, n0: map<OpId, Op>, v0: map<ValueId, Value>,
                              n: map<OpId, Op>, vals: map<ValueId, Value>, k: int, i: int)
    requires OpsWired(ops, n0, v0) && InputPos(ops, n0, k, i)
  {
    var o := ops[k];
    var id := InId(ops, n0, v0, k, i);
    var pm := ProducerMap(ops, n0, v0);
    o in n && i < |n[o].inputs| && n[o].inputs[i] in vals
    && Port(o, i) in vals[n[o].inputs[i]].consumers
    && (id in pm ==> pm[id].op in n0 && pm[id].offset < |n0[pm[id].op].outputs|
                     && n[o].inputs[i] == n0[pm[id].op].outputs[pm[id].offset])
    && (id !in pm ==> vals[n[o].inputs[i]].producer == None)
  }

  /** What `build_graph` leaves behind, given the op and value stores before:
      only op inputs and value consumers and producers changed, and only as
      linking demands (FrameKept); every input is linked; all inputs of an
      unproduced tensor id share one value, the one the first such input
      held. */
  ghost predicate Built(ops: seq<OpId>, n0: map<OpId, Op>, v0: map<ValueId, Value>,
                        n: map<OpId, Op>, vals: map<ValueId, Value>)
    requires OpsWired(ops, n0, v0)
  {
    var pm := ProducerMap(ops, n0, v0);
    Reshaped(n0, n) && Grown(v0, vals) && FrameKept(ops, n0, v0, n, vals)
    && (forall k, i | InputPos(ops, n0, k, i) :: InputLinked(ops, n0, v0, n, vals, k, i))
    && (forall k1, i1, k2, i2 | InputPos(ops, n0, k1, i1) && InputPos(ops, n0, k2, i2)
          && InId(ops, n0, v0, k1, i1) == InId(ops, n0, v0, k2, i2) && InId(ops, n0, v0, k1, i1) !in pm
          :: n[ops[k1]].inputs[i1] == n[ops[k2]].inputs[i2])
    && (forall k, i | InputPos(ops, n0, k, i) && InId(ops, n0, v0, k, i) !in pm && FirstUse(ops, n0, v0, k, i)
          :: n[ops[k]].inputs[i] == n0[ops[k]].inputs[i])
  }

  /** Port p is input p.offset of an op visited before input i of the k-th
      op, and that input now holds v. */
  ghost predicate LinkedPort(ops: seq<OpId>, n0: map<OpId, Op>, n: map<OpId, Op>, v: ValueId, p: Port, k: int, i: int) {
    exists k2 | 0 <= k2 < |ops| && ops[k2] == p.op ::
      InputPos(ops, n0, k2, p.offset) && Before(k2, p.offset, k, i)
      && ops[k2] in n && p.offset < |n[ops[k2]].inputs| && n[ops[k2]].inputs[p.offset] == v
  }

  /** Some input whose tensor id no op produces holds v. */
  ghost predicate SharedUnproduced(ops: seq<OpId>, n0: map<OpId, Op>, v0: map<ValueId, Value>, n: map<OpId, Op>, v: ValueId)
    requires OpsWired(ops, n0, v0)
  {
    exists k, i | InputPos(ops, n0, k, i) && InId(ops, n0, v0, k, i) !in ProducerMap(ops, n0, v0) ::
      ops[k] in n && i < |n[ops[k]].inputs| && n[ops[k]].inputs[i] == v
  }

  /** The frame of the connecting pass on the value store: a value loses its
      producer only when it became the shared value of an unproduced id, and
      the only consumers it gains are the op inputs now linked to it. */
  ghost predicate FrameKept(ops: seq<OpId>, n0: map<OpId, Op>, v0: map<ValueId, Value>, n: map<OpId, Op>, vals: map<ValueId, Value>)
    requires OpsWired(ops, n0, v0)
  {
    forall v | v in v0 && v in vals ::
      (vals[v].producer != v0[v].producer ==> vals[v].producer == None && SharedUnproduced(ops, n0, v0, n, v))
      && (forall p | p in vals[v].consumers && p !in v0[v].consumers :: LinkedPort(ops, n0, n, v, p, |ops|, 0))
  }

  /** FrameKept while connecting, before input i of the k-th op: a value that
      lost its producer is a recorded shared value. */
  ghost predicate FramedSoFar(ops: seq<OpId>, n0: map<OpId, Op>, v0: map<ValueId, Value>, n: map<OpId, Op>,
                              vals: map<ValueId, Value>, dummies: map<nat, ValueId>, k: int, i: int) {
    forall v | v in v0 && v in vals ::
      (vals[v].producer != v0[v].producer ==> vals[v].producer == None && v in dummies.Values)
      && (forall p | p in vals[v].consumers && p !in v0[v].consumers :: LinkedPort(ops, n0, n, v, p, k, i))
  }

  /** While connecting: input (k, i) is linked, an unproduced id's inputs all
      hold the value recorded for that id in `dummies`, and the first of them
      kept its own value. */
  ghost predicate LinkedSoFar(ops: seq<OpId>, n0: map<OpId, Op>, v0: map<ValueId, Value>,
                              n: map<OpId, Op>, vals: map<ValueId, Value>, dummies: map<nat, ValueId>, k: int, i: int)
    requires OpsWired(ops, n0, v0) && InputPos(ops, n0, k, i)
  {
    var id := InId(ops, n0, v0, k, i);
    InputLinked(ops, n0, v0, n, vals, k, i)
    && (id !in ProducerMap(ops, n0, v0) ==>
          id in dummies && n[ops[k]].inputs[i] == dummies[id]
          && (FirstUse(ops, n0, v0, k, i) ==> n[ops[k]].inputs[i] == n0[ops[k]].inputs[i]))
  }

  /** Every producer entry names an output of an op of `ops` that carries the
      entry's tensor id. */
  lemma {:induction false} ProducerMapSound(ops: seq<OpId>, n0: map<OpId, Op>, v0: map<ValueId, Value>)
    requires OpsWired(ops, n0, v0)
    ensures forall id | id in ProducerMap(ops, n0, v0) ::
              var p := ProducerMap(ops, n0, v0)[id];
              p.op in ops && p.op in n0 && p.offset < |n0[p.op].outputs| && v0[n0[p.op].outputs[p.offset]].lt.id == id
  {
    if ops != [] {
      var o := ops[|ops| - 1];
      var prefix := ops[..|ops| - 1];
      ProducerMapSound(prefix, n0, v0);
      WithOutputsSound(ProducerMap(prefix, n0, v0), o, n0[o].outputs, v0, |n0[o].outputs|);
    }
  }

  lemma {:induction false} WithOutputsSound(pm: map<nat, Port>, o: OpId, outs: seq<ValueId>, values: map<ValueId, Value>, n: nat)
    requires n <= |outs| && forall v | v in outs :: v in values
    ensures forall id | id in WithOutputs(pm, o, outs, values, n) ::
              id in pm || (WithOutputs(pm, o, outs, values, n)[id].op == o
                           && WithOutputs(pm, o, outs, values, n)[id].offset < n
                           && values[outs[WithOutputs(pm, o, outs, values, n)[id].offset]].lt.id == id)
    ensures forall id | id in pm :: id in WithOutputs(pm, o, outs, values, n)
    ensures forall id | id in pm && WithOutputs(pm, o, outs, values, n)[id] != pm[id] ::
              WithOutputs(pm, o, outs, values, n)[id].op == o
              && WithOutputs(pm, o, outs, values, n)[id].offset < n
              && values[outs[WithOutputs(pm, o, outs, values, n)[id].offset]].lt.id == id
  {
    if n > 0 {
      WithOutputsSound(pm, o, outs, values, n - 1);
    }
  }

  /** Output j of the k-th op exists. */
  predicate OutputPos(ops: seq<OpId>, n0: map<OpId, Op>, k: int, j: int) {
    0 <= k < |ops| && ops[k] in n0 && 0 <= j < |n0[ops[k]].outputs|
  }

  /** Tensor id of output j of the k-th op. */
  function OutId(ops: seq<OpId>, n0: map<OpId, Op>, v0: map<ValueId, Value>, k: int, j: int): nat
    requires OutputPos(ops, n0, k, j) && n0[ops[k]].outputs[j] in v0
  {
    v0[n0[ops[k]].outputs[j]].lt.id
  }

  /** No output after output j of the k-th op, in op order and then output
      order, carries the same tensor id. */
  ghost predicate LastProducer(ops: seq<OpId>, n0: map<OpId, Op>, v0: map<ValueId, Value>, k: int, j: int)
    requires OpsWired(ops, n0, v0) && OutputPos(ops, n0, k, j)
  {
    forall k2, j2 | OutputPos(ops, n0, k2, j2) && Before(k, j, k2, j2) :: OutId(ops, n0, v0, k2, j2) != OutId(ops, n0, v0, k, j)
  }

  /** No output of `outs` in j+1..n-1 carries the tensor id of output j. */
  predicate LastAmong(outs: seq<ValueId>, values: map<ValueId, Value>, j: int, n: nat)
    requires 0 <= j < n <= |outs| && forall v | v in outs :: v in values
  {
    forall j2 | j < j2 < n :: values[outs[j2]].lt.id != values[outs[j]].lt.id
  }

  /** `w` is `pm` after recording outputs 0..n-1 of op `o`: each of their ids
      is recorded, the last output carrying an id is its producer, and ids
      none of them carries keep their entry. */
  predicate RecordsOutputs(pm: map<nat, Port>, o: OpId, outs: seq<ValueId>, values: map<ValueId, Value>, n: nat,
                           w: map<nat, Port>)
    requires n <= |outs| && forall v | v in outs :: v in values
  {
    (forall j | 0 <= j < n :: values[outs[j]].lt.id in w)
    && (forall j | 0 <= j < n && LastAmong(outs, values, j, n) :: w[values[outs[j]].lt.id] == Port(o, j))
    && (forall id | id in pm && (forall j | 0 <= j < n :: values[outs[j]].lt.id != id) :: id in w && w[id] == pm[id])
  }

  /** Recording outputs one by one records them as RecordsOutputs says. */
  lemma {:induction false} WithOutputsLast(pm: map<nat, Port>, o: OpId, outs: seq<ValueId>, values: map<ValueId, Value>, n: nat)
    requires n <= |outs| && forall v | v in outs :: v in values
    ensures RecordsOutputs(pm, o, outs, values, n, WithOutputs(pm, o, outs, values, n))
  {
    if n > 0 {
      var prev := WithOutputs(pm, o, outs, values, n - 1);
      WithOutputsLast(pm, o, outs, values, n - 1);
      WithOutputsLastStep(pm, o, outs, values, n, prev, prev[values[outs[n - 1]].lt.id := Port(o, n - 1)]);
    }
  }

  /** The induction step of WithOutputsLast: recording output n-1 on top of
      outputs 0..n-2. */
  lemma WithOutputsLastStep(pm: map<nat, Port>, o: OpId, outs: seq<ValueId>, values: map<ValueId, Value>, n: nat,
                            prev: map<nat, Port>, w: map<nat, Port>)
    requires 0 < n <= |outs| && forall v | v in outs :: v in values
    requires w == prev[values[outs[n - 1]].lt.id := Port(o, n - 1)]
    requires RecordsOutputs(pm, o, outs, values, n - 1, prev)
    ensures RecordsOutputs(pm, o, outs, values, n, w)
  {
    var last := values[outs[n - 1]].lt.id;
    forall j | 0 <= j < n && LastAmong(outs, values, j, n)
      ensures w[values[outs[j]].lt.id] == Port(o, j)
    {
      if j < n - 1 {
        assert values[outs[j]].lt.id != last;
        assert LastAmong(outs, values, j, n - 1);
      }
    }
    forall id | id in pm && (forall j | 0 <= j < n :: values[outs[j]].lt.id != id)
      ensures id in w && w[id] == pm[id]
    {
      assert id != last;
    }
  }

  /** The producer map is complete and the last producer wins: every output
      id of every op is recorded, and an id is recorded with the last output,
      in op order and then output order, that carries it. */
  lemma {:induction false} ProducerMapLast(ops: seq<OpId>, n0: map<OpId, Op>, v0: map<ValueId, Value>)
    requires OpsWired(ops, n0, v0)
    ensures forall k, j | OutputPos(ops, n0, k, j) :: OutId(ops, n0, v0, k, j) in ProducerMap(ops, n0, v0)
    ensures forall k, j | OutputPos(ops, n0, k, j) && LastProducer(ops, n0, v0, k, j) ::
              ProducerMap(ops, n0, v0)[OutId(ops, n0, v0, k, j)] == Port(ops[k], j)
  {
    if ops != [] {
      var m := |ops| - 1;
      var o, prefix := ops[m], ops[..m];
      var outs := n0[o].outputs;
      var pm := ProducerMap(prefix, n0, v0);
      ProducerMapLast(prefix, n0, v0);
      WithOutputsLast(pm, o, outs, v0, |outs|);
      WithOutputsSound(pm, o, outs, v0, |outs|);
      forall k, j | OutputPos(ops, n0, k, j)
        ensures OutId(ops, n0, v0, k, j) in ProducerMap(ops, n0, v0)
      {
        if k < m {
          assert OutputPos(prefix, n0, k, j) && OutId(prefix, n0, v0, k, j) == OutId(ops, n0, v0, k, j);
        }
      }
      forall k, j | OutputPos(ops, n0, k, j) && LastProducer(ops, n0, v0, k, j)
        ensures ProducerMap(ops, n0, v0)[OutId(ops, n0, v0, k, j)] == Port(ops[k], j)
      {
        var id := OutId(ops, n0, v0, k, j);
        if k < m {
          assert OutputPos(prefix, n0, k, j) && OutId(prefix, n0, v0, k, j) == id;
          forall k2, j2 | OutputPos(prefix, n0, k2, j2) && Before(k, j, k2, j2)
            ensures OutId(prefix, n0, v0, k2, j2) != id
          {
            assert OutputPos(ops, n0, k2, j2);
          }
          assert LastProducer(prefix, n0, v0, k, j);
          forall j2 | 0 <= j2 < |outs|
            ensures v0[outs[j2]].lt.id != id
          {
            assert OutputPos(ops, n0, m, j2) && Before(k, j, m, j2);
          }
        } else {
          forall j2 | j < j2 < |outs|
            ensures v0[outs[j2]].lt.id != id
          {
            assert OutputPos(ops, n0, m, j2) && Before(k, j, m, j2);
          }
          assert LastAmong(outs, v0, j, |outs|);
        }
      }
    }
  }

  // ---------------------------------------------------------------------------
  // The graph

  class Graph {
    var ops: seq<OpId>
    var opNodes: map<OpId, Op>
    var values: map<ValueId, Value>
    var isBuilt: bool
    /** Handle for the next op `create_op` adds. */
    var nextOpId: nat

    ghost predicate Valid()
      reads this
    {
      OpsWired(ops, opNodes, values)
      && Distinct(ops)
      && (forall o | o in opNodes :: o < nextOpId)
    }

    /** `build_graph`: check that all tensors sharing an id agree, record each
        output id's producer (a later op overriding an earlier one), then
        connect every op input to the producer of its tensor id, or to one
        producer-less value per unproduced id. */
    method BuildGraph() returns (status: Status)
      requires Valid()
      modifies this
      ensures Valid() && ops == old(ops) && nextOpId == old(nextOpId)
      ensures isBuilt <==> status == Success
      ensures status != InvalidArgument
      ensures old(isBuilt) ==> status == Success && unchanged(this)
      ensures !old(isBuilt) ==> (status == InvalidGraph <==> !IdConsistent(map[], CheckedLts(ops, old(opNodes), old(values))))
      ensures status == InvalidGraph ==> opNodes == old(opNodes) && values == old(values)
      ensures !old(isBuilt) && status == Success ==> Built(ops, old(opNodes), old(values), opNodes, values)
    {
      if isBuilt {
        return Success;
      }
      var ok, opToTensorId, tensorIdToProducer := CheckAndCollect();
      if !ok {
        return InvalidGraph;
      }
      ConnectInputs(opToTensorId, tensorIdToProducer);
      isBuilt := true;
      return Success;
    }

    /** The first pass of `build_graph`: the id-consistency check of every op's
        inputs and then outputs, the input tensor ids of each op, and the
        producer of each output tensor id. */
    method CheckAndCollect() returns (ok: bool, opToTensorId: map<OpId, seq<nat>>, tensorIdToProducer: map<nat, Port>)
      requires Valid()
      ensures ok <==> IdConsistent(map[], CheckedLts(ops, opNodes, values))
      ensures ok ==> tensorIdToProducer == ProducerMap(ops, opNodes, values)
      ensures ok ==> InputIdsOf(ops, opNodes, values, opToTensorId, |ops|)
    {
      var idToTensor: map<nat, LogicalTensor> := map[];
      opToTensorId := map[];
      tensorIdToProducer := map[];
      WiredPrefixes(ops, opNodes, values);
      for k := 0 to |ops|
        invariant IdConsistent(map[], CheckedLts(ops[..k], opNodes, values))
        invariant Records(idToTensor, map[], CheckedLts(ops[..k], opNodes, values))
        invariant tensorIdToProducer == ProducerMap(ops[..k], opNodes, values)
        invariant InputIdsOf(ops, opNodes, values, opToTensorId, k)
      {
        var o := ops[k];
        var op := opNodes[o];
        CheckedLtsStep(ops, opNodes, values, k);
        ok, idToTensor := CheckOpTensors(idToTensor, values, op, CheckedLts(ops[..k], opNodes, values));
        if !ok {
          InconsistentExtends(ops, opNodes, values, k + 1);
          return false, opToTensorId, tensorIdToProducer;
        }
        var ids := GetIds(values, op.inputs);
        InputIdsStep(ops, opNodes, values, opToTensorId, k, ids);
        opToTensorId := opToTensorId[o := ids];
        tensorIdToProducer := RecordProducers(tensorIdToProducer, values, o, op.outputs);
      }
      assert ops[..|ops|] == ops;
      ok := true;
    }

    /** The connecting pass of `build_graph`. */
    method ConnectInputs(opToTensorId: map<OpId, seq<nat>>, tensorIdToProducer: map<nat, Port>)
      requires Valid()
      requires tensorIdToProducer == ProducerMap(ops, opNodes, values)
      requires InputIdsOf(ops, opNodes, values, opToTensorId, |ops|)
      modifies this
      ensures Valid() && ops == old(ops) && nextOpId == old(nextOpId) && isBuilt == old(isBuilt)
      ensures Built(ops, old(opNodes), old(values), opNodes, values)
    {
      ghost var n0 := opNodes;
      ghost var v0 := values;
      var nodes: map<OpId, Op> := opNodes;
      var vals: map<ValueId, Value> := values;
      var dummies: map<nat, ValueId> := map[];
      ghost var firstAt: map<nat, (int, int)> := map[];
      for k := 0 to |ops|
        invariant unchanged(this)
        invariant ConnectInv(ops, n0, v0, nodes, vals, dummies, firstAt, k, 0)
      {
        var o := ops[k];
        var inputTensorIds := opToTensorId[o];
        for i := 0 to |inputTensorIds|
          invariant unchanged(this)
          invariant ConnectInv(ops, n0, v0, nodes, vals, dummies, firstAt, k, i)
        {
          nodes, vals, dummies, firstAt :=
            ConnectInput(ops, n0, v0, nodes, vals, dummies, firstAt, tensorIdToProducer, k, i, inputTensorIds[i]);
        }
        NextOp(ops, n0, v0, nodes, vals, dummies, firstAt, k);
      }
      ConnectDone(ops, n0, v0, nodes, vals, dummies, firstAt);
      opNodes := nodes;
      values := vals;
    }
  }

  /** Recording the outputs of op `o` as the producers of their tensor ids:
      every output id is recorded, with the last output of `o` carrying it;
      other ids keep their entry, and no other entry appears. */
  method RecordProducers(pm: map<nat, Port>, values: map<ValueId, Value>, o: OpId, outs: seq<ValueId>)
      returns (pm': map<nat, Port>)
    requires forall v | v in outs :: v in values
    ensures pm' == WithOutputs(pm, o, outs, values, |outs|)
    ensures forall j | 0 <= j < |outs| :: values[outs[j]].lt.id in pm'
    ensures forall j | 0 <= j < |outs| && LastAmong(outs, values, j, |outs|) :: pm'[values[outs[j]].lt.id] == Port(o, j)
    ensures forall id | id in pm && (forall j | 0 <= j < |outs| :: values[outs[j]].lt.id != id) :: id in pm' && pm'[id] == pm[id]
    ensures forall id | id in pm' && id !in pm ::
              pm'[id].op == o && pm'[id].offset < |outs| && values[outs[pm'[id].offset]].lt.id == id
  {
    pm' := pm;
    for i := 0 to |outs|
      invariant pm' == WithOutputs(pm, o, outs, values, i)
    {
      pm' := pm'[values[outs[i]].lt.id := Port(o, i)];
    }
    WithOutputsLast(pm, o, outs, values, |outs|);
    WithOutputsSound(pm, o, outs, values, |outs|);
  }

  /** The connecting pass at input i of the k-th op, whose tensor id is
      `id`: link it to the producer's output, to the value already shared by
      its unproduced id, or keep its own value as that shared value. A value
      that becomes shared loses its producer. */
  method ConnectInput(ops: seq<OpId>, ghost n0: map<OpId, Op>, ghost v0: map<ValueId, Value>,
                      nodes: map<OpId, Op>, vals: map<ValueId, Value>, dummies: map<nat, ValueId>,
                      ghost firstAt: map<nat, (int, int)>, tensorIdToProducer: map<nat, Port>, k: int, i: int, id: nat)
      returns (nodes': map<OpId, Op>, vals': map<ValueId, Value>, dummies': map<nat, ValueId>, ghost firstAt': map<nat, (int, int)>)
    requires ConnectInv(ops, n0, v0, nodes, vals, dummies, firstAt, k, i) && InputPos(ops, n0, k, i)
    requires tensorIdToProducer == ProducerMap(ops, n0, v0) && id == InId(ops, n0, v0, k, i)
    ensures ConnectInv(ops, n0, v0, nodes', vals', dummies', firstAt', k, i + 1)
  {
    ProducedStored(ops, n0, v0, nodes, vals);
    var o := ops[k];
    var v;
    dummies', firstAt' := dummies, firstAt;
    if id in tensorIdToProducer {
      var producer := tensorIdToProducer[id];
      v := nodes[producer.op].outputs[producer.offset];
      vals' := vals[v := AddConsumer(vals[v], Port(o, i))];
    } else if id in dummies {
      v := dummies[id];
      vals' := vals[v := AddConsumer(vals[v], Port(o, i)).(producer := None)];
    } else {
      v := nodes[o].inputs[i];
      dummies' := dummies[id := v];
      firstAt' := firstAt[id := (k, i)];
      vals' := vals[v := AddConsumer(vals[v], Port(o, i)).(producer := None)];
    }
    nodes' := nodes[o := nodes[o].(inputs := nodes[o].inputs[i := v])];
    ConnectStep(ops, n0, v0, nodes, vals, dummies, firstAt, k, i, v, nodes', vals', dummies', firstAt');
  }

  /** `ids` holds the input tensor ids of the first k ops. */
  predicate InputIdsOf(ops: seq<OpId>, n0: map<OpId, Op>, v0: map<ValueId, Value>, ids: map<OpId, seq<nat>>, k: int)
    requires OpsWired(ops, n0, v0)
  {
    forall k2 | 0 <= k2 < k && k2 < |ops| :: ops[k2] in ids
      && |ids[ops[k2]]| == |n0[ops[k2]].inputs|
      && forall i | 0 <= i < |n0[ops[k2]].inputs| :: ids[ops[k2]][i] == InId(ops, n0, v0, k2, i)
  }

  lemma WiredPrefixes(ops: seq<OpId>, n0: map<OpId, Op>, v0: map<ValueId, Value>)
    requires OpsWired(ops, n0, v0)
    ensures forall k | 0 <= k <= |ops| :: OpsWired(ops[..k], n0, v0)
  {
  }

  /** Adding the ids of the k-th op's inputs. */
  lemma InputIdsStep(ops: seq<OpId>, n0: map<OpId, Op>, v0: map<ValueId, Value>, ids: map<OpId, seq<nat>>, k: nat, s: seq<nat>)
    requires OpsWired(ops, n0, v0) && Distinct(ops) && k < |ops| && InputIdsOf(ops, n0, v0, ids, k)
    requires |s| == |n0[ops[k]].inputs| && forall i | 0 <= i < |s| :: s[i] == v0[n0[ops[k]].inputs[i]].lt.id
    ensures InputIdsOf(ops, n0, v0, ids[ops[k] := s], k + 1)
  {
    forall k2 | 0 <= k2 < k
      ensures ops[k2] != ops[k]
    {
      assert ops[k2] != ops[k];
    }
  }

  lemma CheckedLtsStep(ops: seq<OpId>, n0: map<OpId, Op>, v0: map<ValueId, Value>, k: nat)
    requires OpsWired(ops, n0, v0) && k < |ops|
    ensures CheckedLts(ops[..k + 1], n0, v0)
            == CheckedLts(ops[..k], n0, v0) + Lts(v0, n0[ops[k]].inputs) + Lts(v0, n0[ops[k]].outputs)
    ensures ProducerMap(ops[..k + 1], n0, v0)
            == WithOutputs(ProducerMap(ops[..k], n0, v0), ops[k], n0[ops[k]].outputs, v0, |n0[ops[k]].outputs|)
  {
    assert ops[..k + 1][..k] == ops[..k];
  }

  /** The tensors checked for the first k ops come first among all. */
  lemma {:induction false} CheckedPrefix(ops: seq<OpId>, n0: map<OpId, Op>, v0: map<ValueId, Value>, k: nat)
    requires OpsWired(ops, n0, v0) && k <= |ops|
    ensures OpsWired(ops[..k], n0, v0) && CheckedLts(ops[..k], n0, v0) <= CheckedLts(ops, n0, v0)
    decreases |ops| - k
  {
    WiredPrefixes(ops, n0, v0);
    if k == |ops| {
      assert ops[..k] == ops;
    } else {
      CheckedPrefix(ops, n0, v0, k + 1);
      CheckedLtsStep(ops, n0, v0, k);
      var p, q := CheckedLts(ops[..k], n0, v0), CheckedLts(ops[..k + 1], n0, v0);
      assert p <= q;
      assert q == CheckedLts(ops, n0, v0)[..|q|];
    }
  }

  /** An inconsistency among the first k ops' tensors is one among all. */
  lemma InconsistentExtends(ops: seq<OpId>, n0: map<OpId, Op>, v0: map<ValueId, Value>, k: nat)
    requires OpsWired(ops, n0, v0) && k <= |ops|
    requires OpsWired(ops[..k], n0, v0) && !IdConsistent(map[], CheckedLts(ops[..k], n0, v0))
    ensures !IdConsistent(map[], CheckedLts(ops, n0, v0))
  {
    CheckedPrefix(ops, n0, v0, k);
    var all, p := CheckedLts(ops, n0, v0), CheckedLts(ops[..k], n0, v0);
    assert all == p + all[|p|..];
    ConsistentPrefix(map[], p, all[|p|..]);
  }

  /** No op is listed twice. */
  predicate Distinct(ops: seq<OpId>) {
    forall k, l | 0 <= k < l < |ops| :: ops[k] != ops[l]
  }

  /** `n` is `n0` with only op inputs replaced, each op keeping its arity. */
  ghost predicate Reshaped(n0: map<OpId, Op>, n: map<OpId, Op>) {
    n.Keys == n0.Keys
    && forall o | o in n0 :: n[o] == n0[o].(inputs := n[o].inputs) && |n[o].inputs| == |n0[o].inputs|
  }

  /** `vals` is `v0` with consumers added and producers dropped: tensors and
      internal flags are kept, no consumer is lost, no producer appears. */
  ghost predicate Grown(v0: map<ValueId, Value>, vals: map<ValueId, Value>) {
    vals.Keys == v0.Keys
    && forall v | v in v0 :: vals[v].lt == v0[v].lt && vals[v].internal == v0[v].internal
         && (forall p | p in v0[v].consumers :: p in vals[v].consumers)
         && (v0[v].producer == None ==> vals[v].producer == None)
  }

  /** Loop invariant of the connecting pass, at input i of the k-th op. */
  ghost predicate ConnectInv(ops: seq<OpId>, n0: map<OpId, Op>, v0: map<ValueId, Value>,
                             n: map<OpId, Op>, vals: map<ValueId, Value>,
                             dummies: map<nat, ValueId>, firstAt: map<nat, (int, int)>, k: int, i: int)
  {
    OpsWired(ops, n0, v0) && Distinct(ops)
    && Reshaped(n0, n) && Grown(v0, vals) && OpsWired(ops, n, vals)
    && LinkedBefore(ops, n0, v0, n, vals, dummies, k, i)
    && UntouchedFrom(ops, n0, n, k, i)
    && DummiesRecorded(ops, n0, v0, vals, dummies, firstAt, k, i)
    && FramedSoFar(ops, n0, v0, n, vals, dummies, k, i)
  }

  /** Every input visited before (k, i) is linked. */
  ghost predicate LinkedBefore(ops: seq<OpId>, n0: map<OpId, Op>, v0: map<ValueId, Value>,
                               n: map<OpId, Op>, vals: map<ValueId, Value>, dummies: map<nat, ValueId>, k: int, i: int)
    requires OpsWired(ops, n0, v0)
  {
    forall k2, i2 | InputPos(ops, n0, k2, i2) && Before(k2, i2, k, i) :: LinkedSoFar(ops, n0, v0, n, vals, dummies, k2, i2)
  }

  /** No input from (k, i) on has been touched. */
  ghost predicate UntouchedFrom(ops: seq<OpId>, n0: map<OpId, Op>, n: map<OpId, Op>, k: int, i: int) {
    forall k2, i2 | InputPos(ops, n0, k2, i2) && !Before(k2, i2, k, i) ::
      ops[k2] in n && i2 < |n[ops[k2]].inputs| && n[ops[k2]].inputs[i2] == n0[ops[k2]].inputs[i2]
  }

  /** Each recorded unproduced id holds a producer-less value and was first
      met at an input visited before (k, i). */
  ghost predicate DummiesRecorded(ops: seq<OpId>, n0: map<OpId, Op>, v0: map<ValueId, Value>,
                                  vals: map<ValueId, Value>, dummies: map<nat, ValueId>, firstAt: map<nat, (int, int)>, k: int, i: int)
    requires OpsWired(ops, n0, v0)
  {
    forall id | id in dummies ::
      id !in ProducerMap(ops, n0, v0) && dummies[id] in vals && vals[dummies[id]].producer == None
      && id in firstAt && InputPos(ops, n0, firstAt[id].0, firstAt[id].1)
      && Before(firstAt[id].0, firstAt[id].1, k, i) && InId(ops, n0, v0, firstAt[id].0, firstAt[id].1) == id
  }

  /** One step of the connecting pass at input i of the k-th op, whose tensor
      id is produced (link to the producer's output), already met without a
      producer (link to the shared value) or met for the first time (keep
      the input's own value, drop its producer and record it). */
  ghost predicate StepTaken(ops: seq<OpId>, n0: map<OpId, Op>, v0: map<ValueId, Value>,
                            n: map<OpId, Op>, vals: map<ValueId, Value>, dummies: map<nat, ValueId>, firstAt: map<nat, (int, int)>,
                            k: int, i: int, v: ValueId,
                            n': map<OpId, Op>, vals': map<ValueId, Value>, dummies': map<nat, ValueId>, firstAt': map<nat, (int, int)>)
    requires OpsWired(ops, n0, v0) && InputPos(ops, n0, k, i)
  {
    var o := ops[k];
    var id := InId(ops, n0, v0, k, i);
    var pm := ProducerMap(ops, n0, v0);
    v in vals && o in n && i < |n[o].inputs|
    && n' == n[o := n[o].(inputs := n[o].inputs[i := v])]
    && (id in pm ==>
          pm[id].op in n0 && pm[id].offset < |n0[pm[id].op].outputs| && v == n0[pm[id].op].outputs[pm[id].offset]
          && vals' == vals[v := AddConsumer(vals[v], Port(o, i))] && dummies' == dummies && firstAt' == firstAt)
    && (id !in pm && id in dummies ==>
          v == dummies[id] && vals' == vals[v := AddConsumer(vals[v], Port(o, i)).(producer := None)]
          && dummies' == dummies && firstAt' == firstAt)
    && (id !in pm && id !in dummies ==>
          v == n0[o].inputs[i] && vals' == vals[v := AddConsumer(vals[v], Port(o, i)).(producer := None)]
          && dummies' == dummies[id := v] && firstAt' == firstAt[id := (k, i)])
  }

  /** The producer entries name stored outputs that the connecting pass
      never changes. */
  lemma ProducedStored(ops: seq<OpId>, n0: map<OpId, Op>, v0: map<ValueId, Value>, n: map<OpId, Op>, vals: map<ValueId, Value>)
    requires OpsWired(ops, n0, v0) && Reshaped(n0, n) && Grown(v0, vals)
    ensures forall id | id in ProducerMap(ops, n0, v0) ::
              var p := ProducerMap(ops, n0, v0)[id];
              p.op in n0 && p.op in n && p.offset < |n0[p.op].outputs| && n[p.op].outputs == n0[p.op].outputs
              && n0[p.op].outputs[p.offset] in vals
  {
    var pm := ProducerMap(ops, n0, v0);
    ProducerMapSound(ops, n0, v0);
    forall id | id in pm
      ensures n0[pm[id].op].outputs[pm[id].offset] in vals
    {
      var p := pm[id];
      var j :| 0 <= j < |ops| && ops[j] == p.op;
      assert n0[p.op].outputs[p.offset] in n0[ops[j]].outputs;
    }
  }

  /** The linking of an input survives steps that leave its value alone. */
  lemma LinkedStable(ops: seq<OpId>, n0: map<OpId, Op>, v0: map<ValueId, Value>,
                     n: map<OpId, Op>, vals: map<ValueId, Value>, dummies: map<nat, ValueId>,
                     n': map<OpId, Op>, vals': map<ValueId, Value>, dummies': map<nat, ValueId>, k2: int, i2: int)
    requires OpsWired(ops, n0, v0) && InputPos(ops, n0, k2, i2)
    requires LinkedSoFar(ops, n0, v0, n, vals, dummies, k2, i2)
    requires ops[k2] in n' && i2 < |n'[ops[k2]].inputs| && n'[ops[k2]].inputs[i2] == n[ops[k2]].inputs[i2]
    requires Grown(vals, vals')
    requires forall id | id in dummies :: id in dummies' && dummies'[id] == dummies[id]
    ensures LinkedSoFar(ops, n0, v0, n', vals', dummies', k2, i2)
  {
  }

  /** Every input other than (k, i) holds in `n'` the value it holds in `n`. */
  ghost predicate SameInputsExcept(ops: seq<OpId>, n0: map<OpId, Op>, n: map<OpId, Op>, n': map<OpId, Op>, k: int, i: int) {
    forall k2, i2 | InputPos(ops, n0, k2, i2) && (k2, i2) != (k, i) ::
      ops[k2] in n && ops[k2] in n' && i2 < |n[ops[k2]].inputs| && i2 < |n'[ops[k2]].inputs|
      && n'[ops[k2]].inputs[i2] == n[ops[k2]].inputs[i2]
  }

  /** What a step does to the values: tensors are kept, consumers only grow,
      and recorded dummies stay. */
  lemma StepValues(ops: seq<OpId>, n0: map<OpId, Op>, v0: map<ValueId, Value>,
                   n: map<OpId, Op>, vals: map<ValueId, Value>, dummies: map<nat, ValueId>, firstAt: map<nat, (int, int)>,
                   k: int, i: int, v: ValueId,
                   n': map<OpId, Op>, vals': map<ValueId, Value>, dummies': map<nat, ValueId>, firstAt': map<nat, (int, int)>)
    requires OpsWired(ops, n0, v0) && InputPos(ops, n0, k, i) && Grown(v0, vals)
    requires StepTaken(ops, n0, v0, n, vals, dummies, firstAt, k, i, v, n', vals', dummies', firstAt')
    ensures Grown(vals, vals') && Grown(v0, vals')
    ensures forall id | id in dummies :: id in dummies' && dummies'[id] == dummies[id]
  {
    var id := InId(ops, n0, v0, k, i);
    var drop := id !in ProducerMap(ops, n0, v0);
    assert vals' == vals[v := if drop then AddConsumer(vals[v], Port(ops[k], i)).(producer := None)
                              else AddConsumer(vals[v], Port(ops[k], i))];
    ConsumerAdded(vals, v, Port(ops[k], i), drop, vals');
    GrownTrans(v0, vals, vals');
  }

  /** Registering a consumer, and possibly dropping the producer, grows the
      store. */
  lemma ConsumerAdded(vals: map<ValueId, Value>, v: ValueId, p: Port, drop: bool, vals': map<ValueId, Value>)
    requires v in vals
    requires vals' == vals[v := if drop then AddConsumer(vals[v], p).(producer := None) else AddConsumer(vals[v], p)]
    ensures Grown(vals, vals')
  {
  }

  lemma GrownTrans(a: map<ValueId, Value>, b: map<ValueId, Value>, c: map<ValueId, Value>)
    requires Grown(a, b) && Grown(b, c)
    ensures Grown(a, c)
  {
  }

  /** What a step does to the ops: only the input changes, to a stored
      value. */
  lemma StepOps(ops: seq<OpId>, n0: map<OpId, Op>, v0: map<ValueId, Value>,
                n: map<OpId, Op>, vals: map<ValueId, Value>, dummies: map<nat, ValueId>, firstAt: map<nat, (int, int)>,
                k: int, i: int, v: ValueId,
                n': map<OpId, Op>, vals': map<ValueId, Value>, dummies': map<nat, ValueId>, firstAt': map<nat, (int, int)>)
    requires OpsWired(ops, n0, v0) && InputPos(ops, n0, k, i)
    requires Reshaped(n0, n) && OpsWired(ops, n, vals) && vals'.Keys == vals.Keys
    requires StepTaken(ops, n0, v0, n, vals, dummies, firstAt, k, i, v, n', vals', dummies', firstAt')
    ensures Reshaped(n0, n') && OpsWired(ops, n', vals')
  {
    forall k2 | 0 <= k2 < |ops|
      ensures ops[k2] in n' && Wired(vals', n'[ops[k2]])
    {
      assert Wired(vals, n[ops[k2]]);
    }
  }

  /** A step changes input (k, i) only. */
  lemma StepInputs(ops: seq<OpId>, n0: map<OpId, Op>, v0: map<ValueId, Value>,
                   n: map<OpId, Op>, vals: map<ValueId, Value>, dummies: map<nat, ValueId>, firstAt: map<nat, (int, int)>,
                   k: int, i: int, v: ValueId,
                   n': map<OpId, Op>, vals': map<ValueId, Value>, dummies': map<nat, ValueId>, firstAt': map<nat, (int, int)>)
    requires OpsWired(ops, n0, v0) && InputPos(ops, n0, k, i) && Distinct(ops) && Reshaped(n0, n)
    requires StepTaken(ops, n0, v0, n, vals, dummies, firstAt, k, i, v, n', vals', dummies', firstAt')
    ensures SameInputsExcept(ops, n0, n, n', k, i)
  {
    var o := ops[k];
    forall k2, i2 | InputPos(ops, n0, k2, i2) && (k2, i2) != (k, i)
      ensures ops[k2] in n && ops[k2] in n' && i2 < |n[ops[k2]].inputs| && i2 < |n'[ops[k2]].inputs|
              && n'[ops[k2]].inputs[i2] == n[ops[k2]].inputs[i2]
    {
      if k2 != k {
        assert ops[k2] != o by {
          if k2 < k { assert ops[k2] != ops[k]; } else { assert ops[k] != ops[k2]; }
        }
      }
    }
  }

  /** The input just visited is linked after its step. */
  lemma StepLinksCurrent(ops: seq<OpId>, n0: map<OpId, Op>, v0: map<ValueId, Value>,
                         n: map<OpId, Op>, vals: map<ValueId, Value>, dummies: map<nat, ValueId>, firstAt: map<nat, (int, int)>,
                         k: int, i: int, v: ValueId,
                         n': map<OpId, Op>, vals': map<ValueId, Value>, dummies': map<nat, ValueId>, firstAt': map<nat, (int, int)>)
    requires OpsWired(ops, n0, v0) && InputPos(ops, n0, k, i)
    requires DummiesRecorded(ops, n0, v0, vals, dummies, firstAt, k, i)
    requires StepTaken(ops, n0, v0, n, vals, dummies, firstAt, k, i, v, n', vals', dummies', firstAt')
    ensures LinkedSoFar(ops, n0, v0, n', vals', dummies', k, i)
  {
    var o := ops[k];
    var id := InId(ops, n0, v0, k, i);
    assert n'[o].inputs[i] == v;
    assert Port(o, i) in vals'[v].consumers;
    if id !in ProducerMap(ops, n0, v0) && id in dummies {
      var k1, i1 := firstAt[id].0, firstAt[id].1;
      assert InputPos(ops, n0, k1, i1) && Before(k1, i1, k, i) && InId(ops, n0, v0, k1, i1) == id;
    }
  }

  /** Inputs linked before a step stay linked. */
  lemma StepKeepsLinked(ops: seq<OpId>, n0: map<OpId, Op>, v0: map<ValueId, Value>,
                        n: map<OpId, Op>, vals: map<ValueId, Value>, dummies: map<nat, ValueId>,
                        k: int, i: int,
                        n': map<OpId, Op>, vals': map<ValueId, Value>, dummies': map<nat, ValueId>)
    requires OpsWired(ops, n0, v0) && InputPos(ops, n0, k, i)
    requires LinkedBefore(ops, n0, v0, n, vals, dummies, k, i)
    requires SameInputsExcept(ops, n0, n, n', k, i) && Grown(vals, vals')
    requires forall id | id in dummies :: id in dummies' && dummies'[id] == dummies[id]
    requires LinkedSoFar(ops, n0, v0, n', vals', dummies', k, i)
    ensures LinkedBefore(ops, n0, v0, n', vals', dummies', k, i + 1)
  {
    forall k2, i2 | InputPos(ops, n0, k2, i2) && Before(k2, i2, k, i + 1)
      ensures LinkedSoFar(ops, n0, v0, n', vals', dummies', k2, i2)
    {
      if (k2, i2) != (k, i) {
        LinkedStable(ops, n0, v0, n, vals, dummies, n', vals', dummies', k2, i2);
      }
    }
  }

  /** The recorded dummies stay producer-less and first met before the
      next input. */
  lemma StepDummies(ops: seq<OpId>, n0: map<OpId, Op>, v0: map<ValueId, Value>,
                    n: map<OpId, Op>, vals: map<ValueId, Value>, dummies: map<nat, ValueId>, firstAt: map<nat, (int, int)>,
                    k: int, i: int, v: ValueId,
                    n': map<OpId, Op>, vals': map<ValueId, Value>, dummies': map<nat, ValueId>, firstAt': map<nat, (int, int)>)
    requires OpsWired(ops, n0, v0) && InputPos(ops, n0, k, i)
    requires DummiesRecorded(ops, n0, v0, vals, dummies, firstAt, k, i) && Grown(vals, vals')
    requires StepTaken(ops, n0, v0, n, vals, dummies, firstAt, k, i, v, n', vals', dummies', firstAt')
    ensures DummiesRecorded(ops, n0, v0, vals', dummies', firstAt', k, i + 1)
  {
    var id := InId(ops, n0, v0, k, i);
    var pm := ProducerMap(ops, n0, v0);
    forall id2 | id2 in dummies'
      ensures id2 !in pm && dummies'[id2] in vals' && vals'[dummies'[id2]].producer == None
              && id2 in firstAt' && InputPos(ops, n0, firstAt'[id2].0, firstAt'[id2].1)
              && Before(firstAt'[id2].0, firstAt'[id2].1, k, i + 1) && InId(ops, n0, v0, firstAt'[id2].0, firstAt'[id2].1) == id2
    {
      if id2 in dummies {
        assert dummies'[id2] == dummies[id2] && firstAt'[id2] == firstAt[id2];
        assert vals[dummies[id2]].producer == None;
      } else {
        assert id2 == id && id !in pm && id !in dummies;
        assert firstAt'[id2] == (k, i) && vals'[dummies'[id2]].producer == None;
      }
    }
  }

  /** A step registers one consumer, (o, i), with the value input i now
      holds, and drops a producer only of a recorded shared value. */
  lemma StepFramed(ops: seq<OpId>, n0: map<OpId, Op>, v0: map<ValueId, Value>,
                   n: map<OpId, Op>, vals: map<ValueId, Value>, dummies: map<nat, ValueId>, firstAt: map<nat, (int, int)>,
                   k: int, i: int, v: ValueId,
                   n': map<OpId, Op>, vals': map<ValueId, Value>, dummies': map<nat, ValueId>, firstAt': map<nat, (int, int)>)
    requires OpsWired(ops, n0, v0) && InputPos(ops, n0, k, i) && Distinct(ops) && Reshaped(n0, n)
    requires FramedSoFar(ops, n0, v0, n, vals, dummies, k, i)
    requires StepTaken(ops, n0, v0, n, vals, dummies, firstAt, k, i, v, n', vals', dummies', firstAt')
    ensures FramedSoFar(ops, n0, v0, n', vals', dummies', k, i + 1)
  {
    var o := ops[k];
    StepInputs(ops, n0, v0, n, vals, dummies, firstAt, k, i, v, n', vals', dummies', firstAt');
    forall id | id in dummies
      ensures id in dummies' && dummies'[id] == dummies[id]
    {
    }
    forall w | w in v0 && w in vals'
      ensures (vals'[w].producer != v0[w].producer ==> vals'[w].producer == None && w in dummies'.Values)
              && (forall p | p in vals'[w].consumers && p !in v0[w].consumers :: LinkedPort(ops, n0, n', w, p, k, i + 1))
    {
      if vals'[w].producer != v0[w].producer {
        if w != v || vals'[w].producer == vals[w].producer {
          var id :| id in dummies && dummies[id] == w;
          assert dummies'[id] == w;
        } else {
          var id := InId(ops, n0, v0, k, i);
          assert id in dummies' && dummies'[id] == v;
        }
      }
      forall p | p in vals'[w].consumers && p !in v0[w].consumers
        ensures LinkedPort(ops, n0, n', w, p, k, i + 1)
      {
        if w == v && p == Port(o, i) {
          assert n'[o].inputs[i] == v && Before(k, i, k, i + 1);
        } else {
          assert p in vals[w].consumers;
          var k2 :| 0 <= k2 < |ops| && ops[k2] == p.op && InputPos(ops, n0, k2, p.offset) && Before(k2, p.offset, k, i)
                    && ops[k2] in n && p.offset < |n[ops[k2]].inputs| && n[ops[k2]].inputs[p.offset] == w;
          assert (k2, p.offset) != (k, i);
          assert Before(k2, p.offset, k, i + 1);
        }
      }
    }
  }

  /** One step of the connecting pass keeps its invariant. */
  lemma ConnectStep(ops: seq<OpId>, n0: map<OpId, Op>, v0: map<ValueId, Value>,
                    n: map<OpId, Op>, vals: map<ValueId, Value>, dummies: map<nat, ValueId>, firstAt: map<nat, (int, int)>,
                    k: int, i: int, v: ValueId,
                    n': map<OpId, Op>, vals': map<ValueId, Value>, dummies': map<nat, ValueId>, firstAt': map<nat, (int, int)>)
    requires ConnectInv(ops, n0, v0, n, vals, dummies, firstAt, k, i) && InputPos(ops, n0, k, i)
    requires StepTaken(ops, n0, v0, n, vals, dummies, firstAt, k, i, v, n', vals', dummies', firstAt')
    ensures ConnectInv(ops, n0, v0, n', vals', dummies', firstAt', k, i + 1)
  {
    StepValues(ops, n0, v0, n, vals, dummies, firstAt, k, i, v, n', vals', dummies', firstAt');
    StepOps(ops, n0, v0, n, vals, dummies, firstAt, k, i, v, n', vals', dummies', firstAt');
    StepInputs(ops, n0, v0, n, vals, dummies, firstAt, k, i, v, n', vals', dummies', firstAt');
    StepLinksCurrent(ops, n0, v0, n, vals, dummies, firstAt, k, i, v, n', vals', dummies', firstAt');
    StepKeepsLinked(ops, n0, v0, n, vals, dummies, k, i, n', vals', dummies');
    StepDummies(ops, n0, v0, n, vals, dummies, firstAt, k, i, v, n', vals', dummies', firstAt');
    StepFramed(ops, n0, v0, n, vals, dummies, firstAt, k, i, v, n', vals', dummies', firstAt');
    assert UntouchedFrom(ops, n0, n', k, i + 1);
  }

  /** Finishing an op's inputs is starting the next op. */
  lemma NextOp(ops: seq<OpId>, n0: map<OpId, Op>, v0: map<ValueId, Value>,
               n: map<OpId, Op>, vals: map<ValueId, Value>, dummies: map<nat, ValueId>, firstAt: map<nat, (int, int)>, k: int)
    requires 0 <= k < |ops| && OpsWired(ops, n0, v0)
    requires ConnectInv(ops, n0, v0, n, vals, dummies, firstAt, k, |n0[ops[k]].inputs|)
    ensures ConnectInv(ops, n0, v0, n, vals, dummies, firstAt, k + 1, 0)
  {
    assert forall k2, i2 | InputPos(ops, n0, k2, i2) :: Before(k2, i2, k, |n0[ops[k]].inputs|) == Before(k2, i2, k + 1, 0);
  }

  /** After the last op, the invariant is the build result. */
  lemma ConnectDone(ops: seq<OpId>, n0: map<OpId, Op>, v0: map<ValueId, Value>,
                    n: map<OpId, Op>, vals: map<ValueId, Value>, dummies: map<nat, ValueId>, firstAt: map<nat, (int, int)>)
    requires ConnectInv(ops, n0, v0, n, vals, dummies, firstAt, |ops|, 0)
    ensures Built(ops, n0, v0, n, vals)
  {
    forall k, i | InputPos(ops, n0, k, i)
      ensures LinkedSoFar(ops, n0, v0, n, vals, dummies, k, i)
    {
      assert Before(k, i, |ops|, 0);
    }
    forall w | w in v0 && w in vals && vals[w].producer != v0[w].producer
      ensures SharedUnproduced(ops, n0, v0, n, w)
    {
      var id :| id in dummies && dummies[id] == w;
      var k1, i1 := firstAt[id].0, firstAt[id].1;
      assert Before(k1, i1, |ops|, 0);
      assert LinkedSoFar(ops, n0, v0, n, vals, dummies, k1, i1);
    }
  }
}

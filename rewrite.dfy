/** `rewrite`: each pattern (a list of ops that belong to one partition) is
    replaced by a single Wildcard op. The fused op takes over the pattern's
    boundary inputs, those that enter it from outside, and its boundary
    outputs, those that leave it; the pattern's ops are then deleted. */
module Rewriting {
  import opened Wrappers
  import opened Graphs

  // ---------------------------------------------------------------------------
  // Choosing the boundary

  /** The first m ops of the pattern, as a set. */
  function Visited(pattern: seq<OpId>, m: nat): set<OpId>
    requires m <= |pattern|
  {
    set i | 0 <= i < m :: pattern[i]
  }

  /** A value enters the pattern when it has no producer or its producer is
      not among the ops visited so far. */
  predicate EntersFrom(v: Value, visited: set<OpId>) {
    v.producer.None? || v.producer.value.op !in visited
  }

  /** A value leaves the pattern when nobody consumes it or some consumer is
      outside the pattern. */
  predicate LeavesPattern(v: Value, members: set<OpId>) {
    |v.consumers| == 0 || exists c | c in v.consumers :: c.op !in members
  }

  /** Every op of the pattern is in the store and names only stored values. */
  predicate PatternWired(pattern: seq<OpId>, opNodes: map<OpId, Op>, values: map<ValueId, Value>) {
    forall i | 0 <= i < |pattern| :: pattern[i] in opNodes && Wired(values, opNodes[pattern[i]])
  }

  /** The first n inputs of op `o` that enter the pattern, each with the
      (op, offset) that consumes it. */
  function EnteringInputs(o: OpId, ins: seq<ValueId>, values: map<ValueId, Value>, visited: set<OpId>, n: nat)
      : seq<(ValueId, Port)>
    requires n <= |ins| && forall v | v in ins :: v in values
  {
    if n == 0 then []
    else
      EnteringInputs(o, ins, values, visited, n - 1)
        + (if EntersFrom(values[ins[n - 1]], visited) then [(ins[n - 1], Port(o, n - 1))] else [])
  }

  /** The fused inputs chosen while visiting the first m pattern ops; an op
      counts as visited while its own inputs are scanned. */
  function FusedInputs(pattern: seq<OpId>, opNodes: map<OpId, Op>, values: map<ValueId, Value>, m: nat)
      : seq<(ValueId, Port)>
    requires m <= |pattern| && PatternWired(pattern, opNodes, values)
  {
    if m == 0 then []
    else
      var ins := opNodes[pattern[m - 1]].inputs;
      FusedInputs(pattern, opNodes, values, m - 1)
        + EnteringInputs(pattern[m - 1], ins, values, Visited(pattern, m), |ins|)
  }

  /** The first n outputs of an op that leave the pattern. */
  function LeavingOutputs(outs: seq<ValueId>, values: map<ValueId, Value>, members: set<OpId>, n: nat): seq<ValueId>
    requires n <= |outs| && forall v | v in outs :: v in values
  {
    if n == 0 then []
    else
      LeavingOutputs(outs, values, members, n - 1)
        + (if LeavesPattern(values[outs[n - 1]], members) then [outs[n - 1]] else [])
  }

  /** The fused outputs chosen while visiting the first m pattern ops. */
  function FusedOutputs(pattern: seq<OpId>, opNodes: map<OpId, Op>, values: map<ValueId, Value>, m: nat): seq<ValueId>
    requires m <= |pattern| && PatternWired(pattern, opNodes, values)
  {
    if m == 0 then []
    else
      var outs := opNodes[pattern[m - 1]].outputs;
      FusedOutputs(pattern, opNodes, values, m - 1)
        + LeavingOutputs(outs, values, Visited(pattern, |pattern|), |outs|)
  }

  /** The scan of `rewrite` over one pattern, before anything is rewired. */
  method SelectBoundary(pattern: seq<OpId>, opNodes: map<OpId, Op>, values: map<ValueId, Value>)
      returns (fusedInputs: seq<(ValueId, Port)>, fusedOutputs: seq<ValueId>)
    requires PatternWired(pattern, opNodes, values)
    ensures fusedInputs == FusedInputs(pattern, opNodes, values, |pattern|)
    ensures fusedOutputs == FusedOutputs(pattern, opNodes, values, |pattern|)
  {
    var members: set<OpId> := {};
    for i := 0 to |pattern|
      invariant members == Visited(pattern, i)
    {
      members := members + {pattern[i]};
    }
    var visited: set<OpId> := {};
    fusedInputs, fusedOutputs := [], [];
    for i := 0 to |pattern|
      invariant visited == Visited(pattern, i)
      invariant fusedInputs == FusedInputs(pattern, opNodes, values, i)
      invariant fusedOutputs == FusedOutputs(pattern, opNodes, values, i)
    {
      var cur := pattern[i];
      visited := visited + {cur};
      var op := opNodes[cur];
      for j := 0 to |op.inputs|
        invariant fusedInputs == FusedInputs(pattern, opNodes, values, i) + EnteringInputs(cur, op.inputs, values, visited, j)
      {
        var inValue := values[op.inputs[j]];
        if inValue.producer.None? || inValue.producer.value.op !in visited {
          fusedInputs := fusedInputs + [(op.inputs[j], Port(cur, j))];
        }
      }
      for k := 0 to |op.outputs|
        invariant fusedOutputs == FusedOutputs(pattern, opNodes, values, i) + LeavingOutputs(op.outputs, values, members, k)
      {
        var outValue := values[op.outputs[k]];
        var consAllInPattern := AllConsumersIn(outValue.consumers, members);
        if |outValue.consumers| == 0 || !consAllInPattern {
          fusedOutputs := fusedOutputs + [op.outputs[k]];
        }
      }
    }
  }

  /** Whether every consumer is an op of the pattern; stops at the first one
      that is not. */
  method AllConsumersIn(consumers: seq<Port>, members: set<OpId>) returns (b: bool)
    ensures b <==> forall c | c in consumers :: c.op in members
  {
    b := true;
    for i := 0 to |consumers|
      invariant b && forall j | 0 <= j < i :: consumers[j].op in members
    {
      if consumers[i].op !in members {
        b := false;
        break;
      }
    }
  }

  /** The fused inputs are exactly the pattern-op inputs that enter the
      pattern, each paired with the (op, offset) consuming it. */
  lemma {:induction false} FusedInputsExact(pattern: seq<OpId>, opNodes: map<OpId, Op>, values: map<ValueId, Value>,
                                            m: nat, e: (ValueId, Port))
    requires m <= |pattern| && PatternWired(pattern, opNodes, values)
    ensures e in FusedInputs(pattern, opNodes, values, m) <==>
              exists i, j | 0 <= i < m && 0 <= j < |opNodes[pattern[i]].inputs| ::
                e == (opNodes[pattern[i]].inputs[j], Port(pattern[i], j))
                && EntersFrom(values[opNodes[pattern[i]].inputs[j]], Visited(pattern, i + 1))
  {
    if m > 0 {
      var o := pattern[m - 1];
      var ins := opNodes[o].inputs;
      FusedInputsExact(pattern, opNodes, values, m - 1, e);
      EnteringExact(o, ins, values, Visited(pattern, m), |ins|, e);
      if e in EnteringInputs(o, ins, values, Visited(pattern, m), |ins|) {
        var j :| 0 <= j < |ins| && e == (ins[j], Port(o, j)) && EntersFrom(values[ins[j]], Visited(pattern, m));
        assert m - 1 < m && e == (opNodes[pattern[m - 1]].inputs[j], Port(pattern[m - 1], j));
      }
    }
  }

  lemma {:induction false} EnteringExact(o: OpId, ins: seq<ValueId>, values: map<ValueId, Value>, visited: set<OpId>,
                                         n: nat, e: (ValueId, Port))
    requires n <= |ins| && forall v | v in ins :: v in values
    ensures e in EnteringInputs(o, ins, values, visited, n) <==>
              exists j | 0 <= j < n :: e == (ins[j], Port(o, j)) && EntersFrom(values[ins[j]], visited)
  {
    if n > 0 {
      EnteringExact(o, ins, values, visited, n - 1, e);
    }
  }

  /** The fused outputs are exactly the pattern-op outputs that leave the
      pattern. */
  lemma {:induction false} FusedOutputsExact(pattern: seq<OpId>, opNodes: map<OpId, Op>, values: map<ValueId, Value>,
                                             m: nat, w: ValueId)
    requires m <= |pattern| && PatternWired(pattern, opNodes, values)
    ensures w in FusedOutputs(pattern, opNodes, values, m) <==>
              (exists i, k | 0 <= i < m && 0 <= k < |opNodes[pattern[i]].outputs| :: w == opNodes[pattern[i]].outputs[k])
              && w in values && LeavesPattern(values[w], Visited(pattern, |pattern|))
  {
    if m > 0 {
      var o := pattern[m - 1];
      var outs := opNodes[o].outputs;
      FusedOutputsExact(pattern, opNodes, values, m - 1, w);
      LeavingExact(outs, values, Visited(pattern, |pattern|), |outs|, w);
      if exists i, k | 0 <= i < m && 0 <= k < |opNodes[pattern[i]].outputs| :: w == opNodes[pattern[i]].outputs[k] {
        var i, k :| 0 <= i < m && 0 <= k < |opNodes[pattern[i]].outputs| && w == opNodes[pattern[i]].outputs[k];
        if i == m - 1 {
          assert w == outs[k];
        } else {
          assert i < m - 1;
        }
      }
    }
  }

  lemma {:induction false} LeavingExact(outs: seq<ValueId>, values: map<ValueId, Value>, members: set<OpId>, n: nat, w: ValueId)
    requires n <= |outs| && forall v | v in outs :: v in values
    ensures w in LeavingOutputs(outs, values, members, n) <==>
              (exists k | 0 <= k < n :: w == outs[k]) && w in values && LeavesPattern(values[w], members)
  {
    if n > 0 {
      LeavingExact(outs, values, members, n - 1, w);
    }
  }

  // ---------------------------------------------------------------------------
  // Rewiring

  /** The values of the fused inputs, in order: the fused op's input list. */
  function Firsts(fi: seq<(ValueId, Port)>): (r: seq<ValueId>)
    ensures |r| == |fi| && forall t | 0 <= t < |fi| :: r[t] == fi[t].0
  {
    seq(|fi|, t requires 0 <= t < |fi| => fi[t].0)
  }

  /** The value store after connecting the fused inputs to fused op `f`:
      each value drops the pattern op consuming it and gains (f, t) for its
      position t among the fused inputs. */
  function LinkIn(vals: map<ValueId, Value>, fi: seq<(ValueId, Port)>, f: OpId): (r: map<ValueId, Value>)
    requires forall t | 0 <= t < |fi| :: fi[t].0 in vals
    ensures r.Keys == vals.Keys
  {
    if fi == [] then vals
    else
      var t := |fi| - 1;
      var prev := LinkIn(vals, fi[..t], f);
      prev[fi[t].0 := AddConsumer(RemoveConsumer(prev[fi[t].0], fi[t].1), Port(f, t))]
  }

  /** The value store after making `f` the producer of the fused outputs,
      each at its position among them. */
  function LinkOut(vals: map<ValueId, Value>, fo: seq<ValueId>, f: OpId): (r: map<ValueId, Value>)
    requires forall t | 0 <= t < |fo| :: fo[t] in vals
    ensures r.Keys == vals.Keys
  {
    if fo == [] then vals
    else
      var t := |fo| - 1;
      var prev := LinkOut(vals, fo[..t], f);
      prev[fo[t] := prev[fo[t]].(producer := Some(Port(f, t)))]
  }

  /** One connecting step changes only the consumers of the value it names:
      the pattern op's port leaves them and (f, t) joins them. */
  lemma LinkInStep(vals: map<ValueId, Value>, fi: seq<(ValueId, Port)>, f: OpId, v: ValueId, c: Port)
    requires fi != [] && forall t | 0 <= t < |fi| :: fi[t].0 in vals
    requires v in vals
    ensures var t := |fi| - 1;
            var prev := LinkIn(vals, fi[..t], f)[v];
            var r := LinkIn(vals, fi, f)[v];
            r == prev.(consumers := r.consumers)
            && (c in r.consumers <==>
                  if v == fi[t].0 then (c in prev.consumers && c != fi[t].1) || c == Port(f, t)
                  else c in prev.consumers)
  {
  }

  /** Connecting the fused inputs keeps every tensor, flag and producer; a
      consumer other than `f` stays exactly when it was not a fused input of
      that value, and (f, t) consumes exactly the t-th fused input (given
      that `f` consumed nothing before). */
  lemma {:induction false} LinkInEffect(vals: map<ValueId, Value>, fi: seq<(ValueId, Port)>, f: OpId, v: ValueId, c: Port)
    requires forall t | 0 <= t < |fi| :: fi[t].0 in vals && fi[t].1.op != f
    requires v in vals
    ensures LinkIn(vals, fi, f)[v] == vals[v].(consumers := LinkIn(vals, fi, f)[v].consumers)
    ensures c.op != f ==> (c in LinkIn(vals, fi, f)[v].consumers <==> c in vals[v].consumers && (v, c) !in fi)
    ensures c.op == f ==> (c in LinkIn(vals, fi, f)[v].consumers <==>
                             c in vals[v].consumers || (c.offset < |fi| && fi[c.offset].0 == v))
  {
    if fi != [] {
      var t := |fi| - 1;
      var prefix := fi[..t];
      LinkInEffect(vals, prefix, f, v, c);
      LinkInStep(vals, fi, f, v, c);
      if c.op != f {
        InLastOrPrefix(fi, (v, c));
      } else if c.offset < t {
        assert prefix[c.offset] == fi[c.offset];
      }
    }
  }

  /** An element of a non-empty list is its last element or one of the others. */
  lemma InLastOrPrefix<T>(s: seq<T>, x: T)
    requires s != []
    ensures x in s <==> x in s[..|s| - 1] || x == s[|s| - 1]
  {
    assert s == s[..|s| - 1] + [s[|s| - 1]];
  }

  /** One linking step sets the producer of the value it names. */
  lemma LinkOutStep(vals: map<ValueId, Value>, fo: seq<ValueId>, f: OpId, v: ValueId)
    requires fo != [] && forall t | 0 <= t < |fo| :: fo[t] in vals
    requires v in vals
    ensures var t := |fo| - 1;
            var prev := LinkOut(vals, fo[..t], f)[v];
            LinkOut(vals, fo, f)[v] == if v == fo[t] then prev.(producer := Some(Port(f, t))) else prev
  {
  }

  /** Linking the fused outputs changes producers only: the last listing of a
      value decides its producer, and other values are unchanged. */
  lemma {:induction false} LinkOutEffect(vals: map<ValueId, Value>, fo: seq<ValueId>, f: OpId, v: ValueId, t: nat)
    requires forall t | 0 <= t < |fo| :: fo[t] in vals
    requires v in vals
    ensures LinkOut(vals, fo, f)[v] == vals[v].(producer := LinkOut(vals, fo, f)[v].producer)
    ensures v !in fo ==> LinkOut(vals, fo, f)[v] == vals[v]
    ensures t < |fo| && fo[t] == v && (forall t2 | t < t2 < |fo| :: fo[t2] != v) ==>
              LinkOut(vals, fo, f)[v] == vals[v].(producer := Some(Port(f, t)))
  {
    if fo != [] {
      var last := |fo| - 1;
      var prefix := fo[..last];
      LinkOutEffect(vals, prefix, f, v, t);
      LinkOutStep(vals, fo, f, v);
      assert fo == prefix + [fo[last]];
      if t < last && fo[t] == v {
        assert prefix[t] == v;
      }
    }
  }

  /** The connecting loop for the fused inputs. */
  method ConnectFusedInputs(vals: map<ValueId, Value>, fi: seq<(ValueId, Port)>, f: OpId)
      returns (vals': map<ValueId, Value>, ins: seq<ValueId>)
    requires forall t | 0 <= t < |fi| :: fi[t].0 in vals
    ensures vals' == LinkIn(vals, fi, f) && ins == Firsts(fi)
  {
    vals', ins := vals, [];
    for t := 0 to |fi|
      invariant vals' == LinkIn(vals, fi[..t], f) && ins == Firsts(fi[..t])
    {
      var (v, port) := fi[t];
      LinkInPrefix(vals, fi, f, t);
      FirstsPrefix(fi, t);
      vals' := vals'[v := AddConsumer(RemoveConsumer(vals'[v], port), Port(f, |ins|))];
      ins := ins + [v];
    }
    assert fi[..|fi|] == fi;
  }

  /** One more fused input connected. */
  lemma LinkInPrefix(vals: map<ValueId, Value>, fi: seq<(ValueId, Port)>, f: OpId, t: nat)
    requires t < |fi| && forall t | 0 <= t < |fi| :: fi[t].0 in vals
    ensures var prev := LinkIn(vals, fi[..t], f);
            LinkIn(vals, fi[..t + 1], f) == prev[fi[t].0 := AddConsumer(RemoveConsumer(prev[fi[t].0], fi[t].1), Port(f, t))]
  {
    var s := fi[..t + 1];
    assert s != [] && |s| - 1 == t && s[..t] == fi[..t] && s[t] == fi[t];
  }

  /** One more fused input listed. */
  lemma FirstsPrefix(fi: seq<(ValueId, Port)>, t: nat)
    requires t < |fi|
    ensures |Firsts(fi[..t])| == t && Firsts(fi[..t + 1]) == Firsts(fi[..t]) + [fi[t].0]
  {
    var a, b := Firsts(fi[..t + 1]), Firsts(fi[..t]) + [fi[t].0];
    assert forall i | 0 <= i < t + 1 :: a[i] == b[i];
  }

  /** The connecting loop for the fused outputs. */
  method ConnectFusedOutputs(vals: map<ValueId, Value>, fo: seq<ValueId>, f: OpId)
      returns (vals': map<ValueId, Value>, outs: seq<ValueId>)
    requires forall t | 0 <= t < |fo| :: fo[t] in vals
    ensures vals' == LinkOut(vals, fo, f) && outs == fo
  {
    vals', outs := vals, [];
    for t := 0 to |fo|
      invariant vals' == LinkOut(vals, fo[..t], f) && outs == fo[..t]
    {
      var w := fo[t];
      assert fo[..t + 1][..t] == fo[..t] && fo[..t + 1] == fo[..t] + [w];
      vals' := vals'[w := vals'[w].(producer := Some(Port(f, |outs|)))];
      outs := outs + [w];
    }
    assert fo[..|fo|] == fo;
  }

  // ---------------------------------------------------------------------------
  // Op lists

  /** The ops of `ops` outside `members`, in order. */
  function Remaining(ops: seq<OpId>, members: set<OpId>): seq<OpId> {
    if ops == [] then []
    else
      var last := ops[|ops| - 1];
      Remaining(ops[..|ops| - 1], members) + (if last in members then [] else [last])
  }

  lemma {:induction false} RemainingExact(ops: seq<OpId>, members: set<OpId>, o: OpId)
    ensures o in Remaining(ops, members) <==> o in ops && o !in members
  {
    if ops != [] {
      RemainingExact(ops[..|ops| - 1], members, o);
      assert ops == ops[..|ops| - 1] + [ops[|ops| - 1]];
    }
  }

  lemma {:induction false} RemainingDistinct(ops: seq<OpId>, members: set<OpId>)
    requires Distinct(ops)
    ensures Distinct(Remaining(ops, members))
  {
    if ops != [] {
      var prefix := ops[..|ops| - 1];
      var last := ops[|ops| - 1];
      RemainingDistinct(prefix, members);
      RemainingExact(prefix, members, last);
      assert last !in prefix;
    }
  }

  lemma {:induction false} RemainingTwice(ops: seq<OpId>, a: set<OpId>, b: set<OpId>)
    ensures Remaining(Remaining(ops, a), b) == Remaining(ops, a + b)
  {
    if ops != [] {
      var prefix := ops[..|ops| - 1];
      var last := ops[|ops| - 1];
      RemainingTwice(prefix, a, b);
      var rp := Remaining(prefix, a);
      if last !in a {
        var ra := rp + [last];
        assert Remaining(ops, a) == ra;
        assert ra[..|ra| - 1] == rp;
        assert Remaining(ra, b) == Remaining(rp, b) + (if last in b then [] else [last]);
      } else {
        assert Remaining(ops, a) == rp;
      }
    }
  }

  lemma {:induction false} RemainingConcat(a: seq<OpId>, b: seq<OpId>, m: set<OpId>)
    ensures Remaining(a + b, m) == Remaining(a, m) + Remaining(b, m)
  {
    if b != [] {
      var b' := b[..|b| - 1];
      RemainingConcat(a, b', m);
      assert (a + b)[..|a + b| - 1] == a + b';
    } else {
      assert a + b == a;
    }
  }

  lemma {:induction false} RemainingNone(r: seq<OpId>, m: set<OpId>)
    requires forall k | 0 <= k < |r| :: r[k] !in m
    ensures Remaining(r, m) == r
  {
    if r != [] {
      RemainingNone(r[..|r| - 1], m);
    }
  }

  /** Deleting the pattern's ops one by one (`delete_op`). */
  method DeletePattern(ops: seq<OpId>, nodes: map<OpId, Op>, pattern: seq<OpId>)
      returns (ops': seq<OpId>, nodes': map<OpId, Op>)
    ensures ops' == Remaining(ops, Visited(pattern, |pattern|))
    ensures nodes' == nodes - Visited(pattern, |pattern|)
  {
    ops', nodes' := ops, nodes;
    assert Remaining(ops, {}) == ops by { RemainingNone(ops, {}); }
    assert Visited(pattern, 0) == {};
    for i := 0 to |pattern|
      invariant ops' == Remaining(ops, Visited(pattern, i))
      invariant nodes' == nodes - Visited(pattern, i)
    {
      assert Visited(pattern, i + 1) == Visited(pattern, i) + {pattern[i]};
      RemainingTwice(ops, Visited(pattern, i), {pattern[i]});
      ops' := Remaining(ops', {pattern[i]});
      nodes' := nodes' - {pattern[i]};
    }
  }

  // ---------------------------------------------------------------------------
  // Fusing

  /** A pattern names distinct ops of the graph and is not empty. */
  predicate PatternOk(pattern: seq<OpId>, ops: seq<OpId>) {
    |pattern| > 0 && Distinct(pattern) && forall i | 0 <= i < |pattern| :: pattern[i] in ops
  }

  /** The fused op of `pattern`, with handle `f`. */
  function FusedOp(opNodes: map<OpId, Op>, values: map<ValueId, Value>, pattern: seq<OpId>, f: OpId): Op
    requires |pattern| > 0 && PatternWired(pattern, opNodes, values)
  {
    Op(f, Wildcard, opNodes[pattern[0]].partition,
       Firsts(FusedInputs(pattern, opNodes, values, |pattern|)), FusedOutputs(pattern, opNodes, values, |pattern|))
  }

  /** Every fused input and output is a stored value, and every fused input
      is consumed by a pattern op. */
  lemma BoundaryStored(pattern: seq<OpId>, opNodes: map<OpId, Op>, values: map<ValueId, Value>,
                        fi: seq<(ValueId, Port)>, fo: seq<ValueId>)
    requires PatternWired(pattern, opNodes, values)
    requires fi == FusedInputs(pattern, opNodes, values, |pattern|)
    requires fo == FusedOutputs(pattern, opNodes, values, |pattern|)
    ensures forall t | 0 <= t < |fi| :: fi[t].0 in values && fi[t].1.op in Visited(pattern, |pattern|)
    ensures forall t | 0 <= t < |fo| :: fo[t] in values
  {
    forall t | 0 <= t < |fi|
      ensures fi[t].0 in values && fi[t].1.op in Visited(pattern, |pattern|)
    {
      FusedInputsExact(pattern, opNodes, values, |pattern|, fi[t]);
      var i, j :| 0 <= i < |pattern| && 0 <= j < |opNodes[pattern[i]].inputs|
                  && fi[t] == (opNodes[pattern[i]].inputs[j], Port(pattern[i], j))
                  && EntersFrom(values[opNodes[pattern[i]].inputs[j]], Visited(pattern, i + 1));
      assert opNodes[pattern[i]].inputs[j] in opNodes[pattern[i]].inputs;
    }
    forall t | 0 <= t < |fo|
      ensures fo[t] in values
    {
      FusedOutputsExact(pattern, opNodes, values, |pattern|, fo[t]);
    }
  }

  /** `rewrite` for one pattern: create the fused op with the first op's
      partition, take over the boundary inputs and outputs, delete the
      pattern's ops. */
  method FusePattern(g: Graph, pattern: seq<OpId>)
    requires g.Valid() && PatternOk(pattern, g.ops)
    modifies g
    ensures g.Valid() && g.isBuilt == old(g.isBuilt) && g.nextOpId == old(g.nextOpId) + 1
    ensures FusedRound(Stage(old(g.opNodes), old(g.values)), Stage(g.opNodes, g.values), pattern, old(g.nextOpId))
    ensures g.ops == Remaining(old(g.ops), Visited(pattern, |pattern|)) + [old(g.nextOpId)]
  {
    PatternInGraph(g.ops, g.opNodes, g.values, pattern, g.nextOpId);
    var fusedInputs, fusedOutputs := SelectBoundary(pattern, g.opNodes, g.values);
    BoundaryStored(pattern, g.opNodes, g.values, fusedInputs, fusedOutputs);
    // create_op: a fresh Wildcard op with the first pattern op's partition
    var f := g.nextOpId;
    var vals, ins := ConnectFusedInputs(g.values, fusedInputs, f);
    var vals', outs := ConnectFusedOutputs(vals, fusedOutputs, f);
    var fused := Op(f, Wildcard, g.opNodes[pattern[0]].partition, ins, outs);
    var ops, nodes := DeletePattern(g.ops + [f], g.opNodes[f := fused], pattern);
    CreatedThenDeleted(g.ops, g.opNodes, f, fused, Visited(pattern, |pattern|), ops, nodes);
    FusedValid(g.ops, g.opNodes, g.values, pattern, f, ops, nodes, vals');
    assert FusedRound(Stage(g.opNodes, g.values), Stage(nodes, vals'), pattern, f);
    g.ops, g.opNodes, g.values, g.nextOpId := ops, nodes, vals', f + 1;
  }

  /** Creating the fused op before deleting the pattern's ops is the same as
      deleting them first. */
  lemma CreatedThenDeleted(ops: seq<OpId>, opNodes: map<OpId, Op>, f: OpId, fused: Op, members: set<OpId>,
                           ops': seq<OpId>, nodes: map<OpId, Op>)
    requires f !in members
    requires ops' == Remaining(ops + [f], members) && nodes == opNodes[f := fused] - members
    ensures ops' == Remaining(ops, members) + [f] && nodes == (opNodes - members)[f := fused]
  {
    var s := ops + [f];
    assert s[..|s| - 1] == ops;
    assert nodes == (opNodes - members)[f := fused] by {
      assert nodes.Keys == (opNodes - members)[f := fused].Keys;
    }
  }

  /** The pattern's ops are stored and wired, and the fresh handle is none of
      them. */
  lemma PatternInGraph(ops: seq<OpId>, opNodes: map<OpId, Op>, values: map<ValueId, Value>, pattern: seq<OpId>, next: nat)
    requires OpsWired(ops, opNodes, values) && (forall o | o in opNodes :: o < next) && PatternOk(pattern, ops)
    ensures PatternWired(pattern, opNodes, values)
    ensures next !in ops && next !in Visited(pattern, |pattern|)
  {
    forall i | 0 <= i < |pattern|
      ensures pattern[i] in opNodes && Wired(values, opNodes[pattern[i]])
    {
      assert pattern[i] in ops;
      var k :| 0 <= k < |ops| && ops[k] == pattern[i];
    }
    forall k | 0 <= k < |ops|
      ensures ops[k] != next
    {
      assert ops[k] in opNodes;
    }
  }

  /** The graph after fusing is well formed. */
  lemma FusedValid(ops: seq<OpId>, opNodes: map<OpId, Op>, values: map<ValueId, Value>, pattern: seq<OpId>, f: OpId,
                   ops': seq<OpId>, nodes: map<OpId, Op>, vals: map<ValueId, Value>)
    requires OpsWired(ops, opNodes, values) && Distinct(ops) && (forall o | o in opNodes :: o < f)
    requires PatternOk(pattern, ops) && PatternWired(pattern, opNodes, values)
    requires ops' == Remaining(ops, Visited(pattern, |pattern|)) + [f]
    requires nodes == (opNodes - Visited(pattern, |pattern|))[f := FusedOp(opNodes, values, pattern, f)]
    requires vals.Keys == values.Keys
    ensures OpsWired(ops', nodes, vals) && Distinct(ops') && forall o | o in nodes :: o < f + 1
  {
    var fi := FusedInputs(pattern, opNodes, values, |pattern|);
    var fo := FusedOutputs(pattern, opNodes, values, |pattern|);
    BoundaryStored(pattern, opNodes, values, fi, fo);
    var members := Visited(pattern, |pattern|);
    var rest := Remaining(ops, members);
    PatternInGraph(ops, opNodes, values, pattern, f);
    forall k | 0 <= k < |ops'|
      ensures ops'[k] in nodes && Wired(vals, nodes[ops'[k]])
    {
      if k < |rest| {
        var o := rest[k];
        RemainingExact(ops, members, o);
        var k2 :| 0 <= k2 < |ops| && ops[k2] == o;
        assert Wired(values, opNodes[o]);
        assert nodes[o] == opNodes[o];
      } else {
        var ins := Firsts(fi);
        forall v | v in ins
          ensures v in vals
        {
          var t :| 0 <= t < |ins| && ins[t] == v;
          assert fi[t].0 in values;
        }
        assert nodes[f].inputs == ins && nodes[f].outputs == fo;
      }
    }
    RemainingDistinct(ops, members);
    forall k | 0 <= k < |rest|
      ensures rest[k] != f
    {
      RemainingExact(ops, members, rest[k]);
    }
  }

  // ---------------------------------------------------------------------------
  // All patterns

  /** The ops of the first p patterns. */
  function AllMembers(fusionOps: seq<seq<OpId>>, p: nat): set<OpId>
    requires p <= |fusionOps|
  {
    set q, i | 0 <= q < p && 0 <= i < |fusionOps[q]| :: fusionOps[q][i]
  }

  /** The handles next, next + 1, ..., next + p - 1. */
  function FreshRange(next: nat, p: nat): (r: seq<OpId>)
    ensures |r| == p && forall q | 0 <= q < p :: r[q] == next + q
  {
    seq(p, q requires 0 <= q < p => next + q)
  }

  /** No op is named by two patterns, or twice by one. */
  predicate PatternsDisjoint(fusionOps: seq<seq<OpId>>) {
    forall q1, q2, i, j | 0 <= q1 < q2 < |fusionOps| && 0 <= i < |fusionOps[q1]| && 0 <= j < |fusionOps[q2]| ::
      fusionOps[q1][i] != fusionOps[q2][j]
  }

  /** The op and value stores of the graph between two rounds of `rewrite`. */
  datatype Stage = Stage(opNodes: map<OpId, Op>, values: map<ValueId, Value>)

  /** Stage `after` is stage `before` with `pattern` fused into the new op
      `f`: the values rewired as LinkIn then LinkOut, the pattern's ops
      replaced by the fused op. */
  ghost predicate FusedRound(before: Stage, after: Stage, pattern: seq<OpId>, f: OpId) {
    |pattern| > 0 && PatternWired(pattern, before.opNodes, before.values)
    && var fi := FusedInputs(pattern, before.opNodes, before.values, |pattern|);
       var fo := FusedOutputs(pattern, before.opNodes, before.values, |pattern|);
       (forall t | 0 <= t < |fi| :: fi[t].0 in before.values)
       && (forall t | 0 <= t < |fo| :: fo[t] in before.values)
       && after.values == LinkOut(LinkIn(before.values, fi, f), fo, f)
       && after.opNodes == (before.opNodes - Visited(pattern, |pattern|))[f := FusedOp(before.opNodes, before.values, pattern, f)]
  }

  /** The op store holds, at handle f, the op that fusing `pattern` in stage
      `at` created. */
  ghost predicate FusedOpKept(at: Stage, pattern: seq<OpId>, f: OpId, opNodes: map<OpId, Op>) {
    |pattern| > 0 && PatternWired(pattern, at.opNodes, at.values)
    && f in opNodes && opNodes[f] == FusedOp(at.opNodes, at.values, pattern, f)
  }

  /** `rewrite`: fuse every pattern in turn; pattern p becomes the op with
      handle `nextOpId + p`, and all pattern ops leave the graph. The ghost
      `stages` are the stores before each round and after the last: round p
      fuses pattern p as FusePattern does, and the op it creates is still in
      the graph at the end. */
  method Rewrite(g: Graph, fusionOps: seq<seq<OpId>>) returns (ghost stages: seq<Stage>)
    requires g.Valid()
    requires forall p | 0 <= p < |fusionOps| :: PatternOk(fusionOps[p], g.ops)
    requires PatternsDisjoint(fusionOps)
    modifies g
    ensures g.Valid() && g.isBuilt == old(g.isBuilt) && g.nextOpId == old(g.nextOpId) + |fusionOps|
    ensures g.ops == Remaining(old(g.ops), AllMembers(fusionOps, |fusionOps|)) + FreshRange(old(g.nextOpId), |fusionOps|)
    ensures forall o | o in old(g.opNodes) && o !in AllMembers(fusionOps, |fusionOps|) :: o in g.opNodes && g.opNodes[o] == old(g.opNodes)[o]
    ensures forall p | 0 <= p < |fusionOps| :: |fusionOps[p]| > 0
    ensures forall p | 0 <= p < |fusionOps| :: NewOpAt(old(g.opNodes), old(g.nextOpId), Heads(fusionOps), g.opNodes, p)
    ensures |stages| == |fusionOps| + 1
    ensures stages[0] == Stage(old(g.opNodes), old(g.values)) && stages[|fusionOps|] == Stage(g.opNodes, g.values)
    ensures forall p | 0 <= p < |fusionOps| :: FusedRound(stages[p], stages[p + 1], fusionOps[p], old(g.nextOpId) + p)
    ensures forall p | 0 <= p < |fusionOps| :: FusedOpKept(stages[p], fusionOps[p], old(g.nextOpId) + p, g.opNodes)
  {
    ghost var ops0, nodes0, next0 := g.ops, g.opNodes, g.nextOpId;
    RewriteStart(ops0, nodes0, g.values, next0, fusionOps);
    stages := FuseAll(g, ops0, nodes0, next0, fusionOps);
    RewriteDone(ops0, nodes0, next0, fusionOps, g.ops, g.opNodes);
    StagesDone(stages, fusionOps, next0, Stage(g.opNodes, g.values));
  }

  /** The loop of `rewrite`: fuse the patterns in order, recording the stores
      before each round and after the last. */
  method FuseAll(g: Graph, ghost ops0: seq<OpId>, ghost nodes0: map<OpId, Op>, ghost next0: nat,
                 fusionOps: seq<seq<OpId>>)
    returns (ghost stages: seq<Stage>)
    requires g.Valid() && g.nextOpId == next0 && RewriteSetup(ops0, nodes0, next0, fusionOps)
    requires RewroteSoFar(ops0, nodes0, next0, fusionOps, 0, g.ops, g.opNodes)
    modifies g
    ensures g.Valid() && g.isBuilt == old(g.isBuilt) && g.nextOpId == next0 + |fusionOps|
    ensures RewroteSoFar(ops0, nodes0, next0, fusionOps, |fusionOps|, g.ops, g.opNodes)
    ensures StagesSoFar(stages, fusionOps, next0, |fusionOps|, Stage(g.opNodes, g.values))
    ensures stages[0] == Stage(old(g.opNodes), old(g.values))
  {
    stages := [Stage(g.opNodes, g.values)];
    for p := 0 to |fusionOps|
      invariant g.Valid() && g.isBuilt == old(g.isBuilt) && g.nextOpId == next0 + p
      invariant RewroteSoFar(ops0, nodes0, next0, fusionOps, p, g.ops, g.opNodes)
      invariant StagesSoFar(stages, fusionOps, next0, p, Stage(g.opNodes, g.values))
      invariant stages[0] == Stage(old(g.opNodes), old(g.values))
    {
      ghost var before, f := Stage(g.opNodes, g.values), g.nextOpId;
      FuseNext(g, ops0, nodes0, next0, fusionOps, p);
      NextStage(stages, fusionOps, ops0, next0, p, f, before, Stage(g.opNodes, g.values));
      stages := stages + [Stage(g.opNodes, g.values)];
    }
  }

  /** What every round relies on: the original handles are below `next`,
      the patterns are in the original graph and do not overlap. */
  ghost predicate RewriteSetup(ops0: seq<OpId>, nodes0: map<OpId, Op>, next0: nat, fusionOps: seq<seq<OpId>>)
  {
    && (forall o | o in nodes0 :: o < next0)
    && (forall k | 0 <= k < |ops0| :: ops0[k] < next0)
    && (forall q | 0 <= q < |fusionOps| :: PatternOk(fusionOps[q], ops0) && fusionOps[q][0] in nodes0)
    && PatternsDisjoint(fusionOps)
  }

  /** All patterns fused: the op list, the untouched ops and the new ops. */
  lemma RewriteDone(ops0: seq<OpId>, nodes0: map<OpId, Op>, next0: nat, fusionOps: seq<seq<OpId>>,
                    ops: seq<OpId>, opNodes: map<OpId, Op>)
    requires RewroteSoFar(ops0, nodes0, next0, fusionOps, |fusionOps|, ops, opNodes)
    ensures ops == Remaining(ops0, AllMembers(fusionOps, |fusionOps|)) + FreshRange(next0, |fusionOps|)
    ensures forall o | o in nodes0 && o !in AllMembers(fusionOps, |fusionOps|) :: o in opNodes && opNodes[o] == nodes0[o]
    ensures forall p | 0 <= p < |fusionOps| :: |fusionOps[p]| > 0
    ensures forall p | 0 <= p < |fusionOps| :: NewOpAt(nodes0, next0, Heads(fusionOps), opNodes, p)
  {
  }

  /** The stages of the first p rounds: round q fused pattern q, and every op
      those rounds created is in the current stage. */
  ghost predicate StagesSoFar(stages: seq<Stage>, fusionOps: seq<seq<OpId>>, next0: nat, p: nat, current: Stage)
    requires p <= |fusionOps|
  {
    |stages| == p + 1 && stages[p] == current
    && (forall q | 0 <= q < p :: FusedRound(stages[q], stages[q + 1], fusionOps[q], next0 + q))
    && (forall q | 0 <= q < p :: FusedOpKept(stages[q], fusionOps[q], next0 + q, current.opNodes))
  }

  /** All rounds done: each fused its pattern, and each created op is still
      in the final store. */
  lemma StagesDone(stages: seq<Stage>, fusionOps: seq<seq<OpId>>, next0: nat, last: Stage)
    requires StagesSoFar(stages, fusionOps, next0, |fusionOps|, last)
    ensures |stages| == |fusionOps| + 1 && stages[|fusionOps|] == last
    ensures forall p | 0 <= p < |fusionOps| :: FusedRound(stages[p], stages[p + 1], fusionOps[p], next0 + p)
    ensures forall p | 0 <= p < |fusionOps| :: FusedOpKept(stages[p], fusionOps[p], next0 + p, last.opNodes)
  {
  }

  /** Round p keeps the ops earlier rounds created, whose handles lie outside
      pattern p, and creates its own. */
  lemma FusedOpsStay(stages: seq<Stage>, fusionOps: seq<seq<OpId>>, next0: nat, p: nat, before: Stage, after: Stage)
    requires p < |fusionOps| && StagesSoFar(stages, fusionOps, next0, p, before)
    requires forall x | x in Visited(fusionOps[p], |fusionOps[p]|) :: x < next0
    requires FusedRound(before, after, fusionOps[p], next0 + p)
    ensures StagesSoFar(stages + [after], fusionOps, next0, p + 1, after)
  {
    var m := Visited(fusionOps[p], |fusionOps[p]|);
    FusedOpsKept(stages, fusionOps, next0, p, before, after.opNodes, m,
                 FusedOp(before.opNodes, before.values, fusionOps[p], next0 + p));
    var s' := stages + [after];
    forall q | 0 <= q < p + 1
      ensures FusedRound(s'[q], s'[q + 1], fusionOps[q], next0 + q)
              && FusedOpKept(s'[q], fusionOps[q], next0 + q, after.opNodes)
    {
      assert s'[q] == stages[q];
      if q < p {
        assert s'[q + 1] == stages[q + 1];
      }
    }
  }

  /** The ops created by rounds 0..p are all in the store after round p,
      which replaced the ops `m` of pattern p by `created`. */
  lemma FusedOpsKept(stages: seq<Stage>, fusionOps: seq<seq<OpId>>, next0: nat, p: nat,
                     before: Stage, nodes: map<OpId, Op>, m: set<OpId>, created: Op)
    requires p < |fusionOps| && |stages| == p + 1 && stages[p] == before
    requires forall q | 0 <= q < p :: FusedOpKept(stages[q], fusionOps[q], next0 + q, before.opNodes)
    requires forall x | x in m :: x < next0
    requires |fusionOps[p]| > 0 && PatternWired(fusionOps[p], before.opNodes, before.values)
    requires created == FusedOp(before.opNodes, before.values, fusionOps[p], next0 + p)
    requires nodes == (before.opNodes - m)[next0 + p := created]
    ensures forall q | 0 <= q < p + 1 :: FusedOpKept(stages[q], fusionOps[q], next0 + q, nodes)
  {
    forall q | 0 <= q < p
      ensures FusedOpKept(stages[q], fusionOps[q], next0 + q, nodes)
    {
      assert FusedOpKept(stages[q], fusionOps[q], next0 + q, before.opNodes);
      KeptOutside(before.opNodes, nodes, m, next0 + p, created, next0 + q);
    }
  }

  /** Removing the ops `m` and adding op f keeps every other op. */
  lemma KeptOutside(nodes: map<OpId, Op>, nodes': map<OpId, Op>, m: set<OpId>, f: OpId, x: Op, h: OpId)
    requires nodes' == (nodes - m)[f := x] && h in nodes && h !in m && h != f
    ensures h in nodes' && nodes'[h] == nodes[h]
  {
  }

  /** One round of the loop in `rewrite`: fuse pattern p. */
  method FuseNext(g: Graph, ghost ops0: seq<OpId>, ghost nodes0: map<OpId, Op>, ghost next0: nat, fusionOps: seq<seq<OpId>>, p: nat)
    requires g.Valid() && p < |fusionOps| && g.nextOpId == next0 + p
    requires RewriteSetup(ops0, nodes0, next0, fusionOps)
    requires RewroteSoFar(ops0, nodes0, next0, fusionOps, p, g.ops, g.opNodes)
    modifies g
    ensures g.Valid() && g.isBuilt == old(g.isBuilt) && g.nextOpId == next0 + p + 1
    ensures RewroteSoFar(ops0, nodes0, next0, fusionOps, p + 1, g.ops, g.opNodes)
    ensures FusedRound(Stage(old(g.opNodes), old(g.values)), Stage(g.opNodes, g.values), fusionOps[p], old(g.nextOpId))
  {
    ghost var before, stage, f := g.ops, Stage(g.opNodes, g.values), g.nextOpId;
    PatternStillThere(ops0, nodes0, next0, fusionOps, p, g.ops, g.opNodes);
    FusePattern(g, fusionOps[p]);
    RoundStep(ops0, nodes0, next0, fusionOps, p, f, before, stage, g.ops, Stage(g.opNodes, g.values));
  }

  /** The earlier fusions left pattern p in the graph. */
  lemma PatternStillThere(ops0: seq<OpId>, nodes0: map<OpId, Op>, next0: nat, fusionOps: seq<seq<OpId>>, p: nat,
                          ops: seq<OpId>, opNodes: map<OpId, Op>)
    requires p < |fusionOps| && RewroteSoFar(ops0, nodes0, next0, fusionOps, p, ops, opNodes)
    ensures PatternOk(fusionOps[p], ops)
  {
  }

  /** The op list and stores one fusion leaves extend what the earlier ones
      left. */
  lemma RoundStep(ops0: seq<OpId>, nodes0: map<OpId, Op>, next0: nat, fusionOps: seq<seq<OpId>>, p: nat, f: OpId,
                  before: seq<OpId>, stage: Stage, after: seq<OpId>, stage': Stage)
    requires p < |fusionOps| && f == next0 + p && RewriteSetup(ops0, nodes0, next0, fusionOps)
    requires RewroteSoFar(ops0, nodes0, next0, fusionOps, p, before, stage.opNodes)
    requires FusedRound(stage, stage', fusionOps[p], f)
    requires after == Remaining(before, Visited(fusionOps[p], |fusionOps[p]|)) + [f]
    ensures RewroteSoFar(ops0, nodes0, next0, fusionOps, p + 1, after, stage'.opNodes)
  {
    var fused := FusedOp(stage.opNodes, stage.values, fusionOps[p], f);
    RewriteStep(ops0, nodes0, next0, fusionOps, p, f, before, stage.opNodes, after, stage'.opNodes, fused);
  }

  /** The stores round p leaves extend the stages of the rounds before. */
  lemma NextStage(stages: seq<Stage>, fusionOps: seq<seq<OpId>>, ops0: seq<OpId>, next0: nat, p: nat, f: OpId,
                  before: Stage, after: Stage)
    requires p < |fusionOps| && f == next0 + p && PatternOk(fusionOps[p], ops0) && forall k | 0 <= k < |ops0| :: ops0[k] < next0
    requires StagesSoFar(stages, fusionOps, next0, p, before)
    requires FusedRound(before, after, fusionOps[p], f)
    ensures StagesSoFar(stages + [after], fusionOps, next0, p + 1, after)
  {
    PatternBelow(fusionOps[p], ops0, next0);
    FusedOpsStay(stages, fusionOps, next0, p, before, after);
  }

  /** What the first p fusions leave: the op list without their patterns'
      ops plus the p new handles, the other ops untouched, each new op a
      Wildcard with its pattern's partition, and the later patterns still in
      the graph. */
  ghost predicate RewroteSoFar(ops0: seq<OpId>, nodes0: map<OpId, Op>, next0: nat, fusionOps: seq<seq<OpId>>, p: nat,
                               ops: seq<OpId>, opNodes: map<OpId, Op>)
    requires p <= |fusionOps|
  {
    && ops == Remaining(ops0, AllMembers(fusionOps, p)) + FreshRange(next0, p)
    && (forall q | p <= q < |fusionOps| :: PatternOk(fusionOps[q], ops))
    && (forall o | o in nodes0 && o !in AllMembers(fusionOps, p) :: o in opNodes && opNodes[o] == nodes0[o])
    && (forall q | 0 <= q < |fusionOps| :: |fusionOps[q]| > 0)
    && (forall q | 0 <= q < p :: NewOpAt(nodes0, next0, Heads(fusionOps), opNodes, q))
  }

  /** Fusing pattern p extends what the earlier fusions left. */
  lemma RewriteStep(ops0: seq<OpId>, nodes0: map<OpId, Op>, next0: nat, fusionOps: seq<seq<OpId>>, p: nat, f: OpId,
                    before: seq<OpId>, nodesBefore: map<OpId, Op>, after: seq<OpId>, nodesAfter: map<OpId, Op>, fused: Op)
    requires p < |fusionOps| && f == next0 + p && RewriteSetup(ops0, nodes0, next0, fusionOps)
    requires RewroteSoFar(ops0, nodes0, next0, fusionOps, p, before, nodesBefore)
    requires after == Remaining(before, Visited(fusionOps[p], |fusionOps[p]|)) + [f]
    requires nodesAfter == (nodesBefore - Visited(fusionOps[p], |fusionOps[p]|))[f := fused]
    requires fused.kind == Wildcard && fused.id == f && fused.partition == nodesBefore[fusionOps[p][0]].partition
    ensures RewroteSoFar(ops0, nodes0, next0, fusionOps, p + 1, after, nodesAfter)
  {
    var heads := Heads(fusionOps);
    var m := Visited(fusionOps[p], |fusionOps[p]|);
    RewriteOps(ops0, next0, fusionOps, p, f, before, after);
    PatternBelow(fusionOps[p], ops0, next0);
    AllMembersStep(fusionOps, p);
    HeadNotFused(fusionOps, p);
    RewriteNodes(nodes0, next0, heads, p, f, AllMembers(fusionOps, p), m, nodesBefore, nodesAfter, fused);
    LaterPatternsStay(ops0, fusionOps, p, after, next0);
  }

  /** Before the first pattern: the op handles are below `next`, every
      pattern's first op is stored, and nothing is removed yet. */
  lemma RewriteStart(ops0: seq<OpId>, nodes0: map<OpId, Op>, values: map<ValueId, Value>, next0: nat,
                     fusionOps: seq<seq<OpId>>)
    requires OpsWired(ops0, nodes0, values) && (forall o | o in nodes0 :: o < next0)
    requires forall p | 0 <= p < |fusionOps| :: PatternOk(fusionOps[p], ops0)
    requires PatternsDisjoint(fusionOps)
    ensures RewriteSetup(ops0, nodes0, next0, fusionOps)
    ensures forall k | 0 <= k < |ops0| :: ops0[k] < next0
    ensures forall p | 0 <= p < |fusionOps| :: |fusionOps[p]| > 0 && fusionOps[p][0] in nodes0
    ensures Remaining(ops0, AllMembers(fusionOps, 0)) + FreshRange(next0, 0) == ops0
  {
    forall p | 0 <= p < |fusionOps|
      ensures fusionOps[p][0] in nodes0
    {
      assert fusionOps[p][0] in ops0;
    }
    RemainingNone(ops0, AllMembers(fusionOps, 0));
  }

  /** The ops of the first p + 1 patterns. */
  lemma AllMembersStep(fusionOps: seq<seq<OpId>>, p: nat)
    requires p < |fusionOps|
    ensures AllMembers(fusionOps, p + 1) == AllMembers(fusionOps, p) + Visited(fusionOps[p], |fusionOps[p]|)
  {
    var a, b := AllMembers(fusionOps, p + 1), AllMembers(fusionOps, p) + Visited(fusionOps[p], |fusionOps[p]|);
    forall x | x in a ensures x in b {
      var q, i :| 0 <= q < p + 1 && 0 <= i < |fusionOps[q]| && fusionOps[q][i] == x;
      if q == p {
        assert x in Visited(fusionOps[p], |fusionOps[p]|);
      }
    }
    forall x | x in b ensures x in a {
      if x in Visited(fusionOps[p], |fusionOps[p]|) {
        var i :| 0 <= i < |fusionOps[p]| && fusionOps[p][i] == x;
        assert fusionOps[p][i] in a;
      } else {
        var q, i :| 0 <= q < p && 0 <= i < |fusionOps[q]| && fusionOps[q][i] == x;
        assert fusionOps[q][i] in a;
      }
    }
  }

  /** A pattern of the original graph names only handles below `next`. */
  lemma PatternBelow(pattern: seq<OpId>, ops0: seq<OpId>, next0: nat)
    requires PatternOk(pattern, ops0) && forall k | 0 <= k < |ops0| :: ops0[k] < next0
    ensures forall x | x in Visited(pattern, |pattern|) :: x < next0
  {
    forall x | x in Visited(pattern, |pattern|)
      ensures x < next0
    {
      var i :| 0 <= i < |pattern| && pattern[i] == x;
      assert x in ops0;
    }
  }

  lemma FreshRangeStep(next: nat, p: nat)
    ensures FreshRange(next, p) + [next + p] == FreshRange(next, p + 1)
  {
  }

  /** The op list after fusing pattern p. */
  lemma RewriteOps(ops0: seq<OpId>, next0: nat, fusionOps: seq<seq<OpId>>, p: nat, f: OpId, before: seq<OpId>, after: seq<OpId>)
    requires p < |fusionOps| && f == next0 + p && PatternOk(fusionOps[p], ops0) && forall k | 0 <= k < |ops0| :: ops0[k] < next0
    requires before == Remaining(ops0, AllMembers(fusionOps, p)) + FreshRange(next0, p)
    requires after == Remaining(before, Visited(fusionOps[p], |fusionOps[p]|)) + [f]
    ensures after == Remaining(ops0, AllMembers(fusionOps, p + 1)) + FreshRange(next0, p + 1)
  {
    var m := Visited(fusionOps[p], |fusionOps[p]|);
    assert after == Remaining(before, m) + [next0 + p];
    var a := AllMembers(fusionOps, p);
    var kept := Remaining(ops0, a);
    var added := FreshRange(next0, p);
    RemainingConcat(kept, added, m);
    PatternBelow(fusionOps[p], ops0, next0);
    RemainingNone(added, m);
    assert Remaining(before, m) == Remaining(kept, m) + added;
    RemainingTwice(ops0, a, m);
    assert Remaining(before, m) == Remaining(ops0, a + m) + added;
    AllMembersStep(fusionOps, p);
    assert a + m == AllMembers(fusionOps, p + 1);
    FreshRangeStep(next0, p);
    var r := Remaining(ops0, a + m);
    assert after == r + added + [next0 + p];
    assert r + added + [next0 + p] == r + (added + [next0 + p]);
  }

  /** A pattern's first op belongs to no earlier pattern. */
  lemma HeadNotFused(fusionOps: seq<seq<OpId>>, p: nat)
    requires p < |fusionOps| && |fusionOps[p]| > 0 && PatternsDisjoint(fusionOps)
    ensures fusionOps[p][0] !in AllMembers(fusionOps, p)
  {
    forall q, i | 0 <= q < p && 0 <= i < |fusionOps[q]|
      ensures fusionOps[q][i] != fusionOps[p][0]
    {
    }
  }

  /** The op store after fusing pattern p, whose ops are `m`, when `done`
      are the ops of the patterns before it: untouched ops keep their
      record, and the new op carries the pattern's partition. */
  lemma RewriteNodes(nodes0: map<OpId, Op>, next0: nat, heads: seq<OpId>, p: nat, f: OpId, done: set<OpId>, m: set<OpId>,
                     nodesBefore: map<OpId, Op>, nodesAfter: map<OpId, Op>, fused: Op)
    requires p < |heads| && f == next0 + p && (forall o | o in nodes0 :: o < next0) && (forall x | x in m :: x < next0)
    requires forall o | o in nodes0 && o !in done :: o in nodesBefore && nodesBefore[o] == nodes0[o]
    requires forall q | 0 <= q < p :: NewOpAt(nodes0, next0, heads, nodesBefore, q)
    requires heads[p] in nodes0 && heads[p] !in done
    requires nodesAfter == (nodesBefore - m)[f := fused]
    requires fused.kind == Wildcard && fused.id == f && fused.partition == nodesBefore[heads[p]].partition
    ensures forall o | o in nodes0 && o !in done + m :: o in nodesAfter && nodesAfter[o] == nodes0[o]
    ensures forall q | 0 <= q < p + 1 :: NewOpAt(nodes0, next0, heads, nodesAfter, q)
  {
    forall q | 0 <= q < p + 1
      ensures NewOpAt(nodes0, next0, heads, nodesAfter, q)
    {
      var o := next0 + q;
      if q < p {
        assert NewOpAt(nodes0, next0, heads, nodesBefore, q);
        assert o !in m;
      } else {
        assert nodesBefore[heads[p]] == nodes0[heads[p]];
      }
    }
  }

  /** The q-th new op is a Wildcard whose id is its handle, carrying the
      partition of the q-th pattern's first op. */
  ghost predicate NewOpAt(nodes0: map<OpId, Op>, next0: nat, heads: seq<OpId>, opNodes: map<OpId, Op>, q: nat) {
    q < |heads| && heads[q] in nodes0
    && next0 + q in opNodes && opNodes[next0 + q].kind == Wildcard && opNodes[next0 + q].id == next0 + q
    && opNodes[next0 + q].partition == nodes0[heads[q]].partition
  }

  /** The first op of each pattern. */
  function Heads(fusionOps: seq<seq<OpId>>): (r: seq<OpId>)
    requires forall p | 0 <= p < |fusionOps| :: |fusionOps[p]| > 0
    ensures |r| == |fusionOps| && forall p | 0 <= p < |fusionOps| :: r[p] == fusionOps[p][0]
  {
    seq(|fusionOps|, p requires 0 <= p < |fusionOps| => fusionOps[p][0])
  }

  /** Patterns not yet fused still name ops of the graph. */
  lemma LaterPatternsStay(ops0: seq<OpId>, fusionOps: seq<seq<OpId>>, p: nat, after: seq<OpId>, next0: nat)
    requires p < |fusionOps| && forall q | 0 <= q < |fusionOps| :: PatternOk(fusionOps[q], ops0)
    requires PatternsDisjoint(fusionOps)
    requires after == Remaining(ops0, AllMembers(fusionOps, p + 1)) + FreshRange(next0, p + 1)
    ensures forall q | p + 1 <= q < |fusionOps| :: PatternOk(fusionOps[q], after)
  {
    forall q, i | p + 1 <= q < |fusionOps| && 0 <= i < |fusionOps[q]|
      ensures fusionOps[q][i] in after
    {
      var x := fusionOps[q][i];
      assert x !in AllMembers(fusionOps, p + 1) by {
        forall q1, i1 | 0 <= q1 < p + 1 && 0 <= i1 < |fusionOps[q1]|
          ensures fusionOps[q1][i1] != x
        {
          assert fusionOps[q1][i1] != fusionOps[q][i];
        }
      }
      assert x in ops0;
      RemainingExact(ops0, AllMembers(fusionOps, p + 1), x);
    }
  }
}

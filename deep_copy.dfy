/** `deep_copy`: a copy of a list of ops that shares nothing with the
    original. Every op is copied with its id, kind and partition; every value
    the ops name is copied once, with its logical tensor and internal flag,
    and the copies are connected as the originals are. In the copy an op's
    handle is its position in the list and a value's handle is the order in
    which it was first met. */
module DeepCopy {
  import opened Wrappers
  import opened Graphs

  /** Every listed op is in the op store. */
  predicate Listed(ops: seq<OpId>, opNodes: map<OpId, Op>) {
    forall j | 0 <= j < |ops| :: ops[j] in opNodes
  }

  /** Value v is an input or an output of some listed op. */
  ghost predicate Referenced(ops: seq<OpId>, opNodes: map<OpId, Op>, v: ValueId)
    requires Listed(ops, opNodes)
  {
    exists j | 0 <= j < |ops| :: v in opNodes[ops[j]].inputs || v in opNodes[ops[j]].outputs
  }

  /** Copy c of op o has o's id, kind and partition, and o's first no outputs
      and first ni inputs, each renamed through vmap. */
  predicate OpCopied(o: Op, c: Op, vmap: map<ValueId, nat>, no: nat, ni: nat) {
    c.id == o.id && c.kind == o.kind && c.partition == o.partition
    && no <= |o.outputs| && ni <= |o.inputs| && |c.outputs| == no && |c.inputs| == ni
    && (forall i | 0 <= i < no :: o.outputs[i] in vmap && c.outputs[i] == vmap[o.outputs[i]])
    && (forall i | 0 <= i < ni :: o.inputs[i] in vmap && c.inputs[i] == vmap[o.inputs[i]])
  }

  /** How many outputs (or inputs, given n of them) of op j are connected
      when op k has no of them done. */
  function Done(j: nat, k: nat, no: nat, n: nat): nat {
    if j < k then n else if j == k then no else 0
  }

  /** The ops before k are fully connected, op k has its first no outputs and
      ni inputs, and the ops after it have none. */
  predicate Connected(ops: seq<OpId>, opNodes: map<OpId, Op>, copies: seq<Op>, vmap: map<ValueId, nat>,
                      k: nat, no: nat, ni: nat)
    requires Listed(ops, opNodes)
  {
    |copies| == |ops|
    && forall j | 0 <= j < |ops| ::
         OpCopied(opNodes[ops[j]], copies[j], vmap,
                  Done(j, k, no, |opNodes[ops[j]].outputs|), Done(j, k, ni, |opNodes[ops[j]].inputs|))
  }

  /** The value map is one to one: `origin` lists the original of every
      copied value, and each copy keeps its original's tensor and flag. */
  predicate ValuesCopied(values: map<ValueId, Value>, vals: seq<Value>, vmap: map<ValueId, nat>, origin: seq<ValueId>) {
    |origin| == |vals|
    && (forall w | 0 <= w < |vals| :: origin[w] in vmap && vmap[origin[w]] == w)
    && (forall v | v in vmap ::
          vmap[v] < |vals| && origin[vmap[v]] == v && v in values
          && vals[vmap[v]].lt == values[v].lt && vals[vmap[v]].internal == values[v].internal)
  }

  /** Every copied value is the copy of a value of the listed ops. */
  ghost predicate KeysReferenced(ops: seq<OpId>, opNodes: map<OpId, Op>, vmap: map<ValueId, nat>)
    requires Listed(ops, opNodes)
  {
    forall v | v in vmap :: Referenced(ops, opNodes, v)
  }

  /** (j, i) consumes value w exactly when w is input i of op j. */
  ghost predicate ConsumersMatch(copies: seq<Op>, vals: seq<Value>) {
    forall w, c | 0 <= w < |vals| ::
      c in vals[w].consumers <==> c.op < |copies| && c.offset < |copies[c.op].inputs| && copies[c.op].inputs[c.offset] == w
  }

  /** Port p is the last place, in op order and then output order, where w
      is an output. */
  ghost predicate LastOutput(copies: seq<Op>, w: nat, p: Port) {
    p.op < |copies| && p.offset < |copies[p.op].outputs| && copies[p.op].outputs[p.offset] == w
    && (forall i | p.offset < i < |copies[p.op].outputs| :: copies[p.op].outputs[i] != w)
    && (forall j, i | p.op < j < |copies| && 0 <= i < |copies[j].outputs| :: copies[j].outputs[i] != w)
  }

  /** No op outputs w. */
  ghost predicate NeverOutput(copies: seq<Op>, w: nat) {
    forall j, i | 0 <= j < |copies| && 0 <= i < |copies[j].outputs| :: copies[j].outputs[i] != w
  }

  /** A value's producer is the last op output naming it, and a value no op
      outputs has none. */
  ghost predicate ProducersMatch(copies: seq<Op>, vals: seq<Value>) {
    forall w | 0 <= w < |vals| ::
      if vals[w].producer.Some? then LastOutput(copies, w, vals[w].producer.value) else NeverOutput(copies, w)
  }

  /** Every value handle the copies name is below n. */
  ghost predicate InRange(copies: seq<Op>, n: nat) {
    forall j | 0 <= j < |copies| ::
      (forall i | 0 <= i < |copies[j].outputs| :: copies[j].outputs[i] < n)
      && (forall i | 0 <= i < |copies[j].inputs| :: copies[j].inputs[i] < n)
  }

  /** Everything the connecting loops keep. */
  ghost predicate Inv(ops: seq<OpId>, opNodes: map<OpId, Op>, values: map<ValueId, Value>,
                      copies: seq<Op>, vals: seq<Value>, vmap: map<ValueId, nat>, origin: seq<ValueId>,
                      k: nat, no: nat, ni: nat)
  {
    && OpsWired(ops, opNodes, values) && Listed(ops, opNodes)
    && Connected(ops, opNodes, copies, vmap, k, no, ni)
    && ValuesCopied(values, vals, vmap, origin)
    && KeysReferenced(ops, opNodes, vmap)
    && ConsumersMatch(copies, vals)
    && ProducersMatch(copies, vals)
  }

  /** The copies name only copied values. */
  lemma CopiesInRange(ops: seq<OpId>, opNodes: map<OpId, Op>, values: map<ValueId, Value>,
                      copies: seq<Op>, vals: seq<Value>, vmap: map<ValueId, nat>, origin: seq<ValueId>, k: nat, no: nat, ni: nat)
    requires Listed(ops, opNodes)
    requires Connected(ops, opNodes, copies, vmap, k, no, ni) && ValuesCopied(values, vals, vmap, origin)
    ensures InRange(copies, |vals|)
  {
    forall j | 0 <= j < |copies|
      ensures (forall i | 0 <= i < |copies[j].outputs| :: copies[j].outputs[i] < |vals|)
              && (forall i | 0 <= i < |copies[j].inputs| :: copies[j].inputs[i] < |vals|)
    {
      var o := opNodes[ops[j]];
      assert OpCopied(o, copies[j], vmap, Done(j, k, no, |o.outputs|), Done(j, k, ni, |o.inputs|));
    }
  }

  // ---------------------------------------------------------------------------
  // The copy

  /** Look up the copy of v, creating it (with v's tensor and flag, no
      producer and no consumers) when v has none yet. */
  method CopyValue(values: map<ValueId, Value>, vals: seq<Value>, vmap: map<ValueId, nat>, v: ValueId)
      returns (vals': seq<Value>, vmap': map<ValueId, nat>, w: nat)
    requires v in values
    ensures v in vmap ==> vals' == vals && vmap' == vmap && w == vmap[v]
    ensures v !in vmap ==> vals' == vals + [Value(values[v].lt, values[v].internal, None, [])]
                           && vmap' == vmap[v := |vals|] && w == |vals|
  {
    if v !in vmap {
      vals' := vals + [Value(values[v].lt, values[v].internal, None, [])];
      vmap' := vmap[v := |vals|];
      w := |vals|;
    } else {
      vals', vmap', w := vals, vmap, vmap[v];
    }
  }

  /** `deep_copy` over the listed ops (which, being a graph's op list, has no
      repeats). */
  method DeepCopy(ops: seq<OpId>, opNodes: map<OpId, Op>, values: map<ValueId, Value>)
      returns (copiedOps: seq<Op>, copiedVals: seq<Value>, valueMap: map<ValueId, nat>)
    requires OpsWired(ops, opNodes, values) && Distinct(ops)
    ensures Listed(ops, opNodes) && |copiedOps| == |ops|
    ensures forall k | 0 <= k < |ops| ::
              OpCopied(opNodes[ops[k]], copiedOps[k], valueMap, |opNodes[ops[k]].outputs|, |opNodes[ops[k]].inputs|)
    ensures forall v :: v in valueMap <==> Referenced(ops, opNodes, v)
    ensures forall v | v in valueMap ::
              valueMap[v] < |copiedVals| && v in values
              && copiedVals[valueMap[v]].lt == values[v].lt && copiedVals[valueMap[v]].internal == values[v].internal
    ensures forall v1, v2 | v1 in valueMap && v2 in valueMap && v1 != v2 :: valueMap[v1] != valueMap[v2]
    ensures forall w | 0 <= w < |copiedVals| :: w in valueMap.Values
    ensures ConsumersMatch(copiedOps, copiedVals) && ProducersMatch(copiedOps, copiedVals)
  {
    assert Listed(ops, opNodes);
    // create the ops, unconnected
    copiedOps := [];
    for k := 0 to |ops|
      invariant |copiedOps| == k
      invariant forall j | 0 <= j < k :: copiedOps[j] == opNodes[ops[j]].(inputs := [], outputs := [])
    {
      var cur := opNodes[ops[k]];
      copiedOps := copiedOps + [Op(cur.id, cur.kind, cur.partition, [], [])];
    }
    copiedVals, valueMap := [], map[];
    ghost var origin: seq<ValueId> := [];
    assert Inv(ops, opNodes, values, copiedOps, copiedVals, valueMap, origin, 0, 0, 0);
    // connect them
    for k := 0 to |ops|
      invariant Inv(ops, opNodes, values, copiedOps, copiedVals, valueMap, origin, k, 0, 0)
    {
      var cur := opNodes[ops[k]];
      for i := 0 to |cur.outputs|
        invariant Inv(ops, opNodes, values, copiedOps, copiedVals, valueMap, origin, k, i, 0)
      {
        var v := cur.outputs[i];
        ghost var vals0, vmap0, origin0 := copiedVals, valueMap, origin;
        var w;
        copiedVals, valueMap, w := CopyValue(values, copiedVals, valueMap, v);
        origin := if v in vmap0 then origin0 else origin0 + [v];
        CopyValueStep(ops, opNodes, values, copiedOps, vals0, vmap0, origin0, copiedVals, valueMap, origin, k, i, 0, v);
        // add_output: the value's producer becomes (k, i)
        ghost var copies1, vals1 := copiedOps, copiedVals;
        copiedOps := copiedOps[k := copiedOps[k].(outputs := copiedOps[k].outputs + [w])];
        copiedVals := copiedVals[w := copiedVals[w].(producer := Some(Port(k, i)))];
        OutputStep(ops, opNodes, values, copies1, vals1, valueMap, origin, k, i, copiedOps, copiedVals);
      }
      for i := 0 to |cur.inputs|
        invariant Inv(ops, opNodes, values, copiedOps, copiedVals, valueMap, origin, k, |cur.outputs|, i)
      {
        var v := cur.inputs[i];
        ghost var vals0, vmap0, origin0 := copiedVals, valueMap, origin;
        var w;
        copiedVals, valueMap, w := CopyValue(values, copiedVals, valueMap, v);
        origin := if v in vmap0 then origin0 else origin0 + [v];
        CopyValueStep(ops, opNodes, values, copiedOps, vals0, vmap0, origin0, copiedVals, valueMap, origin,
                      k, |cur.outputs|, i, v);
        // add_input, and the copy of the input becomes consumed by (k, i)
        ghost var copies1, vals1 := copiedOps, copiedVals;
        copiedOps := copiedOps[k := copiedOps[k].(inputs := copiedOps[k].inputs + [w])];
        copiedVals := copiedVals[w := AddConsumer(copiedVals[w], Port(k, i))];
        InputStep(ops, opNodes, values, copies1, vals1, valueMap, origin, k, i, copiedOps, copiedVals);
      }
      NextOp(ops, opNodes, values, copiedOps, copiedVals, valueMap, origin, k);
    }
    CopyDone(ops, opNodes, values, copiedOps, copiedVals, valueMap, origin);
  }

  // ---------------------------------------------------------------------------
  // Why the loops keep Inv

  /** Looking up or creating the copy of an output or input of op k keeps
      the invariant. */
  lemma CopyValueStep(ops: seq<OpId>, opNodes: map<OpId, Op>, values: map<ValueId, Value>,
                      copies: seq<Op>, vals: seq<Value>, vmap: map<ValueId, nat>, origin: seq<ValueId>,
                      vals': seq<Value>, vmap': map<ValueId, nat>, origin': seq<ValueId>,
                      k: nat, no: nat, ni: nat, v: ValueId)
    requires Inv(ops, opNodes, values, copies, vals, vmap, origin, k, no, ni) && k < |ops|
    requires v in opNodes[ops[k]].outputs || v in opNodes[ops[k]].inputs
    requires v in vmap ==> vals' == vals && vmap' == vmap && origin' == origin
    requires v !in vmap ==> vals' == vals + [Value(values[v].lt, values[v].internal, None, [])]
                            && vmap' == vmap[v := |vals|] && origin' == origin + [v]
    ensures Inv(ops, opNodes, values, copies, vals', vmap', origin', k, no, ni)
    ensures v in vmap'
  {
    if v !in vmap {
      assert v in values by {
        assert Wired(values, opNodes[ops[k]]);
      }
      MapGrows(ops, opNodes, copies, vmap, vmap', k, no, ni);
      forall x | x in vmap'
        ensures Referenced(ops, opNodes, x)
      {
        if x == v {
          assert v in opNodes[ops[k]].inputs || v in opNodes[ops[k]].outputs;
        }
      }
      CopiesInRange(ops, opNodes, values, copies, vals, vmap, origin, k, no, ni);
      NewValueUnlinked(copies, vals, vals');
    }
  }

  /** A new map entry leaves every connected op connected. */
  lemma MapGrows(ops: seq<OpId>, opNodes: map<OpId, Op>, copies: seq<Op>, vmap: map<ValueId, nat>,
                 vmap': map<ValueId, nat>, k: nat, no: nat, ni: nat)
    requires Listed(ops, opNodes) && Connected(ops, opNodes, copies, vmap, k, no, ni)
    requires forall x | x in vmap :: x in vmap' && vmap'[x] == vmap[x]
    ensures Connected(ops, opNodes, copies, vmap', k, no, ni)
  {
    forall j | 0 <= j < |ops|
      ensures OpCopied(opNodes[ops[j]], copies[j], vmap',
                       Done(j, k, no, |opNodes[ops[j]].outputs|), Done(j, k, ni, |opNodes[ops[j]].inputs|))
    {
      assert OpCopied(opNodes[ops[j]], copies[j], vmap,
                      Done(j, k, no, |opNodes[ops[j]].outputs|), Done(j, k, ni, |opNodes[ops[j]].inputs|));
    }
  }

  /** A freshly created value has no producer and no consumer, and no op
      names it yet. */
  lemma NewValueUnlinked(copies: seq<Op>, vals: seq<Value>, vals': seq<Value>)
    requires InRange(copies, |vals|) && ConsumersMatch(copies, vals) && ProducersMatch(copies, vals)
    requires |vals'| == |vals| + 1 && vals'[..|vals|] == vals
    requires vals'[|vals|].producer == None && vals'[|vals|].consumers == []
    ensures ConsumersMatch(copies, vals') && ProducersMatch(copies, vals')
  {
    var n := |vals|;
    forall w, c | 0 <= w < |vals'|
      ensures c in vals'[w].consumers <==>
                c.op < |copies| && c.offset < |copies[c.op].inputs| && copies[c.op].inputs[c.offset] == w
    {
      if w < n {
        assert vals'[w] == vals[w];
      } else if c.op < |copies| && c.offset < |copies[c.op].inputs| {
        assert copies[c.op].inputs[c.offset] < n;
      }
    }
    forall w | 0 <= w < |vals'|
      ensures if vals'[w].producer.Some? then LastOutput(copies, w, vals'[w].producer.value) else NeverOutput(copies, w)
    {
      if w < n {
        assert vals'[w] == vals[w];
      } else {
        forall j, i | 0 <= j < |copies| && 0 <= i < |copies[j].outputs|
          ensures copies[j].outputs[i] != w
        {
          assert copies[j].outputs[i] < n;
        }
      }
    }
  }

  /** `add_output`: appending output no of op k, whose copy is w, and making
      (k, no) its producer keeps the invariant one output further. */
  lemma OutputStep(ops: seq<OpId>, opNodes: map<OpId, Op>, values: map<ValueId, Value>,
                   copies: seq<Op>, vals: seq<Value>, vmap: map<ValueId, nat>, origin: seq<ValueId>,
                   k: nat, no: nat, copies': seq<Op>, vals': seq<Value>)
    requires Inv(ops, opNodes, values, copies, vals, vmap, origin, k, no, 0) && k < |ops|
    requires no < |opNodes[ops[k]].outputs| && opNodes[ops[k]].outputs[no] in vmap
    requires var w := vmap[opNodes[ops[k]].outputs[no]];
             copies' == copies[k := copies[k].(outputs := copies[k].outputs + [w])]
             && vals' == vals[w := vals[w].(producer := Some(Port(k, no)))]
    ensures Inv(ops, opNodes, values, copies', vals', vmap, origin, k, no + 1, 0)
  {
    var w := vmap[opNodes[ops[k]].outputs[no]];
    OutputConnected(ops, opNodes, copies, vmap, k, no, copies');
    OutputLinks(copies, vals, k, no, w, copies', vals');
  }

  lemma OutputConnected(ops: seq<OpId>, opNodes: map<OpId, Op>, copies: seq<Op>, vmap: map<ValueId, nat>,
                        k: nat, no: nat, copies': seq<Op>)
    requires Listed(ops, opNodes) && Connected(ops, opNodes, copies, vmap, k, no, 0) && k < |ops|
    requires no < |opNodes[ops[k]].outputs| && opNodes[ops[k]].outputs[no] in vmap
    requires copies' == copies[k := copies[k].(outputs := copies[k].outputs + [vmap[opNodes[ops[k]].outputs[no]]])]
    ensures Connected(ops, opNodes, copies', vmap, k, no + 1, 0)
    ensures forall j | k < j < |copies| :: |copies[j].outputs| == 0
    ensures |copies[k].outputs| == no
  {
    forall j | 0 <= j < |ops|
      ensures OpCopied(opNodes[ops[j]], copies'[j], vmap,
                       Done(j, k, no + 1, |opNodes[ops[j]].outputs|), Done(j, k, 0, |opNodes[ops[j]].inputs|))
    {
      assert OpCopied(opNodes[ops[j]], copies[j], vmap,
                      Done(j, k, no, |opNodes[ops[j]].outputs|), Done(j, k, 0, |opNodes[ops[j]].inputs|));
    }
    forall j | k < j < |copies|
      ensures |copies[j].outputs| == 0
    {
      assert OpCopied(opNodes[ops[j]], copies[j], vmap, 0, 0);
    }
    assert OpCopied(opNodes[ops[k]], copies[k], vmap, no, 0);
  }

  /** Appending output w at (k, no), the last output so far, makes (k, no)
      the last place w is output. */
  lemma OutputLinks(copies: seq<Op>, vals: seq<Value>, k: nat, no: nat, w: nat, copies': seq<Op>, vals': seq<Value>)
    requires ConsumersMatch(copies, vals) && ProducersMatch(copies, vals)
    requires k < |copies| && w < |vals| && |copies[k].outputs| == no
    requires forall j | k < j < |copies| :: |copies[j].outputs| == 0
    requires copies' == copies[k := copies[k].(outputs := copies[k].outputs + [w])]
    requires vals' == vals[w := vals[w].(producer := Some(Port(k, no)))]
    ensures ConsumersMatch(copies', vals') && ProducersMatch(copies', vals')
  {
    forall w2, c | 0 <= w2 < |vals'|
      ensures c in vals'[w2].consumers <==>
                c.op < |copies'| && c.offset < |copies'[c.op].inputs| && copies'[c.op].inputs[c.offset] == w2
    {
      assert vals'[w2].consumers == vals[w2].consumers;
      assert c.op < |copies| ==> copies'[c.op].inputs == copies[c.op].inputs;
    }
    forall w2 | 0 <= w2 < |vals'|
      ensures if vals'[w2].producer.Some? then LastOutput(copies', w2, vals'[w2].producer.value)
              else NeverOutput(copies', w2)
    {
      if w2 != w {
        assert vals'[w2] == vals[w2];
        if vals[w2].producer.Some? {
          var p := vals[w2].producer.value;
          assert LastOutput(copies, w2, p);
          assert copies'[p.op].outputs[p.offset] == w2;
        } else {
          assert NeverOutput(copies, w2);
        }
      }
    }
  }

  /** `add_input` and `add_consumer`: appending input ni of op k, whose copy
      is w, and registering (k, ni) as a consumer of w keeps the invariant
      one input further. */
  lemma InputStep(ops: seq<OpId>, opNodes: map<OpId, Op>, values: map<ValueId, Value>,
                  copies: seq<Op>, vals: seq<Value>, vmap: map<ValueId, nat>, origin: seq<ValueId>,
                  k: nat, ni: nat, copies': seq<Op>, vals': seq<Value>)
    requires k < |ops| && Listed(ops, opNodes)
    requires Inv(ops, opNodes, values, copies, vals, vmap, origin, k, |opNodes[ops[k]].outputs|, ni)
    requires ni < |opNodes[ops[k]].inputs| && opNodes[ops[k]].inputs[ni] in vmap
    requires var w := vmap[opNodes[ops[k]].inputs[ni]];
             copies' == copies[k := copies[k].(inputs := copies[k].inputs + [w])]
             && vals' == vals[w := AddConsumer(vals[w], Port(k, ni))]
    ensures Inv(ops, opNodes, values, copies', vals', vmap, origin, k, |opNodes[ops[k]].outputs|, ni + 1)
  {
    var w := vmap[opNodes[ops[k]].inputs[ni]];
    InputConnected(ops, opNodes, copies, vmap, k, ni, copies');
    InputLinks(copies, vals, k, ni, w, copies', vals');
  }

  lemma InputConnected(ops: seq<OpId>, opNodes: map<OpId, Op>, copies: seq<Op>, vmap: map<ValueId, nat>,
                       k: nat, ni: nat, copies': seq<Op>)
    requires Listed(ops, opNodes) && k < |ops|
    requires Connected(ops, opNodes, copies, vmap, k, |opNodes[ops[k]].outputs|, ni)
    requires ni < |opNodes[ops[k]].inputs| && opNodes[ops[k]].inputs[ni] in vmap
    requires copies' == copies[k := copies[k].(inputs := copies[k].inputs + [vmap[opNodes[ops[k]].inputs[ni]]])]
    ensures Connected(ops, opNodes, copies', vmap, k, |opNodes[ops[k]].outputs|, ni + 1)
    ensures |copies[k].inputs| == ni
  {
    var no := |opNodes[ops[k]].outputs|;
    forall j | 0 <= j < |ops|
      ensures OpCopied(opNodes[ops[j]], copies'[j], vmap,
                       Done(j, k, no, |opNodes[ops[j]].outputs|), Done(j, k, ni + 1, |opNodes[ops[j]].inputs|))
    {
      assert OpCopied(opNodes[ops[j]], copies[j], vmap,
                      Done(j, k, no, |opNodes[ops[j]].outputs|), Done(j, k, ni, |opNodes[ops[j]].inputs|));
    }
    assert OpCopied(opNodes[ops[k]], copies[k], vmap, no, ni);
  }

  /** Appending input w at (k, ni) and registering (k, ni) as its consumer
      keeps consumers and inputs in step; producers are untouched. */
  lemma InputLinks(copies: seq<Op>, vals: seq<Value>, k: nat, ni: nat, w: nat, copies': seq<Op>, vals': seq<Value>)
    requires ConsumersMatch(copies, vals) && ProducersMatch(copies, vals)
    requires k < |copies| && w < |vals| && |copies[k].inputs| == ni
    requires copies' == copies[k := copies[k].(inputs := copies[k].inputs + [w])]
    requires vals' == vals[w := AddConsumer(vals[w], Port(k, ni))]
    ensures ConsumersMatch(copies', vals') && ProducersMatch(copies', vals')
  {
    forall w2, c | 0 <= w2 < |vals'|
      ensures c in vals'[w2].consumers <==>
                c.op < |copies'| && c.offset < |copies'[c.op].inputs| && copies'[c.op].inputs[c.offset] == w2
    {
      assert c in vals[w2].consumers <==>
               c.op < |copies| && c.offset < |copies[c.op].inputs| && copies[c.op].inputs[c.offset] == w2;
      if c.op == k && c.offset < ni {
        assert copies'[k].inputs[c.offset] == copies[k].inputs[c.offset];
      }
    }
    forall w2 | 0 <= w2 < |vals'|
      ensures if vals'[w2].producer.Some? then LastOutput(copies', w2, vals'[w2].producer.value)
              else NeverOutput(copies', w2)
    {
      assert vals'[w2].producer == vals[w2].producer;
      assert forall j | 0 <= j < |copies| :: copies'[j].outputs == copies[j].outputs;
      if vals[w2].producer.Some? {
        assert LastOutput(copies, w2, vals[w2].producer.value);
      } else {
        assert NeverOutput(copies, w2);
      }
    }
  }

  /** Op k fully connected is op k + 1 not yet started. */
  lemma NextOp(ops: seq<OpId>, opNodes: map<OpId, Op>, values: map<ValueId, Value>,
               copies: seq<Op>, vals: seq<Value>, vmap: map<ValueId, nat>, origin: seq<ValueId>, k: nat)
    requires k < |ops| && Listed(ops, opNodes)
    requires Inv(ops, opNodes, values, copies, vals, vmap, origin, k,
                 |opNodes[ops[k]].outputs|, |opNodes[ops[k]].inputs|)
    ensures Inv(ops, opNodes, values, copies, vals, vmap, origin, k + 1, 0, 0)
  {
    forall j | 0 <= j < |ops|
      ensures OpCopied(opNodes[ops[j]], copies[j], vmap,
                       Done(j, k + 1, 0, |opNodes[ops[j]].outputs|), Done(j, k + 1, 0, |opNodes[ops[j]].inputs|))
    {
      assert OpCopied(opNodes[ops[j]], copies[j], vmap,
                      Done(j, k, |opNodes[ops[k]].outputs|, |opNodes[ops[j]].outputs|),
                      Done(j, k, |opNodes[ops[k]].inputs|, |opNodes[ops[j]].inputs|));
    }
  }

  /** After the last op, the invariant is the promised copy. */
  lemma CopyDone(ops: seq<OpId>, opNodes: map<OpId, Op>, values: map<ValueId, Value>,
                 copies: seq<Op>, vals: seq<Value>, vmap: map<ValueId, nat>, origin: seq<ValueId>)
    requires Inv(ops, opNodes, values, copies, vals, vmap, origin, |ops|, 0, 0)
    ensures forall k | 0 <= k < |ops| ::
              OpCopied(opNodes[ops[k]], copies[k], vmap, |opNodes[ops[k]].outputs|, |opNodes[ops[k]].inputs|)
    ensures forall v :: v in vmap <==> Referenced(ops, opNodes, v)
    ensures forall v1, v2 | v1 in vmap && v2 in vmap && v1 != v2 :: vmap[v1] != vmap[v2]
    ensures forall w | 0 <= w < |vals| :: w in vmap.Values
  {
    forall k | 0 <= k < |ops|
      ensures OpCopied(opNodes[ops[k]], copies[k], vmap, |opNodes[ops[k]].outputs|, |opNodes[ops[k]].inputs|)
    {
      assert Done(k, |ops|, 0, |opNodes[ops[k]].outputs|) == |opNodes[ops[k]].outputs|;
    }
    forall v | Referenced(ops, opNodes, v)
      ensures v in vmap
    {
      var j :| 0 <= j < |ops| && (v in opNodes[ops[j]].inputs || v in opNodes[ops[j]].outputs);
      var o := opNodes[ops[j]];
      assert OpCopied(o, copies[j], vmap, |o.outputs|, |o.inputs|);
      if v in o.inputs {
        var i :| 0 <= i < |o.inputs| && o.inputs[i] == v;
      } else {
        var i :| 0 <= i < |o.outputs| && o.outputs[i] == v;
      }
    }
    forall w | 0 <= w < |vals|
      ensures w in vmap.Values
    {
      assert origin[w] in vmap && vmap[origin[w]] == w;
    }
  }
}

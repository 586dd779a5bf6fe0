/** Undo and redo on the topology canvas: two bounded stacks of snapshots around the current one. */
module CanvasHistory {
  import opened Common
  import opened Sequences

  /** What a snapshot keeps of a node and an edge; `look` is what it drops (type, selection, styles). */
  datatype KeptNode = KeptNode(id: string, x: int, y: int, data: string, deletable: bool)
  datatype KeptEdge = KeptEdge(id: string, source: string, target: string, text: string)
  datatype FlowNode = FlowNode(kept: KeptNode, look: string)
  datatype FlowEdge = FlowEdge(kept: KeptEdge, look: string)

  datatype Snapshot = Snapshot(nodes: seq<KeptNode>, edges: seq<KeptEdge>)

  const LIMIT := 50

  /** The canvas as its snapshot shows it, with what can be undone and what can be redone. */
  datatype History = History(now: Snapshot, past: seq<Snapshot>, future: seq<Snapshot>)

  /** `s.slice(-k)`: the last k elements, or all of them. */
  function LastOf<T>(s: seq<T>, k: nat): seq<T> {
    if |s| <= k then s else s[|s| - k..]
  }

  datatype Event = Push(pre: Option<Snapshot>) | Edit(to: Snapshot) | Undo | Redo

  function Handle(h: History, e: Event): History {
    match e
    case Push(pre) => History(h.now, LastOf(h.past, LIMIT - 1) + [if pre.Some? then pre.value else h.now], [])
    case Edit(to) => h.(now := to)
    case Undo =>
      if h.past == [] then h
      else History(h.past[|h.past| - 1], h.past[..|h.past| - 1], Prefix([h.now] + h.future, LIMIT))
    case Redo =>
      if h.future == [] then h
      else History(h.future[0], LastOf(h.past, LIMIT - 1) + [h.now], h.future[1..])
  }

  function Run(start: Snapshot, events: seq<Event>): History {
    if events == [] then History(start, [], []) else Handle(Run(start, events[..|events| - 1]), events[|events| - 1])
  }

  /** In every reachable history, past and future together hold at most fifty snapshots. */
  lemma {:induction false} AlwaysBounded(start: Snapshot, events: seq<Event>)
    ensures var h := Run(start, events); |h.past| + |h.future| <= LIMIT
  {
    if events != [] {
      AlwaysBounded(start, events[..|events| - 1]);
    }
  }

  predicate Bounded(h: History) {
    |h.past| + |h.future| <= LIMIT
  }

  /** All snapshots in order, oldest first. */
  function Timeline(h: History): seq<Snapshot> {
    h.past + [h.now] + h.future
  }

  /** While bounded, undo and redo drop nothing: they only move along the timeline by one place, if there is one. */
  lemma MovesKeepTheTimeline(h: History)
    requires Bounded(h)
    ensures Bounded(Handle(h, Undo)) && Timeline(Handle(h, Undo)) == Timeline(h)
    ensures Bounded(Handle(h, Redo)) && Timeline(Handle(h, Redo)) == Timeline(h)
    ensures |Handle(h, Undo).past| == if h.past == [] then 0 else |h.past| - 1
    ensures |Handle(h, Redo).past| == if h.future == [] then |h.past| else |h.past| + 1
  {
    if h.past != [] {
      assert h.past == h.past[..|h.past| - 1] + [h.past[|h.past| - 1]];
    }
    if h.future != [] {
      assert h.future == [h.future[0]] + h.future[1..];
    }
  }

  /** The place on the timeline determines the whole history. */
  lemma PlaceDetermines(a: History, b: History)
    requires Timeline(a) == Timeline(b) && |a.past| == |b.past|
    ensures a == b
  {
    assert a.past == Timeline(a)[..|a.past|] && b.past == Timeline(b)[..|b.past|];
    assert a.now == Timeline(a)[|a.past|] && b.now == Timeline(b)[|b.past|];
    assert a.future == Timeline(a)[|a.past| + 1..] && b.future == Timeline(b)[|b.past| + 1..];
  }

  function Repeat(h: History, e: Event, k: nat): History {
    if k == 0 then h else Handle(Repeat(h, e, k - 1), e)
  }

  lemma {:induction false} RepeatedMoves(h: History, k: nat)
    requires Bounded(h)
    ensures Bounded(Repeat(h, Undo, k)) && Timeline(Repeat(h, Undo, k)) == Timeline(h)
    ensures Bounded(Repeat(h, Redo, k)) && Timeline(Repeat(h, Redo, k)) == Timeline(h)
    ensures |Repeat(h, Undo, k).past| == if k <= |h.past| then |h.past| - k else 0
    ensures |Repeat(h, Redo, k).past| == if k <= |h.future| then |h.past| + k else |h.past| + |h.future|
  {
    if k > 0 {
      RepeatedMoves(h, k - 1);
      MovesKeepTheTimeline(Repeat(h, Undo, k - 1));
      MovesKeepTheTimeline(Repeat(h, Redo, k - 1));
      assert |Timeline(Repeat(h, Redo, k - 1))| == |Timeline(h)|;
    }
  }

  /**
   * k undos then k redos restore the snapshot and both stacks, and so do k redos then k undos, as far as there
   * are that many.
   */
  lemma UndoRedoRestores(start: Snapshot, events: seq<Event>, k: nat)
    ensures var h := Run(start, events);
            && (k <= |h.past| ==> Repeat(Repeat(h, Undo, k), Redo, k) == h)
            && (k <= |h.future| ==> Repeat(Repeat(h, Redo, k), Undo, k) == h)
  {
    var h := Run(start, events);
    AlwaysBounded(start, events);
    RepeatedMoves(h, k);
    RepeatedMoves(Repeat(h, Undo, k), k);
    RepeatedMoves(Repeat(h, Redo, k), k);
    assert |Timeline(Repeat(h, Undo, k))| == |Timeline(h)| && |Timeline(Repeat(h, Redo, k))| == |Timeline(h)|;
    if k <= |h.past| {
      PlaceDetermines(Repeat(Repeat(h, Undo, k), Redo, k), h);
    }
    if k <= |h.future| {
      PlaceDetermines(Repeat(Repeat(h, Redo, k), Undo, k), h);
    }
  }

  /** One edit: the snapshot before it is pushed, then the canvas changes. */
  function Edited(h: History, edits: seq<Snapshot>): History {
    if edits == [] then h
    else Handle(Handle(Edited(h, edits[..|edits| - 1]), Push(None)), Edit(edits[|edits| - 1]))
  }

  /** After k edits, at most fifty, the snapshot before the first one is the k-th from the end of the past. */
  lemma {:induction false} EditsArePast(h: History, edits: seq<Snapshot>)
    requires Bounded(h) && 0 < |edits| <= 50
    ensures var e, k := Edited(h, edits), |edits|;
            Bounded(e) && e.future == [] && |e.past| >= k && e.past[|e.past| - k] == h.now && e.now == edits[k - 1]
  {
    hide *;
    var init, k := edits[..|edits| - 1], |edits|;
    if k == 1 {
      NoEdits(h);
      assert init == [];
    } else {
      EditsArePast(h, init);
    }
    EditedStep(h, edits);
    OneEdit(Edited(h, init), edits[k - 1], k - 1);
  }

  lemma NoEdits(h: History)
    ensures Edited(h, []) == h && Repeat(h, Undo, 0) == h
  {
  }

  lemma EditedStep(h: History, edits: seq<Snapshot>)
    requires edits != []
    ensures Edited(h, edits) == Handle(Handle(Edited(h, edits[..|edits| - 1]), Push(None)), Edit(edits[|edits| - 1]))
  {
    hide Handle;
  }

  lemma OneEdit(h: History, to: Snapshot, k: nat)
    requires Bounded(h) && k <= 49 && k <= |h.past|
    ensures var e := Handle(Handle(h, Push(None)), Edit(to));
            && Bounded(e) && e.future == [] && e.now == to && |e.past| >= k + 1
            && e.past[|e.past| - 1 - k] == if k == 0 then h.now else h.past[|h.past| - k]
  {
  }

  /** Up to fifty edits can be undone one by one, back to the snapshot before the first. */
  lemma EditsAreUndone(start: Snapshot, events: seq<Event>, edits: seq<Snapshot>)
    requires |edits| <= 50
    ensures Repeat(Edited(Run(start, events), edits), Undo, |edits|).now == Run(start, events).now
  {
    hide *;
    var h, k := Run(start, events), |edits|;
    AlwaysBounded(start, events);
    assert Bounded(h) by { SmallIsBounded(h); }
    if edits == [] {
      NoEdits(h);
    } else {
      EditsArePast(h, edits);
      UndoneTo(Edited(h, edits), k);
    }
  }

  lemma SmallIsBounded(h: History)
    requires |h.past| + |h.future| <= LIMIT
    ensures Bounded(h)
  {
  }

  /** Undoing k times gives the k-th snapshot from the end of the past. */
  lemma UndoneTo(h: History, k: nat)
    requires Bounded(h) && 0 < k <= |h.past|
    ensures Repeat(h, Undo, k).now == h.past[|h.past| - k]
  {
    hide Handle, Repeat;
    RepeatedMoves(h, k);
    var undone := Repeat(h, Undo, k);
    assert Timeline(h)[|h.past| - k] == h.past[|h.past| - k];
    assert undone.now == Timeline(undone)[|undone.past|];
  }

  /** An edit pushed with a snapshot taken earlier is undone to that one, and redone to the edit. */
  lemma PushedIsRestored(h: History, pre: Snapshot, to: Snapshot)
    ensures var edited := Handle(Handle(h, Push(Some(pre))), Edit(to));
            Handle(edited, Undo).now == pre && Handle(edited, Undo).future == [to] && edited.future == []
  {
  }

  /** The canvas state of the component. */
  class TopologyCanvas {
    var nodes: seq<FlowNode>
    var edges: seq<FlowEdge>
    var past: seq<Snapshot>
    var future: seq<Snapshot>

    constructor (nodes: seq<FlowNode>, edges: seq<FlowEdge>)
      ensures past == [] && future == [] && this.nodes == nodes && this.edges == edges
    {
      this.nodes, this.edges, past, future := nodes, edges, [], [];
    }

    function TakeSnapshot(): Snapshot
      reads this
    {
      Snapshot(seq(|nodes|, i requires 0 <= i < |nodes| reads this => nodes[i].kept),
               seq(|edges|, i requires 0 <= i < |edges| reads this => edges[i].kept))
    }

    ghost function View(): History
      reads this
    {
      History(TakeSnapshot(), past, future)
    }

    method PushHistory(pre: Option<Snapshot>)
      modifies this
      ensures View() == Handle(old(View()), Push(pre))
      ensures nodes == old(nodes) && edges == old(edges)
    {
      past := LastOf(past, LIMIT - 1) + [if pre.Some? then pre.value else TakeSnapshot()];
      future := [];
    }

    /** What a snapshot dropped is not restored, but taking the snapshot again gives the same one. */
    method Restore(snap: Snapshot)
      modifies this
      ensures TakeSnapshot() == snap
      ensures past == old(past) && future == old(future)
    {
      nodes := seq(|snap.nodes|, i requires 0 <= i < |snap.nodes| => FlowNode(snap.nodes[i], ""));
      edges := seq(|snap.edges|, i requires 0 <= i < |snap.edges| => FlowEdge(snap.edges[i], ""));
      assert TakeSnapshot().nodes == snap.nodes && TakeSnapshot().edges == snap.edges;
    }

    method UndoLast()
      modifies this
      ensures View() == Handle(old(View()), Undo)
    {
      if past == [] {
        return;
      }
      var prev := past[|past| - 1];
      future := Prefix([TakeSnapshot()] + future, LIMIT);
      past := past[..|past| - 1];
      Restore(prev);
    }

    method RedoLast()
      modifies this
      ensures View() == Handle(old(View()), Redo)
    {
      if future == [] {
        return;
      }
      var next := future[0];
      past := LastOf(past, LIMIT - 1) + [TakeSnapshot()];
      future := future[1..];
      Restore(next);
    }
  }
}

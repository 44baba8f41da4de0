/**
 * Calls of the coordinator give way at every await. This module shows that each whole call is a run of
 * segments (what happens between two awaits): quiet bookkeeping, opening a round, taking one message,
 * repeating one vote on record. The network theorems let segments of different calls interleave freely, so
 * they cover every schedule in which a start that was interrupted still may vote when it goes on.
 */
module Interleaving {
  import opened BftTypes
  import opened Round
  import opened Coordinator

  predicate IsSegment(ev: Event) {
    ev.OpenEvent? || ev.DeliverEvent? || ev.RepeatEvent? || ev.QuietEvent?
  }

  datatype Segment = Segment(ev: Event, out: Out)

  /** Each segment takes up where the one before left off. */
  ghost predicate Leads(c: Coord, segs: seq<Segment>, c': Coord)
    decreases |segs|
  {
    if segs == [] then c' == c
    else IsSegment(segs[0].ev) && Step(c, segs[0].ev, segs[0].out) && Leads(segs[0].out.c, segs[1..], c')
  }

  function Joined<T>(parts: seq<seq<T>>): seq<T> {
    if parts == [] then [] else parts[0] + Joined(parts[1..])
  }

  function Effects(segs: seq<Segment>): seq<Effect> {
    Joined(seq(|segs|, i requires 0 <= i < |segs| => segs[i].out.fx))
  }

  /** The outcome is what these segments, one after the other, produce. */
  ghost predicate MadeOf(c: Coord, segs: seq<Segment>, o: Out) {
    Leads(c, segs, o.c) && o.fx == Effects(segs)
  }

  lemma {:induction false} LeadsOn(c: Coord, a: seq<Segment>, c1: Coord, b: seq<Segment>, c2: Coord)
    requires Leads(c, a, c1) && Leads(c1, b, c2)
    ensures Leads(c, a + b, c2)
    decreases |a|
  {
    hide Step, IsSegment;
    if a == [] {
      assert a + b == b;
    } else {
      LeadsOn(a[0].out.c, a[1..], c1, b, c2);
      assert (a + b)[0] == a[0] && (a + b)[1..] == a[1..] + b;
    }
  }

  lemma {:induction false} JoinedAdd<T>(a: seq<seq<T>>, b: seq<seq<T>>)
    ensures Joined(a + b) == Joined(a) + Joined(b)
    decreases |a|
  {
    if a == [] {
      assert a + b == b;
    } else {
      JoinedAdd(a[1..], b);
      assert (a + b)[0] == a[0] && (a + b)[1..] == a[1..] + b;
    }
  }

  lemma JoinedOne<T>(part: seq<T>)
    ensures Joined([part]) == part
  {
    assert [part][1..] == [];
    assert Joined([part]) == part + Joined([]);
  }

  lemma EffectsAdd(a: seq<Segment>, b: seq<Segment>)
    ensures Effects(a + b) == Effects(a) + Effects(b)
  {
    hide Joined;
    var x := seq(|a|, i requires 0 <= i < |a| => a[i].out.fx);
    var y := seq(|b|, i requires 0 <= i < |b| => b[i].out.fx);
    JoinedAdd(x, y);
    assert x + y == seq(|a + b|, i requires 0 <= i < |a + b| => (a + b)[i].out.fx);
  }

  lemma Append(c: Coord, a: seq<Segment>, o1: Out, b: seq<Segment>, o2: Out)
    requires MadeOf(c, a, o1) && MadeOf(o1.c, b, o2)
    ensures MadeOf(c, a + b, Out(o2.c, o1.fx + o2.fx))
  {
    hide Leads, Effects;
    LeadsOn(c, a, o1.c, b, o2.c);
    EffectsAdd(a, b);
  }

  lemma One(c: Coord, ev: Event, o: Out)
    requires IsSegment(ev) && Step(c, ev, o)
    ensures MadeOf(c, [Segment(ev, o)], o)
  {
    hide Step, IsSegment;
    var segs := [Segment(ev, o)];
    assert segs[1..] == [];
    assert Effects(segs) == o.fx by {
      JoinedOne(o.fx);
      assert seq(|segs|, i requires 0 <= i < |segs| => segs[i].out.fx) == [o.fx];
    }
    assert Leads(segs[0].out.c, segs[1..], o.c);
  }

  lemma Quietly(c: Coord, c': Coord) returns (segs: seq<Segment>)
    requires IsQuiet(c, c')
    ensures MadeOf(c, segs, Out(c', []))
  {
    hide IsQuiet;
    segs := [Segment(QuietEvent(c'), Out(c', []))];
    One(c, QuietEvent(c'), Out(c', []));
  }

  lemma {:induction false} DrainSegments(c: Coord, msgs: seq<Msg>, valid: set<Msg>) returns (segs: seq<Segment>)
    ensures MadeOf(c, segs, Drain(c, msgs, valid))
    decreases |msgs|
  {
    hide Deliver, MadeOf;
    if msgs == [] || c.active.None? {
      segs := [];
      Nothing(c);
    } else {
      var d := Deliver(c, msgs[0], valid);
      var first := Segment(DeliverEvent(msgs[0], valid), Out(d.c, d.fx));
      One(c, first.ev, first.out);
      var rest := DrainSegments(d.c, msgs[1..], valid);
      Append(c, [first], first.out, rest, Drain(d.c, msgs[1..], valid));
      segs := [first] + rest;
    }
  }

  lemma Nothing(c: Coord)
    ensures MadeOf(c, [], Out(c, []))
  {
  }

  lemma FinishSegments(c: Coord, block: Block, root: Option<Hash>, valid: set<Msg>) returns (segs: seq<Segment>)
    ensures MadeOf(c, segs, StartFinish(c, block, root, valid))
  {
    hide OpenRound, Drain, Select, Newer, MadeOf, IsQuiet;
    var o := OpenRound(c, block, root);
    var open := Segment(OpenEvent(c.cfg, block, root), o);
    assert OpenWith(c, c.cfg, block, root) == o;
    One(c, open.ev, o);
    var c1 := o.c.(pending := Newer(c.pending, block.number));
    assert OnlyDrops(o.c.pending, c1.pending);
    var filter := Quiet1(o.c, c1);
    Append(c, [open], o, filter, Out(c1, []));
    var buffered := Select(c.pending, block.number, false) + Select(c.pending, block.number, true);
    var drain := DrainSegments(c1, buffered, valid);
    var r := Drain(c1, buffered, valid);
    assert o.fx + [] == o.fx;
    Append(c, [open] + filter, Out(c1, o.fx), drain, r);
    var last := StartFinish(c, block, root, valid).c;
    var retry := Quiet2(r.c, last);
    Append(c, [open] + filter + drain, Out(r.c, o.fx + r.fx), retry, Out(last, []));
    assert o.fx + r.fx + [] == o.fx + r.fx;
    segs := [open] + filter + drain + retry;
  }

  /** Dropping buffered messages is quiet. */
  lemma Quiet1(c: Coord, c': Coord) returns (segs: seq<Segment>)
    requires c' == c.(pending := c'.pending) && OnlyDrops(c.pending, c'.pending)
    ensures MadeOf(c, segs, Out(c', []))
  {
    segs := Quietly(c, c');
  }

  /** Turning the commit retry on is quiet. */
  lemma Quiet2(c: Coord, c': Coord) returns (segs: seq<Segment>)
    requires c' == c.(commitRetry := c'.commitRetry) && (c.commitRetry ==> c'.commitRetry)
    ensures MadeOf(c, segs, Out(c', []))
  {
    segs := Quietly(c, c');
  }

  lemma CheckResult(c: Coord, block: Block, tip: Option<int>)
    ensures var next, c1 := StartCheck(c, block, tip).c, ClearTerminal(c);
      next == c || next == c1 || next == c1.(deferred := Some(block)) || next == ClearRound(c1).(deferred := None)
  {
    hide ClearTerminal, ClearRound, Floor, Superseded;
  }

  lemma CheckIsQuiet(c: Coord, block: Block, tip: Option<int>)
    ensures IsQuiet(c, StartCheck(c, block, tip).c)
  {
    hide StartCheck;
    CheckResult(c, block, tip);
    ClearingIsQuiet(c);
    var c1 := ClearTerminal(c);
    hide ClearTerminal;
    assert IsQuiet(c, c1.(deferred := Some(block)));
    assert IsQuiet(c, ClearRound(c1).(deferred := None));
  }

  lemma ClearingIsQuiet(c: Coord)
    ensures IsQuiet(c, ClearTerminal(c)) && IsQuiet(c, c)
  {
  }

  lemma StartSegments(c: Coord, block: Block, tip: Option<int>, root: Option<Hash>, valid: set<Msg>)
    returns (segs: seq<Segment>)
    ensures MadeOf(c, segs, StartRound(c, block, tip, root, valid))
  {
    hide StartCheck, StartFinish, MadeOf, IsQuiet;
    var d := StartCheck(c, block, tip);
    CheckIsQuiet(c, block, tip);
    segs := Quietly(c, d.c);
    if d.Proceed? {
      var finish := FinishSegments(d.c, block, root, valid);
      var o := StartFinish(d.c, block, root, valid);
      Append(c, segs, Out(d.c, []), finish, o);
      assert [] + o.fx == o.fx;
      segs := segs + finish;
    }
  }

  lemma AfterQuiet(c: Coord, c': Coord, segs: seq<Segment>, o: Out) returns (all: seq<Segment>)
    requires IsQuiet(c, c') && MadeOf(c', segs, o)
    ensures MadeOf(c, all, o)
  {
    hide MadeOf, IsQuiet;
    var quiet := Quietly(c, c');
    Append(c, quiet, Out(c', []), segs, o);
    assert [] + o.fx == o.fx;
    all := quiet + segs;
  }

  lemma DeferredSegments(c: Coord, env: Env) returns (segs: seq<Segment>)
    ensures MadeOf(c, segs, ProcessDeferred(c, env))
  {
    hide StartRound, MadeOf;
    var c1 := c.(deferred := None);
    if c.deferred.None? || c.deferred.value.number <= Floor(c.lastFinalized, env.tip) {
      segs := Quietly(c, c1);
    } else {
      var start := StartSegments(c1, c.deferred.value, env.tipAfter, env.root, env.valid);
      segs := AfterQuiet(c, c1, start, ProcessDeferred(c, env));
    }
  }

  lemma MessageSegments(c: Coord, msg: Msg, env: Env) returns (segs: seq<Segment>)
    ensures MadeOf(c, segs, HandleMessage(c, msg, env))
  {
    hide Deliver, ProcessDeferred, MadeOf;
    var d := Deliver(c, msg, env.valid);
    var first := Segment(DeliverEvent(msg, env.valid), Out(d.c, d.fx));
    One(c, first.ev, first.out);
    segs := [first];
    if d.finalized {
      var rest := DeferredSegments(d.c, env);
      Append(c, segs, first.out, rest, ProcessDeferred(d.c, env));
      segs := segs + rest;
    }
  }

  lemma BlockResult(c: Coord, block: Block, env: Env)
    ensures var o, c1 := HandleReceivedBlock(c, block, env), ClearTerminal(c);
      || o == Out(c, []) || o == Out(c1, []) || o == Out(c1.(deferred := Some(block)), [])
      || o == StartRound(c1, block, env.tip, env.root, env.valid)
      || o == StartRound(ClearRound(c1), block, env.tip, env.root, env.valid)
  {
    hide StartRound, ClearTerminal, ClearRound, Busy;
  }

  lemma BlockSegments(c: Coord, block: Block, env: Env) returns (segs: seq<Segment>)
    ensures MadeOf(c, segs, HandleReceivedBlock(c, block, env))
  {
    hide HandleReceivedBlock, StartRound, MadeOf;
    var c1, o := ClearTerminal(c), HandleReceivedBlock(c, block, env);
    BlockResult(c, block, env);
    ClearingIsQuiet(c);
    hide ClearTerminal;
    if o == Out(c, []) {
      segs := Quietly(c, c);
    } else if o == Out(c1, []) {
      segs := Quietly(c, c1);
    } else if o == Out(c1.(deferred := Some(block)), []) {
      segs := Quietly(c, c1.(deferred := Some(block)));
    } else if o == StartRound(c1, block, env.tip, env.root, env.valid) {
      var start := StartSegments(c1, block, env.tip, env.root, env.valid);
      segs := AfterQuiet(c, c1, start, o);
    } else {
      var start := StartSegments(ClearRound(c1), block, env.tip, env.root, env.valid);
      segs := AfterQuiet(c, ClearRound(c1), start, o);
    }
  }

  lemma TimerSegments(c: Coord, env: Env) returns (timeout: seq<Segment>, liveness: seq<Segment>)
    ensures MadeOf(c, timeout, Timeout(c, env))
    ensures MadeOf(c, liveness, LivenessReset(c, env))
  {
    hide ProcessDeferred, MadeOf;
    if c.active.None? {
      timeout := Quietly(c, c);
      liveness := timeout;
    } else {
      var h := c.active.value.state.height;
      var c1 := Reenter(ClearRound(c), h);
      var c2 := Reenter(ClearRound(c).(pending := [], deferred := None), h);
      var d1 := DeferredSegments(c1, env);
      var d2 := DeferredSegments(c2, env);
      liveness := AfterQuiet(c, c2, d2, LivenessReset(c, env));
      if IsTerminal(c.active.value.state.phase) {
        timeout := Quietly(c, c);
      } else {
        timeout := AfterQuiet(c, c1, d1, Timeout(c, env));
      }
    }
  }

  /** Sending votes on record, one after the other. */
  lemma {:induction false} RepeatSegments(c: Coord, fx: seq<Effect>) returns (segs: seq<Segment>)
    requires forall i :: 0 <= i < |fx| ==> fx[i].Sent? && OnRecord(c, fx[i].msg)
    ensures MadeOf(c, segs, Out(c, fx))
    decreases |fx|
  {
    hide MadeOf, OnRecord;
    if fx == [] {
      segs := [];
      Nothing(c);
    } else {
      var first := Segment(RepeatEvent(fx[0].msg), Out(c, [fx[0]]));
      One(c, first.ev, first.out);
      var rest := RepeatSegments(c, fx[1..]);
      Append(c, [first], first.out, rest, Out(c, fx[1..]));
      assert [fx[0]] + fx[1..] == fx;
      segs := [first] + rest;
    }
  }

  predicate IsCall(ev: Event) {
    ev.StartEvent? || ev.MessageEvent? || ev.BlockEvent? || ev.TimeoutEvent? || ev.LivenessEvent? || ev.ReplayEvent?
  }

  /** Every whole call is a run of segments with the same outcome and the same effects in the same order. */
  lemma CallIsSegments(c: Coord, ev: Event, o: Out) returns (segs: seq<Segment>)
    requires IsCall(ev) && Step(c, ev, o)
    ensures MadeOf(c, segs, o)
  {
    hide MadeOf, StartRound, HandleMessage, HandleReceivedBlock, Timeout, LivenessReset, IsReplay, OnRecord;
    match ev
    case StartEvent(block, env) => segs := StartSegments(c, block, env.tip, env.root, env.valid);
    case MessageEvent(msg, env) => segs := MessageSegments(c, msg, env);
    case BlockEvent(block, env) => segs := BlockSegments(c, block, env);
    case TimeoutEvent(env) =>
      var t, _ := TimerSegments(c, env);
      segs := t;
    case LivenessEvent(env) =>
      var _, l := TimerSegments(c, env);
      segs := l;
    case ReplayEvent(tip, commits, prepares) =>
      forall i | 0 <= i < |o.fx| ensures o.fx[i].Sent? && OnRecord(c, o.fx[i].msg) {
        ReplayIsOnRecord(c, Floor(c.lastFinalized, tip), commits, prepares, o.fx, i);
      }
      segs := RepeatSegments(c, o.fx);
  }
}

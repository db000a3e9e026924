/** The second-signal escape hatch (cmd/cyoda/main.go): a watcher goroutine that
    receives twice from a buffered signal channel and then ends the process. */
module HardExit {

  /** `sent` counts signals raised, `delivered` those handed to the channel (each by
      a send that never blocks), `dropped` those that found the buffer full. */
  datatype Watch = Watch(capacity: nat, sent: nat, delivered: nat, dropped: nat, buffered: nat, receives: nat)

  datatype Event = Raise | Deliver | Receive

  const CAPACITY: nat := 2

  function Start(capacity: nat): Watch {
    Watch(capacity, 0, 0, 0, 0, 0)
  }

  predicate Enabled(w: Watch, e: Event) {
    match e
    case Raise => true
    case Deliver => w.delivered < w.sent
    case Receive => w.buffered > 0 && w.receives < 2
  }

  function Next(w: Watch, e: Event): Watch
    requires Enabled(w, e)
  {
    match e
    case Raise => w.(sent := w.sent + 1)
    case Deliver =>
      if w.buffered < w.capacity then w.(delivered := w.delivered + 1, buffered := w.buffered + 1)
      else w.(delivered := w.delivered + 1, dropped := w.dropped + 1)
    case Receive => w.(buffered := w.buffered - 1, receives := w.receives + 1)
  }

  predicate HardExits(w: Watch) { w.receives == 2 }

  ghost predicate Leads(w: Watch, es: seq<Event>, w': Watch)
    decreases |es|
  {
    if es == [] then w == w' else Enabled(w, es[0]) && Leads(Next(w, es[0]), es[1..], w')
  }

  predicate Ok(w: Watch) {
    && w.delivered <= w.sent && w.buffered <= w.capacity && w.receives <= 2
    && w.delivered == w.receives + w.buffered + w.dropped
    && (w.dropped > 0 ==> w.receives + w.buffered >= w.capacity)
  }

  lemma {:induction false} RunKeepsOk(w: Watch, es: seq<Event>, w': Watch)
    requires Ok(w) && Leads(w, es, w')
    ensures Ok(w') && w'.capacity == w.capacity
    decreases |es|
  {
    if es != [] {
      RunKeepsOk(Next(w, es[0]), es[1..], w');
    }
  }

  /** Two delivered signals are as good as received: both are taken or buffered. */
  predicate TwoAreKept(w: Watch) {
    w.delivered >= 2 ==> w.receives + w.buffered >= 2
  }

  /** In every run a hard exit means at least two delivered signals, and two
      delivered signals are never lost before both receives. */
  lemma SecondSignalEnds(es: seq<Event>, w: Watch)
    requires Leads(Start(CAPACITY), es, w)
    ensures HardExits(w) ==> w.sent >= w.delivered >= 2
    ensures TwoAreKept(w)
    ensures w.delivered >= 2 && !HardExits(w) ==> Enabled(w, Receive)
  {
    RunKeepsOk(Start(CAPACITY), es, w);
  }

  lemma SmallBufferLoses(capacity: nat) returns (es: seq<Event>, w: Watch)
    requires capacity < 2
    ensures Leads(Start(capacity), es, w) && !TwoAreKept(w)
  {
    var w1 := Next(Start(capacity), Raise);
    var w2 := Next(w1, Raise);
    var w3 := Next(w2, Deliver);
    w := Next(w3, Deliver);
    assert [Deliver][1..] == [] && [Deliver, Deliver][1..] == [Deliver];
    assert Leads(w3, [Deliver], w);
    assert Leads(w2, [Deliver, Deliver], w);
    assert [Raise, Deliver, Deliver][1..] == [Deliver, Deliver];
    assert Leads(w1, [Raise, Deliver, Deliver], w);
    es := [Raise, Raise, Deliver, Deliver];
    assert es[1..] == [Raise, Deliver, Deliver];
  }

  ghost predicate AlwaysKeepsTwo(capacity: nat) {
    forall es, w :: Leads(Start(capacity), es, w) ==> TwoAreKept(w)
  }

  /** That holds of every run exactly when the buffer takes two. */
  lemma BufferOfTwoIsNeeded(capacity: nat)
    ensures AlwaysKeepsTwo(capacity) <==> capacity >= 2
  {
    if capacity >= 2 {
      forall es, w | Leads(Start(capacity), es, w) ensures TwoAreKept(w) {
        RunKeepsOk(Start(capacity), es, w);
      }
    } else {
      var es, w := SmallBufferLoses(capacity);
    }
  }

  // --- the design the comment rejects ------------------------------------

  /** Wait for the context, drain what the channel holds, then take the next signal
      as the second. Each signal reaches the context and the channel separately. */
  datatype Pc = AwaitContext | AtDrain | AwaitSecond | Exit

  /** `early`: the drain ran before any signal had reached the channel. */
  datatype Drainer = Drainer(sent: nat, toContext: nat, toChannel: nat, buffered: nat, pc: Pc, early: bool)

  datatype Step = Send | ReachContext | ReachChannel | Wake | DrainOnce | Take

  const IDLE := Drainer(0, 0, 0, 0, AwaitContext, false)

  predicate Can(d: Drainer, s: Step) {
    match s
    case Send => true
    case ReachContext => d.toContext < d.sent
    case ReachChannel => d.toChannel < d.sent
    case Wake => d.pc == AwaitContext && d.toContext > 0
    case DrainOnce => d.pc == AtDrain
    case Take => d.pc == AwaitSecond && d.buffered > 0
  }

  function After(d: Drainer, s: Step): Drainer
    requires Can(d, s)
  {
    match s
    case Send => d.(sent := d.sent + 1)
    case ReachContext => d.(toContext := d.toContext + 1)
    case ReachChannel =>
      d.(toChannel := d.toChannel + 1, buffered := if d.buffered < CAPACITY then d.buffered + 1 else d.buffered)
    case Wake => d.(pc := AtDrain)
    case DrainOnce =>
      d.(pc := AwaitSecond, buffered := if d.buffered > 0 then d.buffered - 1 else 0, early := d.toChannel == 0)
    case Take => d.(pc := Exit, buffered := d.buffered - 1)
  }

  ghost predicate Gets(d: Drainer, ss: seq<Step>, d': Drainer)
    decreases |ss|
  {
    if ss == [] then d == d' else Can(d, ss[0]) && Gets(After(d, ss[0]), ss[1..], d')
  }

  predicate DrainerOk(d: Drainer) {
    && d.toChannel <= d.sent && d.buffered <= d.toChannel
    && (d.pc in {AwaitContext, AtDrain} ==> !d.early && (d.toChannel > 0 ==> d.buffered > 0))
    && (d.pc == AwaitSecond && !d.early ==> 0 < d.toChannel && d.buffered < d.toChannel)
    && (d.pc == Exit && !d.early ==> d.toChannel >= 2)
  }

  lemma {:induction false} RunKeepsDrainer(d: Drainer, ss: seq<Step>, d': Drainer)
    requires DrainerOk(d) && Gets(d, ss, d')
    ensures DrainerOk(d')
    decreases |ss|
  {
    if ss != [] {
      RunKeepsDrainer(After(d, ss[0]), ss[1..], d');
    }
  }

  /** The rejected design exits on fewer than two signals only if its drain ran too
      early; ... */
  lemma DrainerExitsOnTwoUnlessEarly(ss: seq<Step>, d: Drainer)
    requires Gets(IDLE, ss, d) && d.pc == Exit && d.sent < 2
    ensures d.early
  {
    RunKeepsDrainer(IDLE, ss, d);
  }

  lemma Precedes(d: Drainer, s: Step, ss: seq<Step>, d': Drainer) returns (ss': seq<Step>)
    requires Can(d, s) && Gets(After(d, s), ss, d')
    ensures Gets(d, ss', d')
  {
    ss' := [s] + ss;
    assert ss'[1..] == ss;
  }

  /** ... and then one signal is enough. */
  lemma DrainerExitsOnOne()
    ensures exists ss, d :: Gets(IDLE, ss, d) && d.pc == Exit && d.sent == 1
  {
    var d1 := After(IDLE, Send);
    var d2 := After(d1, ReachContext);
    var d3 := After(d2, Wake);
    var d4 := After(d3, DrainOnce);
    var d5 := After(d4, ReachChannel);
    var d := After(d5, Take);
    var ss := Precedes(d5, Take, [], d);
    ss := Precedes(d4, ReachChannel, ss, d);
    ss := Precedes(d3, DrainOnce, ss, d);
    ss := Precedes(d2, Wake, ss, d);
    ss := Precedes(d1, ReachContext, ss, d);
    ss := Precedes(IDLE, Send, ss, d);
  }
}

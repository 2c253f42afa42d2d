/** The JSON-RPC client's notification buffer: calls and reads share one socket, and a head that
    arrives while a call is waiting must still reach the next read. */
module Notifications {
  import opened Wrappers

  datatype Header = Header(number: string)

  /** One decoded frame; an object may carry an id, a method, notification params, an error, a result. */
  datatype Message =
    | NonObject
    | Object(id: Option<int>, rpcMethod: Option<string>, params: Params, hasError: bool, hasResult: bool)

  /** A notification's params; missing ones read as an object without fields. */
  datatype Params = NotAnObject | Fields(subscription: Option<string>, header: Option<Header>)

  /** What the socket does next: deliver a frame, or stay silent past the timeout. */
  datatype Frame = Arrived(message: Message) | Silence

  const FINALIZED_HEAD := "chain_finalizedHead"

  predicate IsHead(m: Message, sub: string) {
    m.Object? && m.rpcMethod == Some(FINALIZED_HEAD) && m.params.Fields? && m.params.subscription == Some(sub)
  }

  /** A finalized-head notification whose params cannot be read makes the read raise. */
  predicate IsBroken(m: Message) {
    m.Object? && m.rpcMethod == Some(FINALIZED_HEAD) && m.params.NotAnObject?
  }

  /** A received frame with the request that was waiting when it arrived, if any. */
  datatype Receipt = Receipt(message: Message, pending: Option<int>)

  /** The frame was taken as the answer to the waiting request. */
  predicate Answers(r: Receipt) {
    r.message.Object? && r.pending.Some? && r.message.id == r.pending
  }

  /** Client state; received and returned are history. */
  datatype Client = Client(nextId: int, buffer: seq<Message>, incoming: seq<Frame>, received: seq<Receipt>,
                           returned: seq<Message>)

  datatype Outcome = Answered | Failed | TimedOut

  function Receive(c: Client, pending: Option<int>): Client
    requires c.incoming != [] && c.incoming[0].Arrived?
  {
    c.(incoming := c.incoming[1..], received := c.received + [Receipt(c.incoming[0].message, pending)])
  }

  /** A timeout consumes the silence. */
  function Quiet(c: Client): Client {
    if c.incoming == [] then c else c.(incoming := c.incoming[1..])
  }

  predicate Idle(c: Client) { c.incoming == [] || c.incoming[0].Silence? }

  function Await(c: Client, id: int): (Client, Outcome)
    decreases |c.incoming|
  {
    if Idle(c) then (Quiet(c), TimedOut)
    else
      var m, d := c.incoming[0].message, Receive(c, Some(id));
      if m.NonObject? then (d, Failed)
      else if m.id != Some(id) then Await(if m.rpcMethod.Some? then d.(buffer := d.buffer + [m]) else d, id)
      else (d, if !m.hasError && m.hasResult then Answered else Failed)
  }

  function Call(c: Client): (Client, Outcome) {
    Await(c.(nextId := c.nextId + 1), c.nextId)
  }

  datatype ReadOutcome = Returned(header: Option<Header>) | Raised

  function NextFinalized(c: Client, sub: string): (Client, ReadOutcome)
    decreases |c.buffer| + |c.incoming|
  {
    if c.buffer != [] then
      var m, d := c.buffer[0], c.(buffer := c.buffer[1..]);
      if IsHead(m, sub) then (d.(returned := d.returned + [m]), Returned(m.params.header))
      else if IsBroken(m) then (d, Raised)
      else NextFinalized(d, sub)
    else if Idle(c) then (Quiet(c), Returned(None))
    else
      var m, d := c.incoming[0].message, Receive(c, None);
      if IsHead(m, sub) then (d.(returned := d.returned + [m]), Returned(m.params.header))
      else if IsBroken(m) then (d, Raised)
      else NextFinalized(d, sub)
  }

  // ---------- None lost, none repeated, in order ----------

  function Heads(ms: seq<Message>, sub: string): seq<Message> {
    if ms == [] then []
    else Heads(ms[..|ms| - 1], sub) + (if IsHead(ms[|ms| - 1], sub) then [ms[|ms| - 1]] else [])
  }

  /** The subscription's notifications among everything received, in arrival order. */
  function HeadsReceived(rs: seq<Receipt>, sub: string): seq<Message> {
    if rs == [] then []
    else
      var r := rs[|rs| - 1];
      HeadsReceived(rs[..|rs| - 1], sub) + (if IsHead(r.message, sub) && !Answers(r) then [r.message] else [])
  }

  ghost predicate Lossless(c: Client, sub: string) {
    c.returned + Heads(c.buffer, sub) == HeadsReceived(c.received, sub)
  }

  lemma HeadsSnoc(ms: seq<Message>, m: Message, sub: string)
    ensures Heads(ms + [m], sub) == Heads(ms, sub) + (if IsHead(m, sub) then [m] else [])
  {
    assert (ms + [m])[..|ms|] == ms;
  }

  lemma ReceivedSnoc(rs: seq<Receipt>, r: Receipt, sub: string)
    ensures HeadsReceived(rs + [r], sub) ==
            HeadsReceived(rs, sub) + (if IsHead(r.message, sub) && !Answers(r) then [r.message] else [])
  {
    assert (rs + [r])[..|rs|] == rs;
  }

  lemma NoHeads(sub: string)
    ensures Heads([], sub) == []
  {}

  lemma {:induction false} HeadsCons(m: Message, ms: seq<Message>, sub: string)
    ensures Heads([m] + ms, sub) == (if IsHead(m, sub) then [m] else []) + Heads(ms, sub)
  {
    hide Heads, IsHead;
    NoHeads(sub);
    if ms == [] {
      assert [m] + ms == [] + [m];
      HeadsSnoc([], m, sub);
    } else {
      var init, last := ms[..|ms| - 1], ms[|ms| - 1];
      assert ms == init + [last] && [m] + ms == ([m] + init) + [last];
      HeadsCons(m, init, sub);
      HeadsSnoc(init, last, sub);
      HeadsSnoc([m] + init, last, sub);
    }
  }

  /** A waiting call loses no subscription's heads, whatever arrives before its answer. */
  lemma {:induction false} AwaitLossless(c: Client, id: int, sub: string)
    requires Lossless(c, sub)
    ensures Lossless(Await(c, id).0, sub)
    decreases |c.incoming|
  {
    hide Heads, HeadsReceived;
    if !Idle(c) {
      var m, d := c.incoming[0].message, Receive(c, Some(id));
      ReceivedSnoc(c.received, Receipt(m, Some(id)), sub);
      if m.Object? && m.id != Some(id) {
        HeadsSnoc(d.buffer, m, sub);
        var e := if m.rpcMethod.Some? then d.(buffer := d.buffer + [m]) else d;
        assert Lossless(e, sub);
        AwaitLossless(e, id, sub);
      }
    }
  }

  /** A read for the subscription takes the oldest undelivered head, or reports none. */
  lemma {:induction false} NextLossless(c: Client, sub: string)
    requires Lossless(c, sub)
    ensures Lossless(NextFinalized(c, sub).0, sub)
    decreases |c.buffer| + |c.incoming|
  {
    if c.buffer != [] {
      var m, rest := c.buffer[0], c.buffer[1..];
      assert c.buffer == [m] + rest;
      HeadsCons(m, rest, sub);
      if IsHead(m, sub) {
        assert c.returned + ([m] + Heads(rest, sub)) == (c.returned + [m]) + Heads(rest, sub);
      } else {
        assert [] + Heads(rest, sub) == Heads(rest, sub);
        if !IsBroken(m) {
          NextLossless(c.(buffer := rest), sub);
        }
      }
    } else if !Idle(c) {
      var m, d := c.incoming[0].message, Receive(c, None);
      ReceivedSnoc(c.received, Receipt(m, None), sub);
      if !IsHead(m, sub) && !IsBroken(m) {
        NextLossless(d, sub);
      }
    }
  }

  /** Which head a read yields: the next of the received heads after those already returned. */
  lemma {:induction false} NextYieldsOldest(c: Client, sub: string)
    requires Lossless(c, sub)
    ensures var d := NextFinalized(c, sub).0;
            d.returned == c.returned ||
            (|d.returned| == |c.returned| + 1 && d.returned <= HeadsReceived(d.received, sub)
             && IsHead(d.returned[|c.returned|], sub)
             && NextFinalized(c, sub).1 == Returned(d.returned[|c.returned|].params.header))
    ensures c.returned + Heads(c.buffer, sub) != c.returned ==>
              NextFinalized(c, sub).0.returned != c.returned || NextFinalized(c, sub).1.Raised?
    decreases |c.buffer| + |c.incoming|
  {
    hide Heads, HeadsReceived;
    NextLossless(c, sub);
    NoHeads(sub);
    if c.buffer != [] {
      var m, rest := c.buffer[0], c.buffer[1..];
      assert c.buffer == [m] + rest;
      HeadsCons(m, rest, sub);
      if !IsHead(m, sub) {
        assert [] + Heads(rest, sub) == Heads(rest, sub);
        if !IsBroken(m) {
          NextYieldsOldest(c.(buffer := rest), sub);
        }
      }
    } else if !Idle(c) {
      var m, d := c.incoming[0].message, Receive(c, None);
      ReceivedSnoc(c.received, Receipt(m, None), sub);
      if !IsHead(m, sub) && !IsBroken(m) {
        NextYieldsOldest(d, sub);
      }
    }
  }

  datatype Action = MakeCall | Read

  function Act(c: Client, a: Action, sub: string): Client {
    match a
    case MakeCall => Call(c).0
    case Read => NextFinalized(c, sub).0
  }

  function RunAll(c: Client, actions: seq<Action>, sub: string): Client
    decreases |actions|
  {
    if actions == [] then c else RunAll(Act(c, actions[0], sub), actions[1..], sub)
  }

  /** However calls and reads interleave, what was returned followed by what is buffered is exactly
      what the subscription received, in arrival order. */
  lemma {:induction false} RunLossless(c: Client, actions: seq<Action>, sub: string)
    requires Lossless(c, sub)
    ensures Lossless(RunAll(c, actions, sub), sub)
    decreases |actions|
  {
    if actions != [] {
      match actions[0] {
        case MakeCall => AwaitLossless(c.(nextId := c.nextId + 1), c.nextId, sub);
        case Read => NextLossless(c, sub);
      }
      RunLossless(Act(c, actions[0], sub), actions[1..], sub);
    }
  }

  // ---------- What came over the socket ----------

  /** The messages among frames. */
  function ArrivedIn(frames: seq<Frame>): seq<Message> {
    if frames == [] then []
    else (if frames[0].Arrived? then [frames[0].message] else []) + ArrivedIn(frames[1..])
  }

  /** Messages as received while the given request was waiting. */
  function Stamped(ms: seq<Message>, pending: Option<int>): seq<Receipt> {
    if ms == [] then [] else [Receipt(ms[0], pending)] + Stamped(ms[1..], pending)
  }

  function Messages(rs: seq<Receipt>): seq<Message> {
    if rs == [] then [] else Messages(rs[..|rs| - 1]) + [rs[|rs| - 1].message]
  }

  /** How many frames a step took off the socket. */
  function Taken(c: Client, d: Client): int { |c.incoming| - |d.incoming| }

  /** A step takes a prefix of the frames, and receives exactly the messages among them, in order. */
  ghost predicate TakesFrames(c: Client, d: Client, pending: Option<int>) {
    && 0 <= Taken(c, d) && d.incoming == c.incoming[Taken(c, d)..]
    && d.received == c.received + Stamped(ArrivedIn(c.incoming[..Taken(c, d)]), pending)
  }

  lemma TakesNothing(c: Client, d: Client, pending: Option<int>)
    requires d.incoming == c.incoming && d.received == c.received
    ensures TakesFrames(c, d, pending)
  {}

  lemma TakesOneMore(c: Client, e: Client, d: Client, pending: Option<int>)
    requires c.incoming != [] && e.incoming == c.incoming[1..] && TakesFrames(e, d, pending)
    requires e.received ==
             c.received + (if c.incoming[0].Arrived? then [Receipt(c.incoming[0].message, pending)] else [])
    ensures TakesFrames(c, d, pending) && Taken(c, d) == Taken(e, d) + 1
  {
    var k := Taken(c, d);
    var f := c.incoming[0];
    assert c.incoming[..k][0] == f && c.incoming[..k][1..] == e.incoming[..k - 1];
    var rest := ArrivedIn(e.incoming[..k - 1]);
    if f.Arrived? {
      assert ([f.message] + rest)[1..] == rest;
      assert c.received + ([Receipt(f.message, pending)] + Stamped(rest, pending)) ==
             (c.received + [Receipt(f.message, pending)]) + Stamped(rest, pending);
    } else {
      assert [] + rest == rest && c.received + [] == c.received;
    }
  }

  lemma QuietTakes(c: Client, pending: Option<int>)
    requires Idle(c)
    ensures TakesFrames(c, Quiet(c), pending) && Taken(c, Quiet(c)) == if c.incoming == [] then 0 else 1
  {
    TakesNothing(Quiet(c), Quiet(c), pending);
    hide TakesFrames;
    if c.incoming == [] {
      TakesNothing(c, c, pending);
    } else {
      assert c.received + [] == c.received;
      TakesOneMore(c, Quiet(c), Quiet(c), pending);
    }
  }

  lemma ReceiveTakes(c: Client, d: Client, pending: Option<int>)
    requires !Idle(c) && d.incoming == Receive(c, pending).incoming && d.received == Receive(c, pending).received
    ensures TakesFrames(c, d, pending) && Taken(c, d) == 1
  {
    hide TakesFrames;
    TakesNothing(d, d, pending);
    TakesOneMore(c, d, d, pending);
  }

  /** A frame that a waiting call passes over. */
  predicate Passed(f: Frame, id: int) { f.Arrived? && f.message.Object? && f.message.id != Some(id) }

  /** What a frame that is not passed over means to the call: silence, garbage or its answer. */
  function OutcomeOf(f: Frame): Outcome {
    if f.Silence? then TimedOut
    else if f.message.Object? && !f.message.hasError && f.message.hasResult then Answered
    else Failed
  }

  /** The first k frames are taken: all but perhaps the last are passed over, and the last, unless it is
      passed over as well and nothing is left, decides the outcome. */
  ghost predicate AwaitLaw(frames: seq<Frame>, k: int, id: int, r: Outcome) {
    && 0 <= k <= |frames|
    && (forall j :: 0 <= j < k - 1 ==> Passed(frames[j], id))
    && (if k == 0 || Passed(frames[k - 1], id) then k == |frames| && r == TimedOut else r == OutcomeOf(frames[k - 1]))
  }

  lemma AwaitLawStep(frames: seq<Frame>, k: int, id: int, r: Outcome)
    requires frames != [] && Passed(frames[0], id) && AwaitLaw(frames[1..], k, id, r)
    ensures AwaitLaw(frames, k + 1, id, r)
  {
    hide OutcomeOf;
    var rest := frames[1..];
    assert forall j :: 0 <= j < |rest| ==> rest[j] == frames[j + 1];
    forall j | 0 <= j < k ensures Passed(frames[j], id) {
      assert j > 0 ==> frames[j] == rest[j - 1];
    }
  }

  /** One turn of the call's loop. */
  lemma AwaitStep(c: Client, id: int)
    ensures Idle(c) ==> Await(c, id) == (Quiet(c), TimedOut)
    ensures !Idle(c) && Passed(c.incoming[0], id) ==>
              var m, e := c.incoming[0].message, Receive(c, Some(id));
              Await(c, id) == Await(if m.rpcMethod.Some? then e.(buffer := e.buffer + [m]) else e, id)
    ensures !Idle(c) && !Passed(c.incoming[0], id) ==>
              Await(c, id) == (Receive(c, Some(id)), OutcomeOf(c.incoming[0]))
  {}

  /** One turn of the read's loop when nothing is buffered. */
  lemma ReadStep(c: Client, sub: string)
    requires c.buffer == []
    ensures Idle(c) ==> NextFinalized(c, sub) == (Quiet(c), Returned(None))
    ensures !Idle(c) && Ignored(c.incoming[0], sub) ==> NextFinalized(c, sub) == NextFinalized(Receive(c, None), sub)
    ensures !Idle(c) && !Ignored(c.incoming[0], sub) ==>
              var e := Receive(c, None);
              && NextFinalized(c, sub).1 == ReadOf(c.incoming[0])
              && NextFinalized(c, sub).0 == e.(returned := NextFinalized(c, sub).0.returned)
  {}

  lemma AwaitLawEnds(frames: seq<Frame>, id: int)
    ensures frames == [] ==> AwaitLaw(frames, 0, id, TimedOut)
    ensures frames != [] && !Passed(frames[0], id) ==> AwaitLaw(frames, 1, id, OutcomeOf(frames[0]))
    ensures frames != [] && frames[0].Silence? ==> OutcomeOf(frames[0]) == TimedOut
  {}

  /** A waiting call takes frames up to and including the first that it does not pass over, and that
      frame alone decides its outcome; if there is none it takes all frames and times out. */
  lemma {:induction false} AwaitFrames(c: Client, id: int)
    ensures var (d, r) := Await(c, id);
            && TakesFrames(c, d, Some(id)) && d.returned == c.returned && d.nextId == c.nextId
            && AwaitLaw(c.incoming, Taken(c, d), id, r)
    decreases |c.incoming|
  {
    hide TakesFrames, AwaitLaw, Await, OutcomeOf;
    var (d, r) := Await(c, id);
    AwaitStep(c, id);
    AwaitLawEnds(c.incoming, id);
    if Idle(c) {
      QuietTakes(c, Some(id));
    } else if Passed(c.incoming[0], id) {
      var m, e := c.incoming[0].message, Receive(c, Some(id));
      var next := if m.rpcMethod.Some? then e.(buffer := e.buffer + [m]) else e;
      AwaitFrames(next, id);
      TakesOneMore(c, next, d, Some(id));
      AwaitLawStep(c.incoming, Taken(next, d), id, r);
    } else {
      ReceiveTakes(c, d, Some(id));
    }
  }

  /** A call uses the next request number, moves it on by one, and answers to no other. */
  lemma CallFrames(c: Client)
    ensures var (d, r) := Call(c);
            && d.nextId == c.nextId + 1 && d.returned == c.returned
            && TakesFrames(c, d, Some(c.nextId)) && AwaitLaw(c.incoming, Taken(c, d), c.nextId, r)
  {
    hide TakesFrames, AwaitLaw, Await;
    AwaitFrames(c.(nextId := c.nextId + 1), c.nextId);
    SameFrames(c, c.(nextId := c.nextId + 1), Call(c).0, Some(c.nextId));
  }

  /** A message that a read drops and reads on. */
  predicate Overlooked(m: Message, sub: string) { !IsHead(m, sub) && !IsBroken(m) }

  /** What a frame that is not overlooked means to the read. */
  function ReadOf(f: Frame): ReadOutcome {
    if f.Silence? then Returned(None)
    else if f.message.Object? && f.message.params.Fields? then Returned(f.message.params.header)
    else Raised
  }

  predicate Ignored(f: Frame, sub: string) { f.Arrived? && Overlooked(f.message, sub) }

  /** The same for a read whose buffer yields nothing. */
  ghost predicate ReadLaw(frames: seq<Frame>, k: int, sub: string, r: ReadOutcome) {
    && 0 <= k <= |frames|
    && (forall j :: 0 <= j < k - 1 ==> Ignored(frames[j], sub))
    && (if k == 0 || Ignored(frames[k - 1], sub) then k == |frames| && r == Returned(None)
        else r == ReadOf(frames[k - 1]))
  }

  lemma ReadLawStep(frames: seq<Frame>, k: int, sub: string, r: ReadOutcome)
    requires frames != [] && Ignored(frames[0], sub) && ReadLaw(frames[1..], k, sub, r)
    ensures ReadLaw(frames, k + 1, sub, r)
  {
    hide ReadOf, Overlooked;
    var rest := frames[1..];
    assert forall j :: 0 <= j < |rest| ==> rest[j] == frames[j + 1];
    forall j | 0 <= j < k ensures Ignored(frames[j], sub) {
      assert j > 0 ==> frames[j] == rest[j - 1];
    }
  }

  lemma ReadLawEnds(frames: seq<Frame>, sub: string)
    ensures frames == [] ==> ReadLaw(frames, 0, sub, Returned(None))
    ensures frames != [] && !Ignored(frames[0], sub) ==> ReadLaw(frames, 1, sub, ReadOf(frames[0]))
    ensures frames != [] && frames[0].Silence? ==> ReadOf(frames[0]) == Returned(None)
  {}

  /** The first buffered message that is not overlooked, or the length of the buffer. */
  function FirstNotice(ms: seq<Message>, sub: string): (i: nat)
    ensures i <= |ms|
    ensures i == 0 <==> ms == [] || !Overlooked(ms[0], sub)
  {
    if ms == [] || !Overlooked(ms[0], sub) then 0 else 1 + FirstNotice(ms[1..], sub)
  }

  lemma NoticeStep(ms: seq<Message>, sub: string)
    requires ms != [] && Overlooked(ms[0], sub)
    ensures var rest, i := ms[1..], FirstNotice(ms[1..], sub);
            && FirstNotice(ms, sub) == i + 1
            && (i < |rest| ==> rest[i] == ms[i + 1] && rest[i + 1..] == ms[i + 2..])
  {
    hide Overlooked;
  }

  /** A read with nothing buffered takes frames up to and including the first that is not ignored. */
  lemma {:induction false} SocketFrames(c: Client, sub: string)
    requires c.buffer == []
    ensures var (d, r) := NextFinalized(c, sub);
            && TakesFrames(c, d, None) && d.nextId == c.nextId && d.buffer == []
            && ReadLaw(c.incoming, Taken(c, d), sub, r)
    decreases |c.incoming|
  {
    hide TakesFrames, ReadLaw, NextFinalized, ReadOf, Overlooked;
    var (d, r) := NextFinalized(c, sub);
    ReadStep(c, sub);
    ReadLawEnds(c.incoming, sub);
    if Idle(c) {
      QuietTakes(c, None);
    } else if Ignored(c.incoming[0], sub) {
      var e := Receive(c, None);
      SocketFrames(e, sub);
      TakesOneMore(c, e, d, None);
      ReadLawStep(c.incoming, Taken(e, d), sub, r);
    } else {
      ReceiveTakes(c, d, None);
    }
  }

  /** A read takes the first notice that its buffer holds, and no frame; only a buffer without one lets it
      take frames, up to and including the first that is silence, a head or a broken notification. */
  lemma {:induction false} NextFrames(c: Client, sub: string)
    ensures var (d, r) := NextFinalized(c, sub);
            var i := FirstNotice(c.buffer, sub);
            && TakesFrames(c, d, None) && d.nextId == c.nextId
            && (if i < |c.buffer|
                then Taken(c, d) == 0 && d.buffer == c.buffer[i + 1..] && r == ReadOf(Arrived(c.buffer[i]))
                else d.buffer == [] && ReadLaw(c.incoming, Taken(c, d), sub, r))
    decreases |c.buffer|
  {
    hide TakesFrames, ReadLaw, FirstNotice;
    var d := NextFinalized(c, sub).0;
    if c.buffer == [] {
      SocketFrames(c, sub);
    } else if Overlooked(c.buffer[0], sub) {
      hide ReadOf;
      var e := c.(buffer := c.buffer[1..]);
      NextFrames(e, sub);
      SameFrames(c, e, d, None);
      NoticeStep(c.buffer, sub);
    } else {
      TakesNothing(c, d, None);
    }
  }

  lemma SameFrames(c: Client, e: Client, d: Client, pending: Option<int>)
    requires e.incoming == c.incoming && e.received == c.received && TakesFrames(e, d, pending)
    ensures TakesFrames(c, d, pending) && Taken(c, d) == Taken(e, d)
  {}

  // ---------- Whole runs against the socket ----------

  lemma {:induction false} ArrivedConcat(a: seq<Frame>, b: seq<Frame>)
    ensures ArrivedIn(a + b) == ArrivedIn(a) + ArrivedIn(b)
  {
    if a == [] {
      assert a + b == b;
    } else {
      assert (a + b)[1..] == a[1..] + b && (a + b)[0] == a[0];
      ArrivedConcat(a[1..], b);
      var first := if a[0].Arrived? then [a[0].message] else [];
      assert ArrivedIn(a + b) == first + ArrivedIn(a[1..] + b) && ArrivedIn(a) == first + ArrivedIn(a[1..]);
    }
  }

  lemma {:induction false} MessagesStamped(rs: seq<Receipt>, ms: seq<Message>, pending: Option<int>)
    ensures Messages(rs + Stamped(ms, pending)) == Messages(rs) + ms
    decreases |ms|
  {
    if ms == [] {
      assert rs + [] == rs;
    } else {
      var r := Receipt(ms[0], pending);
      assert rs + ([r] + Stamped(ms[1..], pending)) == (rs + [r]) + Stamped(ms[1..], pending);
      assert (rs + [r])[..|rs|] == rs;
      MessagesStamped(rs + [r], ms[1..], pending);
      assert Messages(rs) + ms == (Messages(rs) + [ms[0]]) + ms[1..];
    }
  }

  lemma StepMessages(c: Client, d: Client, pending: Option<int>)
    requires TakesFrames(c, d, pending)
    ensures Messages(d.received) == Messages(c.received) + ArrivedIn(c.incoming[..Taken(c, d)])
  {
    MessagesStamped(c.received, ArrivedIn(c.incoming[..Taken(c, d)]), pending);
  }

  ghost predicate Follows(c: Client, d: Client) {
    && 0 <= Taken(c, d) && d.incoming == c.incoming[Taken(c, d)..]
    && Messages(d.received) == Messages(c.received) + ArrivedIn(c.incoming[..Taken(c, d)])
  }

  lemma FollowsTrans(c: Client, e: Client, d: Client)
    requires Follows(c, e) && Follows(e, d)
    ensures Follows(c, d)
  {
    hide ArrivedIn, Messages;
    var j, k := Taken(c, e), Taken(c, d);
    assert c.incoming[..k] == c.incoming[..j] + e.incoming[..k - j];
    ArrivedConcat(c.incoming[..j], e.incoming[..k - j]);
  }

  lemma ActFollows(c: Client, a: Action, sub: string)
    ensures Follows(c, Act(c, a, sub))
  {
    hide Await, NextFinalized, ArrivedIn, Messages, Stamped, AwaitLaw, ReadLaw, FirstNotice;
    var e := Act(c, a, sub);
    match a {
      case MakeCall =>
        AwaitFrames(c.(nextId := c.nextId + 1), c.nextId);
        SameFrames(c, c.(nextId := c.nextId + 1), e, Some(c.nextId));
        StepMessages(c, e, Some(c.nextId));
      case Read =>
        NextFrames(c, sub);
        StepMessages(c, e, None);
    }
  }

  /** Every run takes a prefix of the frames and receives exactly the messages in it, in order. */
  lemma {:induction false} RunFrames(c: Client, actions: seq<Action>, sub: string)
    ensures Follows(c, RunAll(c, actions, sub))
    decreases |actions|
  {
    if actions == [] {
      NothingArrived();
      assert c.incoming[..0] == [] && Messages(c.received) + [] == Messages(c.received);
    } else {
      hide Follows, Act;
      var e := Act(c, actions[0], sub);
      ActFollows(c, actions[0], sub);
      RunFrames(e, actions[1..], sub);
      FollowsTrans(c, e, RunAll(e, actions[1..], sub));
    }
  }

  lemma NothingArrived()
    ensures ArrivedIn([]) == []
  {}

  /** A notification carries no id, so it is no request's answer. */
  predicate Unnumbered(ms: seq<Message>, sub: string) {
    forall i :: 0 <= i < |ms| ==> IsHead(ms[i], sub) ==> ms[i].id.None?
  }

  lemma {:induction false} UnnumberedHeads(rs: seq<Receipt>, sub: string)
    requires Unnumbered(Messages(rs), sub)
    ensures HeadsReceived(rs, sub) == Heads(Messages(rs), sub)
  {
    if rs != [] {
      var init, r := rs[..|rs| - 1], rs[|rs| - 1];
      assert Messages(rs) == Messages(init) + [r.message];
      assert Messages(rs)[|Messages(init)|] == r.message;
      assert forall i :: 0 <= i < |Messages(init)| ==> Messages(init)[i] == Messages(rs)[i];
      UnnumberedHeads(init, sub);
      HeadsSnoc(Messages(init), r.message, sub);
    }
  }

  /** The whole promise, from a fresh client: however calls and reads interleave, a prefix of the frames has
      been taken, and the heads returned followed by those buffered are the heads in that prefix. */
  lemma EveryHeadArrives(frames: seq<Frame>, actions: seq<Action>, sub: string)
    ensures var d := RunAll(Client(1, [], frames, [], []), actions, sub);
            var k := |frames| - |d.incoming|;
            && 0 <= k && d.incoming == frames[k..]
            && Messages(d.received) == ArrivedIn(frames[..k])
            && d.returned + Heads(d.buffer, sub) == HeadsReceived(d.received, sub)
            && (Unnumbered(ArrivedIn(frames[..k]), sub) ==>
                  d.returned + Heads(d.buffer, sub) == Heads(ArrivedIn(frames[..k]), sub))
  {
    hide RunAll, ArrivedIn, IsHead;
    NoHeads(sub);
    var c := Client(1, [], frames, [], []);
    RunFrames(c, actions, sub);
    RunLossless(c, actions, sub);
    var d := RunAll(c, actions, sub);
    if Unnumbered(Messages(d.received), sub) {
      UnnumberedHeads(d.received, sub);
    }
  }
}

module WsClients {
  import opened Wrappers
  import opened Notifications

  class WsRpc {
    var nextId: int
    var notifications: seq<Message>
    var incoming: seq<Frame>
    ghost var received: seq<Receipt>
    ghost var returned: seq<Message>

    ghost function State(): Client
      reads this
    {
      Client(nextId, notifications, incoming, received, returned)
    }

    constructor (frames: seq<Frame>)
      ensures State() == Client(1, [], frames, [], [])
    {
      nextId, notifications, incoming, received, returned := 1, [], frames, [], [];
    }

    method CallRpc() returns (r: Outcome)
      modifies this
      ensures (State(), r) == Call(old(State()))
      ensures forall sub :: old(Lossless(State(), sub)) ==> Lossless(State(), sub)
    {
      ghost var c := State();
      forall sub | Lossless(c, sub) ensures Lossless(Call(c).0, sub) {
        AwaitLossless(c.(nextId := c.nextId + 1), c.nextId, sub);
      }
      hide Lossless;
      var requestId := nextId;
      nextId := nextId + 1;
      while true
        invariant Await(State(), requestId) == Call(c)
        decreases |incoming|
      {
        if |incoming| == 0 { return TimedOut; }
        var frame := incoming[0];
        incoming := incoming[1..];
        if frame.Silence? { return TimedOut; }
        var response := frame.message;
        received := received + [Receipt(response, Some(requestId))];
        if response.NonObject? { return Failed; }
        if response.id == Some(requestId) {
          return if response.hasError || !response.hasResult then Failed else Answered;
        }
        if response.rpcMethod.Some? {
          notifications := notifications + [response];
        }
      }
    }

    method NextHead(sub: string) returns (r: ReadOutcome)
      modifies this
      ensures (State(), r) == NextFinalized(old(State()), sub)
      ensures old(Lossless(State(), sub)) ==> Lossless(State(), sub)
    {
      ghost var c := State();
      if Lossless(c, sub) {
        NextLossless(c, sub);
      }
      hide Lossless;
      while true
        invariant NextFinalized(State(), sub) == NextFinalized(c, sub)
        decreases |notifications| + |incoming|
      {
        var message;
        if |notifications| > 0 {
          message := notifications[0];
          notifications := notifications[1..];
        } else {
          if |incoming| == 0 { return Returned(None); }
          var frame := incoming[0];
          incoming := incoming[1..];
          if frame.Silence? { return Returned(None); }
          message := frame.message;
          received := received + [Receipt(message, None)];
        }
        if IsHead(message, sub) {
          returned := returned + [message];
          return Returned(message.params.header);
        }
        if IsBroken(message) { return Raised; }
      }
    }
  }
}

/** The host end of the serial link: dispatching parsed frames, matching replies
    to requests, and resetting a stalled parser.

    A dispatch is one step here; the reader thread and the requesting thread are
    not interleaved inside it.
  */
module SerialLink {
  import opened Crc
  import F = Frames
  import opened Options

  predicate IsState(f: F.Frame) {
    f.kind == 0x78
  }

  /** Frames that answer a request. */
  predicate IsReply(f: F.Frame) {
    f.kind in {0x6B, 0x65, 0x70, 0x71, 0x74}
  }

  datatype Counters = Counters(framesIn: nat, states: nat, unsolicited: nat, unknown: nat, parseResets: nat)

  /** The link between calls: the parser, the counters, the reply slot, the
      frames handed to the STATE callback, and when bytes last arrived. */
  datatype Link = Link(parser: F.Parser, counters: Counters, reply: Option<F.Frame>, awaiting: bool,
                       delivered: seq<F.Frame>, lastRx: real)

  function Dispatch(l: Link, f: F.Frame): Link {
    var c := l.counters.(framesIn := l.counters.framesIn + 1);
    if IsState(f) then l.(counters := c.(states := c.states + 1), delivered := l.delivered + [f])
    else if IsReply(f) then
      if !l.awaiting || l.reply.Some? then l.(counters := c.(unsolicited := c.unsolicited + 1))
      else l.(counters := c, reply := Some(f))
    else l.(counters := c.(unknown := c.unknown + 1))
  }

  function DispatchAll(l: Link, fs: seq<F.Frame>): Link
    decreases |fs|
  {
    if fs == [] then l else DispatchAll(Dispatch(l, fs[0]), fs[1..])
  }

  /** One read of the port; no data is an idle poll. */
  function Pump(l: Link, data: seq<Byte>, now: real, idleTimeout: real): Link {
    if data != [] then
      DispatchAll(l.(parser := F.Feed(l.parser, data)), F.Yield(l.parser, data)).(lastRx := now)
    else if l.parser.InFrame() && now - l.lastRx > idleTimeout then
      l.(parser := l.parser.Timeout(), counters := l.counters.(parseResets := l.counters.parseResets + 1))
    else l
  }

  function Begin(l: Link): Link {
    l.(reply := None, awaiting := true)
  }

  function End(l: Link): Link {
    l.(awaiting := false)
  }

  // ------------------------------------------------------------ reply matching

  /** The first reply in a run of frames. */
  function FirstReply(fs: seq<F.Frame>): Option<F.Frame> {
    if fs == [] then None else if IsReply(fs[0]) then Some(fs[0]) else FirstReply(fs[1..])
  }

  function Replies(fs: seq<F.Frame>): nat {
    if fs == [] then 0 else (if IsReply(fs[0]) then 1 else 0) + Replies(fs[1..])
  }

  function Unknowns(fs: seq<F.Frame>): nat {
    if fs == [] then 0 else (if IsReply(fs[0]) || IsState(fs[0]) then 0 else 1) + Unknowns(fs[1..])
  }

  function States(fs: seq<F.Frame>): seq<F.Frame> {
    if fs == [] then [] else (if IsState(fs[0]) then [fs[0]] else []) + States(fs[1..])
  }

  lemma {:induction false} Kinds(fs: seq<F.Frame>)
    ensures Replies(fs) + |States(fs)| + Unknowns(fs) == |fs|
    ensures Replies(fs) > 0 <==> FirstReply(fs).Some?
  {
    if fs != [] {
      Kinds(fs[1..]);
    }
  }

  /** Whether a run of frames fills the slot. */
  predicate Fills(l: Link, fs: seq<F.Frame>) {
    l.awaiting && l.reply.None? && Replies(fs) > 0
  }

  /** What dispatching a run of frames does: at most one reply is taken, the
      first, and only while a request is open and unanswered; every other reply
      is counted as unsolicited; states go to the callback in order. */
  function AfterRun(l: Link, fs: seq<F.Frame>): Link {
    l.(reply := if Fills(l, fs) then FirstReply(fs) else l.reply,
       delivered := l.delivered + States(fs),
       counters := l.counters.(
         framesIn := l.counters.framesIn + |fs|,
         states := l.counters.states + |States(fs)|,
         unsolicited := l.counters.unsolicited + Replies(fs) - (if Fills(l, fs) then 1 else 0),
         unknown := l.counters.unknown + Unknowns(fs)))
  }

  lemma RunHead(fs: seq<F.Frame>)
    requires fs != []
    ensures Replies(fs) == (if IsReply(fs[0]) then 1 else 0) + Replies(fs[1..])
    ensures Unknowns(fs) == (if IsReply(fs[0]) || IsState(fs[0]) then 0 else 1) + Unknowns(fs[1..])
    ensures States(fs) == (if IsState(fs[0]) then [fs[0]] else []) + States(fs[1..])
    ensures FirstReply(fs) == if IsReply(fs[0]) then Some(fs[0]) else FirstReply(fs[1..])
  {}

  lemma AfterRunStep(l: Link, fs: seq<F.Frame>)
    requires fs != []
    ensures AfterRun(Dispatch(l, fs[0]), fs[1..]) == AfterRun(l, fs)
  {
    hide Replies, Unknowns, States, FirstReply;
    RunHead(fs);
    Kinds(fs[1..]);
    var rest := States(fs[1..]);
    assert (l.delivered + [fs[0]]) + rest == l.delivered + ([fs[0]] + rest);
    assert [] + rest == rest;
  }

  lemma {:induction false} DispatchedRun(l: Link, fs: seq<F.Frame>)
    ensures DispatchAll(l, fs) == AfterRun(l, fs)
    decreases |fs|
  {
    if fs == [] {
      assert l.delivered + [] == l.delivered;
    } else {
      hide AfterRun, Dispatch;
      DispatchedRun(Dispatch(l, fs[0]), fs[1..]);
      AfterRunStep(l, fs);
    }
  }

  datatype Event = Read(data: seq<Byte>, now: real) | Open | Close

  function React(l: Link, e: Event, idleTimeout: real): Link {
    match e
    case Read(data, now) => Pump(l, data, now, idleTimeout)
    case Open => Begin(l)
    case Close => End(l)
  }

  function History(l: Link, es: seq<Event>, idleTimeout: real): Link
    decreases |es|
  {
    if es == [] then l else History(React(l, es[0], idleTimeout), es[1..], idleTimeout)
  }

  /** Reads and idle polls only: the window of one request. */
  predicate Reads(es: seq<Event>) {
    forall k | 0 <= k < |es| :: es[k].Read?
  }

  /** Every frame that completes in a window, across reads and idle resets. */
  function Completed(l: Link, es: seq<Event>, idleTimeout: real): seq<F.Frame>
    requires Reads(es)
    decreases |es|
  {
    if es == [] then []
    else F.Yield(l.parser, es[0].data) + Completed(React(l, es[0], idleTimeout), es[1..], idleTimeout)
  }

  lemma {:induction false} FirstReplyAppend(fs: seq<F.Frame>, gs: seq<F.Frame>)
    ensures FirstReply(fs + gs) == if FirstReply(fs).Some? then FirstReply(fs) else FirstReply(gs)
  {
    if fs == [] {
      assert fs + gs == gs;
    } else {
      assert (fs + gs)[1..] == fs[1..] + gs;
      FirstReplyAppend(fs[1..], gs);
    }
  }

  /** One read or idle poll while a request is open. */
  lemma PumpReply(l: Link, data: seq<Byte>, now: real, idleTimeout: real)
    ensures var m := Pump(l, data, now, idleTimeout);
            && m.awaiting == l.awaiting
            && m.reply == if l.awaiting && l.reply.None? then FirstReply(F.Yield(l.parser, data)) else l.reply
  {
    if data != [] {
      var fs := F.Yield(l.parser, data);
      Kinds(fs);
      DispatchedRun(l.(parser := F.Feed(l.parser, data)), fs);
    }
  }

  /** Over any sequence of reads and idle polls, an open request's slot holds its old
      reply, or else the first reply-type frame completed since; with no request open it
      does not change. */
  lemma {:induction false} SlotIsFirst(l: Link, es: seq<Event>, idleTimeout: real)
    requires Reads(es)
    ensures var m := History(l, es, idleTimeout);
            && m.awaiting == l.awaiting
            && m.reply == if l.awaiting && l.reply.None? then FirstReply(Completed(l, es, idleTimeout)) else l.reply
    decreases |es|
  {
    hide Pump, FirstReply;
    if es == [] {
      NoReply();
    } else {
      var e, m := es[0], React(l, es[0], idleTimeout);
      PumpReply(l, e.data, e.now, idleTimeout);
      SlotIsFirst(m, es[1..], idleTimeout);
      FirstReplyAppend(F.Yield(l.parser, e.data), Completed(m, es[1..], idleTimeout));
    }
  }

  lemma NoReply()
    ensures FirstReply([]).None?
  {}

  /** A request is answered by the first reply-type frame that completes after it began,
      in whatever pieces it is read, and by nothing that was in the slot before. */
  lemma RequestAnswered(l: Link, es: seq<Event>, idleTimeout: real)
    requires Reads(es)
    ensures History(Begin(l), es, idleTimeout).reply == FirstReply(Completed(Begin(l), es, idleTimeout))
    ensures History(End(l), es, idleTimeout).reply == l.reply
  {
    SlotIsFirst(Begin(l), es, idleTimeout);
    SlotIsFirst(End(l), es, idleTimeout);
  }

  /** Frame n of a run is the one the slot takes: it is empty before and holds it after. */
  predicate TakenAt(l: Link, fs: seq<F.Frame>, n: nat)
    requires n < |fs|
  {
    && DispatchAll(l, fs[..n]).reply.None?
    && DispatchAll(l, fs[..n + 1]).reply == Some(fs[n])
  }

  lemma {:induction false} FirstReplyNone(fs: seq<F.Frame>)
    ensures FirstReply(fs).None? <==> forall m | 0 <= m < |fs| :: !IsReply(fs[m])
  {
    if fs != [] {
      FirstReplyNone(fs[1..]);
      assert forall m | 1 <= m < |fs| :: fs[m] == fs[1..][m - 1];
    }
  }

  /** So the request's own reply, frame n of those that complete in its window, answers it
      if and only if no other reply-type frame completes before it there. */
  lemma OwnReplyIff(l: Link, fs: seq<F.Frame>, n: nat)
    requires n < |fs| && IsReply(fs[n])
    ensures TakenAt(Begin(l), fs, n) <==> forall m | 0 <= m < n :: !IsReply(fs[m])
    ensures TakenAt(Begin(l), fs, n) ==> FirstReply(fs) == Some(fs[n])
  {
    hide DispatchAll, FirstReply;
    var before := fs[..n];
    DispatchedRun(Begin(l), before);
    DispatchedRun(Begin(l), fs[..n + 1]);
    Kinds(before);
    Kinds(fs[..n + 1]);
    FirstReplyNone(before);
    assert forall m | 0 <= m < n :: before[m] == fs[m];
    assert fs[..n + 1] == before + [fs[n]] && fs == before + fs[n..];
    FirstReplyAppend(before, [fs[n]]);
    FirstReplyAppend(before, fs[n..]);
    HeadReply(fs[n..]);
    HeadReply([fs[n]]);
  }

  lemma HeadReply(fs: seq<F.Frame>)
    requires fs != [] && IsReply(fs[0])
    ensures FirstReply(fs) == Some(fs[0])
  {}

  /** The bytes of a window. */
  function Joined(es: seq<Event>): seq<Byte>
    requires Reads(es)
  {
    if es == [] then [] else es[0].data + Joined(es[1..])
  }

  /** Without idle polls the pieces a window is read in do not matter. */
  lemma {:induction false} CompletedJoined(l: Link, es: seq<Event>, idleTimeout: real)
    requires Reads(es) && forall k | 0 <= k < |es| :: es[k].data != []
    ensures Completed(l, es, idleTimeout) == F.Yield(l.parser, Joined(es))
    decreases |es|
  {
    hide Pump;
    if es != [] {
      PumpParser(l, es[0].data, es[0].now, idleTimeout);
      CompletedJoined(React(l, es[0], idleTimeout), es[1..], idleTimeout);
      F.FeedAppend(l.parser, es[0].data, Joined(es[1..]));
    }
  }

  /** A request sent while nothing is owed is answered by its own reply, however the window
      is read and whatever reports and noise come first. */
  lemma OwnReplyAnswers(l: Link, es: seq<Event>, idleTimeout: real, noise: seq<seq<Byte>>, frames: seq<F.Frame>)
    requires !l.parser.InFrame() && Reads(es) && forall k | 0 <= k < |es| :: es[k].data != []
    requires F.AllLegal(frames) && frames != [] && |noise| == |frames| + 1
    requires forall k | 0 <= k < |noise| :: 0x7E !in noise[k]
    requires Joined(es) == F.Interleave(noise, frames)
    requires IsReply(frames[|frames| - 1]) && forall k | 0 <= k < |frames| - 1 :: !IsReply(frames[k])
    ensures History(Begin(l), es, idleTimeout).reply == Some(frames[|frames| - 1])
  {
    hide History, FirstReply, F.Interleave;
    var n := |frames| - 1;
    F.StreamParsed(l.parser, noise, frames);
    CompletedJoined(Begin(l), es, idleTimeout);
    RequestAnswered(l, es, idleTimeout);
    OwnReplyIff(l, frames, n);
  }

  // ----------------------------------------------------- answers to another question

  lemma OneRead(l: Link, data: seq<Byte>, now: real, idleTimeout: real)
    ensures Completed(l, [Read(data, now)], idleTimeout) == F.Yield(l.parser, data)
  {
    var es := [Read(data, now)];
    assert es[1..] == [];
    assert F.Yield(l.parser, data) + [] == F.Yield(l.parser, data);
  }

  /** A late reply answers the wrong request: the first request times out, and its reply,
      read after the second began, is taken for the second's. */
  lemma LateReplyAnswers(l: Link, f: F.Frame, now: real, idleTimeout: real)
    requires !l.parser.InFrame() && F.Legal(f) && IsReply(f)
    ensures History(l, [Open, Close, Open, Read(F.Encode(f), now)], idleTimeout).reply == Some(f)
  {
    hide Pump;
    var last := [Read(F.Encode(f), now)];
    var m := Begin(End(Begin(l)));
    assert [Open, Close, Open, Read(F.Encode(f), now)][1..] == [Close, Open] + last;
    assert ([Close, Open] + last)[1..] == [Open] + last;
    assert ([Open] + last)[1..] == last;
    assert History(End(Begin(l)), [Open] + last, idleTimeout) == History(m, last, idleTimeout);
    assert History(Begin(l), [Close, Open] + last, idleTimeout) == History(End(Begin(l)), [Open] + last, idleTimeout);
    F.FrameParsed(l.parser, f);
    OneRead(m, F.Encode(f), now, idleTimeout);
    SlotIsFirst(m, [Read(F.Encode(f), now)], idleTimeout);
    HeadReply([f]);
  }

  /** And so does a reply all but read before the request began. */
  lemma SplitReplyAnswers(l: Link, f: F.Frame, now: real, later: real, idleTimeout: real)
    requires !l.parser.InFrame() && F.Legal(f) && IsReply(f) && !l.awaiting
    ensures |F.Encode(f)| > 1
    ensures var n := |F.Encode(f)| - 1;
            var es := [Read(F.Encode(f)[..n], now), Open, Read(F.Encode(f)[n..], later)];
            History(l, es, idleTimeout).reply == Some(f)
  {
    hide F.Step;
    var b := F.Encode(f);
    var n := |b| - 1;
    F.FrameParsed(l.parser, f);
    assert b == b[..n] + b[n..];
    F.FeedAppend(l.parser, b[..n], b[n..]);
    F.LastByteCompletes(l.parser, f);
    var first, last := Read(b[..n], now), Read(b[n..], later);
    var es := [first, Open, last];
    var m := Begin(Pump(l, b[..n], now, idleTimeout));
    assert es[1..][1..] == [last] && es[1..][0] == Open;
    PumpParser(l, b[..n], now, idleTimeout);
    assert History(l, es, idleTimeout) == History(m, [last], idleTimeout);
    OneRead(m, b[n..], later, idleTimeout);
    SlotIsFirst(m, [last], idleTimeout);
    HeadReply([f]);
  }

  lemma PumpParser(l: Link, data: seq<Byte>, now: real, idleTimeout: real)
    requires data != []
    ensures Pump(l, data, now, idleTimeout).parser == F.Feed(l.parser, data)
  {
    DispatchedRun(l.(parser := F.Feed(l.parser, data)), F.Yield(l.parser, data));
  }

  // --------------------------------------------------------------- conservation

  /** Replies taken into the slot along a history. */
  function Taken(l: Link, es: seq<Event>, idleTimeout: real): nat
    decreases |es|
  {
    if es == [] then 0
    else
      var m := React(l, es[0], idleTimeout);
      (if es[0].Read? && l.reply.None? && m.reply.Some? then 1 else 0) + Taken(m, es[1..], idleTimeout)
  }

  function Accounted(c: Counters): int {
    c.states + c.unsolicited + c.unknown - c.framesIn
  }

  /** Along any history the link's counters agree with its parser's, and every
      frame in was a state, unsolicited, unknown, or a reply some request took. */
  lemma {:induction false} FramesConserved(l: Link, es: seq<Event>, idleTimeout: real)
    ensures var m := History(l, es, idleTimeout);
            && Accounted(m.counters) + Taken(l, es, idleTimeout) == Accounted(l.counters)
            && m.counters.framesIn - m.parser.stats.framesOk == l.counters.framesIn - l.parser.stats.framesOk
            && m.counters.parseResets - m.parser.stats.timeouts == l.counters.parseResets - l.parser.stats.timeouts
    decreases |es|
  {
    if es != [] {
      var e := es[0];
      if e.Read? && e.data != [] {
        ReadConserved(l, e.data);
      }
      FramesConserved(React(l, e, idleTimeout), es[1..], idleTimeout);
    }
  }

  lemma ReadConserved(l: Link, data: seq<Byte>)
    ensures var fed := l.(parser := F.Feed(l.parser, data));
            var m := DispatchAll(fed, F.Yield(l.parser, data));
            && m.parser == fed.parser
            && Accounted(m.counters) + (if l.reply.None? && m.reply.Some? then 1 else 0) == Accounted(l.counters)
            && m.counters.framesIn - fed.parser.stats.framesOk == l.counters.framesIn - l.parser.stats.framesOk
            && fed.parser.stats.timeouts == l.parser.stats.timeouts
            && m.counters.parseResets == l.counters.parseResets
  {
    DispatchedRun(l.(parser := F.Feed(l.parser, data)), F.Yield(l.parser, data));
    Kinds(F.Yield(l.parser, data));
    FeedCounts(l.parser, data);
  }

  lemma {:induction false} FeedCounts(p: F.Parser, data: seq<Byte>)
    ensures F.Feed(p, data).stats.framesOk == p.stats.framesOk + |F.Yield(p, data)|
    ensures F.Feed(p, data).stats.timeouts == p.stats.timeouts
    decreases |data|
  {
    hide F.Accepts;
    if data != [] {
      FeedCounts(F.Step(p, data[0]).0, data[1..]);
    }
  }

  /** An idle poll abandons a partial frame if and only if the timeout has passed since bytes
      last arrived, and otherwise changes nothing; a read of bytes is when they last arrived. */
  lemma IdlePollIff(l: Link, data: seq<Byte>, now: real, idleTimeout: real)
    ensures var m := Pump(l, data, now, idleTimeout);
            if data != [] then m.lastRx == now
            else if l.parser.InFrame() && now > l.lastRx + idleTimeout
            then !m.parser.InFrame() && m.counters.parseResets == l.counters.parseResets + 1
                 && m.parser.stats.timeouts == l.parser.stats.timeouts + 1
            else m == l
  {
    if data != [] {
      DispatchedRun(l.(parser := F.Feed(l.parser, data)), F.Yield(l.parser, data));
    }
  }

  /** After an idle poll longer than the timeout the next intact frame is
      dispatched, whatever the parser was stuck in. */
  lemma IdleThenParsed(l: Link, now: real, later: real, idleTimeout: real, f: F.Frame)
    requires now - l.lastRx > idleTimeout && F.Legal(f)
    ensures var m := Pump(l, [], now, idleTimeout);
            && !m.parser.InFrame()
            && Pump(m, F.Encode(f), later, idleTimeout).counters.framesIn == l.counters.framesIn + 1
            && (IsState(f) ==> Pump(m, F.Encode(f), later, idleTimeout).delivered == l.delivered + [f])
  {
    var m := Pump(l, [], now, idleTimeout);
    F.FrameParsed(m.parser, f);
    DispatchedRun(m.(parser := F.Feed(m.parser, F.Encode(f))), [f]);
    assert [f][1..] == [];
  }

  // ---------------------------------------------------------------- the object

  class Port {
    const parser: F.FrameParser
    const idleTimeout: real
    var counters: Counters
    var reply: Option<F.Frame>
    var awaiting: bool
    var delivered: seq<F.Frame>
    var lastRx: real

    function Value(): Link
      reads this, parser
    {
      Link(parser.Value(), counters, reply, awaiting, delivered, lastRx)
    }

    ghost predicate Valid()
      reads this, parser
    {
      parser.Value().Valid()
    }

    constructor (idleTimeout: real, now: real)
      ensures Valid() && fresh(parser)
      ensures this.idleTimeout == idleTimeout
      ensures Value() == Link(F.Fresh(), Counters(0, 0, 0, 0, 0), None, false, [], now)
    {
      parser := new F.FrameParser();
      this.idleTimeout := idleTimeout;
      counters := Counters(0, 0, 0, 0, 0);
      reply, awaiting, delivered, lastRx := None, false, [], now;
    }

    method DispatchFrame(f: F.Frame)
      modifies this
      ensures Value() == Dispatch(old(Value()), f)
    {
      counters := counters.(framesIn := counters.framesIn + 1);
      if IsState(f) {
        counters := counters.(states := counters.states + 1);
        delivered := delivered + [f];
        return;
      }
      if IsReply(f) {
        if !awaiting || reply.Some? {
          counters := counters.(unsolicited := counters.unsolicited + 1);
          return;
        }
        reply := Some(f);
        return;
      }
      counters := counters.(unknown := counters.unknown + 1);
    }

    method PumpBytes(data: seq<Byte>, now: real)
      requires Valid()
      modifies this, parser
      ensures Valid()
      ensures Value() == Pump(old(Value()), data, now, idleTimeout)
    {
      if data != [] {
        var frames := parser.Consume(data);
        ghost var fed := Value();
        for i := 0 to |frames|
          invariant parser.Value() == fed.parser
          invariant DispatchAll(Value(), frames[i..]) == DispatchAll(fed, frames)
        {
          assert frames[i..][1..] == frames[i + 1..];
          DispatchFrame(frames[i]);
        }
        lastRx := now;
      } else if parser.state != F.WaitSof && now - lastRx > idleTimeout {
        parser.Timeout();
        counters := counters.(parseResets := counters.parseResets + 1);
      }
    }

    method BeginRequest()
      modifies this
      ensures Value() == Begin(old(Value()))
    {
      reply := None;
      awaiting := true;
    }

    /** The reply, if one came; `None` is the timeout. */
    method EndRequest() returns (r: Option<F.Frame>)
      modifies this
      ensures Value() == End(old(Value())) && r == old(Value()).reply
    {
      r := reply;
      awaiting := false;
    }
  }
}

/** The round as the bus machine runs it (bus_ssh_exchange.py): calls on the live bus and the live notary, one after another. */
module Endpoint {
  import opened CanonicalJson
  import opened NotaryLog
  import opened BusState
  import opened BusOps
  import opened AgentBus
  import opened Exchange

  lemma AckMoves(b: Bus, a: string, upto: int, strict: bool)
    ensures CurOf(Ack(b, a, upto, strict), a).last == AckTarget(b, a, upto, strict)
  {
    hide HighWater, Mine, UpTo, Between;
  }

  class RoundServer {
    const h: Host
    const bus: BusStore
    const log: Notary
    var trace: seq<Effect>
    var notes: nat
    var stopped: bool
    var accepted: seq<int>
    var rejected: seq<nat>
    var replies: seq<Json>
    var closeFailed: bool

    ghost predicate Wired() {
      h.w == bus.w && h.c == log.crypto && h.pub == log.pub && h.every == log.every
    }

    function Now(): Work
      reads this, bus, log
    {
      Work(bus.State(), log.file, trace, notes, stopped, accepted, rejected, replies, closeFailed)
    }

    constructor (h: Host, bus: BusStore, log: Notary)
      requires h.w == bus.w && h.c == log.crypto && h.pub == log.pub && h.every == log.every
      ensures this.h == h && this.bus == bus && this.log == log && Wired()
      ensures Now() == Work(bus.State(), log.file, [], 0, false, [], [], [], false)
    {
      this.h, this.bus, this.log := h, bus, log;
      trace, notes, stopped, accepted, rejected, replies, closeFailed := [], 0, false, [], [], [], false;
    }

    method Note(q: Request, l: Line)
      requires Wired()
      modifies this`trace, this`notes, this`stopped, log`file
      ensures Now() == Write(h, q, old(Now()), l)
    {
      hide Sealed, MakeCkpt, TailOf;
      if stopped {
        return;
      }
      var n := NoteOf(q, notes, l);
      var failing := q.f.note(notes);
      notes := notes + 1;
      if failing {
        stopped := true;
        return;
      }
      ghost var before := log.file;
      var e := Sealed(h.c, TailOf(log.file), n);
      var r := log.Record(n);
      if e.Ok? {
        trace := trace + [Logged(e.value)];
      }
      stopped := r.Err?;
    }

    method TakeAck(q: Request)
      requires Wired()
      modifies this`trace, this`notes, this`stopped, log`file, bus
      ensures Now() == AckPart(h, q, old(Now()))
    {
      hide Write, Ack, AckTarget, AckLine, AckFailedLine;
      if stopped || q.ack <= 0 {
        return;
      }
      var from, to := bus.AckPreview(q.identity, q.ack, q.strict);
      AckMoves(bus.State(), q.identity, q.ack, q.strict);
      Note(q, AckLine(q, from, to));
      if stopped {
        return;
      }
      if q.f.ack {
        Note(q, AckFailedLine(q, from, to));
        return;
      }
      bus.Acknowledge(q.identity, q.ack, q.strict);
      if to > from {
        trace := trace + [Moved(from, to)];
      }
    }

    method TakeMessage(q: Request, i: nat)
      requires Wired() && i < |q.messages|
      modifies this`trace, this`notes, this`stopped, this`accepted, this`rejected, log`file, bus
      ensures Now() == MessageStep(h, q, old(Now()), i, q.messages[i])
    {
      hide Write, MessageLine, MalformedLine, RowOf, BusState.Send, Shaped, Field;
      var m := q.messages[i];
      if stopped {
        return;
      }
      if !Shaped(m) {
        rejected := rejected + [i];
        Note(q, MalformedLine(h, m));
      } else if LacksSignature(q, m) {
        rejected := rejected + [i];
        Note(q, MessageLine(h, m, "rejected", "unsigned-pinned"));
      } else {
        Note(q, MessageLine(h, m, "accepted", ""));
        if stopped {
          return;
        }
        var ok := false;
        if !InsertFails(q, i, m) {
          var r := bus.Send(RowOf(h, q, i, m));
          ok := r.Ok?;
          if ok {
            trace, accepted := trace + [Inserted(m, RowOf(h, q, i, m))], accepted + [r.value];
          } else {
            SendRefused(h.w, old(bus.State()), RowOf(h, q, i, m));
          }
        }
        if !ok {
          rejected := rejected + [i];
          Note(q, MessageLine(h, m, "rejected", "send_failed"));
        }
      }
    }

    method TakeMessages(q: Request)
      requires Wired()
      modifies this`trace, this`notes, this`stopped, this`accepted, this`rejected, log`file, bus
      ensures Now() == MessagesPart(h, q, old(Now()), |q.messages|)
    {
      hide MessageStep;
      for i := 0 to |q.messages|
        invariant Now() == MessagesPart(h, q, old(Now()), i)
      {
        TakeMessage(q, i);
      }
    }

    method NoteReplies(q: Request, rs: seq<Json>)
      requires Wired()
      modifies this`trace, this`notes, this`stopped, log`file
      ensures Now() == DeliveredPart(h, q, old(Now()), rs)
    {
      hide Write, DeliveredLine;
      for i := 0 to |rs|
        invariant Now() == DeliveredPart(h, q, old(Now()), rs[..i])
      {
        assert rs[..i + 1][..i] == rs[..i];
        Note(q, DeliveredLine(q, rs[i]));
      }
      assert rs[..|rs|] == rs;
    }

    method MarkHandedOut(q: Request, ids: seq<int>)
      requires Wired()
      modifies this`trace, this`notes, this`stopped, log`file, bus
      ensures Now() == MarkPart(h, q, old(Now()), ids)
    {
      hide Write, MarkFailedLine, MarkDelivered;
      if stopped || ids == [] {
        return;
      }
      if q.f.mark {
        Note(q, MarkFailedLine(q));
      } else {
        bus.MarkAsDelivered(q.identity, ids, q.gate);
      }
    }

    method CloseRound(q: Request, n: nat, round: int)
      requires Wired()
      modifies this`trace, this`notes, this`stopped, this`closeFailed, log`file
      ensures Now() == ClosePart(h, q, old(Now()), n, round)
    {
      hide Write, CloseLine;
      if stopped {
        return;
      }
      Note(q, CloseLine(q, CurOf(bus.State(), q.identity).last, n, round));
      closeFailed := stopped;
      stopped := false;
    }

    method GiveReplies(q: Request, ids: seq<int>, u: Queue)
      requires Wired()
      modifies this, log`file, bus
      ensures Now() == HandOut(h, q, old(Now()), ids, u)
    {
      hide Write, DeliveredPart, MarkPart, ClosePart, RoundLine, RepliesOf, LastRoundCursor, TailOf, Entries;
      var at, rs := CurOf(bus.State(), q.identity).last, RepliesOf(q, bus.State(), ids);
      var logged := rs != [] || at != LastRoundCursor(Entries(log.file), q.identity);
      if logged {
        Note(q, RoundLine(h, q, at, rs, u));
      }
      var round := TailOf(log.file).seqNo;
      NoteReplies(q, rs);
      MarkHandedOut(q, ids);
      if logged {
        CloseRound(q, |rs|, round);
      }
      if !stopped {
        replies, trace := rs, trace + [Left(rs)];
      }
    }

    method Serve(q: Request)
      requires Wired() && Now() == Work(bus.State(), log.file, [], 0, false, [], [], [], false)
      modifies this, log`file, bus
      ensures Now() == Round(h, q, old(bus.State()), old(log.file))
    {
      hide AckPart, MessagesPart, HandOut, Peek, Shown, QueueOf;
      TakeAck(q);
      TakeMessages(q);
      if stopped || q.f.peek {
        stopped := true;
        return;
      }
      var rows := bus.PeekPage(q.identity, MAX_REPLIES, q.gate);
      var ids := Shown(q, bus.State(), rows);
      if q.f.pend {
        GiveReplies(q, ids, Unmeasured);
      } else {
        var more := bus.PeekPage(q.identity, PEND_LIMIT + 1, q.gate);
        GiveReplies(q, ids, QueueOf(q, ids, Shown(q, bus.State(), more)));
      }
    }
  }

  lemma SendRefused(w: World, b: Bus, m: Msg)
    ensures BusState.Send(w, b, m).1.Err? ==> BusState.Send(w, b, m).0 == b
  {
  }
}

/** The event bus and the SSE generators that read it (exchange/core/events.py, exchange/core/sse.py). */
module EventBus {
  import opened Wrappers

  datatype Event = Event(seqNo: nat, body: string)

  /** How much the bus remembers for replay. */
  const KEPT := 4096

  /** Everything ever published, numbered from 1. */
  ghost predicate Numbered(log: seq<Event>) { forall i :: 0 <= i < |log| ==> log[i].seqNo == i + 1 }

  /** The events numbered above `bound`, in order. */
  function Due(log: seq<Event>, bound: int): seq<Event> {
    if bound <= 0 then log else if bound >= |log| then [] else log[bound..]
  }

  /** The last `KEPT` events. */
  function Recent(log: seq<Event>): seq<Event> { Due(log, |log| - KEPT) }

  function Since(events: seq<Event>, since: int): seq<Event> {
    if events == [] then [] else (if events[0].seqNo > since then [events[0]] else []) + Since(events[1..], since)
  }

  lemma {:induction false} SinceIsDue(log: seq<Event>, from: nat, since: int)
    requires Numbered(log) && from <= |log|
    ensures Since(log[from..], since) == Due(log, Max(from, since))
    decreases |log| - from
  {
    if from < |log| {
      assert log[from..][1..] == log[from + 1..];
      SinceIsDue(log, from + 1, since);
      assert log[from].seqNo == from + 1;
      if since <= from {
        assert Due(log, from) == [log[from]] + Due(log, from + 1);
      }
    }
  }

  /** Replaying the kept history yields exactly the due events it still reaches. */
  lemma ReplayIsDue(log: seq<Event>, since: int)
    requires Numbered(log)
    ensures Since(Recent(log), since) == Due(log, Max(since, |log| - 4096))
  {
    var from := Max(0, |log| - KEPT);
    assert Recent(log) == log[from..];
    SinceIsDue(log, from, since);
  }

  lemma DueMore(log: seq<Event>, e: Event, bound: int)
    ensures Due(log + [e], bound) == Due(log, bound) + (if |log| + 1 > bound then [e] else [])
  {
  }

  lemma StillRecent(log: seq<Event>, e: Event)
    requires Numbered(log) && e.seqNo == |log| + 1
    ensures var more := Recent(log) + [e];
            Numbered(log + [e]) && Recent(log + [e]) == if |more| > KEPT then more[|more| - KEPT..] else more
  {
    NumberedMore(log, e);
    hide Numbered;
    if |log| >= KEPT {
      LastMore(log, e, KEPT);
    }
  }

  lemma NumberedMore(log: seq<Event>, e: Event)
    requires Numbered(log) && e.seqNo == |log| + 1
    ensures Numbered(log + [e])
  {
  }

  /** Keeping the last `n` of a longer list. */
  lemma LastMore(log: seq<Event>, e: Event, n: nat)
    requires 0 < n <= |log|
    ensures (log + [e])[|log| + 1 - n..] == (log[|log| - n..] + [e])[1..]
  {
  }

  /** A replaying stream gives every event after `since` exactly when the history still reached it. */
  lemma ReplayReachesIff(log: seq<Event>, start: nat, since: int)
    requires start <= |log|
    ensures Due(log, Max(since, start - KEPT)) == Due(log, since) <==> since >= start - 4096 || start <= 4096
  {
    if since < start - KEPT && start > KEPT {
      assert |Due(log, since)| > |Due(log, start - KEPT)|;
    }
  }

  /** The async stream starts at the present whatever `since` says: it gives every event after `since`
      exactly when that is where it started. */
  lemma AsyncReachesIff(log: seq<Event>, start: nat, since: int)
    requires start <= |log|
    ensures (forall more: seq<Event> :: Due(log + more, start) == Due(log + more, since)) <==> Max(since, 0) == start
  {
    if Max(since, 0) < start {
      assert |Due(log + [], since)| != |Due(log + [], start)|;
    } else if since > start {
      var more := seq(since, i => Event(0, ""));
      assert |Due(log + more, since)| != |Due(log + more, start)|;
    }
  }

  datatype Kind = Replaying | Async
  datatype Phase = Idle | Backlog | Live | Closed

  /** Subscribers: a stream's callback, one that raises, or what unsubscribing leaves in place. */
  datatype Subscriber = ToStream(stream: Stream) | Faulty | Tombstone

  class ExchangeBus {
    var subs: seq<Subscriber>
    var seqNo: nat
    var history: seq<Event>
    ghost var log: seq<Event>

    constructor ()
      ensures Valid() && log == [] && subs == []
    {
      subs, seqNo, history, log := [], 0, [], [];
    }

    ghost function Streams(): set<Stream>
      reads this
    {
      set i | 0 <= i < |subs| && subs[i].ToStream? :: subs[i].stream
    }

    /** The history is the recent part of the log, and every subscribed stream is in step with it. */
    ghost predicate Valid()
      reads this, Streams()
    {
      && seqNo == |log| && Numbered(log) && history == Recent(log)
      && forall i :: 0 <= i < |subs| && subs[i].ToStream? ==>
           var s := subs[i].stream; s in Streams() && s.slot == i && s.bus == this && s.InStep(log)
    }

    /** The bus calls this stream back on every event. */
    predicate Feeds(s: Stream)
      reads this, s`slot
    {
      s.slot < |subs| && subs[s.slot] == ToStream(s)
    }

    method Subscribe(sub: Subscriber) returns (slot: nat)
      modifies this`subs
      ensures slot == |old(subs)| && subs == old(subs) + [sub]
    {
      subs := subs + [sub];
      slot := |subs| - 1;
    }

    method Unsubscribe(slot: nat)
      modifies this`subs
      ensures subs == if slot < |old(subs)| then old(subs)[slot := Tombstone] else old(subs)
    {
      if slot < |subs| {
        subs := subs[slot := Tombstone];
      }
    }

    function Replay(since: int): seq<Event>
      reads this
    {
      Since(history, since)
    }

    /** Number the event, remember it, and hand it to every subscriber; one that raises stops nobody. */
    method Publish(body: string)
      requires Valid()
      modifies this`seqNo, this`history, this`log, Streams()`queue
      ensures Valid() && log == old(log) + [Event(old(|log|) + 1, body)]
      ensures forall s: Stream :: old(allocated(s)) && old(s.Ready()) ==> s.Ready()
      ensures forall s: Stream :: allocated(s) && Feeds(s) ==>
                s.queue == old(s.queue) + (if s.Wants(old(|log|) + 1) then [log[|log| - 1]] else [])
    {
      hide Due, Recent, Numbered, Since;
      ghost var was := log;
      StillRecent(log, Event(seqNo + 1, body));
      seqNo := seqNo + 1;
      var e := Event(seqNo, body);
      history := history + [e];
      log := log + [e];
      if |history| > KEPT {
        history := history[|history| - KEPT..];
      }
      Deliver(e);
      forall i | 0 <= i < |subs| && subs[i].ToStream?
        ensures subs[i].stream.InStep(log)
      {
        subs[i].stream.StepMore(was, e, old(subs[i].stream.queue));
      }
    }

    method Deliver(e: Event)
      requires forall i :: 0 <= i < |subs| && subs[i].ToStream? ==> subs[i].stream.slot == i
      modifies Streams()`queue
      ensures forall i :: 0 <= i < |subs| && subs[i].ToStream? ==>
                subs[i].stream.queue == old(subs[i].stream.queue) + (if subs[i].stream.Wants(e.seqNo) then [e] else [])
    {
      var i := 0;
      while i < |subs|
        invariant i <= |subs|
        invariant forall j :: 0 <= j < i && subs[j].ToStream? ==>
                    subs[j].stream.queue == old(subs[j].stream.queue)
                                            + (if subs[j].stream.Wants(e.seqNo) then [e] else [])
        invariant forall j :: i <= j < |subs| && subs[j].ToStream? ==> subs[j].stream.queue == old(subs[j].stream.queue)
        modifies Streams()`queue
      {
        match subs[i] {
          case ToStream(s) =>
            assert s in Streams();
            s.OnEvent(e);
          case Faulty =>
          case Tombstone =>
        }
        i := i + 1;
      }
    }
  }

  /** A generator over the bus: nothing happens before it is first asked for an event. */
  class Stream {
    const bus: ExchangeBus
    const kind: Kind
    const since: int
    var phase: Phase
    var slot: nat
    var backlog: seq<Event>
    var queue: seq<Event>
    /** Where the log stood when the generator started, and every event it has handed out. */
    ghost var start: nat
    ghost var emitted: seq<Event>

    constructor (bus: ExchangeBus, kind: Kind, since: int)
      ensures this.bus == bus && this.kind == kind && this.since == since
      ensures phase == Idle && emitted == [] && queue == [] && backlog == []
    {
      this.bus, this.kind, this.since := bus, kind, since;
      phase, slot, backlog, queue, start, emitted := Idle, 0, [], [], 0, [];
    }

    /** The number above which events are due. */
    function Bound(start: nat): int { if kind.Async? then start else Max(since, start - KEPT) }

    predicate Wants(seqNo: nat) { kind.Async? || seqNo > since }

    /** What was handed out, what is left of the backlog and what is queued are, in this order, exactly the
        due events: no gap, no duplicate. */
    ghost predicate InStep(log: seq<Event>)
      reads this
    {
      && start <= |log|
      && (phase == Idle ==> emitted == [])
      && (phase.Backlog? || phase.Live? ==> emitted + backlog + queue == Due(log, Bound(start)))
      && (phase.Live? ==> backlog == [])
    }

    method OnEvent(e: Event)
      modifies this`queue
      ensures queue == old(queue) + (if Wants(e.seqNo) then [e] else [])
    {
      if kind.Replaying? && e.seqNo <= since {
        return;
      }
      queue := queue + [e];
    }

    lemma StepMore(was: seq<Event>, e: Event, before: seq<Event>)
      requires e.seqNo == |was| + 1 && queue == before + (if Wants(e.seqNo) then [e] else [])
      requires start <= |was| && (phase == Idle ==> emitted == []) && (phase.Live? ==> backlog == [])
      requires phase.Backlog? || phase.Live? ==> emitted + backlog + before == Due(was, Bound(start))
      ensures InStep(was + [e])
    {
      DueMore(was, e, Bound(start));
      assert |was| + 1 > Bound(start) <==> Wants(e.seqNo);
      assert emitted + backlog + queue == emitted + backlog + before + (if Wants(e.seqNo) then [e] else []);
    }

    /** Registered exactly while the bus feeds it, and fresh until started. */
    ghost predicate Ready()
      reads this, bus
    {
      && !phase.Closed?
      && (phase == Idle ==> emitted == [] && queue == [])
      && (phase == Idle ==> forall i :: 0 <= i < |bus.subs| ==> bus.subs[i] != ToStream(this))
      && (phase != Idle ==> bus.Feeds(this))
    }

    /** The next frame: an event, or a keep-alive, which comes only when nothing due is left. */
    method Next() returns (out: Option<Event>)
      requires bus.Valid() && Ready()
      modifies this, bus`subs
      ensures bus.Valid() && Ready() && phase != Idle
      ensures forall s: Stream :: old(allocated(s)) && s != this && old(s.Ready()) ==> s.Ready()
      ensures start == if old(phase) == Idle then |bus.log| else old(start)
      ensures out.Some? ==> emitted == old(emitted) + [out.value]
      ensures out.None? ==> emitted == old(emitted) == Due(bus.log, Bound(start))
      ensures emitted <= Due(bus.log, Bound(start))
    {
      hide Due, Recent, Since, Numbered, InStep;
      if phase == Idle {
        Begin();
      }
      assert InStep(bus.log);
      out := Advance(bus.log);
    }

    method Advance(ghost log: seq<Event>) returns (out: Option<Event>)
      requires InStep(log) && (phase.Backlog? || phase.Live?)
      modifies this`phase, this`backlog, this`queue, this`emitted
      ensures InStep(log) && (phase.Backlog? || phase.Live?)
      ensures out.Some? ==> emitted == old(emitted) + [out.value]
      ensures out.None? ==> emitted == old(emitted) == Due(log, Bound(start))
      ensures emitted <= Due(log, Bound(start))
    {
      hide Due;
      if backlog != [] {
        out, backlog := Some(backlog[0]), backlog[1..];
        emitted := emitted + [out.value];
      } else {
        phase := Live;
        if queue != [] {
          out, queue := Some(queue[0]), queue[1..];
          emitted := emitted + [out.value];
        } else {
          out := None;
        }
      }
    }

    /** Subscribe, then read the backlog: nothing can be published in between. */
    method Begin()
      requires bus.Valid() && phase == Idle && Ready()
      modifies this, bus`subs
      ensures bus.Valid() && phase.Backlog? && Ready() && start == |bus.log| && emitted == []
      ensures forall s: Stream :: old(allocated(s)) && s != this && old(s.Ready()) ==> s.Ready()
    {
      hide Due, Recent, Since, Numbered;
      ghost var was := bus.subs;
      phase, start := Backlog, |bus.log|;
      slot := bus.Subscribe(ToStream(this));
      backlog := [];
      if kind.Replaying? {
        backlog := bus.Replay(since);
      }
      BeginInStep(this);
    }

    /** Dropping the generator. The replaying one enters its `try` only after the backlog: closed before
        that, it never unsubscribes, and the bus goes on filling its queue. */
    method Close()
      requires bus.Valid() && Ready()
      modifies this`phase, bus`subs
      ensures bus.Valid() && phase.Closed? && emitted == old(emitted)
      ensures (exists i :: 0 <= i < |bus.subs| && bus.subs[i] == ToStream(this))
              <==> old(phase).Backlog? && kind.Replaying?
      ensures forall s: Stream :: old(allocated(s)) && s != this && old(s.Ready()) ==> s.Ready()
    {
      hide Due, Recent, Since, Numbered;
      if phase.Live? || (phase.Backlog? && kind.Async?) {
        bus.Unsubscribe(slot);
      } else if phase.Backlog? {
        assert bus.subs[slot] == ToStream(this);
      }
      phase := Closed;
    }
  }

  lemma BeginInStep(s: Stream)
    requires Numbered(s.bus.log) && s.bus.history == Recent(s.bus.log) && s.phase.Backlog? && s.start == |s.bus.log|
    requires s.emitted == [] && s.queue == [] && s.backlog == if s.kind.Replaying? then s.bus.Replay(s.since) else []
    ensures s.InStep(s.bus.log)
  {
    StartDue(s.bus.log, s.since);
    hide Due, Recent, Since, Numbered;
    assert s.emitted + s.backlog + s.queue == s.backlog;
  }

  lemma StartDue(log: seq<Event>, since: int)
    requires Numbered(log)
    ensures Since(Recent(log), since) == Due(log, Max(since, |log| - KEPT)) && Due(log, |log|) == []
  {
    ReplayIsDue(log, since);
    hide Recent, Since, Numbered;
  }
}

/** The ledger that writes the chain and the verifier of a copied store
    (fleet/crypto/chriscrypt/ledger.py, fleet/gcp/verify.py). */
module Ledgers {
  import opened Wrappers
  import opened HashChain

  // ---------------------------------------------------------------- the writer on values

  /** A ledger: all its key has signed, its store if it has one, and where its chain goes on. */
  datatype Writer = Writer(signed: seq<Digest>, rows: Option<seq<Record>>, seqNo: int, prev: Digest)

  /** Storing a record replaces the one with its id, if there is one. */
  function Put(rows: seq<Record>, r: Record): seq<Record> {
    if rows == [] then [r]
    else if Field(rows[0], "id") == Field(r, "id") then [r] + rows[1..]
    else [rows[0]] + Put(rows[1..], r)
  }

  function Entries(rows: seq<Record>): seq<Record> { SortBySeq(Unmarked(rows)) }

  /** Where a ledger opened on a store goes on. It reads the last entry and checks nothing; a row without a
      readable sequence number, or a last entry without a `prev` in hexadecimal, raises. */
  function Resumption(rows: Option<seq<Record>>): Option<(int, Digest)> {
    if rows.None? then Some((0, Genesis))
    else if !AllNumbered(Unmarked(rows.value)) then None
    else
      var es := Entries(rows.value);
      if es == [] then Some((0, Genesis))
      else
        var last := es[|es| - 1];
        if Field(last, "prev").Hex? then Some((SeqOf(last) + 1, Link(Field(last, "prev").d, BodyOf(last)))) else None
  }

  /** The checkpoint over a chain of `count` entries, signed as number `token`. */
  function Sealed(count: int, head: Digest, ts: int, token: nat): Record {
    Mark(count, head, ts)["sig" := Sig(token)]
  }

  /** Appending: the next entry, and the ledger after it. */
  function Appending(w: Writer, kind: string, payload: string, ts: int, markTs: int): (Record, Writer) {
    var e := EntryAt(w.seqNo, w.prev, ts, kind, payload, |w.signed|);
    var head := Link(w.prev, BodyOf(e));
    if w.rows.None? then (e, Writer(w.signed + [head], None, w.seqNo + 1, head))
    else
      var signed := w.signed + [head];
      var c := Sealed(w.seqNo + 1, head, markTs, |signed|);
      (e, Writer(signed + [Whole(Mark(w.seqNo + 1, head, markTs))], Some(Put(Put(w.rows.value, e), c)), w.seqNo + 1,
                 head))
  }

  // ---------------------------------------------------------------- what a store holds

  /** The store holds `log` and at most one checkpoint record, in any order. */
  ghost predicate Stored(rows: seq<Record>, log: seq<Record>, marks: seq<Record>) {
    multiset(rows) == multiset(log + marks) && |marks| <= 1 && forall m :: m in marks ==> Field(m, "id") == CHECKPOINT
  }

  /** And that checkpoint seals the whole log. */
  ghost predicate Kept(signed: seq<Digest>, rows: seq<Record>, log: seq<Record>, marks: seq<Record>) {
    && Stored(rows, log, marks) && (log == [] <==> marks == [])
    && forall m :: m in marks ==> SealedAt(signed, m, log, |log|)
  }

  /** The ledger continues `log`. */
  ghost predicate Continues(w: Writer, log: seq<Record>, marks: seq<Record>) {
    && Written(w.signed, log) && w.seqNo == |log| && w.prev == Head(log)
    && (w.rows.Some? ==> Kept(w.signed, w.rows.value, log, marks))
  }

  // ---------------------------------------------------------------- growing the history

  lemma PrefixOf(log: seq<Record>, e: Record, n: nat)
    requires n <= |log|
    ensures (log + [e])[..n] == log[..n]
  {
  }

  lemma GenuineMore(signed: seq<Digest>, log: seq<Record>, more: seq<Digest>, longer: seq<Record>, i: nat)
    requires i < |log| && GenuineAt(signed, log, i) && log <= longer && signed <= more
    ensures GenuineAt(more, longer, i)
  {
    assert longer[..i] == log[..i] && longer[..i + 1] == log[..i + 1];
    StillSigned(signed, more, Field(log[i], "sig"), Head(log[..i + 1]));
  }

  lemma GenuinePrefix(signed: seq<Digest>, log: seq<Record>, n: nat)
    requires Genuine(signed, log) && n <= |log|
    ensures Genuine(signed, log[..n])
  {
    hide GenuineAt;
    forall i | 0 <= i < n
      ensures GenuineAt(signed, log[..n], i)
    {
      GenuineLess(signed, log, n, i);
    }
  }

  lemma GenuineLess(signed: seq<Digest>, log: seq<Record>, n: nat, i: nat)
    requires i < n <= |log| && GenuineAt(signed, log, i)
    ensures GenuineAt(signed, log[..n], i)
  {
    assert log[..n][..i] == log[..i] && log[..n][..i + 1] == log[..i + 1];
  }

  lemma SignedOnlyLonger(signed: seq<Digest>, log: seq<Record>, e: Record)
    requires SignedOnly(signed, log)
    ensures SignedOnly(signed, log + [e])
  {
    var longer := log + [e];
    forall s | 0 <= s < |signed| && signed[s].Link?
      ensures exists n :: 0 < n <= |longer| && signed[s] == Head(longer[..n])
    {
      var n :| 0 < n <= |log| && signed[s] == Head(log[..n]);
      PrefixOf(log, e, n);
    }
    forall s | 0 <= s < |signed| && signed[s].Whole?
      ensures exists n, ts: int :: 0 <= n <= |longer| && signed[s].body == Mark(n, Head(longer[..n]), ts)
    {
      var n, ts: int :| 0 <= n <= |log| && signed[s].body == Mark(n, Head(log[..n]), ts);
      PrefixOf(log, e, n);
      assert signed[s].body == Mark(n, Head(longer[..n]), ts);
    }
  }

  /** Signing the head of the log, or a checkpoint over it, is all the key is for. */
  lemma SignedOnlyMore(signed: seq<Digest>, log: seq<Record>, d: Digest, ts: int)
    requires SignedOnly(signed, log) && ((log != [] && d == Head(log)) || d == Whole(Mark(|log|, Head(log), ts)))
    ensures SignedOnly(signed + [d], log)
  {
    hide Head, Mark;
    var more := signed + [d];
    assert log[..|log|] == log;
    HeadShape(log);
    forall s | 0 <= s < |more| && more[s].Link?
      ensures exists n :: 0 < n <= |log| && more[s] == Head(log[..n])
    {
      if s < |signed| {
        var n :| 0 < n <= |log| && signed[s] == Head(log[..n]);
      } else {
        assert more[s] == Head(log[..|log|]);
      }
    }
    forall s | 0 <= s < |more| && more[s].Whole?
      ensures exists n, ts: int :: 0 <= n <= |log| && more[s].body == Mark(n, Head(log[..n]), ts)
    {
      if s < |signed| {
        var n, ts: int :| 0 <= n <= |log| && signed[s].body == Mark(n, Head(log[..n]), ts);
      } else {
        assert more[s].body == Mark(|log|, Head(log[..|log|]), ts);
      }
    }
  }

  lemma HeadShape(log: seq<Record>)
    ensures log != [] ==> Head(log).Link?
    ensures log == [] ==> Head(log) == Genesis
  {
  }

  lemma HeadOne(log: seq<Record>, e: Record)
    ensures Head(log + [e]) == Link(Head(log), BodyOf(e))
  {
    assert (log + [e])[..|log|] == log;
  }

  lemma EntryFields(n: int, head: Digest, ts: int, kind: string, payload: string, token: nat)
    ensures var e := EntryAt(n, head, ts, kind, payload, token);
            && Field(e, "seq") == Num(n) && Field(e, "prev") == Hex(head) && Field(e, "kind") == Text(kind)
            && Field(e, "id") == Serial(n) && Field(e, "sig") == Sig(token) && Field(e, "ts") == Num(ts)
            && Field(e, "payload") == Other(payload)
  {
  }

  lemma LastGenuine(signed: seq<Digest>, log: seq<Record>, e: Record)
    requires Field(e, "seq") == Num(|log|) && Field(e, "prev") == Hex(Head(log)) && Field(e, "kind").Text?
    requires Field(e, "id") == Serial(|log|) && Signs(signed, Field(e, "sig"), Head(log + [e]))
    ensures GenuineAt(signed, log + [e], |log|)
  {
    hide Head, Field;
    var longer := log + [e];
    assert longer[|log|] == e && longer[..|log|] == log && longer[..|log| + 1] == longer;
  }

  /** The next entry on any genuine log, signed by a key that has signed whatever else. */
  lemma GenuineNext(signed: seq<Digest>, log: seq<Record>, ts: int, kind: string, payload: string, more: seq<Digest>)
    requires Genuine(signed, log)
    requires var e := EntryAt(|log|, Head(log), ts, kind, payload, |signed|);
             signed + [Link(Head(log), BodyOf(e))] <= more
    ensures Genuine(more, log + [EntryAt(|log|, Head(log), ts, kind, payload, |signed|)])
  {
    hide EntryAt, BodyOf, Head, Field, GenuineAt;
    var e := EntryAt(|log|, Head(log), ts, kind, payload, |signed|);
    EntryFields(|log|, Head(log), ts, kind, payload, |signed|);
    HeadOne(log, e);
    assert more[|signed|] == Head(log + [e]);
    LastGenuine(more, log, e);
    forall i | 0 <= i < |log|
      ensures GenuineAt(more, log + [e], i)
    {
      GenuineMore(signed, log, more, log + [e], i);
    }
  }

  // ---------------------------------------------------------------- storing

  lemma {:induction false} PutNew(rows: seq<Record>, r: Record)
    requires forall x :: x in rows ==> Field(x, "id") != Field(r, "id")
    ensures Put(rows, r) == rows + [r]
  {
    if rows != [] {
      assert rows[0] in rows;
      PutNew(rows[1..], r);
      assert rows == [rows[0]] + rows[1..];
    }
  }

  /** One record with the same id gives way. */
  lemma {:induction false} PutInstead(rows: seq<Record>, r: Record) returns (x: Record)
    requires exists y :: y in rows && Field(y, "id") == Field(r, "id")
    ensures x in rows && Field(x, "id") == Field(r, "id")
    ensures multiset(Put(rows, r)) == multiset(rows) - multiset{x} + multiset{r}
  {
    hide Field;
    assert rows == [rows[0]] + rows[1..];
    if Field(rows[0], "id") == Field(r, "id") {
      x := rows[0];
    } else {
      x := PutInstead(rows[1..], r);
    }
  }

  lemma MembersOf(rows: seq<Record>, log: seq<Record>, marks: seq<Record>)
    requires multiset(rows) == multiset(log + marks)
    ensures forall x :: x in rows <==> x in log || x in marks
  {
    forall x
      ensures x in rows <==> x in log || x in marks
    {
      assert x in rows <==> x in multiset(rows);
      assert x in log + marks <==> x in multiset(log + marks);
    }
  }

  lemma LoggedIds(signed: seq<Digest>, log: seq<Record>)
    requires Genuine(signed, log)
    ensures forall e :: e in log ==> Field(e, "id").Serial? && 0 <= Field(e, "id").at < |log|
  {
    forall e | e in log
      ensures Field(e, "id").Serial? && 0 <= Field(e, "id").at < |log|
    {
      var i :| 0 <= i < |log| && log[i] == e;
      assert GenuineAt(signed, log, i);
    }
  }

  /** Storing the next entry and then a checkpoint, whatever checkpoint there was. */
  lemma PutBoth(signed: seq<Digest>, rows: seq<Record>, log: seq<Record>, marks: seq<Record>, e: Record, c: Record)
    requires Genuine(signed, log) && Stored(rows, log, marks)
    requires Field(e, "id") == Serial(|log|) && Field(c, "id") == CHECKPOINT
    ensures Stored(Put(Put(rows, e), c), log + [e], [c])
  {
    hide Genuine, Put, Field;
    MembersOf(rows, log, marks);
    NewSerial(signed, log, e);
    PutNew(rows, e);
    if marks == [] {
      FirstMark(rows + [e], log, e, c);
      Adds(rows, log, e, c);
    } else {
      assert marks[0] in marks && marks[0] in rows + [e];
      var x := PutInstead(rows + [e], c);
      OnlyMark(signed, rows, log, marks, e, c, x);
      assert marks == [marks[0]];
      Swaps(rows, log, marks[0], e, c);
    }
  }

  lemma NewSerial(signed: seq<Digest>, log: seq<Record>, e: Record)
    requires Genuine(signed, log) && Field(e, "id") == Serial(|log|)
    ensures forall x :: x in log ==> Field(x, "id") != Field(e, "id") && Field(x, "id") != CHECKPOINT
  {
    LoggedIds(signed, log);
    hide Genuine, Field;
  }

  lemma FirstMark(next: seq<Record>, log: seq<Record>, e: Record, c: Record)
    requires forall x :: x in next ==> x in log || x == e
    requires forall x :: x in log ==> Field(x, "id") != CHECKPOINT
    requires Field(e, "id") != CHECKPOINT && Field(c, "id") == CHECKPOINT
    ensures Put(next, c) == next + [c]
  {
    hide Field;
    PutNew(next, c);
  }

  lemma OnlyMark(signed: seq<Digest>, rows: seq<Record>, log: seq<Record>, marks: seq<Record>, e: Record, c: Record,
                 x: Record)
    requires Genuine(signed, log) && (forall y :: y in rows <==> y in log || y in marks) && |marks| == 1
    requires Field(e, "id") == Serial(|log|) && x in rows + [e] && Field(x, "id") == CHECKPOINT
    ensures x == marks[0]
  {
    NewSerial(signed, log, e);
    hide Genuine, Field;
  }

  lemma Adds(rows: seq<Record>, log: seq<Record>, e: Record, c: Record)
    requires multiset(rows) == multiset(log + [])
    ensures multiset(rows + [e] + [c]) == multiset(log + [e] + [c])
  {
    assert log + [] == log;
    assert multiset(rows + [e] + [c]) == multiset(log) + multiset{e} + multiset{c};
  }

  lemma Swaps(rows: seq<Record>, log: seq<Record>, m: Record, e: Record, c: Record)
    requires multiset(rows) == multiset(log + [m])
    ensures multiset(rows + [e]) - multiset{m} + multiset{c} == multiset(log + [e] + [c])
  {
    assert multiset(log + [m]) == multiset(log) + multiset{m};
    assert multiset(rows + [e]) == multiset(log) + multiset{m} + multiset{e};
  }

  // ---------------------------------------------------------------- reading back

  lemma UnmarkedIs(signed: seq<Digest>, rows: seq<Record>, log: seq<Record>, marks: seq<Record>)
    requires Genuine(signed, log) && Stored(rows, log, marks)
    ensures multiset(Unmarked(rows)) == multiset(log)
  {
    LoggedIds(signed, log);
    assert log + marks + [] == log + marks;
    hide Genuine, Unmarked;
    forall e
      ensures multiset(Unmarked(rows))[e] == multiset(log)[e]
    {
      UnmarkedCount(rows, e);
      Counts(log, marks, [], rows, e);
    }
  }

  /** Whatever its order and its checkpoint, a store gives back the log it holds. */
  lemma EntriesAreLog(signed: seq<Digest>, rows: seq<Record>, log: seq<Record>, marks: seq<Record>)
    requires Genuine(signed, log) && Stored(rows, log, marks)
    ensures Entries(rows) == log && AllNumbered(Unmarked(rows))
  {
    UnmarkedIs(signed, rows, log, marks);
    hide Genuine, Stored, Unmarked, Field, Numbers;
    var es := Unmarked(rows);
    assert log[..|log|] == log;
    SortedKeeps(es);
    LogRises(signed, log, |log|);
    SortIsUnique(SortBySeq(es), log);
    NumbersBy(signed, log, |log|, es);
    AllNumberedIs(es);
  }

  /** A ledger opened on a genuine log goes on at its end; the checkpoint plays no part. */
  lemma ResumesAtEnd(signed: seq<Digest>, rows: seq<Record>, log: seq<Record>, marks: seq<Record>)
    requires Genuine(signed, log) && Stored(rows, log, marks)
    ensures Resumption(Some(rows)) == Some((|log|, Head(log)))
  {
    hide Stored, Genuine, Resumption, Entries, Unmarked, AllNumbered, BodyOf, Head, Field, SeqOf;
    EntriesAreLog(signed, rows, log, marks);
    ResumptionIs(rows, log);
    HeadShape(log);
    if log != [] {
      LastOfLog(signed, log);
    }
  }

  lemma ResumptionIs(rows: seq<Record>, es: seq<Record>)
    requires Entries(rows) == es && AllNumbered(Unmarked(rows))
    ensures es == [] ==> Resumption(Some(rows)) == Some((0, Genesis))
    ensures es != [] && Field(es[|es| - 1], "prev").Hex? ==>
              var last := es[|es| - 1];
              Resumption(Some(rows)) == Some((SeqOf(last) + 1, Link(Field(last, "prev").d, BodyOf(last))))
  {
    hide Entries, Unmarked, AllNumbered, BodyOf, Field, SeqOf;
  }

  lemma LastOfLog(signed: seq<Digest>, log: seq<Record>)
    requires Genuine(signed, log) && log != []
    ensures var last := log[|log| - 1];
            SeqOf(last) + 1 == |log| && Field(last, "prev").Hex?
            && Link(Field(last, "prev").d, BodyOf(last)) == Head(log)
  {
    assert GenuineAt(signed, log, |log| - 1);
  }

  // ---------------------------------------------------------------- one chain over restarts

  /** A restart changes nothing: a ledger opened on the store goes on where the last one stopped. */
  lemma RestartContinues(w: Writer, log: seq<Record>, marks: seq<Record>)
    requires Continues(w, log, marks) && (w.rows.None? ==> log == [])
    ensures Resumption(w.rows) == Some((w.seqNo, w.prev))
  {
    hide Stored, SealedAt, SignedOnly, Genuine, Entries;
    HeadShape(log);
    if w.rows.Some? {
      ResumesAtEnd(w.signed, w.rows.value, log, marks);
    }
  }

  lemma MarkSealed(signed: seq<Digest>, log: seq<Record>, ts: int, token: nat)
    requires token < |signed| && signed[token] == Whole(Mark(|log|, Head(log), ts))
    ensures SealedAt(signed, Sealed(|log|, Head(log), ts, token), log, |log|)
    ensures Field(Sealed(|log|, Head(log), ts, token), "id") == CHECKPOINT
  {
    hide Mark, Head, SealedAt;
    MarkPlain(|log|, Head(log), ts);
    Unsigned(Mark(|log|, Head(log), ts), Sig(token));
    SealedBy(signed, Sealed(|log|, Head(log), ts, token), log, ts, token);
  }

  lemma MarkPlain(count: int, head: Digest, ts: int)
    ensures "sig" !in Mark(count, head, ts) && Field(Mark(count, head, ts), "id") == CHECKPOINT
  {
  }

  lemma Unsigned(m: Record, v: Value)
    requires "sig" !in m
    ensures m["sig" := v] - {"sig"} == m && Field(m["sig" := v], "sig") == v
    ensures Field(m["sig" := v], "id") == Field(m, "id")
  {
  }

  lemma SealedBy(signed: seq<Digest>, c: Record, log: seq<Record>, ts: int, token: nat)
    requires c - {"sig"} == Mark(|log|, Head(log), ts) && Field(c, "sig") == Sig(token)
    requires token < |signed| && signed[token] == Whole(Mark(|log|, Head(log), ts))
    ensures SealedAt(signed, c, log, |log|)
  {
    hide Mark, Head, Field;
    assert log[..|log|] == log;
  }

  /** The checkpoint an append by `w` makes over `log`. */
  function NextMark(w: Writer, log: seq<Record>, ts: int): Record { Sealed(|log|, Head(log), ts, |w.signed| + 1) }

  lemma AppendingIs(w: Writer, log: seq<Record>, kind: string, payload: string, ts: int, markTs: int)
    requires w.seqNo == |log| && w.prev == Head(log)
    ensures var (e, v) := Appending(w, kind, payload, ts, markTs);
            && e == EntryAt(|log|, Head(log), ts, kind, payload, |w.signed|) && Field(e, "id") == Serial(|log|)
            && v.seqNo == |log| + 1 && v.prev == Head(log + [e]) == Link(Head(log), BodyOf(e))
            && v.signed == w.signed + [Head(log + [e])]
                           + (if w.rows.None? then [] else [Whole(Mark(|log| + 1, Head(log + [e]), markTs))])
            && v.rows == if w.rows.None? then None
                         else Some(Put(Put(w.rows.value, e), NextMark(w, log + [e], markTs)))
  {
    hide EntryAt, BodyOf, Head, Field, Mark, Sealed, Put;
    var (e, v) := Appending(w, kind, payload, ts, markTs);
    HeadOne(log, e);
    EntryFields(|log|, Head(log), ts, kind, payload, |w.signed|);
  }

  /** What an append writes down is what it was asked to, at the next number. */
  lemma AppendedSays(w: Writer, kind: string, payload: string, ts: int, markTs: int)
    ensures var e := Appending(w, kind, payload, ts, markTs).0;
            && Field(e, "seq") == Num(w.seqNo) && Field(e, "prev") == Hex(w.prev) && Field(e, "ts") == Num(ts)
            && Field(e, "kind") == Text(kind) && Field(e, "payload") == Other(payload)
  {
    EntryFields(w.seqNo, w.prev, ts, kind, payload, |w.signed|);
    hide EntryAt, Field;
  }

  /** And the checkpoint beside it says how many entries there are now, where their chain ends, and when. */
  lemma CheckpointSays(w: Writer, kind: string, payload: string, ts: int, markTs: int) returns (c: Record)
    requires w.rows.Some?
    ensures var (e, v) := Appending(w, kind, payload, ts, markTs);
            && v.rows.Some? && c in v.rows.value && Field(c, "id") == Text("checkpoint")
            && Field(c, "count") == Num(w.seqNo + 1) && Field(c, "head") == Hex(v.prev) && Field(c, "ts") == Num(markTs)
  {
    var (e, v) := Appending(w, kind, payload, ts, markTs);
    c := Sealed(w.seqNo + 1, v.prev, markTs, |w.signed| + 1);
    PutThere(Put(w.rows.value, e), c);
    hide EntryAt, BodyOf, Put;
  }

  lemma {:induction false} PutThere(rows: seq<Record>, r: Record)
    ensures r in Put(rows, r)
  {
    if rows != [] {
      PutThere(rows[1..], r);
    }
  }

  /** What one append stores, on any genuine log: the entry is the log's next, the checkpoint seals it. */
  lemma AppendStores(w: Writer, log: seq<Record>, marks: seq<Record>, kind: string, payload: string, ts: int,
                     markTs: int)
    requires Genuine(w.signed, log) && w.seqNo == |log| && w.prev == Head(log)
    requires w.rows.Some? && Stored(w.rows.value, log, marks)
    ensures var (e, v) := Appending(w, kind, payload, ts, markTs);
            && w.signed <= v.signed && Genuine(v.signed, log + [e])
            && v.rows.Some? && Kept(v.signed, v.rows.value, log + [e], [NextMark(w, log + [e], markTs)])
  {
    hide EntryAt, BodyOf, Head, Field, Genuine, Mark, NextMark, SealedAt, Stored, Kept, Appending, Put;
    var (e, v) := Appending(w, kind, payload, ts, markTs);
    AppendingIs(w, log, kind, payload, ts, markTs);
    GenuineNext(w.signed, log, ts, kind, payload, v.signed);
    KeptNext(w, log, marks, e, v.signed, markTs);
  }

  lemma KeptNext(w: Writer, log: seq<Record>, marks: seq<Record>, e: Record, signed: seq<Digest>, ts: int)
    requires Genuine(w.signed, log) && w.rows.Some? && Stored(w.rows.value, log, marks)
    requires Field(e, "id") == Serial(|log|)
    requires |signed| == |w.signed| + 2 && signed[|w.signed| + 1] == Whole(Mark(|log| + 1, Head(log + [e]), ts))
    ensures var c := NextMark(w, log + [e], ts); Kept(signed, Put(Put(w.rows.value, e), c), log + [e], [c])
  {
    hide Head, Field, Genuine, Mark, SealedAt, Stored, Put, Sealed;
    MarkSealed(signed, log + [e], ts, |w.signed| + 1);
    PutBoth(w.signed, w.rows.value, log, marks, e, NextMark(w, log + [e], ts));
  }

  /** The store of a ledger always verifies, and holds the whole log. */
  lemma OwnStoreAccepted(signed: seq<Digest>, rows: seq<Record>, log: seq<Record>, marks: seq<Record>)
    requires Genuine(signed, log) && Kept(signed, rows, log, marks)
    ensures Verify(signed, rows) == Accepted && EntriesIn(rows) == log
  {
    hide Genuine, SealedAt, Verify, EntriesIn, Noise;
    assert log[..|log|] == log && log + marks + [] == log + marks;
    NoNoise();
    AnyOrderAccepted(signed, log, |log|, marks, [], rows);
  }

  lemma NoNoise()
    ensures Noise([])
  {
  }

  /** Appending to the one chain keeps it one: whatever was and is signed, the store verifies as the whole
      longer log. */
  lemma AppendContinues(w: Writer, log: seq<Record>, marks: seq<Record>, kind: string, payload: string, ts: int,
                        markTs: int)
    requires Continues(w, log, marks)
    ensures var (e, v) := Appending(w, kind, payload, ts, markTs);
            && Continues(v, log + [e], [NextMark(w, log + [e], markTs)])
            && (v.rows.Some? ==> Verify(v.signed, v.rows.value) == Accepted && EntriesIn(v.rows.value) == log + [e])
  {
    var (e, v) := Appending(w, kind, payload, ts, markTs);
    WrittenIs(w.signed, log);
    AppendingIs(w, log, kind, payload, ts, markTs);
    hide EntryAt, BodyOf, Head, Field, Genuine, Mark, NextMark, SealedAt, Stored, SignedOnly, Kept, Appending, Put;
    SignedOnlyLonger(w.signed, log, e);
    SignedOnlyMore(w.signed, log + [e], Head(log + [e]), markTs);
    if w.rows.Some? {
      AppendStores(w, log, marks, kind, payload, ts, markTs);
      SignedOnlyMore(w.signed + [Head(log + [e])], log + [e], Whole(Mark(|log| + 1, Head(log + [e]), markTs)), markTs);
      OwnStoreAccepted(v.signed, v.rows.value, log + [e], [NextMark(w, log + [e], markTs)]);
    } else {
      GenuineNext(w.signed, log, ts, kind, payload, v.signed);
    }
  }

  datatype Act = Appends(kind: string, payload: string, ts: int, markTs: int) | Restarts

  function Acted(w: Writer, act: Act): Writer {
    match act
    case Appends(kind, payload, ts, markTs) => Appending(w, kind, payload, ts, markTs).1
    case Restarts =>
      var at := Resumption(w.rows);
      if at.None? then w else w.(seqNo := at.value.0, prev := at.value.1)
  }

  function AddedBy(w: Writer, act: Act): seq<Record> {
    if act.Restarts? then [] else [Appending(w, act.kind, act.payload, act.ts, act.markTs).0]
  }

  function RunOf(w: Writer, acts: seq<Act>): Writer
    decreases |acts|
  {
    if acts == [] then w else Acted(RunOf(w, acts[..|acts| - 1]), acts[|acts| - 1])
  }

  /** The entries a run appends. */
  function Logged(w: Writer, acts: seq<Act>): seq<Record>
    decreases |acts|
  {
    if acts == [] then []
    else Logged(w, acts[..|acts| - 1]) + AddedBy(RunOf(w, acts[..|acts| - 1]), acts[|acts| - 1])
  }

  /** A stored ledger that continues `log`, and whose store is accepted and holds it. */
  ghost predicate InForce(w: Writer, log: seq<Record>) {
    && (exists marks :: Continues(w, log, marks)) && w.rows.Some?
    && Verify(w.signed, w.rows.value) == Accepted && EntriesIn(w.rows.value) == log
  }

  lemma BeginsInForce(w: Writer, log: seq<Record>, marks: seq<Record>)
    requires Continues(w, log, marks) && w.rows.Some?
    ensures InForce(w, log)
  {
    WrittenIs(w.signed, log);
    OwnStoreAccepted(w.signed, w.rows.value, log, marks);
    hide Kept, Written, Verify, EntriesIn;
  }

  lemma ActKeeps(w: Writer, log: seq<Record>, act: Act)
    requires InForce(w, log)
    ensures InForce(Acted(w, act), log + AddedBy(w, act))
  {
    hide Continues, Appending, Resumption, Verify, EntriesIn, NextMark;
    var marks :| Continues(w, log, marks);
    if act.Restarts? {
      RestartContinues(w, log, marks);
      assert log + AddedBy(w, act) == log;
    } else {
      AppendContinues(w, log, marks, act.kind, act.payload, act.ts, act.markTs);
      StaysStored(w, act.kind, act.payload, act.ts, act.markTs);
    }
  }

  /** Over any run of appends and restarts of a stored ledger there is one chain: the store is accepted and holds
      the log there was and every entry appended since, in order. */
  lemma {:induction false} RunIsOneChain(w: Writer, log: seq<Record>, acts: seq<Act>)
    requires InForce(w, log)
    ensures InForce(RunOf(w, acts), log + Logged(w, acts))
    decreases |acts|
  {
    hide InForce, Acted, AddedBy;
    if acts == [] {
      assert log + [] == log;
    } else {
      var before, act := acts[..|acts| - 1], acts[|acts| - 1];
      RunIsOneChain(w, log, before);
      ActKeeps(RunOf(w, before), log + Logged(w, before), act);
      assert log + Logged(w, acts) == log + Logged(w, before) + AddedBy(RunOf(w, before), act);
    }
  }

  /** What a run asks to have written down: kind, payload and time of each append. */
  function Asked(acts: seq<Act>): seq<(string, string, int)>
    decreases |acts|
  {
    if acts == [] then []
    else
      var act := acts[|acts| - 1];
      Asked(acts[..|acts| - 1]) + (if act.Restarts? then [] else [(act.kind, act.payload, act.ts)])
  }

  /** It is written down, all of it, in that order. */
  lemma {:induction false} LoggedSays(w: Writer, acts: seq<Act>)
    ensures |Logged(w, acts)| == |Asked(acts)|
    ensures forall i :: 0 <= i < |Asked(acts)| ==>
              var e := Logged(w, acts)[i];
              (Field(e, "kind"), Field(e, "payload"), Field(e, "ts"))
              == (Text(Asked(acts)[i].0), Other(Asked(acts)[i].1), Num(Asked(acts)[i].2))
    decreases |acts|
  {
    hide Appending, Field;
    if acts != [] {
      var before, act := acts[..|acts| - 1], acts[|acts| - 1];
      LoggedSays(w, before);
      if act.Appends? {
        AppendedSays(RunOf(w, before), act.kind, act.payload, act.ts, act.markTs);
      }
    }
  }

  lemma StaysStored(w: Writer, kind: string, payload: string, ts: int, markTs: int)
    ensures Appending(w, kind, payload, ts, markTs).1.rows.Some? <==> w.rows.Some?
  {
  }

  /** Opening a ledger checks nothing. On a store cut back to the first `n` entries, with whatever checkpoint, it
      goes on at `n`: the next append signs a second entry at that position and a fresh checkpoint over it, and
      the shorter store is accepted. So is every store that was accepted before. What is accepted is the old log
      with the new entry exactly if nothing was cut. */
  lemma ReopenedShortForks(signed: seq<Digest>, log: seq<Record>, n: nat, rows: seq<Record>, marks: seq<Record>,
                           kind: string, payload: string, ts: int, markTs: int)
    requires Written(signed, log) && n <= |log| && Stored(rows, log[..n], marks)
    ensures Resumption(Some(rows)) == Some((n, Head(log[..n])))
    ensures var (e, v) := Appending(Writer(signed, Some(rows), n, Head(log[..n])), kind, payload, ts, markTs);
            && Verify(v.signed, v.rows.value) == Accepted && EntriesIn(v.rows.value) == log[..n] + [e]
            && (log[..n] + [e] <= log + [e] <==> n == |log|)
            && forall docs :: Verify(signed, docs) == Accepted ==> Verify(v.signed, docs) == Accepted
  {
    var w := Writer(signed, Some(rows), n, Head(log[..n]));
    var (e, v) := Appending(w, kind, payload, ts, markTs);
    WrittenIs(signed, log);
    GenuinePrefix(signed, log, n);
    EntryFields(n, Head(log[..n]), ts, kind, payload, |signed|);
    NewlySigned(signed, log, n, e);
    hide EntryAt, BodyOf, Head, Genuine, Written, Mark, Sealed, SealedAt, Stored, SignedOnly, Kept, Verify, EntriesIn;
    hide Resumption, Field, NextMark, Appending;
    ResumesAtEnd(signed, rows, log[..n], marks);
    AppendStores(w, log[..n], marks, kind, payload, ts, markTs);
    OwnStoreAccepted(v.signed, v.rows.value, log[..n] + [e], [NextMark(w, log[..n] + [e], markTs)]);
    forall docs | Verify(signed, docs) == Accepted
      ensures Verify(v.signed, docs) == Accepted
    {
      StillAccepted(signed, v.signed, docs);
    }
  }

  lemma NewlySigned(signed: seq<Digest>, log: seq<Record>, n: nat, e: Record)
    requires Genuine(signed, log) && n <= |log| && Field(e, "sig") == Sig(|signed|)
    ensures log[..n] + [e] <= log + [e] <==> n == |log|
  {
    if n == |log| {
      assert log[..n] == log;
    } else {
      assert GenuineAt(signed, log, n);
      assert (log + [e])[n] == log[n] && (log[..n] + [e])[n] == e;
    }
  }

  // ---------------------------------------------------------------- the object

  class Ledger {
    /** Everything the key has signed. */
    var signed: seq<Digest>
    var rows: Option<seq<Record>>
    var seqNo: int
    var prev: Digest

    function State(): Writer
      reads this
    {
      Writer(signed, rows, seqNo, prev)
    }

    constructor (signed: seq<Digest>, rows: Option<seq<Record>>)
      ensures State() == Writer(signed, rows, 0, Genesis)
    {
      this.signed, this.rows, seqNo, prev := signed, rows, 0, Genesis;
    }

    /** Opening a ledger on a store, or none: null if reading the store raises. */
    static method Open(signed: seq<Digest>, rows: Option<seq<Record>>) returns (l: Ledger?)
      ensures l == null <==> Resumption(rows).None?
      ensures l != null ==>
                var (seqNo, prev) := Resumption(rows).value; fresh(l) && l.State() == Writer(signed, rows, seqNo, prev)
    {
      l := new Ledger(signed, rows);
      var raised := l.Resume();
      if raised {
        l := null;
      }
    }

    method Resume() returns (raised: bool)
      requires seqNo == 0 && prev == Genesis
      modifies this`seqNo, this`prev
      ensures raised <==> Resumption(rows).None?
      ensures !raised ==> (seqNo, prev) == Resumption(rows).value
    {
      if rows.None? {
        return false;
      }
      if !AllNumbered(Unmarked(rows.value)) {
        return true;
      }
      var entries := Entries(rows.value);
      if entries == [] {
        return false;
      }
      var last := entries[|entries| - 1];
      seqNo := SeqOf(last) + 1;
      if !Field(last, "prev").Hex? {
        return true;
      }
      prev := Link(Field(last, "prev").d, BodyOf(last));
      raised := false;
    }

    /** Sign and store the next entry, then a checkpoint over the longer chain. */
    method Append(kind: string, payload: string, ts: int, markTs: int) returns (e: Record)
      modifies this
      ensures (e, State()) == Appending(old(State()), kind, payload, ts, markTs)
      ensures forall log, marks :: old(Continues(State(), log, marks)) ==>
                && Continues(State(), log + [e], [NextMark(old(State()), log + [e], markTs)])
                && (rows.Some? ==> Verify(signed, rows.value) == Accepted && EntriesIn(rows.value) == log + [e])
    {
      ghost var was := State();
      BodySigned(seqNo, prev, ts, kind, payload, |signed|);
      var body := map["seq" := Num(seqNo), "prev" := Hex(prev), "ts" := Num(ts), "kind" := Text(kind),
                      "payload" := Other(payload)];
      var h := Link(prev, BodyOf(body));
      e := body["sig" := Sig(|signed|)]["id" := Serial(seqNo)];
      assert e == EntryAt(seqNo, prev, ts, kind, payload, |signed|);
      hide BodyOf, EntryAt, Mark, Put, Continues, Verify, EntriesIn;
      signed := signed + [h];
      seqNo := seqNo + 1;
      prev := h;
      if rows.Some? {
        var c := Mark(seqNo, prev, markTs);
        var token := |signed|;
        signed := signed + [Whole(c)];
        c := c["sig" := Sig(token)];
        rows := Some(Put(Put(rows.value, e), c));
      }
      assert (e, State()) == Appending(was, kind, payload, ts, markTs);
      forall log, marks | Continues(was, log, marks)
        ensures Continues(State(), log + [e], [NextMark(was, log + [e], markTs)])
        ensures rows.Some? ==> Verify(signed, rows.value) == Accepted && EntriesIn(rows.value) == log + [e]
      {
        AppendContinues(was, log, marks, kind, payload, ts, markTs);
      }
    }
  }

  lemma BodySigned(n: int, head: Digest, ts: int, kind: string, payload: string, token: nat)
    ensures var body := map["seq" := Num(n), "prev" := Hex(head), "ts" := Num(ts), "kind" := Text(kind),
                            "payload" := Other(payload)];
            && body["sig" := Sig(token)]["id" := Serial(n)] == EntryAt(n, head, ts, kind, payload, token)
            && BodyOf(body) == BodyOf(EntryAt(n, head, ts, kind, payload, token))
  {
  }

  // ---------------------------------------------------------------- the verifier of a copy

  class FirestoreVerifier {
    const docs: seq<Record>
    /** The public key: what it verifies is what its private key signed. */
    const signed: seq<Digest>

    constructor (docs: seq<Record>, signed: seq<Digest>)
      ensures this.docs == docs && this.signed == signed
    {
      this.docs, this.signed := docs, signed;
    }

    method VerifyAll() returns (verdict: Verdict)
      ensures verdict == Verify(signed, docs)
    {
      if !AllNumbered(Candidates(docs)) {
        return Crashed;
      }
      verdict := VerifyChain(SortBySeq(Candidates(docs)), CheckpointOf(docs));
    }

    /** Walk the chain, then check it against the checkpoint. */
    method VerifyChain(entries: seq<Record>, checkpoint: Option<Record>) returns (verdict: Verdict)
      ensures verdict == ChainVerdict(signed, entries, checkpoint)
    {
      var es := Unmarked(entries);
      var prev := Genesis;
      var k := 0;
      assert es[0..] == es;
      while k < |es|
        invariant 0 <= k <= |es|
        invariant Follow(signed, es[k..], k, prev) == Follow(signed, es, 0, Genesis)
      {
        var e := es[k];
        assert es[k..][1..] == es[k + 1..];
        if SeqOf(e) != k {
          return Rejected;
        }
        if Field(e, "prev") != Hex(prev) {
          return Rejected;
        }
        var h := Link(prev, BodyOf(e));
        if !Signs(signed, Field(e, "sig"), h) {
          return Rejected;
        }
        prev := h;
        k := k + 1;
      }
      if checkpoint.Some? {
        var c := checkpoint.value;
        if !Signs(signed, Field(c, "sig"), Whole(c - {"sig"})) {
          return Rejected;
        }
        if "count" !in c {
          return Rejected;
        }
        if AsInt(c["count"]).None? {
          return Crashed;
        }
        if AsInt(c["count"]).value != |es| {
          return Rejected;
        }
        if Field(c, "head") != Hex(prev) {
          return Rejected;
        }
      }
      verdict := Accepted;
    }
  }
}

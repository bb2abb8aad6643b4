/** The signed hash chain on values: what the ledger writes and what a verifier of a copied store
    accepts (fleet/crypto/chriscrypt/ledger.py, fleet/gcp/verify.py). */
module HashChain {
  import opened Wrappers

  /** An ideal hash: equal digests have equal inputs. `Link` hashes a previous digest with an entry body,
      `Whole` hashes a checkpoint body; `Raw` is any other byte string. */
  datatype Digest =
    | Genesis | Link(prev: Digest, body: map<string, Value>) | Whole(body: map<string, Value>) | Raw(bytes: string)

  /** JSON values, as far as the chain looks at them. `Serial` is a zero-padded number as text, `Numeral` any other
      value that is no whole number but reads as one: text, a fraction, a truth value. */
  datatype Value =
    | Null | Num(n: int) | Numeral(asInt: int, json: string) | Serial(at: int) | Text(s: string) | Hex(d: Digest)
    | Sig(token: nat) | Other(json: string)

  type Record = map<string, Value>

  const CHECKPOINT := Text("checkpoint")

  function Field(e: Record, name: string): Value { if name in e then e[name] else Null }

  /** The signed part of an entry. */
  function BodyOf(e: Record): Record { e - {"sig", "id"} }

  /** Whether `v` is the key's signature of `d`: an ideal signature, verified against all it ever signed. */
  predicate Signs(signed: seq<Digest>, v: Value, d: Digest) { v.Sig? && v.token < |signed| && signed[v.token] == d }

  // ---------------------------------------------------------------- the history

  /** The chain head after `log`. */
  function Head(log: seq<Record>): Digest
    decreases |log|
  {
    if log == [] then Genesis else Link(Head(log[..|log| - 1]), BodyOf(log[|log| - 1]))
  }

  function Mark(count: int, head: Digest, ts: int): Record {
    map["id" := CHECKPOINT, "count" := Num(count), "head" := Hex(head), "ts" := Num(ts)]
  }

  /** The entry the writer makes at position `n`. */
  function EntryAt(n: int, head: Digest, ts: int, kind: string, payload: string, token: nat): Record {
    map["seq" := Num(n), "prev" := Hex(head), "ts" := Num(ts), "kind" := Text(kind), "payload" := Other(payload),
        "sig" := Sig(token), "id" := Serial(n)]
  }

  ghost predicate GenuineAt(signed: seq<Digest>, log: seq<Record>, i: nat)
    requires i < |log|
  {
    var e := log[i];
    && Field(e, "seq") == Num(i) && Field(e, "prev") == Hex(Head(log[..i])) && Field(e, "kind").Text?
    && Field(e, "id") == Serial(i) && Signs(signed, Field(e, "sig"), Head(log[..i + 1]))
  }

  /** What the key signed: heads of prefixes of the log, and checkpoints over them. */
  ghost predicate SignedOnly(signed: seq<Digest>, log: seq<Record>) {
    && (forall s :: 0 <= s < |signed| && signed[s].Link? ==> exists n :: 0 < n <= |log| && signed[s] == Head(log[..n]))
    && (forall s :: 0 <= s < |signed| && signed[s].Whole? ==>
          exists n, ts: int :: 0 <= n <= |log| && signed[s].body == Mark(n, Head(log[..n]), ts))
  }

  /** Each entry is the writer's, at its place, and signed. */
  ghost predicate Genuine(signed: seq<Digest>, log: seq<Record>) {
    forall i :: 0 <= i < |log| ==> GenuineAt(signed, log, i)
  }

  ghost predicate Written(signed: seq<Digest>, log: seq<Record>) { Genuine(signed, log) && SignedOnly(signed, log) }

  // ---------------------------------------------------------------- the verifier

  datatype Verdict = Accepted | Rejected | Crashed

  /** Python's `int`: what a value reads as, or an exception. */
  function AsInt(v: Value): Option<int> {
    match v
    case Num(n) => Some(n)
    case Numeral(k, _) => Some(k)
    case Serial(at) => Some(at)
    case _ => None
  }

  function SeqOf(e: Record): int {
    var n := AsInt(Field(e, "seq"));
    if n.Some? then n.value else 0
  }

  /** The documents that look like entries. */
  function Candidates(docs: seq<Record>): seq<Record> {
    if docs == [] then []
    else (if Field(docs[0], "kind") != Null && "seq" in docs[0] then [docs[0]] else []) + Candidates(docs[1..])
  }

  function CheckpointOf(docs: seq<Record>): Option<Record> {
    if docs == [] then None
    else if Field(docs[0], "id") == CHECKPOINT then Some(docs[0]) else CheckpointOf(docs[1..])
  }

  /** A stable sort by sequence number. */
  function Insert(e: Record, es: seq<Record>): seq<Record> {
    if es == [] || SeqOf(e) <= SeqOf(es[0]) then [e] + es else [es[0]] + Insert(e, es[1..])
  }

  function SortBySeq(es: seq<Record>): seq<Record> {
    if es == [] then [] else Insert(es[0], SortBySeq(es[1..]))
  }

  function Unmarked(es: seq<Record>): seq<Record> {
    if es == [] then [] else (if Field(es[0], "id") != CHECKPOINT then [es[0]] else []) + Unmarked(es[1..])
  }

  predicate Links(signed: seq<Digest>, e: Record, k: int, prev: Digest) {
    SeqOf(e) == k && Field(e, "prev") == Hex(prev) && Signs(signed, Field(e, "sig"), Link(prev, BodyOf(e)))
  }

  /** The head a walk from `prev` at position `k` ends at, if every entry links. */
  function Follow(signed: seq<Digest>, es: seq<Record>, k: int, prev: Digest): Option<Digest> {
    if es == [] then Some(prev)
    else if Links(signed, es[0], k, prev) then Follow(signed, es[1..], k + 1, Link(prev, BodyOf(es[0])))
    else None
  }

  /** Where the comparison with a checkpoint comes out; a count that does not read as a number raises. */
  function Sealing(signed: seq<Digest>, checkpoint: Option<Record>, count: nat, head: Digest): Verdict {
    if checkpoint.None? then Accepted
    else
      var c := checkpoint.value;
      if !Signs(signed, Field(c, "sig"), Whole(c - {"sig"})) then Rejected
      else if "count" !in c then Rejected
      else if AsInt(c["count"]).None? then Crashed
      else if AsInt(c["count"]).value == count && Field(c, "head") == Hex(head) then Accepted
      else Rejected
  }

  predicate Seals(signed: seq<Digest>, checkpoint: Option<Record>, count: nat, head: Digest) {
    Sealing(signed, checkpoint, count, head) == Accepted
  }

  function ChainVerdict(signed: seq<Digest>, entries: seq<Record>, checkpoint: Option<Record>): Verdict {
    var es := Unmarked(entries);
    var head := Follow(signed, es, 0, Genesis);
    if head.None? then Rejected else Sealing(signed, checkpoint, |es|, head.value)
  }

  /** A true copy of some prefix of the log. */
  ghost predicate TrueCopy(signed: seq<Digest>, es: seq<Record>, c: Option<Record>, log: seq<Record>) {
    exists n :: 0 <= n <= |log| && CopyOf(signed, es, c, log, n)
  }

  predicate Holds(signed: seq<Digest>, es: seq<Record>, c: Option<Record>) {
    var head := Follow(signed, es, 0, Genesis);
    head.Some? && Seals(signed, c, |es|, head.value)
  }

  ghost predicate Numbers(es: seq<Record>) { forall e :: e in es ==> AsInt(Field(e, "seq")).Some? }

  predicate AllNumbered(es: seq<Record>) { es == [] || (AsInt(Field(es[0], "seq")).Some? && AllNumbered(es[1..])) }

  function Verify(signed: seq<Digest>, docs: seq<Record>): Verdict {
    if !AllNumbered(Candidates(docs)) then Crashed
    else ChainVerdict(signed, SortBySeq(Candidates(docs)), CheckpointOf(docs))
  }

  /** What is left of a copied store once it is filtered and sorted. */
  function EntriesIn(docs: seq<Record>): seq<Record> { Unmarked(SortBySeq(Candidates(docs))) }

  // ---------------------------------------------------------------- soundness

  function Depth(d: Digest): nat { if d.Link? then Depth(d.prev) + 1 else 0 }

  lemma {:induction false} HeadDepth(log: seq<Record>)
    ensures Depth(Head(log)) == |log|
    decreases |log|
  {
    if log != [] {
      HeadDepth(log[..|log| - 1]);
    }
  }

  lemma HeadStep(log: seq<Record>, n: nat)
    requires n < |log|
    ensures Head(log[..n + 1]) == Link(Head(log[..n]), BodyOf(log[n]))
  {
    assert log[..n + 1][..n] == log[..n];
  }

  /** A signed link over the head of the first `k` entries is the k-th entry's. */
  lemma SignedLinkIsNext(signed: seq<Digest>, log: seq<Record>, k: nat, v: Value, body: Record)
    requires SignedOnly(signed, log) && k <= |log| && Signs(signed, v, Link(Head(log[..k]), body))
    ensures k < |log| && body == BodyOf(log[k])
  {
    var n :| 0 < n <= |log| && signed[v.token] == Head(log[..n]);
    HeadStep(log, n - 1);
    HeadDepth(log[..n - 1]);
    HeadDepth(log[..k]);
  }

  /** `e` says what the log says at position `i`, under a true signature. */
  predicate TrueAt(signed: seq<Digest>, e: Record, log: seq<Record>, i: nat)
    requires i < |log|
  {
    BodyOf(e) == BodyOf(log[i]) && Signs(signed, Field(e, "sig"), Head(log[..i + 1]))
  }

  ghost predicate Faithful(signed: seq<Digest>, es: seq<Record>, log: seq<Record>, n: nat)
    requires n <= |log|
  {
    |es| == n && forall i :: 0 <= i < n ==> TrueAt(signed, es[i], log, i)
  }

  lemma LinksSound(signed: seq<Digest>, e: Record, log: seq<Record>, k: nat)
    requires SignedOnly(signed, log) && k <= |log| && Links(signed, e, k, Head(log[..k]))
    ensures k < |log| && TrueAt(signed, e, log, k) && Head(log[..k + 1]) == Link(Head(log[..k]), BodyOf(e))
  {
    SignedLinkIsNext(signed, log, k, Field(e, "sig"), BodyOf(e));
    HeadStep(log, k);
  }

  lemma {:induction false} FollowSound(signed: seq<Digest>, es: seq<Record>, log: seq<Record>, k: nat)
    requires SignedOnly(signed, log) && k <= |log| && Follow(signed, es, k, Head(log[..k])).Some?
    ensures k + |es| <= |log| && Follow(signed, es, k, Head(log[..k])) == Some(Head(log[..k + |es|]))
    ensures forall i :: 0 <= i < |es| ==> TrueAt(signed, es[i], log, k + i)
    decreases |es|
  {
    hide SignedOnly, Links, TrueAt, Head, BodyOf;
    if es != [] {
      LinksSound(signed, es[0], log, k);
      FollowSound(signed, es[1..], log, k + 1);
      forall i | 0 <= i < |es|
        ensures TrueAt(signed, es[i], log, k + i)
      {
        if i > 0 {
          assert es[1..][i - 1] == es[i];
        }
      }
    }
  }

  lemma BodyFields(a: Record, b: Record)
    requires BodyOf(a) == BodyOf(b)
    ensures forall name :: name != "sig" && name != "id" ==> Field(a, name) == Field(b, name)
    ensures SeqOf(a) == SeqOf(b)
  {
    forall name | name != "sig" && name != "id"
      ensures Field(a, name) == Field(b, name)
    {
      assert name in a <==> name in BodyOf(a);
      assert name in b <==> name in BodyOf(b);
    }
    assert Field(a, "seq") == Field(b, "seq");
  }

  lemma TrueLinks(signed: seq<Digest>, e: Record, log: seq<Record>, k: nat)
    requires Genuine(signed, log) && k < |log| && TrueAt(signed, e, log, k)
    ensures Links(signed, e, k, Head(log[..k])) && Head(log[..k + 1]) == Link(Head(log[..k]), BodyOf(e))
  {
    assert GenuineAt(signed, log, k);
    BodyFields(e, log[k]);
    HeadStep(log, k);
  }

  lemma {:induction false} FollowComplete(signed: seq<Digest>, es: seq<Record>, log: seq<Record>, k: nat)
    requires Genuine(signed, log) && k + |es| <= |log|
    requires forall i :: 0 <= i < |es| ==> TrueAt(signed, es[i], log, k + i)
    ensures Follow(signed, es, k, Head(log[..k])) == Some(Head(log[..k + |es|]))
    decreases |es|
  {
    hide Genuine, Links, TrueAt, Head, BodyOf;
    if es != [] {
      TrueLinks(signed, es[0], log, k);
      forall i | 0 <= i < |es[1..]|
        ensures TrueAt(signed, es[1..][i], log, k + 1 + i)
      {
        assert es[1..][i] == es[i + 1];
      }
      FollowComplete(signed, es[1..], log, k + 1);
    }
  }

  /** A true checkpoint over the first `n` entries. */
  ghost predicate SealedAt(signed: seq<Digest>, checkpoint: Record, log: seq<Record>, n: nat)
    requires n <= |log|
  {
    Signs(signed, Field(checkpoint, "sig"), Whole(checkpoint - {"sig"}))
    && exists ts: int :: checkpoint - {"sig"} == Mark(n, Head(log[..n]), ts)
  }

  lemma MarkFields(c: Record, count: int, head: Digest, ts: int)
    requires c - {"sig"} == Mark(count, head, ts)
    ensures "count" in c && AsInt(c["count"]) == Some(count) && Field(c, "head") == Hex(head)
  {
    var m := c - {"sig"};
    assert "count" in m && "head" in m;
  }

  lemma SealsIff(signed: seq<Digest>, c: Record, log: seq<Record>, n: nat)
    requires SignedOnly(signed, log) && n <= |log|
    ensures Seals(signed, Some(c), n, Head(log[..n])) <==> SealedAt(signed, c, log, n)
  {
    if Seals(signed, Some(c), n, Head(log[..n])) {
      var s := Field(c, "sig").token;
      var m, ts: int :| 0 <= m <= |log| && signed[s].body == Mark(m, Head(log[..m]), ts);
      MarkFields(c, m, Head(log[..m]), ts);
    }
    if SealedAt(signed, c, log, n) {
      SealedSeals(signed, c, log, n);
    }
  }

  lemma SealedSeals(signed: seq<Digest>, c: Record, log: seq<Record>, n: nat)
    requires n <= |log| && SealedAt(signed, c, log, n)
    ensures Seals(signed, Some(c), n, Head(log[..n]))
  {
    var ts: int :| c - {"sig"} == Mark(n, Head(log[..n]), ts);
    MarkFields(c, n, Head(log[..n]), ts);
  }

  lemma {:induction false} AllNumberedIs(es: seq<Record>)
    ensures AllNumbered(es) <==> Numbers(es)
  {
    if es != [] {
      AllNumberedIs(es[1..]);
      assert es[0] in es && forall e :: e in es <==> e == es[0] || e in es[1..];
    }
  }

  /** The entries `es` and the checkpoint `c`, if any, are a true copy of the log at `n` entries. */
  ghost predicate CopyOf(signed: seq<Digest>, es: seq<Record>, c: Option<Record>, log: seq<Record>, n: nat)
    requires n <= |log|
  {
    Faithful(signed, es, log, n) && (c.Some? ==> SealedAt(signed, c.value, log, n))
  }

  lemma ChainSound(signed: seq<Digest>, es: seq<Record>, c: Option<Record>, log: seq<Record>)
    requires SignedOnly(signed, log)
    requires var head := Follow(signed, es, 0, Genesis); head.Some? && Seals(signed, c, |es|, head.value)
    ensures |es| <= |log| && CopyOf(signed, es, c, log, |es|)
  {
    hide SignedOnly, Links, SealedAt, TrueAt, BodyOf;
    assert log[..0] == [];
    FollowSound(signed, es, log, 0);
    if c.Some? {
      SealsIff(signed, c.value, log, |es|);
    }
  }

  lemma ChainComplete(signed: seq<Digest>, es: seq<Record>, c: Option<Record>, log: seq<Record>, n: nat)
    requires Genuine(signed, log) && n <= |log| && CopyOf(signed, es, c, log, n)
    ensures Follow(signed, es, 0, Genesis) == Some(Head(log[..n])) && Seals(signed, c, |es|, Head(log[..n]))
  {
    hide Genuine, Links, SealedAt, TrueAt, BodyOf, Follow;
    assert log[..0] == [];
    FollowComplete(signed, es, log, 0);
    if c.Some? {
      SealedSeals(signed, c.value, log, n);
    }
  }

  lemma HoldsIff(signed: seq<Digest>, es: seq<Record>, c: Option<Record>, log: seq<Record>)
    requires Written(signed, log)
    ensures Holds(signed, es, c) <==> TrueCopy(signed, es, c, log)
  {
    WrittenIs(signed, log);
    hide CopyOf, Written;
    if Holds(signed, es, c) {
      ChainSound(signed, es, c, log);
    }
    if TrueCopy(signed, es, c, log) {
      var n :| 0 <= n <= |log| && CopyOf(signed, es, c, log, n);
      ChainComplete(signed, es, c, log, n);
    }
  }

  lemma WrittenIs(signed: seq<Digest>, log: seq<Record>)
    requires Written(signed, log)
    ensures Genuine(signed, log) && SignedOnly(signed, log)
  {
  }

  /** Exactly what a verifier accepts: the entries left after filtering and sorting are a prefix of the
      log, word for word and truly signed, and if there is a checkpoint it is a true one over exactly
      that prefix. So nothing edited, reordered, repeated or inserted is accepted, nor anything cut
      short of the checkpoint. */
  lemma AcceptedIff(signed: seq<Digest>, log: seq<Record>, docs: seq<Record>)
    requires Written(signed, log)
    ensures Verify(signed, docs) == Accepted
            <==> Numbers(Candidates(docs)) && TrueCopy(signed, EntriesIn(docs), CheckpointOf(docs), log)
  {
    AllNumberedIs(Candidates(docs));
    HoldsIff(signed, EntriesIn(docs), CheckpointOf(docs), log);
    hide TrueCopy, Holds, Written;
  }

  /** A whole number, or something that reads as one. */
  predicate ReadsAsNumber(v: Value) { v.Num? || v.Numeral? || v.Serial? }

  /** And exactly what makes it raise: a document that looks like an entry, but whose sequence number does not read
      as a number. */
  lemma CrashedIff(signed: seq<Digest>, log: seq<Record>, docs: seq<Record>)
    requires Written(signed, log)
    ensures Verify(signed, docs) == Crashed
            <==> exists d :: d in docs && Field(d, "kind") != Null && "seq" in d && !ReadsAsNumber(d["seq"])
  {
    AllNumberedIs(Candidates(docs));
    NumbersIff(docs);
    if CheckpointOf(docs).Some? {
      SealedCounts(signed, log, CheckpointOf(docs).value);
    }
    hide Follow, Candidates, SortBySeq, CheckpointOf, Unmarked, Signs, Written, AsInt, Numbers;
  }

  lemma NumbersIff(docs: seq<Record>)
    ensures Numbers(Candidates(docs))
            <==> forall d :: d in docs && Field(d, "kind") != Null && "seq" in d ==> ReadsAsNumber(d["seq"])
  {
    forall d
      ensures d in Candidates(docs) <==> d in docs && Field(d, "kind") != Null && "seq" in d
    {
      CandidatesCount(docs, d);
      assert d in Candidates(docs) <==> d in multiset(Candidates(docs));
      assert d in docs <==> d in multiset(docs);
    }
  }

  /** A signed checkpoint has a count. */
  lemma SealedCounts(signed: seq<Digest>, log: seq<Record>, c: Record)
    requires Written(signed, log)
    ensures Signs(signed, Field(c, "sig"), Whole(c - {"sig"})) ==> "count" in c && AsInt(c["count"]).Some?
  {
    if Signs(signed, Field(c, "sig"), Whole(c - {"sig"})) {
      var s := Field(c, "sig").token;
      var n, ts: int :| 0 <= n <= |log| && signed[s].body == Mark(n, Head(log[..n]), ts);
      MarkFields(c, n, Head(log[..n]), ts);
    }
  }

  /** Signing more takes nothing back: whatever was accepted still is. */
  lemma StillAccepted(signed: seq<Digest>, more: seq<Digest>, docs: seq<Record>)
    requires signed <= more && Verify(signed, docs) == Accepted
    ensures Verify(more, docs) == Accepted
  {
    hide Candidates, SortBySeq, Unmarked, CheckpointOf, Follow, Signs;
    var es := EntriesIn(docs);
    StillFollows(signed, more, es, 0, Genesis);
    if CheckpointOf(docs).Some? {
      var c := CheckpointOf(docs).value;
      StillSigned(signed, more, Field(c, "sig"), Whole(c - {"sig"}));
    }
  }

  lemma StillSigned(signed: seq<Digest>, more: seq<Digest>, v: Value, d: Digest)
    requires signed <= more && Signs(signed, v, d)
    ensures Signs(more, v, d)
  {
  }

  lemma {:induction false} StillFollows(signed: seq<Digest>, more: seq<Digest>, es: seq<Record>, k: int, prev: Digest)
    requires signed <= more && Follow(signed, es, k, prev).Some?
    ensures Follow(more, es, k, prev) == Follow(signed, es, k, prev)
    decreases |es|
  {
    if es != [] {
      StillSigned(signed, more, Field(es[0], "sig"), Link(prev, BodyOf(es[0])));
      StillFollows(signed, more, es[1..], k + 1, Link(prev, BodyOf(es[0])));
    }
  }

  // ---------------------------------------------------------------- any document order

  lemma {:induction false} SortedKeeps(es: seq<Record>)
    ensures multiset(SortBySeq(es)) == multiset(es) && Ascending(SortBySeq(es))
  {
    if es != [] {
      SortedKeeps(es[1..]);
      InsertCounts(es[0], SortBySeq(es[1..]));
      InsertAscends(es[0], SortBySeq(es[1..]));
      assert es == [es[0]] + es[1..];
    }
  }

  ghost predicate Ascending(es: seq<Record>) { forall i, j :: 0 <= i < j < |es| ==> SeqOf(es[i]) <= SeqOf(es[j]) }

  lemma {:induction false} InsertCounts(e: Record, es: seq<Record>)
    ensures multiset(Insert(e, es)) == multiset(es) + multiset{e}
  {
    if es != [] && SeqOf(e) > SeqOf(es[0]) {
      InsertCounts(e, es[1..]);
      assert es == [es[0]] + es[1..];
    }
  }

  lemma {:induction false} InsertAscends(e: Record, es: seq<Record>)
    requires Ascending(es)
    ensures Ascending(Insert(e, es))
  {
    if es != [] && SeqOf(e) > SeqOf(es[0]) {
      var tail := es[1..];
      InsertAscends(e, tail);
      InsertCounts(e, tail);
      var r := Insert(e, tail);
      hide SeqOf;
      forall j | 0 <= j < |r|
        ensures SeqOf(es[0]) <= SeqOf(r[j])
      {
        OneOf(e, tail, r, j);
      }
      PutFirst(es[0], r);
    }
  }

  lemma OneOf(e: Record, es: seq<Record>, r: seq<Record>, j: nat)
    requires multiset(r) == multiset(es) + multiset{e} && j < |r|
    ensures r[j] == e || r[j] in es
  {
    assert r[j] in multiset(r);
  }

  lemma PutFirst(e: Record, es: seq<Record>)
    requires Ascending(es) && forall j :: 0 <= j < |es| ==> SeqOf(e) <= SeqOf(es[j])
    ensures Ascending([e] + es)
  {
  }

  /** The first of a permutation in ascending order is the least. */
  lemma SameFirst(a: seq<Record>, b: seq<Record>)
    requires multiset(a) == multiset(b) && Ascending(a) && b != []
    requires forall i, j :: 0 <= i < j < |b| ==> SeqOf(b[i]) < SeqOf(b[j])
    ensures a != [] && a[0] == b[0]
  {
    assert b[0] in multiset(a);
    assert a[0] in multiset(b);
    var i :| 0 <= i < |b| && b[i] == a[0];
    var j :| 0 <= j < |a| && a[j] == b[0];
    assert j > 0 ==> SeqOf(a[0]) <= SeqOf(a[j]);
  }

  lemma DropFirst(a: seq<Record>)
    requires a != []
    ensures multiset(a[1..]) == multiset(a) - multiset{a[0]}
  {
    assert a == [a[0]] + a[1..];
  }

  /** Sorting any permutation of a list with strictly rising numbers gives that list. */
  lemma {:induction false} SortIsUnique(a: seq<Record>, b: seq<Record>)
    requires multiset(a) == multiset(b) && Ascending(a)
    requires forall i, j :: 0 <= i < j < |b| ==> SeqOf(b[i]) < SeqOf(b[j])
    ensures a == b
    decreases |b|
  {
    hide SeqOf;
    assert |multiset(a)| == |a| && |multiset(b)| == |b|;
    if b != [] {
      SameFirst(a, b);
      DropFirst(a);
      DropFirst(b);
      SortIsUnique(a[1..], b[1..]);
      assert a == [a[0]] + a[1..] && b == [b[0]] + b[1..];
    }
  }

  lemma {:induction false} CandidatesCount(docs: seq<Record>, e: Record)
    ensures multiset(Candidates(docs))[e]
            == if Field(e, "kind") != Null && "seq" in e then multiset(docs)[e] else 0
  {
    if docs != [] {
      CandidatesCount(docs[1..], e);
      assert docs == [docs[0]] + docs[1..];
    }
  }

  lemma {:induction false} UnmarkedAll(es: seq<Record>)
    requires forall e :: e in es ==> Field(e, "id") != CHECKPOINT
    ensures Unmarked(es) == es
  {
    if es != [] {
      assert es[0] in es;
      UnmarkedAll(es[1..]);
      assert es == [es[0]] + es[1..];
    }
  }

  lemma {:induction false} FirstCheckpoint(docs: seq<Record>)
    ensures CheckpointOf(docs).Some? ==>
              CheckpointOf(docs).value in docs && Field(CheckpointOf(docs).value, "id") == CHECKPOINT
    ensures CheckpointOf(docs).None? ==> forall e :: e in docs ==> Field(e, "id") != CHECKPOINT
  {
    if docs != [] {
      FirstCheckpoint(docs[1..]);
      assert forall e :: e in docs <==> e == docs[0] || e in docs[1..];
    }
  }

  /** Noise: documents that are neither entry nor checkpoint. */
  ghost predicate Noise(extra: seq<Record>) {
    forall e :: e in extra ==> (Field(e, "kind") == Null || "seq" !in e) && Field(e, "id") != CHECKPOINT
  }

  lemma LogCandidates(signed: seq<Digest>, log: seq<Record>, n: nat, extra: seq<Record>, marks: seq<Record>,
                      docs: seq<Record>)
    requires Genuine(signed, log) && n <= |log| && Noise(extra) && multiset(docs) == multiset(log[..n] + marks + extra)
    requires forall c :: c in marks ==> exists h, m: nat, ts: int :: c - {"sig"} == Mark(m, h, ts)
    ensures multiset(Candidates(docs)) == multiset(log[..n])
  {
    hide Genuine, Candidates, Mark, Noise;
    forall e
      ensures multiset(Candidates(docs))[e] == multiset(log[..n])[e]
    {
      CandidatesCount(docs, e);
      Counts(log[..n], marks, extra, docs, e);
      LoggedLooks(signed, log, n, e);
      NoiseLooks(extra, e);
      if e in marks {
        var h, m: nat, ts: int :| e - {"sig"} == Mark(m, h, ts);
        MarkLooks(e, m, h, ts);
      }
    }
  }

  lemma Counts<T>(a: seq<T>, b: seq<T>, c: seq<T>, all: seq<T>, e: T)
    requires multiset(all) == multiset(a + b + c)
    ensures multiset(all)[e] == multiset(a)[e] + multiset(b)[e] + multiset(c)[e]
    ensures (e !in a ==> multiset(a)[e] == 0) && (e !in b ==> multiset(b)[e] == 0) && (e !in c ==> multiset(c)[e] == 0)
  {
    assert multiset(a + b + c) == multiset(a) + multiset(b) + multiset(c);
  }

  lemma NoiseLooks(extra: seq<Record>, e: Record)
    requires Noise(extra)
    ensures e in extra ==> Field(e, "kind") == Null || "seq" !in e
  {
  }

  lemma LoggedLooks(signed: seq<Digest>, log: seq<Record>, n: nat, e: Record)
    requires Genuine(signed, log) && n <= |log|
    ensures e in log[..n] ==> Field(e, "kind") != Null && "seq" in e
  {
    if e in log[..n] {
      var i :| 0 <= i < n && log[i] == e;
      assert GenuineAt(signed, log, i);
    }
  }

  lemma MarkLooks(e: Record, m: nat, h: Digest, ts: int)
    requires e - {"sig"} == Mark(m, h, ts)
    ensures Field(e, "kind") == Null
  {
    assert "kind" !in e - {"sig"};
  }

  /** A copy of the log as it stood after `n` entries, in any order, with its checkpoint or without one,
      among any noise, is accepted. */
  lemma AnyOrderAccepted(signed: seq<Digest>, log: seq<Record>, n: nat, marks: seq<Record>, extra: seq<Record>,
                         docs: seq<Record>)
    requires Genuine(signed, log) && n <= |log| && Noise(extra) && multiset(docs) == multiset(log[..n] + marks + extra)
    requires forall c :: c in marks ==> SealedAt(signed, c, log, n)
    ensures Verify(signed, docs) == Accepted && EntriesIn(docs) == log[..n]
  {
    forall c | c in marks
      ensures exists h, m: nat, ts: int :: c - {"sig"} == Mark(m, h, ts)
    {
      var ts: int :| c - {"sig"} == Mark(n, Head(log[..n]), ts);
    }
    LogCandidates(signed, log, n, extra, marks, docs);
    hide Genuine, Candidates, SortBySeq, Unmarked, CheckpointOf, SealedAt, Noise;
    var cands := Candidates(docs);
    SortedKeeps(cands);
    LogRises(signed, log, n);
    SortIsUnique(SortBySeq(cands), log[..n]);
    LogUnmarked(signed, log, n);
    NumbersBy(signed, log, n, cands);
    if CheckpointOf(docs).Some? {
      OnlyMarks(signed, log, n, marks, extra, docs);
    }
    AcceptLog(signed, log, n, docs);
  }

  lemma OnlyMarks(signed: seq<Digest>, log: seq<Record>, n: nat, marks: seq<Record>, extra: seq<Record>,
                  docs: seq<Record>)
    requires Genuine(signed, log) && n <= |log| && Noise(extra) && multiset(docs) == multiset(log[..n] + marks + extra)
    requires CheckpointOf(docs).Some?
    ensures CheckpointOf(docs).value in marks
  {
    FirstCheckpoint(docs);
    var c := CheckpointOf(docs).value;
    assert c in multiset(docs);
    assert c in log[..n] + marks + extra;
    NotLogged(signed, log, n, c);
  }

  lemma NotLogged(signed: seq<Digest>, log: seq<Record>, n: nat, c: Record)
    requires Genuine(signed, log) && n <= |log| && Field(c, "id") == CHECKPOINT
    ensures c !in log[..n]
  {
    forall i | 0 <= i < n
      ensures log[i] != c
    {
      assert GenuineAt(signed, log, i);
    }
  }

  lemma LogRises(signed: seq<Digest>, log: seq<Record>, n: nat)
    requires Genuine(signed, log) && n <= |log|
    ensures forall i, j :: 0 <= i < j < n ==> SeqOf(log[..n][i]) < SeqOf(log[..n][j])
  {
    forall i, j | 0 <= i < j < n
      ensures SeqOf(log[..n][i]) < SeqOf(log[..n][j])
    {
      assert GenuineAt(signed, log, i) && GenuineAt(signed, log, j);
    }
  }

  lemma LogUnmarked(signed: seq<Digest>, log: seq<Record>, n: nat)
    requires Genuine(signed, log) && n <= |log|
    ensures Unmarked(log[..n]) == log[..n]
  {
    forall e | e in log[..n]
      ensures Field(e, "id") != CHECKPOINT
    {
      var i :| 0 <= i < n && log[i] == e;
      assert GenuineAt(signed, log, i);
    }
    UnmarkedAll(log[..n]);
  }

  lemma NumbersBy(signed: seq<Digest>, log: seq<Record>, n: nat, cands: seq<Record>)
    requires Genuine(signed, log) && n <= |log| && multiset(cands) == multiset(log[..n])
    ensures Numbers(cands)
  {
    forall e | e in cands
      ensures AsInt(Field(e, "seq")).Some?
    {
      assert e in multiset(cands);
      var i :| 0 <= i < n && log[i] == e;
      assert GenuineAt(signed, log, i);
    }
  }

  lemma AcceptLog(signed: seq<Digest>, log: seq<Record>, n: nat, docs: seq<Record>)
    requires Genuine(signed, log) && n <= |log| && EntriesIn(docs) == log[..n] && Numbers(Candidates(docs))
    requires CheckpointOf(docs).Some? ==> SealedAt(signed, CheckpointOf(docs).value, log, n)
    ensures Verify(signed, docs) == Accepted
  {
    assert Faithful(signed, log[..n], log, n) by {
      forall i | 0 <= i < n
        ensures TrueAt(signed, log[i], log, i)
      {
        assert GenuineAt(signed, log, i);
      }
    }
    hide Faithful, SealedAt, EntriesIn, Numbers, Genuine;
    AllNumberedIs(Candidates(docs));
    ChainComplete(signed, EntriesIn(docs), CheckpointOf(docs), log, n);
  }

  /** Without a checkpoint a truncated copy passes. */
  lemma TruncationPassesUnsealed(signed: seq<Digest>, log: seq<Record>, n: nat)
    requires Genuine(signed, log) && n <= |log|
    ensures Verify(signed, log[..n]) == Accepted
  {
    assert log[..n] + [] + [] == log[..n];
    AnyOrderAccepted(signed, log, n, [], [], log[..n]);
  }

  // ---------------------------------------------------------------- what an accepted copy says

  /** A document the verifier takes for an entry. */
  predicate LooksLogged(d: Record) { Field(d, "kind") != Null && "seq" in d && Field(d, "id") != Text("checkpoint") }

  /** `d` is numbered `i` and says what the log says there, in every field but the signature and the name it is filed
      under. */
  ghost predicate SaysAt(d: Record, log: seq<Record>, i: int) {
    && 0 <= i < |log| && Field(d, "seq") == Num(i)
    && forall name :: name != "sig" && name != "id" ==>
         (name in d <==> name in log[i]) && (name in d ==> d[name] == log[i][name])
  }

  lemma {:induction false} UnmarkedCount(es: seq<Record>, e: Record)
    ensures multiset(Unmarked(es))[e] == if Field(e, "id") != CHECKPOINT then multiset(es)[e] else 0
  {
    hide Field;
    if es != [] {
      UnmarkedCount(es[1..], e);
      assert es == [es[0]] + es[1..];
    }
  }

  lemma EntriesCount(docs: seq<Record>, e: Record)
    ensures multiset(EntriesIn(docs))[e] == if LooksLogged(e) then multiset(docs)[e] else 0
  {
    hide Candidates, SortBySeq, Unmarked, Field;
    CandidatesCount(docs, e);
    SortedKeeps(Candidates(docs));
    UnmarkedCount(SortBySeq(Candidates(docs)), e);
  }

  lemma TrueSays(signed: seq<Digest>, e: Record, log: seq<Record>, i: nat)
    requires Genuine(signed, log) && i < |log| && TrueAt(signed, e, log, i)
    ensures SaysAt(e, log, i)
  {
    assert GenuineAt(signed, log, i);
    BodyFields(e, log[i]);
    forall name | name != "sig" && name != "id"
      ensures (name in e <==> name in log[i]) && (name in e ==> e[name] == log[i][name])
    {
      assert name in e <==> name in BodyOf(e);
      assert name in log[i] <==> name in BodyOf(log[i]);
    }
  }

  lemma Once(es: seq<Record>, i: nat)
    requires i < |es| && forall j :: 0 <= j < |es| && j != i ==> es[j] != es[i]
    ensures multiset(es)[es[i]] == 1
  {
    var before, behind := es[..i], es[i + 1..];
    assert es == before + [es[i]] + behind;
    assert es[i] !in before && es[i] !in behind;
    assert multiset(before)[es[i]] == 0 && multiset(behind)[es[i]] == 0;
  }

  /** What was accepted: of the documents taken for entries each says what the log says at a place of its own among
      the first `n`, and each of those places is told once. */
  lemma AcceptedSays(signed: seq<Digest>, log: seq<Record>, docs: seq<Record>)
    requires Written(signed, log) && Verify(signed, docs) == Accepted
    ensures |EntriesIn(docs)| <= |log|
    ensures forall i :: 0 <= i < |EntriesIn(docs)| ==>
              var e := EntriesIn(docs)[i]; e in docs && LooksLogged(e) && multiset(docs)[e] == 1 && SaysAt(e, log, i)
    ensures forall d :: d in docs && LooksLogged(d) ==> d in EntriesIn(docs)
  {
    hide Verify, EntriesIn, LooksLogged, TrueAt, SaysAt, Genuine, SignedOnly, Field, CheckpointOf, SealedAt;
    AcceptedIff(signed, log, docs);
    WrittenIs(signed, log);
    var es := EntriesIn(docs);
    var n :| 0 <= n <= |log| && CopyOf(signed, es, CheckpointOf(docs), log, n);
    forall i | 0 <= i < n
      ensures SaysAt(es[i], log, i)
    {
      TrueSays(signed, es[i], log, i);
    }
    forall i | 0 <= i < n
      ensures es[i] in docs && LooksLogged(es[i]) && multiset(docs)[es[i]] == 1
    {
      OnePlace(es, log, i);
      EntriesCount(docs, es[i]);
    }
    forall d | d in docs && LooksLogged(d)
      ensures d in es
    {
      EntriesCount(docs, d);
      assert multiset(docs)[d] > 0;
    }
  }

  lemma OnePlace(es: seq<Record>, log: seq<Record>, i: nat)
    requires i < |es| && forall j :: 0 <= j < |es| ==> SaysAt(es[j], log, j)
    ensures multiset(es)[es[i]] == 1
  {
    forall j | 0 <= j < |es| && j != i
      ensures es[j] != es[i]
    {
      assert SaysAt(es[j], log, j) && SaysAt(es[i], log, i);
    }
    Once(es, i);
  }

  /** And if there is a checkpoint among them, one of them counts exactly those entries and names their head. */
  lemma AcceptedSealed(signed: seq<Digest>, log: seq<Record>, docs: seq<Record>, d: Record) returns (c: Record)
    requires Written(signed, log) && Verify(signed, docs) == Accepted
    requires d in docs && Field(d, "id") == Text("checkpoint")
    ensures c in docs && Field(c, "id") == Text("checkpoint") && |EntriesIn(docs)| <= |log|
    ensures Field(c, "count") == Num(|EntriesIn(docs)|) && Field(c, "head") == Hex(Head(log[..|EntriesIn(docs)|]))
  {
    hide Verify, EntriesIn, Faithful, Written, CheckpointOf;
    AcceptedIff(signed, log, docs);
    FirstCheckpoint(docs);
    c := CheckpointOf(docs).value;
    var n :| 0 <= n <= |log| && CopyOf(signed, EntriesIn(docs), CheckpointOf(docs), log, n);
    var ts: int :| c - {"sig"} == Mark(n, Head(log[..n]), ts);
    FaithfulLength(signed, EntriesIn(docs), log, n);
    MarkCounts(c, n, Head(log[..n]), ts);
  }

  lemma FaithfulLength(signed: seq<Digest>, es: seq<Record>, log: seq<Record>, n: nat)
    requires n <= |log| && Faithful(signed, es, log, n)
    ensures |es| == n
  {
  }

  lemma MarkCounts(c: Record, count: int, head: Digest, ts: int)
    requires c - {"sig"} == Mark(count, head, ts)
    ensures Field(c, "count") == Num(count) && Field(c, "head") == Hex(head)
  {
    var m := c - {"sig"};
    assert "count" in m && "head" in m;
  }
}

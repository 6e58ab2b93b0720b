/**
File transfer between browsers (web/src/main.ts): splitting into chunks, the frames
a sender sends, reassembly by index at the receiver, and how much of the relay's
per-file cap a file takes.
*/
module FileTransfer {
  import opened Options
  import opened Bytes
  import F = FileRelay
  import I = Inflight

  const CHUNK_SIZE := 65536
  const MAX_FILE_BYTES := 10485760
  const MAX_CHUNKS := 100000

  // ----- splitting

  function Clamp(a: nat, b: nat): nat {
    if a < b then a else b
  }

  /** At least one chunk, even for an empty file. */
  function Chunks(n: nat): nat {
    if n == 0 then 1 else (n + CHUNK_SIZE - 1) / CHUNK_SIZE
  }

  function Chunk(buf: Bytes, i: nat): Bytes {
    var from := Clamp(i * CHUNK_SIZE, |buf|);
    buf[from..from + Clamp(CHUNK_SIZE, |buf| - from)]
  }

  function Split(buf: Bytes): seq<Bytes> {
    seq(Chunks(|buf|), i requires 0 <= i < Chunks(|buf|) => Chunk(buf, i))
  }

  lemma {:induction false} JoinFirst(buf: Bytes, n: nat)
    requires n <= Chunks(|buf|)
    ensures Flatten(Split(buf)[..n]) == buf[..Clamp(n * CHUNK_SIZE, |buf|)]
  {
    if n > 0 {
      JoinFirst(buf, n - 1);
      var parts := Split(buf);
      FlattenSnoc(parts[..n - 1], parts[n - 1]);
      assert parts[..n] == parts[..n - 1] + [parts[n - 1]];
      var from := Clamp((n - 1) * CHUNK_SIZE, |buf|);
      assert buf[..from] + buf[from..from + Clamp(CHUNK_SIZE, |buf| - from)] == buf[..Clamp(n * CHUNK_SIZE, |buf|)];
    }
  }

  /** The chunks in order are the file, for every length. */
  lemma JoinInvertsSplit(buf: Bytes)
    ensures Flatten(Split(buf)) == buf
  {
    JoinFirst(buf, Chunks(|buf|));
    assert Split(buf)[..Chunks(|buf|)] == Split(buf);
  }

  // ----- receiving

  /** `parts` has a slot per chunk; `received` is the program's counter. */
  datatype Incoming = Incoming(parts: seq<Option<Bytes>>, received: nat)

  /** One transfer at a receiver: the part not yet complete, the files it yielded, and how
      often it was given up. */
  datatype Inbox = Inbox(incoming: Option<Incoming>, files: seq<Bytes>, failed: nat)

  /** A chunk that does not open carries nothing. */
  datatype Event = GotChunk(index: int, data: Option<Bytes>) | GotEnd

  function Filled(parts: seq<Option<Bytes>>): nat {
    if parts == [] then 0 else (if parts[0].Some? then 1 else 0) + Filled(parts[1..])
  }

  function Part(p: Option<Bytes>): Bytes {
    if p.Some? then p.value else []
  }

  /** The file a complete transfer is made of; an empty slot would add nothing. */
  function Assemble(parts: seq<Option<Bytes>>): Bytes {
    Flatten(seq(|parts|, i requires 0 <= i < |parts| => Part(parts[i])))
  }

  lemma AssembleSnoc(parts: seq<Option<Bytes>>, p: Option<Bytes>)
    ensures Assemble(parts + [p]) == Assemble(parts) + Part(p)
  {
    var all := parts + [p];
    var a := seq(|parts|, i requires 0 <= i < |parts| => Part(parts[i]));
    assert seq(|all|, i requires 0 <= i < |all| => Part(all[i])) == a + [Part(p)];
    FlattenSnoc(a, Part(p));
  }

  function Slots(n: nat): seq<Option<Bytes>> {
    seq(n, i => None)
  }

  /** `onFileStart`, once the key is found and the metadata opens. */
  function Accept(chunks: int): Option<Inbox> {
    if chunks < 1 || chunks > MAX_CHUNKS then None
    else Some(Inbox(Some(Incoming(Slots(chunks), 0)), [], 0))
  }

  /** From one to a hundred thousand chunks. */
  lemma AcceptIff(chunks: int)
    ensures Accept(chunks).Some? <==> 1 <= chunks <= 100000
  {
  }

  function OnChunk(b: Inbox, i: int, data: Option<Bytes>): Inbox {
    match b.incoming
    case None => b
    case Some(inc) =>
      if i < 0 || i >= |inc.parts| || inc.parts[i].Some? || data.None? then b
      else
        var inc1 := Incoming(inc.parts[i := data], inc.received + 1);
        if inc1.received == |inc1.parts| then b.(incoming := None, files := b.files + [Assemble(inc1.parts)])
        else b.(incoming := Some(inc1))
  }

  function OnEnd(b: Inbox): Inbox {
    if b.incoming.Some? then b.(incoming := None, failed := b.failed + 1) else b
  }

  function On(b: Inbox, e: Event): Inbox {
    match e
    case GotChunk(i, data) => OnChunk(b, i, data)
    case GotEnd => OnEnd(b)
  }

  function After(b: Inbox, es: seq<Event>): Inbox {
    if es == [] then b else On(After(b, es[..|es| - 1]), es[|es| - 1])
  }

  lemma {:induction false} FilledPut(parts: seq<Option<Bytes>>, i: nat, p: Bytes)
    requires i < |parts| && parts[i].None?
    ensures Filled(parts[i := Some(p)]) == Filled(parts) + 1
  {
    if i > 0 {
      FilledPut(parts[1..], i - 1, p);
      assert parts[i := Some(p)][1..] == parts[1..][i - 1 := Some(p)];
    } else {
      assert parts[i := Some(p)][1..] == parts[1..];
    }
  }

  lemma {:induction false} FilledNone(n: nat)
    ensures Filled(Slots(n)) == 0
  {
    if n > 0 {
      FilledNone(n - 1);
      assert Slots(n)[1..] == Slots(n - 1);
    }
  }

  lemma {:induction false} FilledAll(parts: seq<Option<Bytes>>)
    ensures Filled(parts) <= |parts|
    ensures Filled(parts) == |parts| <==> forall i :: 0 <= i < |parts| ==> parts[i].Some?
  {
    if parts != [] {
      FilledAll(parts[1..]);
      assert forall i :: 1 <= i < |parts| ==> parts[i] == parts[1..][i - 1];
    }
  }

  /** Whatever arrives: the counter is the number of filled slots and below their number
      while the transfer is open, a transfer yields at most one file, and it ends either
      with that file or as a failure. */
  predicate Sound(b: Inbox, chunks: nat) {
    && (b.incoming.Some? ==>
          && |b.incoming.value.parts| == chunks && b.incoming.value.received == Filled(b.incoming.value.parts) < chunks)
    && |b.files| + b.failed + (if b.incoming.Some? then 1 else 0) == 1
  }

  lemma {:induction false} AtMostOneFile(chunks: int, es: seq<Event>)
    requires Accept(chunks).Some?
    ensures Sound(After(Accept(chunks).value, es), chunks)
    decreases |es|
  {
    if es == [] {
      FilledNone(chunks);
    } else {
      AtMostOneFile(chunks, es[..|es| - 1]);
      var b, e := After(Accept(chunks).value, es[..|es| - 1]), es[|es| - 1];
      if e.GotChunk? && b.incoming.Some? {
        var parts := b.incoming.value.parts;
        if 0 <= e.index < |parts| && parts[e.index].None? && e.data.Some? {
          FilledPut(parts, e.index, e.data.value);
          FilledAll(parts[e.index := e.data]);
        }
      }
      hide Assemble, Filled;
    }
  }

  // ----- the round trip

  /** Chunks of `buf` in any order and any number, with chunks that do not open and
      indices out of range in between. */
  predicate Authentic(es: seq<Event>, buf: Bytes) {
    forall e <- es :: e.GotChunk? && (e.data.None? || e.index < 0 || e.index >= Chunks(|buf|) || e.data.value == Chunk(buf, e.index))
  }

  predicate Has(es: seq<Event>, buf: Bytes, i: nat) {
    GotChunk(i, Some(Chunk(buf, i))) in es
  }

  predicate HasAll(es: seq<Event>, buf: Bytes) {
    forall i :: 0 <= i < Chunks(|buf|) ==> Has(es, buf, i)
  }

  /** What the inbox must look like after authentic chunks. */
  predicate Tracks(b: Inbox, buf: Bytes, es: seq<Event>) {
    if HasAll(es, buf) then b == Inbox(None, [buf], 0)
    else
      && b.files == [] && b.failed == 0 && b.incoming.Some?
      && |b.incoming.value.parts| == Chunks(|buf|)
      && b.incoming.value.received == Filled(b.incoming.value.parts)
      && forall i :: 0 <= i < Chunks(|buf|) ==> b.incoming.value.parts[i] == if Has(es, buf, i) then Some(Chunk(buf, i)) else None
  }

  lemma AssembleSplit(parts: seq<Option<Bytes>>, buf: Bytes)
    requires |parts| == Chunks(|buf|) && forall i :: 0 <= i < |parts| ==> parts[i] == Some(Chunk(buf, i))
    ensures Assemble(parts) == buf
  {
    assert seq(|parts|, i requires 0 <= i < |parts| => Part(parts[i])) == Split(buf);
    JoinInvertsSplit(buf);
  }

  lemma HasMore(es: seq<Event>, e: Event, buf: Bytes)
    ensures forall k: nat :: Has(es + [e], buf, k) <==> Has(es, buf, k) || e == GotChunk(k, Some(Chunk(buf, k)))
  {
  }

  /** A chunk that fills no slot changes nothing. */
  lemma OneIdle(b: Inbox, buf: Bytes, es: seq<Event>, e: Event)
    requires Tracks(b, buf, es) && !HasAll(es, buf) && Authentic([e], buf)
    requires !(0 <= e.index < Chunks(|buf|) && b.incoming.value.parts[e.index].None? && e.data.Some?)
    ensures Tracks(On(b, e), buf, es + [e])
  {
    assert e in [e];
    HasMore(es, e, buf);
    hide Chunk, Chunks, Assemble, Filled;
    var n := Chunks(|buf|);
    assert forall k :: 0 <= k < n ==> (Has(es + [e], buf, k) <==> Has(es, buf, k));
    var k :| 0 <= k < n && !Has(es, buf, k);
    assert !Has(es + [e], buf, k);
  }

  lemma OneMore(b: Inbox, buf: Bytes, es: seq<Event>, e: Event)
    requires Tracks(b, buf, es) && !HasAll(es, buf) && Authentic([e], buf)
    ensures Tracks(On(b, e), buf, es + [e])
  {
    var parts, i := b.incoming.value.parts, e.index;
    assert e in [e];
    HasMore(es, e, buf);
    hide Chunk, Chunks, Assemble, Filled;
    if 0 <= i < |parts| && parts[i].None? && e.data.Some? {
      var parts1 := parts[i := e.data];
      FilledPut(parts, i, e.data.value);
      FilledAll(parts1);
      assert forall k :: 0 <= k < |parts| ==> parts1[k] == if Has(es + [e], buf, k) then Some(Chunk(buf, k)) else None;
      hide Has;
      if HasAll(es + [e], buf) {
        AssembleSplit(parts1, buf);
      } else {
        var k :| 0 <= k < |parts| && !Has(es + [e], buf, k);
        assert parts1[k].None?;
      }
    } else {
      OneIdle(b, buf, es, e);
    }
  }

  /** A file arrives whole, once, as soon as every chunk has arrived, in whatever order and
      however often; and before that there is none. */
  lemma {:induction false} AnyOrderRebuilds(buf: Bytes, es: seq<Event>)
    requires Chunks(|buf|) <= MAX_CHUNKS && Authentic(es, buf)
    ensures Tracks(After(Accept(Chunks(|buf|)).value, es), buf, es)
    decreases |es|
  {
    if es == [] {
      FilledNone(Chunks(|buf|));
      assert !Has(es, buf, 0);
    } else {
      var init, e := es[..|es| - 1], es[|es| - 1];
      assert es == init + [e];
      AnyOrderRebuilds(buf, init);
      var b := After(Accept(Chunks(|buf|)).value, init);
      hide After, Tracks, Authentic;
      if HasAll(init, buf) {
        Complete(b, buf, init, e);
      } else {
        assert Authentic([e], buf) by { OneAuthentic(es, buf); }
        OneMore(b, buf, init, e);
      }
    }
  }

  lemma OneAuthentic(es: seq<Event>, buf: Bytes)
    requires es != [] && Authentic(es, buf)
    ensures Authentic([es[|es| - 1]], buf)
  {
  }

  lemma Complete(b: Inbox, buf: Bytes, es: seq<Event>, e: Event)
    requires Tracks(b, buf, es) && HasAll(es, buf)
    ensures Tracks(On(b, e), buf, es + [e])
  {
    hide Chunk, Chunks;
    forall i | 0 <= i < Chunks(|buf|) ensures Has(es + [e], buf, i) {
      assert Has(es, buf, i);
    }
  }

  /** An end before the last chunk yields no file, whatever comes after. */
  lemma EndTooSoon(buf: Bytes, es: seq<Event>, later: seq<Event>)
    requires Chunks(|buf|) <= MAX_CHUNKS && Authentic(es, buf) && !HasAll(es, buf)
    ensures After(Accept(Chunks(|buf|)).value, es + [GotEnd] + later) == Inbox(None, [], 1)
  {
    AnyOrderRebuilds(buf, es);
    var b := Accept(Chunks(|buf|)).value;
    assert (es + [GotEnd])[..|es|] == es;
    assert After(b, es + [GotEnd]) == Inbox(None, [], 1);
    Over(b, es + [GotEnd], later);
  }

  lemma {:induction false} Over(b: Inbox, es: seq<Event>, later: seq<Event>)
    requires After(b, es).incoming.None?
    ensures After(b, es + later) == After(b, es)
    decreases |later|
  {
    if later == [] {
      assert es + later == es;
    } else {
      var init := later[..|later| - 1];
      Over(b, es, init);
      assert (es + later)[..|es + later| - 1] == es + init && (es + later)[|es + later| - 1] == later[|later| - 1];
    }
  }

  // ----- the relay's cap

  /** The length of a sealed chunk of `p` bytes (lemma Envelope.OpenInvertsSeal). */
  function SealedLength(p: nat): nat {
    4 * ((p + 43) / 3)
  }

  /** The bytes that the relay counts for the first `n` chunks of a file. */
  function SealedTotal(size: nat, n: nat): nat
  {
    if n == 0 then 0 else SealedTotal(size, n - 1) + SealedLength(ChunkLength(size, n - 1))
  }

  function ChunkLength(size: nat, i: nat): nat {
    Clamp(CHUNK_SIZE, size - Clamp(i * CHUNK_SIZE, size))
  }

  lemma ChunkLengthIs(buf: Bytes, i: nat)
    ensures |Chunk(buf, i)| == ChunkLength(|buf|, i)
  {
  }

  const FULL_CHUNK := 87436

  lemma {:induction false} TotalBound(size: nat, n: nat)
    ensures SealedTotal(size, n) <= FULL_CHUNK * n
    ensures n * CHUNK_SIZE <= size ==> SealedTotal(size, n) == FULL_CHUNK * n
  {
    if n > 0 {
      TotalBound(size, n - 1);
    }
  }

  lemma {:induction false} TotalGrows(size: nat, n: nat, m: nat)
    requires n <= m
    ensures SealedTotal(size, n) <= SealedTotal(size, m)
    decreases m
  {
    if n < m {
      TotalGrows(size, n, m - 1);
    }
  }

  const LARGEST := 13989760

  /** No file the client lets through seals to more than `LARGEST` bytes, and the largest
      one seals to exactly that; the relay's default file cap is larger. */
  lemma SealedSizeBound(size: nat)
    requires size <= MAX_FILE_BYTES
    ensures Chunks(size) <= 160 <= MAX_CHUNKS && SealedTotal(size, Chunks(size)) <= LARGEST <= DEFAULT_FILE_CAP
    ensures size == MAX_FILE_BYTES ==> SealedTotal(size, Chunks(size)) == LARGEST
  {
    TotalBound(size, Chunks(size));
  }

  const DEFAULT_FILE_CAP := 16777216

  // ----- a file's frames in a run of the relay

  /** Step `s` is the frame of `c` about transfer `t`. */
  predicate About(s: I.Step, c: I.ConnId, t: F.Transfer) {
    (s.Start? || s.Chunk? || s.Finish?) && s.c == c && s.t == t
  }

  /** How many chunks of `t` came in steps from `from` on and before `end`. */
  function ChunksIn(ss: seq<I.Step>, c: I.ConnId, t: F.Transfer, from: nat, end: nat): nat
    requires end <= |ss|
  {
    if end <= from then 0
    else ChunksIn(ss, c, t, from, end - 1) + if About(ss[end - 1], c, t) && ss[end - 1].Chunk? then 1 else 0
  }

  /** Connection `c` starts `t` at step `at`, and all it then sends about `t` up to step
      `end` are the sealed chunks of one file of `size` bytes, in order, and ends or aborts;
      between these come any other steps, its own and others'. */
  ghost predicate SendsFile(ss: seq<I.Step>, c: I.ConnId, t: F.Transfer, size: nat, at: nat, end: nat) {
    && at < end <= |ss| && ss[at] == I.Start(c, t)
    && forall j :: at < j < end && About(ss[j], c, t) ==> Fits(ss, c, t, size, at, j)
  }

  ghost predicate Fits(ss: seq<I.Step>, c: I.ConnId, t: F.Transfer, size: nat, at: nat, j: nat)
    requires j < |ss|
  {
    var n := ChunksIn(ss, c, t, at + 1, j);
    ss[j].Finish? || (ss[j].Chunk? && n < Chunks(size) && ss[j].size == SealedLength(ChunkLength(size, n)))
  }

  /** What the relay has counted for `t` is no more than the chunks it was sent. */
  predicate CountedUpTo(w: I.World, c: I.ConnId, t: F.Transfer, bytes: nat) {
    c in w.conns && (t in w.conns[c].files ==> w.conns[c].files[t] <= bytes)
  }

  lemma OtherStepCounts(w: I.World, s: I.Step, c: I.ConnId, t: F.Transfer, bytes: nat)
    requires I.Enabled(w, s) && CountedUpTo(w, c, t, bytes) && !About(s, c, t)
    ensures CountedUpTo(I.Apply(w, s), c, t, bytes)
  {
  }

  lemma OwnStepCounts(w: I.World, s: I.Step, c: I.ConnId, t: F.Transfer, bytes: nat)
    requires I.Enabled(w, s) && About(s, c, t)
    requires s.Chunk? ==> CountedUpTo(w, c, t, bytes)
    ensures CountedUpTo(I.Apply(w, s), c, t, if s.Chunk? then bytes + s.size else 0)
  {
  }

  lemma {:induction false} FileCounts(ws: seq<I.World>, ss: seq<I.Step>, maxFile: int, maxInflight: int, c: I.ConnId, t: F.Transfer, size: nat, at: nat, end: nat)
    requires I.Runs(ws, ss, maxFile, maxInflight) && SendsFile(ss, c, t, size, at, end)
    ensures ChunksIn(ss, c, t, at + 1, end) <= Chunks(size)
    ensures CountedUpTo(ws[end], c, t, SealedTotal(size, ChunksIn(ss, c, t, at + 1, end)))
    decreases end
  {
    hide I.Apply, I.Enabled, CountedUpTo, Fits, SealedTotal, Chunks;
    var w, s := ws[end - 1], ss[end - 1];
    assert I.Goes(w, s, ws[end - 1 + 1]);
    hide I.Runs;
    if end == at + 1 {
      OwnStepCounts(w, s, c, t, 0);
      StartsEmpty(size);
    } else {
      FrameBefore(ss, c, t, size, at, end);
      FileCounts(ws, ss, maxFile, maxInflight, c, t, size, at, end - 1);
      hide SendsFile;
      StepCounts(w, s, c, t, size, ChunksIn(ss, c, t, at + 1, end - 1));
    }
  }

  lemma StartsEmpty(size: nat)
    ensures SealedTotal(size, 0) == 0
  {
  }

  lemma FrameBefore(ss: seq<I.Step>, c: I.ConnId, t: F.Transfer, size: nat, at: nat, end: nat)
    requires SendsFile(ss, c, t, size, at, end) && at + 1 < end
    ensures SendsFile(ss, c, t, size, at, end - 1)
    ensures
      var s, n := ss[end - 1], ChunksIn(ss, c, t, at + 1, end - 1);
      About(s, c, t) ==> s.Finish? || (s.Chunk? && n < Chunks(size) && s.size == SealedLength(ChunkLength(size, n)))
  {
    assert About(ss[end - 1], c, t) ==> Fits(ss, c, t, size, at, end - 1);
  }

  lemma StepCounts(w: I.World, s: I.Step, c: I.ConnId, t: F.Transfer, size: nat, n: nat)
    requires I.Enabled(w, s) && CountedUpTo(w, c, t, SealedTotal(size, n))
    requires About(s, c, t) ==> s.Finish? || (s.Chunk? && s.size == SealedLength(ChunkLength(size, n)))
    ensures CountedUpTo(I.Apply(w, s), c, t, SealedTotal(size, if About(s, c, t) && s.Chunk? then n + 1 else n))
  {
    if About(s, c, t) {
      OwnStepCounts(w, s, c, t, SealedTotal(size, n));
      CountsMore(I.Apply(w, s), c, t, 0, SealedTotal(size, n));
    } else {
      OtherStepCounts(w, s, c, t, SealedTotal(size, n));
    }
    hide I.Apply, CountedUpTo;
  }

  lemma CountsMore(w: I.World, c: I.ConnId, t: F.Transfer, bytes: nat, more: nat)
    requires bytes <= more
    ensures CountedUpTo(w, c, t, bytes) ==> CountedUpTo(w, c, t, more)
  {
  }

  lemma {:induction false} CapStays(ws: seq<I.World>, ss: seq<I.Step>, maxFile: int, maxInflight: int, i: nat)
    requires I.Runs(ws, ss, maxFile, maxInflight) && i < |ws|
    ensures ws[i].maxFile == maxFile
    decreases i
  {
    if i > 0 {
      CapStays(ws, ss, maxFile, maxInflight, i - 1);
      assert I.Goes(ws[i - 1], ss[i - 1], ws[i - 1 + 1]);
    }
  }

  /** In every interleaving with other transfers and other connections, the relay never
      judges a chunk of such a file to make the transfer too large. */
  lemma NeverTooLarge(ws: seq<I.World>, ss: seq<I.Step>, maxFile: int, maxInflight: int, c: I.ConnId, t: F.Transfer, size: nat, at: nat, i: nat)
    requires I.Runs(ws, ss, maxFile, maxInflight) && maxFile >= LARGEST && size <= MAX_FILE_BYTES
    requires i < |ss| && SendsFile(ss, c, t, size, at, i + 1) && at < i && ss[i].Chunk? && ss[i].c == c && ss[i].t == t
    ensures c in ws[i].conns
    ensures F.Judged(ws[i].conns[c].files, ws[i].inflight, ws[i].maxFile, maxInflight, t, ss[i].size) != F.TooLarge
  {
    assert About(ss[i], c, t) && Fits(ss, c, t, size, at, i);
    assert SendsFile(ss, c, t, size, at, i);
    FileCounts(ws, ss, maxFile, maxInflight, c, t, size, at, i);
    CapStays(ws, ss, maxFile, maxInflight, i);
    var n := ChunksIn(ss, c, t, at + 1, i);
    SealedSizeBound(size);
    TotalGrows(size, n + 1, Chunks(size));
    hide I.Runs, SendsFile, ChunksIn;
  }
}

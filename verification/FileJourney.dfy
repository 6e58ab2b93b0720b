/**
A file from the sender's loop over the relay to a receiver's inbox: what the relay
passes on, and exactly when the file arrives, given how often keys were pushed at
either end meanwhile.
*/
module FileJourney {
  import opened Options
  import opened Bytes
  import E = Envelope
  import F = FileRelay
  import I = Inflight
  import K = KeyRing
  import O = FileObjects
  import T = FileTransfer

  // ----- what the relay passes on

  /** Connection `c` starts `t` at step `at`, and its frames about `t` before step `end` are
      `pieces`, in order. */
  ghost predicate Carries(ss: seq<I.Step>, c: I.ConnId, t: F.Transfer, pieces: seq<string>, at: nat, end: nat) {
    && at < end <= |ss| && ss[at] == I.Start(c, t)
    && forall j {:trigger T.About(ss[j], c, t)} :: at < j < end && T.About(ss[j], c, t) ==> IsPiece(ss, c, t, pieces, at, j)
  }

  predicate IsPiece(ss: seq<I.Step>, c: I.ConnId, t: F.Transfer, pieces: seq<string>, at: nat, j: nat)
    requires j < |ss|
  {
    var n := T.ChunksIn(ss, c, t, at + 1, j);
    ss[j].Chunk? && n < |pieces| && ss[j].size == |pieces[n]|
  }

  /** The frames are as long as the sealed chunks of a file of `size` bytes. */
  ghost predicate Sealed(pieces: seq<string>, size: nat) {
    |pieces| == T.Chunks(size) && forall n :: 0 <= n < |pieces| ==> |pieces[n]| == T.SealedLength(T.ChunkLength(size, n))
  }

  lemma CarriesFile(ss: seq<I.Step>, c: I.ConnId, t: F.Transfer, pieces: seq<string>, size: nat, at: nat, end: nat)
    requires Carries(ss, c, t, pieces, at, end) && Sealed(pieces, size)
    ensures T.SendsFile(ss, c, t, size, at, end)
  {
    forall j | at < j < end && T.About(ss[j], c, t) ensures T.Fits(ss, c, t, size, at, j) {
      assert IsPiece(ss, c, t, pieces, at, j);
    }
    hide T.ChunksIn, T.SealedLength, T.ChunkLength, T.Chunks;
  }

  function Verdict(w: I.World, c: I.ConnId, t: F.Transfer, size: nat): F.Outcome
    requires c in w.conns
  {
    F.Judged(w.conns[c].files, w.inflight, w.maxFile, w.maxInflight, t, size)
  }

  /** No chunk of `t` comes when the relay as a whole is too busy for it. */
  ghost predicate NeverBusy(ws: seq<I.World>, ss: seq<I.Step>, c: I.ConnId, t: F.Transfer, at: nat, end: nat)
    requires |ws| == |ss| + 1
  {
    forall j {:trigger T.About(ss[j], c, t)} :: at < j < end && j < |ss| && T.About(ss[j], c, t) && ss[j].Chunk? ==> ws[j].inflight + ss[j].size <= ws[j].maxInflight
  }

  /** The transfer is open, unless the connection is on its way out. */
  predicate StillOpen(w: I.World, c: I.ConnId, t: F.Transfer) {
    && c in w.conns
    && var k := w.conns[c];
       k.pc.Ending? || k.pc.Ended? || (t in k.files && (k.pc.Rolling? || k.pc.Aborting? ==> k.pc.t != t))
  }

  lemma OtherStepOpen(w: I.World, s: I.Step, c: I.ConnId, t: F.Transfer)
    requires I.Enabled(w, s) && StillOpen(w, c, t) && !T.About(s, c, t)
    ensures StillOpen(I.Apply(w, s), c, t)
  {
  }

  lemma ChunkStepOpen(w: I.World, s: I.Step, c: I.ConnId, t: F.Transfer)
    requires I.Enabled(w, s) && StillOpen(w, c, t) && T.About(s, c, t) && s.Chunk?
    requires Verdict(w, c, t, s.size) != F.TooLarge && w.inflight + s.size <= w.maxInflight
    ensures StillOpen(I.Apply(w, s), c, t) && Verdict(w, c, t, s.size) == F.Relayed
  {
  }

  lemma StartStepOpen(w: I.World, s: I.Step, c: I.ConnId, t: F.Transfer)
    requires I.Enabled(w, s) && s == I.Start(c, t)
    ensures StillOpen(I.Apply(w, s), c, t)
  {
  }

  lemma AboutConn(w: I.World, s: I.Step, c: I.ConnId, t: F.Transfer)
    requires I.Enabled(w, s) && T.About(s, c, t)
    ensures c in w.conns
  {
  }

  /** One more step of the run: the transfer stays open, and a chunk of it is relayed. */
  lemma {:induction false} AllRelayed(ws: seq<I.World>, ss: seq<I.Step>, maxFile: int, maxInflight: int, c: I.ConnId, t: F.Transfer,
                                      pieces: seq<string>, size: nat, at: nat, end: nat)
    requires I.Runs(ws, ss, maxFile, maxInflight) && maxFile >= T.LARGEST && size <= T.MAX_FILE_BYTES
    requires Carries(ss, c, t, pieces, at, end) && Sealed(pieces, size) && NeverBusy(ws, ss, c, t, at, end)
    ensures StillOpen(ws[end], c, t)
    ensures var j := end - 1; j > at && T.About(ss[j], c, t) ==> ss[j].Chunk? && c in ws[j].conns && Verdict(ws[j], c, t, ss[j].size) == F.Relayed
    decreases end
  {
    hide I.Apply, I.Enabled, StillOpen, Verdict, Sealed;
    var w, s := ws[end - 1], ss[end - 1];
    assert I.Goes(w, s, ws[end - 1 + 1]);
    if end == at + 1 {
      StartStepOpen(w, s, c, t);
    } else {
      Earlier(ws, ss, c, t, pieces, at, end);
      AllRelayed(ws, ss, maxFile, maxInflight, c, t, pieces, size, at, end - 1);
      if T.About(s, c, t) {
        CarriesFile(ss, c, t, pieces, size, at, end);
        T.NeverTooLarge(ws, ss, maxFile, maxInflight, c, t, size, at, end - 1);
        SameCap(ws, ss, maxFile, maxInflight, end - 1);
        VerdictIs(w, c, t, s.size, maxInflight);
        ChunkStepOpen(w, s, c, t);
      } else {
        OtherStepOpen(w, s, c, t);
      }
    }
  }

  lemma VerdictIs(w: I.World, c: I.ConnId, t: F.Transfer, size: nat, maxInflight: int)
    requires c in w.conns && w.maxInflight == maxInflight
    ensures Verdict(w, c, t, size) == F.Judged(w.conns[c].files, w.inflight, w.maxFile, maxInflight, t, size)
  {
  }

  lemma {:induction false} SameCap(ws: seq<I.World>, ss: seq<I.Step>, maxFile: int, maxInflight: int, i: nat)
    requires I.Runs(ws, ss, maxFile, maxInflight) && i < |ws|
    ensures ws[i].maxInflight == maxInflight
    decreases i
  {
    if i > 0 {
      SameCap(ws, ss, maxFile, maxInflight, i - 1);
      assert I.Goes(ws[i - 1], ss[i - 1], ws[i - 1 + 1]);
    }
  }

  lemma Earlier(ws: seq<I.World>, ss: seq<I.Step>, c: I.ConnId, t: F.Transfer, pieces: seq<string>, at: nat, end: nat)
    requires |ws| == |ss| + 1 && Carries(ss, c, t, pieces, at, end) && NeverBusy(ws, ss, c, t, at, end) && at + 1 < end
    ensures Carries(ss, c, t, pieces, at, end - 1) && NeverBusy(ws, ss, c, t, at, end - 1)
    ensures
      var s := ss[end - 1];
      T.About(s, c, t) ==> IsPiece(ss, c, t, pieces, at, end - 1) && s.Chunk? && ws[end - 1].inflight + s.size <= ws[end - 1].maxInflight
  {
    hide IsPiece;
    assert T.About(ss[end - 1], c, t) ==> IsPiece(ss, c, t, pieces, at, end - 1);
    assert IsPiece(ss, c, t, pieces, at, end - 1) ==> ss[end - 1].Chunk? by { PieceIsChunk(ss, c, t, pieces, at, end - 1); }
  }

  lemma PieceIsChunk(ss: seq<I.Step>, c: I.ConnId, t: F.Transfer, pieces: seq<string>, at: nat, j: nat)
    requires j < |ss|
    ensures IsPiece(ss, c, t, pieces, at, j) ==> ss[j].Chunk?
  {
  }

  datatype Passed = Passed(index: nat, data: string)

  /** What the other members are sent about `t` in steps before `end`. */
  function PassedOn(ws: seq<I.World>, ss: seq<I.Step>, c: I.ConnId, t: F.Transfer, pieces: seq<string>, at: nat, end: nat): seq<Passed>
    requires end <= |ss| < |ws|
  {
    if end <= at + 1 then []
    else
      var j := end - 1;
      var n := T.ChunksIn(ss, c, t, at + 1, j);
      PassedOn(ws, ss, c, t, pieces, at, j)
      + if T.About(ss[j], c, t) && ss[j].Chunk? && c in ws[j].conns && n < |pieces| && Verdict(ws[j], c, t, ss[j].size) == F.Relayed
        then [Passed(n, pieces[n])] else []
  }

  function InOrder(pieces: seq<string>, n: nat): seq<Passed>
    requires n <= |pieces|
  {
    seq(n, i requires 0 <= i < n => Passed(i, pieces[i]))
  }

  /** What was passed on so far is what was sent so far, in order. */
  predicate PassesAll(ws: seq<I.World>, ss: seq<I.Step>, c: I.ConnId, t: F.Transfer, pieces: seq<string>, at: nat, end: nat) {
    && end <= |ss| < |ws|
    && var n := T.ChunksIn(ss, c, t, at + 1, end);
       n <= |pieces| && PassedOn(ws, ss, c, t, pieces, at, end) == InOrder(pieces, n)
  }

  /** In every interleaving with other transfers and connections, the relay passes on
      exactly the chunks it was sent, in order. */
  lemma {:induction false} RelayPassesAll(ws: seq<I.World>, ss: seq<I.Step>, maxFile: int, maxInflight: int, c: I.ConnId, t: F.Transfer,
                                          pieces: seq<string>, size: nat, at: nat, end: nat)
    requires I.Runs(ws, ss, maxFile, maxInflight) && maxFile >= T.LARGEST && size <= T.MAX_FILE_BYTES
    requires Carries(ss, c, t, pieces, at, end) && Sealed(pieces, size) && NeverBusy(ws, ss, c, t, at, end)
    ensures PassesAll(ws, ss, c, t, pieces, at, end)
    decreases end
  {
    hide I.Runs, Carries, Sealed, NeverBusy, PassesAll, LetThrough;
    if end <= at + 1 {
      NothingYet(ws, ss, maxFile, maxInflight, c, t, pieces, at, end);
    } else {
      LastRelayed(ws, ss, maxFile, maxInflight, c, t, pieces, size, at, end);
      RelayPassesAll(ws, ss, maxFile, maxInflight, c, t, pieces, size, at, end - 1);
      PassesOne(ws, ss, c, t, pieces, at, end - 1);
    }
  }

  lemma NothingYet(ws: seq<I.World>, ss: seq<I.Step>, maxFile: int, maxInflight: int, c: I.ConnId, t: F.Transfer, pieces: seq<string>, at: nat, end: nat)
    requires I.Runs(ws, ss, maxFile, maxInflight) && Carries(ss, c, t, pieces, at, end) && end <= at + 1
    ensures PassesAll(ws, ss, c, t, pieces, at, end)
  {
    assert |ws| == |ss| + 1;
    hide I.Runs;
  }

  /** A piece of a file, before step `end`, that was let through. */
  predicate LetThrough(ws: seq<I.World>, ss: seq<I.Step>, c: I.ConnId, t: F.Transfer, pieces: seq<string>, at: nat, j: nat)
    requires j < |ss| < |ws|
  {
    T.About(ss[j], c, t) ==> IsPiece(ss, c, t, pieces, at, j) && c in ws[j].conns && Verdict(ws[j], c, t, ss[j].size) == F.Relayed
  }

  lemma LastRelayed(ws: seq<I.World>, ss: seq<I.Step>, maxFile: int, maxInflight: int, c: I.ConnId, t: F.Transfer,
                    pieces: seq<string>, size: nat, at: nat, end: nat)
    requires I.Runs(ws, ss, maxFile, maxInflight) && maxFile >= T.LARGEST && size <= T.MAX_FILE_BYTES && at + 1 < end
    requires Carries(ss, c, t, pieces, at, end) && Sealed(pieces, size) && NeverBusy(ws, ss, c, t, at, end)
    ensures |ws| == |ss| + 1 && end <= |ss| && LetThrough(ws, ss, c, t, pieces, at, end - 1)
    ensures Carries(ss, c, t, pieces, at, end - 1) && NeverBusy(ws, ss, c, t, at, end - 1)
  {
    AllRelayed(ws, ss, maxFile, maxInflight, c, t, pieces, size, at, end);
    Earlier(ws, ss, c, t, pieces, at, end);
    hide Verdict, IsPiece, Sealed, StillOpen;
  }

  lemma PassesOne(ws: seq<I.World>, ss: seq<I.Step>, c: I.ConnId, t: F.Transfer, pieces: seq<string>, at: nat, j: nat)
    requires at < j < |ss| < |ws| && PassesAll(ws, ss, c, t, pieces, at, j) && LetThrough(ws, ss, c, t, pieces, at, j)
    ensures PassesAll(ws, ss, c, t, pieces, at, j + 1)
  {
    hide Verdict;
    var n := T.ChunksIn(ss, c, t, at + 1, j);
    assert T.ChunksIn(ss, c, t, at + 1, j + 1) == if T.About(ss[j], c, t) && ss[j].Chunk? then n + 1 else n;
    if T.About(ss[j], c, t) {
      assert InOrder(pieces, n + 1) == InOrder(pieces, n) + [Passed(n, pieces[n])];
    }
    hide InOrder;
  }

  // ----- what the receiver makes of it

  /** A chunk opens for a receiver if and only if its captured array and the sender's were
      both still intact, or both wiped. */
  lemma OpensIff(p: E.Prims, was: Bytes, nonces: seq<Bytes>, buf: Bytes, gaps: seq<seq<K.Happening>>, i: nat, r: K.Watch)
    requires E.PrimsOk(p) && E.Apart(p, was, K.Zeros(|was|)) && i + 1 < |nonces| && i < |gaps| && |nonces[i + 1]| == E.NONCE_LEN
    ensures O.Opened(p, K.KeyNow(was, r), O.Data(p, was, nonces, buf, gaps, i)) == if O.Before(gaps, i).wiped == r.wiped then Some(T.Chunk(buf, i)) else None
  {
    O.ChunkOpensIff(p, was, nonces, buf, gaps, i);
    hide O.Data, O.Opened, O.Before, T.Chunk, E.PrimsOk, E.Apart;
  }

  /** How the receiver's key, found at place `q` of its ring, stands at the `k`-th chunk. */
  function Standing(q: nat, recv: seq<seq<K.Happening>>, k: nat): K.Watch
    requires k < |recv|
  {
    K.After(K.Captured, q, O.Happened(recv, k + 1))
  }

  /** What the inbox is handed: each chunk as it opens at that moment. */
  function Handed(p: E.Prims, was: Bytes, q: nat, recv: seq<seq<K.Happening>>, ms: seq<Passed>): seq<T.Event>
    requires |ms| <= |recv|
  {
    seq(|ms|, k requires 0 <= k < |ms| => T.GotChunk(ms[k].index, O.Opened(p, K.KeyNow(was, Standing(q, recv, k)), ms[k].data)))
  }

  ghost predicate SetOut(p: E.Prims, was: Bytes, nonces: seq<Bytes>, buf: Bytes, gaps: seq<seq<K.Happening>>) {
    && E.PrimsOk(p) && E.Apart(p, was, K.Zeros(|was|)) && |buf| <= T.MAX_FILE_BYTES
    && T.Chunks(|buf|) < |nonces| && T.Chunks(|buf|) < |gaps| && forall x <- nonces :: |x| == E.NONCE_LEN
  }

  function Pieces(p: E.Prims, was: Bytes, nonces: seq<Bytes>, buf: Bytes, gaps: seq<seq<K.Happening>>): seq<string>
    requires T.Chunks(|buf|) < |nonces| && T.Chunks(|buf|) < |gaps|
  {
    seq(T.Chunks(|buf|), i requires 0 <= i < T.Chunks(|buf|) => O.Data(p, was, nonces, buf, gaps, i))
  }

  lemma PiecesSealed(p: E.Prims, was: Bytes, nonces: seq<Bytes>, buf: Bytes, gaps: seq<seq<K.Happening>>)
    requires SetOut(p, was, nonces, buf, gaps)
    ensures Sealed(Pieces(p, was, nonces, buf, gaps), |buf|)
  {
    hide O.Data, T.SealedLength, T.ChunkLength, T.Chunks, E.PrimsOk, E.Apart;
    forall i | 0 <= i < T.Chunks(|buf|) ensures |O.Data(p, was, nonces, buf, gaps, i)| == T.SealedLength(T.ChunkLength(|buf|, i)) {
      O.ChunkOpensIff(p, was, nonces, buf, gaps, i);
    }
  }

  /** The frames of `sendFile` while its session lasts are these pieces. */
  lemma {:induction false} WireIsPieces(p: E.Prims, was: Bytes, nonces: seq<Bytes>, buf: Bytes, gaps: seq<seq<K.Happening>>, n: nat)
    requires n <= T.Chunks(|buf|) < |nonces| && T.Chunks(|buf|) < |gaps| && forall i :: 0 <= i < n ==> O.Before(gaps, i).here && O.Before(gaps, i).live
    ensures |O.Pieces(p, was, nonces, buf, gaps, n)| == n
    ensures forall i :: 0 <= i < n ==> O.Pieces(p, was, nonces, buf, gaps, n)[i] == O.Wire(true, O.Piece(i, Pieces(p, was, nonces, buf, gaps)[i]))
  {
    hide O.Data, O.Before, T.Chunks;
    if n > 0 {
      WireIsPieces(p, was, nonces, buf, gaps, n - 1);
    }
  }

  /** Both keys stand alike at every chunk. */
  ghost predicate Alike(gaps: seq<seq<K.Happening>>, q: nat, recv: seq<seq<K.Happening>>, total: nat)
    requires total <= |gaps| && total <= |recv|
  {
    forall i :: 0 <= i < total ==> O.Before(gaps, i).wiped == Standing(q, recv, i).wiped
  }

  lemma HandedAuthentic(p: E.Prims, was: Bytes, nonces: seq<Bytes>, buf: Bytes, gaps: seq<seq<K.Happening>>, q: nat, recv: seq<seq<K.Happening>>)
    requires SetOut(p, was, nonces, buf, gaps) && T.Chunks(|buf|) <= |recv|
    ensures
      var es := Handed(p, was, q, recv, InOrder(Pieces(p, was, nonces, buf, gaps), T.Chunks(|buf|)));
      T.Authentic(es, buf) && (T.HasAll(es, buf) <==> Alike(gaps, q, recv, T.Chunks(|buf|)))
  {
    hide O.Data, O.Opened, O.Before, Standing, T.Chunk, T.Chunks, E.PrimsOk, E.Apart;
    var total := T.Chunks(|buf|);
    var es := Handed(p, was, q, recv, InOrder(Pieces(p, was, nonces, buf, gaps), total));
    forall i | 0 <= i < total
      ensures es[i] == T.GotChunk(i, if O.Before(gaps, i).wiped == Standing(q, recv, i).wiped then Some(T.Chunk(buf, i)) else None)
    {
      OpensIff(p, was, nonces, buf, gaps, i, Standing(q, recv, i));
    }
    forall i | 0 <= i < total ensures T.Has(es, buf, i) <==> O.Before(gaps, i).wiped == Standing(q, recv, i).wiped {
      if T.Has(es, buf, i) {
        var k :| 0 <= k < |es| && es[k] == T.GotChunk(i, Some(T.Chunk(buf, i)));
        assert k == i;
      } else {
        assert es[i] in es;
      }
    }
  }

  /** How many keys were pushed before chunk `i`, while the session lasts. */
  function Count(gaps: seq<seq<K.Happening>>, i: nat): nat
    requires i < |gaps|
  {
    |O.Happened(gaps, i + 1)|
  }

  predicate Lasts(gaps: seq<seq<K.Happening>>, i: nat)
    requires i < |gaps|
  {
    forall h <- O.Happened(gaps, i + 1) :: h.Push?
  }

  /** At every chunk both ends were below five, counting the receiver's pushes from its
      place, or neither was. */
  ghost predicate InStep(gaps: seq<seq<K.Happening>>, q: nat, recv: seq<seq<K.Happening>>, total: nat)
    requires total <= |gaps| && total <= |recv|
  {
    forall i :: 0 <= i < total ==> (Count(gaps, i) < K.MAX_KEPT_KEYS <==> q + Count(recv, i) < K.MAX_KEPT_KEYS)
  }

  lemma AlikeByPushes(gaps: seq<seq<K.Happening>>, q: nat, recv: seq<seq<K.Happening>>, total: nat)
    requires total <= |gaps| && total <= |recv| && q < K.MAX_KEPT_KEYS
    requires forall i :: 0 <= i < total ==> Lasts(gaps, i) && Lasts(recv, i)
    ensures Alike(gaps, q, recv, total) <==> InStep(gaps, q, recv, total)
  {
    forall i | 0 <= i < total
      ensures O.Before(gaps, i).wiped <==> Count(gaps, i) >= K.MAX_KEPT_KEYS
      ensures Standing(q, recv, i).wiped <==> q + Count(recv, i) >= K.MAX_KEPT_KEYS
    {
      assert Lasts(gaps, i) && Lasts(recv, i);
      K.WipedByPushes(0, O.Happened(gaps, i + 1));
      K.WipedByPushes(q, O.Happened(recv, i + 1));
    }
    hide O.Before, Standing, Count;
  }

  /** The whole way, while both sessions last: the chunks that the sender's loop puts on the
      wire go over the relay, among any other traffic, to a receiver that captured the
      announced key at place `q` of its ring. The inbox ends with exactly the file if and
      only if at every chunk both ends had been pushed fewer keys than places were left
      below the captured one, or neither; otherwise the end frame makes it a failure. */
  lemma FileArrivesIff(p: E.Prims, was: Bytes, nonces: seq<Bytes>, buf: Bytes, gaps: seq<seq<K.Happening>>, q: nat, recv: seq<seq<K.Happening>>,
                       ws: seq<I.World>, ss: seq<I.Step>, maxFile: int, maxInflight: int, c: I.ConnId, t: F.Transfer, at: nat, end: nat)
    requires SetOut(p, was, nonces, buf, gaps) && T.Chunks(|buf|) <= |recv| && q < K.MAX_KEPT_KEYS
    requires forall i :: 0 <= i < T.Chunks(|buf|) ==> Lasts(gaps, i) && Lasts(recv, i)
    requires I.Runs(ws, ss, maxFile, maxInflight) && maxFile >= T.LARGEST
    requires var pieces := Pieces(p, was, nonces, buf, gaps);
             Carries(ss, c, t, pieces, at, end) && NeverBusy(ws, ss, c, t, at, end) && T.ChunksIn(ss, c, t, at + 1, end) == |pieces|
    ensures
      var pieces := Pieces(p, was, nonces, buf, gaps);
      |O.Pieces(p, was, nonces, buf, gaps, |pieces|)| == |pieces|
      && forall i :: 0 <= i < |pieces| ==> O.Pieces(p, was, nonces, buf, gaps, |pieces|)[i] == O.Wire(true, O.Piece(i, pieces[i]))
    ensures
      var ms := PassedOn(ws, ss, c, t, Pieces(p, was, nonces, buf, gaps), at, end);
      && |ms| <= |recv| && T.Accept(T.Chunks(|buf|)).Some?
      && T.After(T.Accept(T.Chunks(|buf|)).value, Handed(p, was, q, recv, ms) + [T.GotEnd])
           == if InStep(gaps, q, recv, T.Chunks(|buf|)) then T.Inbox(None, [buf], 0) else T.Inbox(None, [], 1)
  {
    var pieces := Pieces(p, was, nonces, buf, gaps);
    PiecesSealed(p, was, nonces, buf, gaps);
    T.SealedSizeBound(|buf|);
    hide I.Runs, Carries, NeverBusy, Sealed, Pieces, T.Chunks, E.PrimsOk, E.Apart, Alike, InStep;
    RelayPassesAll(ws, ss, maxFile, maxInflight, c, t, pieces, |buf|, at, end);
    PiecesSize(p, was, nonces, buf, gaps);
    AllOnTheWire(p, was, nonces, buf, gaps);
    HandedAuthentic(p, was, nonces, buf, gaps, q, recv);
    AlikeByPushes(gaps, q, recv, |pieces|);
    Rebuilt(buf, Handed(p, was, q, recv, InOrder(pieces, |pieces|)));
  }

  lemma AllOnTheWire(p: E.Prims, was: Bytes, nonces: seq<Bytes>, buf: Bytes, gaps: seq<seq<K.Happening>>)
    requires T.Chunks(|buf|) < |nonces| && T.Chunks(|buf|) < |gaps| && forall i :: 0 <= i < T.Chunks(|buf|) ==> Lasts(gaps, i)
    ensures
      var pieces := Pieces(p, was, nonces, buf, gaps);
      |O.Pieces(p, was, nonces, buf, gaps, |pieces|)| == |pieces|
      && forall i :: 0 <= i < |pieces| ==> O.Pieces(p, was, nonces, buf, gaps, |pieces|)[i] == O.Wire(true, O.Piece(i, pieces[i]))
  {
    hide O.Data, T.Chunks, O.Before;
    forall i | 0 <= i < T.Chunks(|buf|) ensures O.Before(gaps, i).here && O.Before(gaps, i).live {
      assert Lasts(gaps, i);
      StillHere(gaps, i);
    }
    WireIsPieces(p, was, nonces, buf, gaps, T.Chunks(|buf|));
  }

  lemma StillHere(gaps: seq<seq<K.Happening>>, i: nat)
    requires i < |gaps| && Lasts(gaps, i)
    ensures O.Before(gaps, i).here && O.Before(gaps, i).live
  {
    K.WipedByPushes(0, O.Happened(gaps, i + 1));
    K.WipedIff(0, O.Happened(gaps, i + 1));
  }

  lemma PiecesSize(p: E.Prims, was: Bytes, nonces: seq<Bytes>, buf: Bytes, gaps: seq<seq<K.Happening>>)
    requires T.Chunks(|buf|) < |nonces| && T.Chunks(|buf|) < |gaps|
    ensures |Pieces(p, was, nonces, buf, gaps)| == T.Chunks(|buf|)
  {
  }

  lemma Rebuilt(buf: Bytes, es: seq<T.Event>)
    requires T.Chunks(|buf|) <= T.MAX_CHUNKS && T.Authentic(es, buf)
    ensures T.Accept(T.Chunks(|buf|)).Some?
    ensures T.After(T.Accept(T.Chunks(|buf|)).value, es + [T.GotEnd]) == if T.HasAll(es, buf) then T.Inbox(None, [buf], 0) else T.Inbox(None, [], 1)
  {
    T.AnyOrderRebuilds(buf, es);
    assert (es + [T.GotEnd])[..|es|] == es;
    hide T.HasAll, T.Chunks, T.Authentic;
  }
}

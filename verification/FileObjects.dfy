/**
File transfer as the browser runs it (web/src/main.ts): the sending loop, and the
table of incoming transfers whose slots are filled in place. Each method is proved to
do what the function of module FileTransfer says.
*/
module FileObjects {
  import opened Options
  import opened Bytes
  import T = FileTransfer
  import E = Envelope
  import K = KeyRing

  /** The start frame carries the metadata, sealed as well. */
  datatype Frame = Start(keyId: string, data: string) | Piece(index: nat, data: string) | End

  /** A frame on the wire: `here` says that it went out in the session that the file was
      sent from. */
  datatype Wire = Wire(here: bool, frame: Frame)

  /** `send`, which drops what there is no session for. */
  function Said(w: K.Watch, f: Frame): seq<Wire> {
    if w.live then [Wire(w.here, f)] else []
  }

  /** What has happened in the first `n` awaits: reading the file, and one after each chunk. */
  function Happened(gaps: seq<seq<K.Happening>>, n: nat): seq<K.Happening>
    requires n <= |gaps|
  {
    if n == 0 then [] else Happened(gaps, n - 1) + gaps[n - 1]
  }

  /** How the captured key stands when chunk `i` is about to be sealed. */
  function Before(gaps: seq<seq<K.Happening>>, i: nat): K.Watch
    requires i < |gaps|
  {
    K.After(K.Captured, 0, Happened(gaps, i + 1))
  }

  lemma BeforeNext(gaps: seq<seq<K.Happening>>, i: nat)
    requires i + 1 < |gaps|
    ensures Before(gaps, i + 1) == K.After(Before(gaps, i), 0, gaps[i + 1])
  {
    K.AfterSplit(K.Captured, 0, Happened(gaps, i + 1), gaps[i + 1]);
  }

  /** Chunk `i`, sealed under what the captured array holds by then. */
  function Data(p: E.Prims, was: Bytes, nonces: seq<Bytes>, buf: Bytes, gaps: seq<seq<K.Happening>>, i: nat): string
    requires i + 1 < |nonces| && i < |gaps|
  {
    E.SealBytes(p, K.KeyNow(was, Before(gaps, i)), nonces[i + 1], T.Chunk(buf, i))
  }

  function Pieces(p: E.Prims, was: Bytes, nonces: seq<Bytes>, buf: Bytes, gaps: seq<seq<K.Happening>>, n: nat): seq<Wire>
    requires n < |nonces| && n <= |gaps|
  {
    if n == 0 then []
    else Pieces(p, was, nonces, buf, gaps, n - 1) + Said(Before(gaps, n - 1), Piece(n - 1, Data(p, was, nonces, buf, gaps, n - 1)))
  }

  /** How many chunks are sealed: the loop is left when there is no session after one. */
  predicate Rounds(gaps: seq<seq<K.Happening>>, total: nat, n: nat)
    requires total < |gaps|
  {
    && 1 <= n <= total && (forall j :: 1 <= j < n ==> Before(gaps, j).live)
    && (n < total ==> !Before(gaps, n).live)
  }

  /** Everything `sendFile` puts on the wire. */
  function Sent(p: E.Prims, was: Bytes, kid: string, meta: string, nonces: seq<Bytes>, buf: Bytes, gaps: seq<seq<K.Happening>>, n: nat): seq<Wire>
    requires n < |nonces| && n < |gaps|
  {
    Said(Before(gaps, 0), Start(kid, E.EncryptMessage(p, K.KeyNow(was, Before(gaps, 0)), nonces[0], meta)))
    + Pieces(p, was, nonces, buf, gaps, n) + Said(Before(gaps, n), End)
  }

  /** The key is captured as a reference; `gaps` is what runs while the function awaits. */
  method SendFile(tab: K.Tab, p: E.Prims, keyId: Bytes -> string, meta: string, nonces: seq<Bytes>, buf: Bytes, gaps: seq<seq<K.Happening>>)
    returns (sent: seq<Wire>, n: nat)
    requires tab.Valid() && T.Chunks(|buf|) < |nonces| && T.Chunks(|buf|) < |gaps| && forall x <- nonces :: |x| == E.NONCE_LEN
    modifies tab, tab.session, tab.Arrays()
    ensures old(tab.session == null || tab.session.keys == []) ==> sent == []
    ensures old(tab.session != null && tab.session.keys != []) ==>
      var was := old(tab.session.keys[0][..]);
      Rounds(gaps, T.Chunks(|buf|), n) && sent == Sent(p, was, keyId(was), meta, nonces, buf, gaps, n)
  {
    sent, n := [], 0;
    if tab.session == null || tab.session.keys == [] {
      return;
    }
    var home := tab.session;
    var key := home.keys[0];
    ghost var was := key[..];
    var kid := keyId(key[..]);
    var total := T.Chunks(|buf|);
    assert tab.Stands(home, key, was, 0, K.Captured) && total >= 1;
    hide K.Tab.Stands, K.Tab.Valid, T.Chunks, K.After, Before, Data, K.Tab.Arrays;
    var start := Begin(tab, p, kid, meta, nonces[0], gaps, home, key, was);
    var pieces: seq<Wire>;
    pieces, n := SendPieces(tab, p, nonces, buf, total, gaps, home, key, was);
    Stood(tab, home, key, was, Before(gaps, n));
    sent := start + pieces + if tab.session != null then [Wire(tab.session == home, End)] else [];
  }

  /** The loop over the chunks. */
  method SendPieces(tab: K.Tab, p: E.Prims, nonces: seq<Bytes>, buf: Bytes, total: nat, gaps: seq<seq<K.Happening>>, home: K.Keys, key: array<byte>, ghost was: Bytes)
    returns (pieces: seq<Wire>, n: nat)
    requires 1 <= total < |nonces| && total < |gaps| && forall x <- nonces :: |x| == E.NONCE_LEN
    requires tab.Valid() && tab.Stands(home, key, was, 0, Before(gaps, 0))
    modifies tab, tab.session, tab.Arrays()
    ensures tab.Valid() && Rounds(gaps, total, n) && tab.Stands(home, key, was, 0, Before(gaps, n))
    ensures pieces == Pieces(p, was, nonces, buf, gaps, n)
  {
    hide K.Tab.Stands, K.Tab.Valid, K.After, Before, Said, Data;
    pieces, n := [], 0;
    while n < total
      invariant 0 <= n <= total
      invariant tab.Valid() && tab.Stands(home, key, was, 0, Before(gaps, n))
      invariant forall j :: 1 <= j <= n ==> Before(gaps, j).live
      invariant pieces == Pieces(p, was, nonces, buf, gaps, n)
      invariant tab.session == null || tab.session == old(tab.session) || fresh(tab.session)
      invariant fresh(tab.Arrays() - old(tab.Arrays()))
    {
      var wire := SendPiece(tab, p, nonces, buf, n, gaps, home, key, was);
      pieces := pieces + wire;
      n := n + 1;
      Stood(tab, home, key, was, Before(gaps, n));
      if tab.session == null {
        return;
      }
    }
  }

  lemma Stood(tab: K.Tab, home: K.Keys, key: array<byte>, was: Bytes, w: K.Watch)
    requires tab.Stands(home, key, was, 0, w)
    ensures (w.live <==> tab.session != null) && (w.here <==> tab.session == home) && key[..] == K.KeyNow(was, w)
  {
  }

  /** Reads the file and announces it. */
  method Begin(tab: K.Tab, p: E.Prims, kid: string, meta: string, nonce: Bytes, gaps: seq<seq<K.Happening>>, home: K.Keys, key: array<byte>, ghost was: Bytes)
    returns (start: seq<Wire>)
    requires tab.Valid() && tab.Stands(home, key, was, 0, K.Captured) && gaps != [] && |nonce| == E.NONCE_LEN
    modifies tab, tab.session, tab.Arrays()
    ensures tab.Valid() && tab.Stands(home, key, was, 0, Before(gaps, 0))
    ensures tab.session == null || tab.session == old(tab.session) || fresh(tab.session)
    ensures fresh(tab.Arrays() - old(tab.Arrays()))
    ensures start == Said(Before(gaps, 0), Start(kid, E.EncryptMessage(p, K.KeyNow(was, Before(gaps, 0)), nonce, meta)))
  {
    hide K.After, K.Tab.Stands, K.Tab.Valid, E.SealBytes;
    tab.Await(gaps[0], home, key, was, 0, K.Captured);
    FirstGap(gaps);
    Stood(tab, home, key, was, Before(gaps, 0));
    var data := E.Seal(p, key[..], nonce, p.textBytes(meta));
    start := if tab.session != null then [Wire(tab.session == home, Start(kid, data))] else [];
  }

  /** One round of the loop: seal, send, and let the event loop run. */
  method SendPiece(tab: K.Tab, p: E.Prims, nonces: seq<Bytes>, buf: Bytes, n: nat, gaps: seq<seq<K.Happening>>, home: K.Keys, key: array<byte>, ghost was: Bytes)
    returns (wire: seq<Wire>)
    requires n + 1 < |nonces| && n + 1 < |gaps| && |nonces[n + 1]| == E.NONCE_LEN
    requires tab.Valid() && tab.Stands(home, key, was, 0, Before(gaps, n))
    modifies tab, tab.session, tab.Arrays()
    ensures tab.Valid() && tab.Stands(home, key, was, 0, Before(gaps, n + 1))
    ensures tab.session == null || tab.session == old(tab.session) || fresh(tab.session)
    ensures fresh(tab.Arrays() - old(tab.Arrays()))
    ensures wire == Said(Before(gaps, n), Piece(n, Data(p, was, nonces, buf, gaps, n)))
  {
    hide K.After, K.Tab.Stands, K.Tab.Valid, E.SealBytes, Before, T.Chunk;
    Stood(tab, home, key, was, Before(gaps, n));
    var piece := E.Seal(p, key[..], nonces[n + 1], T.Chunk(buf, n));
    wire := if tab.session != null then [Wire(tab.session == home, Piece(n, piece))] else [];
    tab.Await(gaps[n + 1], home, key, was, 0, Before(gaps, n));
    BeforeNext(gaps, n);
  }

  lemma FirstGap(gaps: seq<seq<K.Happening>>)
    requires gaps != []
    ensures Before(gaps, 0) == K.After(K.Captured, 0, gaps[0])
  {
    assert Happened(gaps, 1) == gaps[0];
  }

  // ----- what the sender's captured key comes to

  /** Chunk `i` is sealed under the captured bytes if and only if fewer than five keys were
      pushed before it in the session, and it was not a teardown that ended that. */
  lemma ChunkKeyIff(was: Bytes, gaps: seq<seq<K.Happening>>, i: nat)
    requires was != K.Zeros(|was|) && i < |gaps|
    ensures
      var hs := Happened(gaps, i + 1);
      var n := K.FirstPushes(hs);
      K.KeyNow(was, Before(gaps, i)) == was <==> n < K.MAX_KEPT_KEYS && !(n < |hs| && hs[n].Teardown?)
  {
    K.WipedIff(0, Happened(gaps, i + 1));
  }

  /** While the session lasts it is the number of pushed keys alone. */
  lemma ChunkKeyByPushes(was: Bytes, gaps: seq<seq<K.Happening>>, i: nat)
    requires was != K.Zeros(|was|) && i < |gaps| && forall h <- Happened(gaps, i + 1) :: h.Push?
    ensures Before(gaps, i).here && Before(gaps, i).live
    ensures K.KeyNow(was, Before(gaps, i)) == was <==> |Happened(gaps, i + 1)| < K.MAX_KEPT_KEYS
  {
    K.WipedByPushes(0, Happened(gaps, i + 1));
    K.WipedIff(0, Happened(gaps, i + 1));
  }

  /** A chunk opens under the key whose id was announced if and only if the captured array
      still held it; otherwise it opens under zeros. */
  lemma ChunkOpensIff(p: E.Prims, was: Bytes, nonces: seq<Bytes>, buf: Bytes, gaps: seq<seq<K.Happening>>, i: nat)
    requires E.PrimsOk(p) && E.Apart(p, was, K.Zeros(|was|)) && i + 1 < |nonces| && i < |gaps| && |nonces[i + 1]| == E.NONCE_LEN
    ensures
      var data := Data(p, was, nonces, buf, gaps, i);
      && (Before(gaps, i).wiped ==> Opened(p, was, data) == None && Opened(p, K.Zeros(|was|), data) == Some(T.Chunk(buf, i)))
      && (!Before(gaps, i).wiped ==> Opened(p, was, data) == Some(T.Chunk(buf, i)) && Opened(p, K.Zeros(|was|), data) == None)
      && |data| == T.SealedLength(T.ChunkLength(|buf|, i))
  {
    hide E.PrimsOk, E.Apart, E.SealBytes, E.OpenBytes, Before, T.Chunk;
    var chunk, zeros, nonce := T.Chunk(buf, i), K.Zeros(|was|), nonces[i + 1];
    E.OpenInvertsSeal(p, was, nonce, chunk);
    E.OpenInvertsSeal(p, zeros, nonce, chunk);
    E.OtherKeyFails(p, was, zeros, nonce, chunk);
    T.ChunkLengthIs(buf, i);
  }

  lemma {:induction false} WipedLater(gaps: seq<seq<K.Happening>>, i: nat, j: nat)
    requires i <= j < |gaps| && Before(gaps, i).wiped
    ensures Before(gaps, j).wiped
    decreases j
  {
    hide Before, K.After;
    if i < j {
      WipedLater(gaps, i, j - 1);
      BeforeNext(gaps, j - 1);
      K.WipedStays(Before(gaps, j - 1), 0, gaps[j]);
    }
  }

  /** So all chunks open under the announced key if and only if the last one does. */
  lemma AllOpenIff(p: E.Prims, was: Bytes, nonces: seq<Bytes>, buf: Bytes, gaps: seq<seq<K.Happening>>, total: nat)
    requires E.PrimsOk(p) && E.Apart(p, was, K.Zeros(|was|)) && 0 < total < |nonces| && total <= |gaps| && forall x <- nonces :: |x| == E.NONCE_LEN
    ensures
      (forall i :: 0 <= i < total ==> Opened(p, was, Data(p, was, nonces, buf, gaps, i)) == Some(T.Chunk(buf, i)))
        <==> !Before(gaps, total - 1).wiped
  {
    hide E.PrimsOk, E.Apart, Data, Opened, Before, T.Chunk;
    forall i | 0 <= i < total
      ensures Opened(p, was, Data(p, was, nonces, buf, gaps, i)) == Some(T.Chunk(buf, i)) <==> !Before(gaps, i).wiped
    {
      ChunkOpensIff(p, was, nonces, buf, gaps, i);
      if Before(gaps, i).wiped {
        WipedLater(gaps, i, total - 1);
      }
    }
    forall i | 0 <= i < total && Before(gaps, i).wiped ensures Before(gaps, total - 1).wiped {
      WipedLater(gaps, i, total - 1);
    }
  }

  /** While the session lasts: if and only if fewer than five keys were pushed by then. */
  lemma AllOpenByPushes(p: E.Prims, was: Bytes, nonces: seq<Bytes>, buf: Bytes, gaps: seq<seq<K.Happening>>, total: nat)
    requires E.PrimsOk(p) && E.Apart(p, was, K.Zeros(|was|)) && 0 < total < |nonces| && total <= |gaps| && forall x <- nonces :: |x| == E.NONCE_LEN
    requires forall h <- Happened(gaps, total) :: h.Push?
    ensures
      (forall i :: 0 <= i < total ==> Opened(p, was, Data(p, was, nonces, buf, gaps, i)) == Some(T.Chunk(buf, i)))
        <==> |Happened(gaps, total)| < K.MAX_KEPT_KEYS
  {
    hide E.PrimsOk, E.Apart, Data, Opened;
    AllOpenIff(p, was, nonces, buf, gaps, total);
    K.WipedByPushes(0, Happened(gaps, total));
  }

  /** A run: five keys are pushed between the two chunks of a file. The first chunk opens
      under the announced key; the second does not, and opens under zeros. */
  lemma FivePushesSpoil(p: E.Prims, was: Bytes, kid: string, meta: string, nonces: seq<Bytes>, buf: Bytes, k: Bytes)
      returns (gaps: seq<seq<K.Happening>>, first: string, second: string)
    requires E.PrimsOk(p) && E.Apart(p, was, K.Zeros(|was|)) && T.Chunks(|buf|) == 2 < |nonces| && forall x <- nonces :: |x| == E.NONCE_LEN
    ensures |gaps| == 3 && Rounds(gaps, 2, 2)
    ensures |Sent(p, was, kid, meta, nonces, buf, gaps, 2)| == 4
    ensures Sent(p, was, kid, meta, nonces, buf, gaps, 2)[1..] == [Wire(true, Piece(0, first)), Wire(true, Piece(1, second)), Wire(true, End)]
    ensures Opened(p, was, first) == Some(T.Chunk(buf, 0))
    ensures Opened(p, was, second) == None && Opened(p, K.Zeros(|was|), second) == Some(T.Chunk(buf, 1))
  {
    gaps := FiveGaps(k);
    FiveGapsStand(k);
    hide FiveGaps, Before, E.PrimsOk, E.Apart, Data, T.Chunk, Opened;
    first, second := Data(p, was, nonces, buf, gaps, 0), Data(p, was, nonces, buf, gaps, 1);
    ChunkOpensIff(p, was, nonces, buf, gaps, 0);
    ChunkOpensIff(p, was, nonces, buf, gaps, 1);
    assert Pieces(p, was, nonces, buf, gaps, 1) == [Wire(true, Piece(0, first))];
    assert Pieces(p, was, nonces, buf, gaps, 2) == [Wire(true, Piece(0, first)), Wire(true, Piece(1, second))];
  }

  /** Four pushes do no harm: both chunks open under the announced key. */
  lemma FourPushesSpare(p: E.Prims, was: Bytes, nonces: seq<Bytes>, buf: Bytes, k: Bytes)
    requires E.PrimsOk(p) && E.Apart(p, was, K.Zeros(|was|)) && T.Chunks(|buf|) == 2 < |nonces| && forall x <- nonces :: |x| == E.NONCE_LEN
    ensures
      var gaps := [[], [K.Push(k), K.Push(k), K.Push(k), K.Push(k)], []];
      forall i :: 0 <= i < 2 ==> Opened(p, was, Data(p, was, nonces, buf, gaps, i)) == Some(T.Chunk(buf, i))
  {
    var gaps: seq<seq<K.Happening>> := [[], [K.Push(k), K.Push(k), K.Push(k), K.Push(k)], []];
    var none: seq<K.Happening> := [];
    assert Happened(gaps, 0) == none && none + gaps[0] == none && none + gaps[1] == gaps[1];
    assert Happened(gaps, 1) == none;
    assert Happened(gaps, 2) == gaps[1];
    hide Data, Opened, E.PrimsOk, E.Apart, T.Chunk;
    AllOpenByPushes(p, was, nonces, buf, gaps, 2);
  }

  /** The start frame announces the captured key by its id, with metadata that opens under
      it and says what was put in, if the key is still intact once the file is read. */
  lemma StartOpens(p: E.Prims, was: Bytes, kid: string, meta: string, nonces: seq<Bytes>, buf: Bytes, gaps: seq<seq<K.Happening>>, n: nat, parse: string -> Option<int>)
    requires E.PrimsOk(p) && E.Apart(p, was, K.Zeros(|was|)) && n < |nonces| && n < |gaps| && |nonces[0]| == E.NONCE_LEN
    requires Before(gaps, 0).live && E.IsAscii(meta)
    ensures
      var sent := Sent(p, was, kid, meta, nonces, buf, gaps, n);
      && sent != [] && sent[0].frame.Start? && sent[0].frame.keyId == kid && sent[0].here == Before(gaps, 0).here
      && Announced(p, was, parse, sent[0].frame.data) == if Before(gaps, 0).wiped then None else parse(meta)
  {
    var key := K.KeyNow(was, Before(gaps, 0));
    E.OpensUnderSame(p, key, was, nonces[0], meta);
    hide E.PrimsOk, E.Apart, E.EncryptMessage, E.DecryptMessage, Pieces, Before;
    if Before(gaps, 0).wiped && was == K.Zeros(|was|) {
      assert false;
    }
  }

  function FiveGaps(k: Bytes): seq<seq<K.Happening>> {
    [[], [K.Push(k), K.Push(k), K.Push(k), K.Push(k), K.Push(k)], []]
  }

  lemma FiveGapsStand(k: Bytes)
    ensures
      var gaps := FiveGaps(k);
      && |gaps| == 3 && !Before(gaps, 0).wiped && Before(gaps, 1).wiped
      && forall i :: 0 <= i < 3 ==> Before(gaps, i).here && Before(gaps, i).live
  {
    var gaps := FiveGaps(k);
    var none: seq<K.Happening> := gaps[0];
    assert Happened(gaps, 0) == none && Happened(gaps, 0) + gaps[0] == none && gaps[1] + gaps[2] == gaps[1] && none + gaps[1] == gaps[1];
    assert Happened(gaps, 1) == none;
    assert Happened(gaps, 2) == gaps[1];
    assert Happened(gaps, 3) == gaps[1];
    hide Happened, K.After;
    forall i | 0 <= i < 3 ensures Before(gaps, i).here && Before(gaps, i).live && (Before(gaps, i).wiped <==> i > 0) {
      var hs := if i == 0 then none else gaps[1];
      K.WipedByPushes(0, hs);
      K.WipedIff(0, hs);
    }
  }

  // ----- receiving

  /** What a chunk carries for a receiver that opens it with `key`. */
  function Opened(p: E.Prims, key: Bytes, data: string): Option<Bytes> {
    match E.OpenBytes(p, key, data) case Ok(b) => Some(b) case Err(_) => None
  }

  /** The number of chunks in the metadata, if it opens and parses. */
  function Announced(p: E.Prims, key: Bytes, parse: string -> Option<int>, data: string): Option<int> {
    match E.DecryptMessage(p, key, data) case Ok(text) => parse(text) case Err(_) => None
  }

  function Started(b: T.Inbox, chunks: Option<int>): T.Inbox {
    if chunks.None? || T.Accept(chunks.value).None? then b else b.(incoming := T.Accept(chunks.value).value.incoming)
  }

  class IncomingFile {
    const key: array<byte>
    const parts: array<Option<Bytes>>
    var received: nat

    constructor (key: array<byte>, chunks: nat)
      ensures this.key == key && fresh(parts) && parts[..] == T.Slots(chunks) && received == 0
    {
      this.key := key;
      parts := new Option<Bytes>[chunks](i => None);
      received := 0;
    }

    function View(): T.Incoming
      reads this, parts
    {
      T.Incoming(parts[..], received)
    }
  }

  class FileInbox {
    var incoming: map<string, IncomingFile>
    var files: map<string, seq<Bytes>>
    var failures: map<string, nat>

    ghost predicate Valid()
      reads this
    {
      forall t <- incoming, u <- incoming :: t != u ==> incoming[t] != incoming[u] && incoming[t].parts != incoming[u].parts
    }

    ghost function Repr(): set<object>
      reads this
    {
      (set t | t in incoming :: incoming[t] as object) + (set t | t in incoming :: incoming[t].parts as object)
    }

    ghost function View(t: string): T.Inbox
      reads this, Repr()
    {
      T.Inbox(if t in incoming then Some(incoming[t].View()) else None,
              if t in files then files[t] else [],
              if t in failures then failures[t] else 0)
    }

    constructor ()
      ensures Valid() && incoming == map[] && forall t: string :: View(t) == T.Inbox(None, [], 0)
    {
      incoming, files, failures := map[], map[], map[];
    }

    /** The key is looked up by its id among those held, and captured as a reference. */
    method OnFileStart(ring: K.Keys, p: E.Prims, keyId: Bytes -> string, parse: string -> Option<int>, t: string, id: string, data: string)
      returns (ghost place: Option<nat>)
      requires Valid()
      modifies this
      ensures Valid()
      ensures forall u: string :: u != t ==> View(u) == old(View(u))
      ensures place.None? ==> (forall k <- ring.keys :: keyId(k[..]) != id) && View(t) == old(View(t))
      ensures place.Some? ==>
        && place.value < |ring.keys| && keyId(ring.keys[place.value][..]) == id
        && (forall j :: 0 <= j < place.value ==> keyId(ring.keys[j][..]) != id)
        && var chunks := Announced(p, ring.keys[place.value][..], parse, data);
           && View(t) == Started(old(View(t)), chunks)
           && (chunks.Some? && T.Accept(chunks.value).Some? ==> t in incoming && incoming[t].key == ring.keys[place.value])
    {
      var found, at := ring.FindKeyById(keyId, id);
      place := if found.None? then None else Some(at);
      if found.None? {
        return;
      }
      var text := E.DecryptMessage(p, found.value[..], data);
      if text.Err? {
        return;
      }
      var chunks := parse(text.value);
      if chunks.None? || chunks.value < 1 || chunks.value > T.MAX_CHUNKS {
        return;
      }
      var inc := new IncomingFile(found.value, chunks.value);
      incoming := incoming[t := inc];
    }

    /** Whatever the captured array holds by now is the key the chunk is opened with. */
    method OnFileChunk(p: E.Prims, t: string, index: int, data: string)
      requires Valid()
      modifies this, Repr()
      ensures Valid()
      ensures forall u: string :: u != t ==> View(u) == old(View(u))
      ensures t !in old(incoming) ==> View(t) == old(View(t))
      ensures t in old(incoming) ==> View(t) == T.OnChunk(old(View(t)), index, Opened(p, old(incoming[t].key[..]), data))
      ensures t in incoming ==> t in old(incoming) && incoming[t] == old(incoming[t])
    {
      if t !in incoming {
        return;
      }
      hide Opened, T.Assemble, T.Filled;
      var inc := incoming[t];
      if index < 0 || index >= inc.parts.Length || inc.parts[index].Some? {
        return;
      }
      var chunk := Opened(p, inc.key[..], data);
      if chunk.None? {
        return;
      }
      FillSlot(t, index, chunk);
    }

    method FillSlot(t: string, index: int, chunk: Option<Bytes>)
      requires Valid() && t in incoming && chunk.Some?
      requires 0 <= index < incoming[t].parts.Length && incoming[t].parts[index].None?
      modifies this, incoming[t], incoming[t].parts
      ensures Valid()
      ensures forall u: string :: u != t ==> View(u) == old(View(u))
      ensures View(t) == T.OnChunk(old(View(t)), index, chunk)
      ensures t in incoming ==> incoming[t] == old(incoming[t])
    {
      hide T.Assemble, T.Filled;
      var inc := incoming[t];
      ghost var before := inc.View();
      inc.parts[index] := chunk;
      inc.received := inc.received + 1;
      assert inc.View() == T.Incoming(before.parts[index := chunk], before.received + 1);
      if inc.received == inc.parts.Length {
        FinishIncoming(t);
      }
    }

    method FinishIncoming(t: string)
      requires Valid() && t in incoming
      modifies this
      ensures Valid() && incoming == old(incoming) - {t} && failures == old(failures)
      ensures files == old(files)[t := (if t in old(files) then old(files)[t] else []) + [T.Assemble(old(incoming)[t].parts[..])]]
    {
      var parts := incoming[t].parts;
      incoming := incoming - {t};
      var blob: Bytes := [];
      for i := 0 to parts.Length
        invariant blob == T.Assemble(parts[..i])
        invariant incoming == old(incoming) - {t} && files == old(files) && failures == old(failures)
      {
        T.AssembleSnoc(parts[..i], parts[i]);
        assert parts[..i + 1] == parts[..i] + [parts[i]];
        blob := blob + T.Part(parts[i]);
      }
      assert parts[..parts.Length] == parts[..];
      files := files[t := (if t in files then files[t] else []) + [blob]];
    }

    method OnFileEnd(t: string)
      requires Valid()
      modifies this
      ensures Valid()
      ensures forall u: string :: u != t ==> View(u) == old(View(u))
      ensures View(t) == T.OnEnd(old(View(t)))
    {
      if t in incoming {
        incoming := incoming - {t};
        failures := failures[t := (if t in failures then failures[t] else 0) + 1];
      }
    }
  }
}

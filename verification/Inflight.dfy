/**
How the relay counts the bytes of file transfers in progress
(server/internal/httpapi/server.go, `handleFile` and the deferred cleanup). The
counter is shared and changed by single atomic adds, so each add is one step and
all connections interleave between them; a connection's own transfer table is
touched by its own thread only.
*/
module Inflight {
  import opened Options
  import opened Sums

  type ConnId = nat
  type Transfer = string

  // ----- the machine

  /** Reading a frame; taking an add back after the cap was hit, then aborting the
      transfer; or in the deferred cleanup. */
  datatype Pc = Reading | Rolling(t: Transfer, size: nat) | Aborting(t: Transfer) | Ending | Ended

  datatype Conn = Conn(files: map<Transfer, nat>, pc: Pc)

  /** `leaked` counts, as history, the bytes whose entry a `file_start` reset. */
  datatype World = World(maxFile: int, maxInflight: int, inflight: int, conns: map<ConnId, Conn>, leaked: nat)

  datatype Step =
    | Connect(c: ConnId)
    | Start(c: ConnId, t: Transfer)
    | Chunk(c: ConnId, t: Transfer, size: nat)
    | Finish(c: ConnId, t: Transfer)     // file_end or file_abort
    | Go(c: ConnId)                      // the rest of a rejected chunk
    | Quit(c: ConnId)                    // the connection ends at a read
    | Release(c: ConnId, t: Transfer)    // one round of the cleanup loop
    | Stop(c: ConnId)

  predicate IsAt(w: World, c: ConnId, pc: Pc) {
    c in w.conns && w.conns[c].pc == pc
  }

  predicate Enabled(w: World, s: Step) {
    match s
    case Connect(c) => c !in w.conns
    case Start(c, t) => IsAt(w, c, Reading) && t != ""
    case Chunk(c, t, size) => IsAt(w, c, Reading) && t != ""
    case Finish(c, t) => IsAt(w, c, Reading) && t != ""
    case Go(c) => c in w.conns && (w.conns[c].pc.Rolling? || w.conns[c].pc.Aborting?)
    case Quit(c) => IsAt(w, c, Reading)
    case Release(c, t) => IsAt(w, c, Ending) && t in w.conns[c].files
    case Stop(c) => IsAt(w, c, Ending) && w.conns[c].files == map[]
  }

  /** `FileTransfers[t]`, and zero when there is no such entry. */
  function Counted(files: map<Transfer, nat>, t: Transfer): nat {
    if t in files then files[t] else 0
  }

  function Put(w: World, c: ConnId, k: Conn, delta: int): World {
    w.(conns := w.conns[c := k], inflight := w.inflight + delta)
  }

  /** `finishFile`. */
  function Finished(w: World, c: ConnId, t: Transfer): World
    requires c in w.conns
  {
    Put(w, c, Conn(w.conns[c].files - {t}, Reading), 0 - Counted(w.conns[c].files, t))
  }

  /** `file_chunk`, up to its add to the counter. */
  function Chunked(w: World, c: ConnId, t: Transfer, size: nat): World
    requires c in w.conns
  {
    var files := w.conns[c].files;
    if t !in files then w
    else if files[t] + size > w.maxFile then Put(w, c, Conn(files, Aborting(t)), 0)
    else if w.inflight + size > w.maxInflight then Put(w, c, Conn(files, Rolling(t, size)), size)
    else Put(w, c, Conn(files[t := files[t] + size], Reading), size)
  }

  function Apply(w: World, s: Step): World
    requires Enabled(w, s)
  {
    match s
    case Connect(c) => Put(w, c, Conn(map[], Reading), 0)
    case Start(c, t) => Put(w, c, Conn(w.conns[c].files[t := 0], Reading), 0).(leaked := w.leaked + Counted(w.conns[c].files, t))
    case Chunk(c, t, size) => Chunked(w, c, t, size)
    case Finish(c, t) => Finished(w, c, t)
    case Go(c) =>
      var k := w.conns[c];
      if k.pc.Rolling? then Put(w, c, k.(pc := Aborting(k.pc.t)), 0 - k.pc.size) else Finished(w, c, k.pc.t)
    case Quit(c) => Put(w, c, w.conns[c].(pc := Ending), 0)
    case Release(c, t) => Put(w, c, Conn(w.conns[c].files - {t}, Ending), 0 - Counted(w.conns[c].files, t))
    case Stop(c) => Put(w, c, w.conns[c].(pc := Ended), 0)
  }

  predicate Goes(w: World, s: Step, w': World) {
    Enabled(w, s) && Apply(w, s) == w'
  }

  ghost predicate Runs(ws: seq<World>, ss: seq<Step>, maxFile: int, maxInflight: int) {
    && |ws| == |ss| + 1 && ws[0] == World(maxFile, maxInflight, 0, map[], 0)
    && forall i :: 0 <= i < |ss| ==> Goes(ws[i], ss[i], ws[i + 1])
  }

  // ----- what is counted

  ghost function FileBytes(conns: map<ConnId, Conn>): map<ConnId, nat> {
    map c | c in conns :: Sum(conns[c].files)
  }

  function HeldBytes(conns: map<ConnId, Conn>): map<ConnId, nat> {
    map c | c in conns :: Held(conns[c].pc)
  }

  /** Bytes of transfers that were let through. */
  ghost function Committed(w: World): nat {
    Sum(FileBytes(w.conns))
  }

  function Held(pc: Pc): nat {
    if pc.Rolling? then pc.size else 0
  }

  /** Bytes added but about to be taken back. */
  ghost function Reserved(w: World): nat {
    Sum(HeldBytes(w.conns))
  }

  function AtLeastZero(n: int): nat {
    if n < 0 then 0 else n
  }

  ghost predicate Accounted(w: World) {
    && w.inflight == Committed(w) + Reserved(w) + w.leaked
    && Committed(w) + w.leaked <= AtLeastZero(w.maxInflight)
    && (forall c <- w.conns, t <- w.conns[c].files :: w.conns[c].files[t] <= AtLeastZero(w.maxFile))
    && forall c <- w.conns :: w.conns[c].pc.Ended? ==> w.conns[c].files == map[]
  }

  /** How the totals move when one connection's record does. */
  lemma PutMoves(w: World, c: ConnId, k: Conn, delta: int)
    ensures
      var w' := Put(w, c, k, delta);
      var had := if c in w.conns then w.conns[c] else Conn(map[], Reading);
      && Committed(w') == Committed(w) + Sum(k.files) - Sum(had.files)
      && Reserved(w') == Reserved(w) + Held(k.pc) - Held(had.pc)
  {
    SumPut(FileBytes(w.conns), c, Sum(k.files));
    SumPut(HeldBytes(w.conns), c, Held(k.pc));
    PutMaps(w.conns, c, k);
    hide FileBytes, HeldBytes;
  }

  lemma PutMaps(conns: map<ConnId, Conn>, c: ConnId, k: Conn)
    ensures FileBytes(conns[c := k]) == FileBytes(conns)[c := Sum(k.files)]
    ensures HeldBytes(conns[c := k]) == HeldBytes(conns)[c := Held(k.pc)]
    ensures FileBytes(conns).Keys == HeldBytes(conns).Keys == conns.Keys
    ensures c in conns ==> FileBytes(conns)[c] == Sum(conns[c].files) && HeldBytes(conns)[c] == Held(conns[c].pc)
  {
  }

  function Record(w: World, c: ConnId): Conn {
    if c in w.conns then w.conns[c] else Conn(map[], Reading)
  }

  /** A change of `c`'s record by as many bytes as are added to the counter or leaked;
      more is let through only under the cap. */
  lemma ChangeKeeps(w: World, c: ConnId, k: Conn, delta: int, leak: nat)
    requires Accounted(w)
    requires Sum(k.files) + Held(k.pc) + leak == Sum(Record(w, c).files) + Held(Record(w, c).pc) + delta
    requires Sum(k.files) + leak <= Sum(Record(w, c).files) || (w.inflight + delta <= w.maxInflight && Held(k.pc) == 0)
    requires forall t <- k.files :: k.files[t] <= AtLeastZero(w.maxFile)
    requires k.pc.Ended? ==> k.files == map[]
    ensures Accounted(Put(w, c, k, delta).(leaked := w.leaked + leak))
  {
    PutMoves(w, c, k, delta);
    SameTotals(Put(w, c, k, delta), Put(w, c, k, delta).(leaked := w.leaked + leak));
    hide Committed, Reserved, Sum;
  }

  lemma SameTotals(w: World, w': World)
    requires w'.conns == w.conns
    ensures Committed(w') == Committed(w) && Reserved(w') == Reserved(w)
  {
  }

  lemma FinishKeeps(w: World, c: ConnId, t: Transfer)
    requires Accounted(w) && c in w.conns && Held(w.conns[c].pc) == 0
    ensures Accounted(Finished(w, c, t))
  {
    var files := w.conns[c].files;
    SumPut(files, t, 0);
    hide Sum, Committed, Reserved;
    ChangeKeeps(w, c, Conn(files - {t}, Reading), 0 - Counted(files, t), 0);
  }

  lemma FilesCapped(w: World, c: ConnId, t: Transfer, n: nat, files: map<Transfer, nat>)
    requires Accounted(w) && c in w.conns && n <= w.maxFile && files == w.conns[c].files[t := n]
    ensures forall u <- files :: files[u] <= AtLeastZero(w.maxFile)
  {
    hide Committed, Reserved;
  }

  lemma CommitKeeps(w: World, c: ConnId, t: Transfer, size: nat)
    requires Accounted(w) && IsAt(w, c, Reading) && t in w.conns[c].files
    requires w.conns[c].files[t] + size <= w.maxFile && w.inflight + size <= w.maxInflight
    ensures Accounted(Put(w, c, Conn(w.conns[c].files[t := w.conns[c].files[t] + size], Reading), size))
  {
    hide Sum, Committed, Reserved, Accounted;
    var files := w.conns[c].files;
    var n := files[t] + size;
    SumPut(files, t, n);
    FilesCapped(w, c, t, n, files[t := n]);
    ChangeKeeps(w, c, Conn(files[t := n], Reading), size, 0);
    assert Put(w, c, Conn(files[t := n], Reading), size).(leaked := w.leaked + 0) == Put(w, c, Conn(files[t := n], Reading), size);
  }

  lemma ChunkKeeps(w: World, c: ConnId, t: Transfer, size: nat)
    requires Accounted(w) && IsAt(w, c, Reading)
    ensures Accounted(Chunked(w, c, t, size))
  {
    var files := w.conns[c].files;
    hide Accounted, Put;
    if t in files {
      if files[t] + size > w.maxFile {
        PauseKeeps(w, c, Aborting(t), 0);
      } else if w.inflight + size > w.maxInflight {
        PauseKeeps(w, c, Rolling(t, size), size);
      } else {
        CommitKeeps(w, c, t, size);
      }
    }
  }

  /** A rejected chunk leaves the table alone for now. */
  lemma PauseKeeps(w: World, c: ConnId, pc: Pc, size: nat)
    requires Accounted(w) && IsAt(w, c, Reading) && !pc.Ended? && Held(pc) == size
    ensures Accounted(Put(w, c, Conn(w.conns[c].files, pc), size))
  {
    ChangeKeeps(w, c, Conn(w.conns[c].files, pc), size, 0);
  }

  lemma StepKeeps(w: World, s: Step)
    requires Enabled(w, s) && Accounted(w)
    ensures Accounted(Apply(w, s))
  {
    assert Sum<Transfer>(map[]) == 0;
    hide Sum, Committed, Reserved;
    match s
    case Connect(c) => ChangeKeeps(w, c, Conn(map[], Reading), 0, 0);
    case Start(c, t) =>
      SumPut(w.conns[c].files, t, 0);
      ChangeKeeps(w, c, Conn(w.conns[c].files[t := 0], Reading), 0, Counted(w.conns[c].files, t));
    case Chunk(c, t, size) => ChunkKeeps(w, c, t, size);
    case Finish(c, t) => FinishKeeps(w, c, t);
    case Go(c) =>
      var k := w.conns[c];
      if k.pc.Rolling? {
        ChangeKeeps(w, c, k.(pc := Aborting(k.pc.t)), 0 - k.pc.size, 0);
      } else {
        FinishKeeps(w, c, k.pc.t);
      }
    case Quit(c) => ChangeKeeps(w, c, w.conns[c].(pc := Ending), 0, 0);
    case Release(c, t) =>
      SumPut(w.conns[c].files, t, 0);
      ChangeKeeps(w, c, Conn(w.conns[c].files - {t}, Ending), 0 - Counted(w.conns[c].files, t), 0);
    case Stop(c) => ChangeKeeps(w, c, w.conns[c].(pc := Ended), 0, 0);
  }

  // ----- the theorems

  /** In every interleaving the counter is the bytes let through, plus those about to
      be taken back, plus those leaked by restarts; what was let through never exceeds
      the total cap, and no transfer exceeds the file cap. */
  lemma {:induction false} CounterIsExact(ws: seq<World>, ss: seq<Step>, maxFile: int, maxInflight: int, i: nat)
    requires Runs(ws, ss, maxFile, maxInflight) && i < |ws|
    ensures Accounted(ws[i])
    decreases i
  {
    if i == 0 {
      AllZero(FileBytes(ws[0].conns));
      AllZero(HeldBytes(ws[0].conns));
    } else {
      CounterIsExact(ws, ss, maxFile, maxInflight, i - 1);
      hide Apply, Enabled, Accounted;
      assert Goes(ws[i - 1], ss[i - 1], ws[i - 1 + 1]);
      StepKeeps(ws[i - 1], ss[i - 1]);
    }
  }

  /** A `file_start` for a transfer that is open and has bytes. */
  predicate Restarts(w: World, s: Step) {
    s.Start? && s.c in w.conns && Counted(w.conns[s.c].files, s.t) > 0
  }

  /** Exactly the restarts leak. */
  lemma {:induction false} OnlyRestartsLeak(ws: seq<World>, ss: seq<Step>, maxFile: int, maxInflight: int, i: nat)
    requires Runs(ws, ss, maxFile, maxInflight) && i < |ws|
    ensures ws[i].leaked == 0 <==> forall j :: 0 <= j < i ==> !Restarts(ws[j], ss[j])
    decreases i
  {
    if i > 0 {
      OnlyRestartsLeak(ws, ss, maxFile, maxInflight, i - 1);
      assert Goes(ws[i - 1], ss[i - 1], ws[i - 1 + 1]);
    }
  }

  /** When every session has ended the counter is zero again, unless some connection
      restarted a transfer that had bytes. */
  lemma ZeroAtTheEnd(ws: seq<World>, ss: seq<Step>, maxFile: int, maxInflight: int, i: nat)
    requires Runs(ws, ss, maxFile, maxInflight) && i < |ws| && forall c <- ws[i].conns :: ws[i].conns[c].pc.Ended?
    ensures ws[i].inflight == 0 <==> forall j :: 0 <= j < i ==> !Restarts(ws[j], ss[j])
    ensures ws[i].inflight >= 0
  {
    CounterIsExact(ws, ss, maxFile, maxInflight, i);
    OnlyRestartsLeak(ws, ss, maxFile, maxInflight, i);
    var w := ws[i];
    AllZero(FileBytes(w.conns));
    AllZero(HeldBytes(w.conns));
  }

  function One(inflight: int, files: map<Transfer, nat>, pc: Pc, leaked: nat): World {
    World(10, 10, inflight, map[0 := Conn(files, pc)], leaked)
  }

  lemma LeakBegins()
    ensures Goes(World(10, 10, 0, map[], 0), Connect(0), One(0, map[], Reading, 0))
    ensures Goes(One(0, map[], Reading, 0), Start(0, "t"), One(0, map["t" := 0], Reading, 0))
    ensures Goes(One(0, map["t" := 0], Reading, 0), Chunk(0, "t", 5), One(5, map["t" := 5], Reading, 0))
  {
    assert map["t" := 0]["t" := 5] == map["t" := 5];
  }

  lemma LeakEnds()
    ensures Goes(One(5, map["t" := 5], Reading, 0), Start(0, "t"), One(5, map["t" := 0], Reading, 5))
    ensures Goes(One(5, map["t" := 0], Reading, 5), Quit(0), One(5, map["t" := 0], Ending, 5))
    ensures Goes(One(5, map["t" := 0], Ending, 5), Release(0, "t"), One(5, map[], Ending, 5))
    ensures Goes(One(5, map[], Ending, 5), Stop(0), One(5, map[], Ended, 5))
  {
    assert map["t" := 5]["t" := 0] == map["t" := 0];
    assert map["t" := 0] - {"t"} == map[];
  }

  lemma LeakLeft()
    ensures var w := One(5, map[], Ended, 5); w.inflight == 5 && forall c <- w.conns :: w.conns[c].pc.Ended?
  {
  }

  /** A concrete leak: one connection restarts a transfer of five bytes and leaves. */
  lemma RestartLeaks() returns (ws: seq<World>, ss: seq<Step>)
    ensures Runs(ws, ss, 10, 10) && ws[|ss|].inflight == 5
    ensures forall c <- ws[|ss|].conns :: ws[|ss|].conns[c].pc.Ended?
  {
    hide Goes, One;
    LeakBegins();
    LeakEnds();
    LeakLeft();
    ss := [Connect(0), Start(0, "t"), Chunk(0, "t", 5), Start(0, "t"), Quit(0), Release(0, "t"), Stop(0)];
    ws := [World(10, 10, 0, map[], 0), One(0, map[], Reading, 0), One(0, map["t" := 0], Reading, 0), One(5, map["t" := 5], Reading, 0),
           One(5, map["t" := 0], Reading, 5), One(5, map["t" := 0], Ending, 5), One(5, map[], Ending, 5), One(5, map[], Ended, 5)];
  }
}

/**
The file-transfer part of one connection as the server runs it: the client's own
table and the hub's counter, changed in place. Run alone, each frame does what the
machine of module Inflight does when one connection's steps are not interleaved.
*/
module FileRelay {
  import opened Options
  import opened Sums
  import I = Inflight

  type Transfer = I.Transfer

  datatype Frame = FileStart(t: Transfer) | FileChunk(t: Transfer, data: string) | FileEnd(t: Transfer) | FileAbort(t: Transfer)

  /** What the room's other members are sent, and what the sender is told. */
  datatype Outcome = Ignored | Relayed | TooLarge | Busy

  class Counter {
    const maxFile: int
    const maxInflight: int
    var inflight: int

    constructor (maxFile: int, maxInflight: int)
      ensures this.maxFile == maxFile && this.maxInflight == maxInflight && inflight == 0
    {
      this.maxFile, this.maxInflight, inflight := maxFile, maxInflight, 0;
    }

    method AddInflight(delta: int) returns (total: int)
      modifies this
      ensures total == inflight == old(inflight) + delta
    {
      inflight := inflight + delta;
      total := inflight;
    }
  }

  /** A machine with one connection, about to read a frame. */
  function Alone(hub: Counter, files: map<Transfer, nat>): I.World
    reads hub
  {
    I.World(hub.maxFile, hub.maxInflight, hub.inflight, map[0 := I.Conn(files, I.Reading)], 0)
  }

  function AsStep(f: Frame): I.Step {
    match f
    case FileStart(t) => I.Start(0, t)
    case FileChunk(t, data) => I.Chunk(0, t, |data|)
    case FileEnd(t) => I.Finish(0, t)
    case FileAbort(t) => I.Finish(0, t)
  }

  /** Runs a rejected chunk to its end. */
  function Settled(w: I.World): I.World
    requires 0 in w.conns
    decreases if w.conns[0].pc.Rolling? then 2 else if w.conns[0].pc.Aborting? then 1 else 0
  {
    if w.conns[0].pc.Rolling? || w.conns[0].pc.Aborting? then Settled(I.Apply(w, I.Go(0))) else w
  }

  /** A chunk of an unknown or already aborted transfer is dropped; the file cap is
      looked at before the total cap. */
  function Judged(files: map<Transfer, nat>, inflight: int, maxFile: int, maxInflight: int, t: Transfer, size: nat): Outcome {
    if t !in files then Ignored
    else if files[t] + size > maxFile then TooLarge
    else if inflight + size > maxInflight then Busy
    else Relayed
  }

  class Sender {
    var fileTransfers: map<Transfer, nat>

    constructor ()
      ensures fileTransfers == map[]
    {
      fileTransfers := map[];
    }

    method HandleFile(hub: Counter, f: Frame) returns (outcome: Outcome)
      modifies this, hub
      ensures f.t == "" ==> outcome == Ignored && fileTransfers == old(fileTransfers) && hub.inflight == old(hub.inflight)
      ensures f.t != "" ==>
        var w := Settled(I.Apply(old(Alone(hub, fileTransfers)), AsStep(f)));
        w.conns == map[0 := I.Conn(fileTransfers, I.Reading)] && w.inflight == hub.inflight
      ensures f.t != "" && !f.FileChunk? ==> outcome == Relayed
      ensures f.t != "" && f.FileChunk? ==> outcome == Judged(old(fileTransfers), old(hub.inflight), hub.maxFile, hub.maxInflight, f.t, |f.data|)
    {
      if f.t == "" {
        return Ignored;
      }
      match f
      case FileStart(t) =>
        fileTransfers := fileTransfers[t := 0];
        return Relayed;
      case FileChunk(t, data) =>
        outcome := Chunk(hub, t, |data|);
      case FileEnd(t) =>
        FinishFile(hub, t);
        return Relayed;
      case FileAbort(t) =>
        FinishFile(hub, t);
        return Relayed;
    }

    method Chunk(hub: Counter, t: Transfer, size: nat) returns (outcome: Outcome)
      requires t != ""
      modifies this, hub
      ensures
        var w := Settled(I.Apply(old(Alone(hub, fileTransfers)), I.Chunk(0, t, size)));
        w.conns == map[0 := I.Conn(fileTransfers, I.Reading)] && w.inflight == hub.inflight
      ensures outcome == Judged(old(fileTransfers), old(hub.inflight), hub.maxFile, hub.maxInflight, t, size)
    {
      if t !in fileTransfers {
        return Ignored;
      }
      var cur := fileTransfers[t];
      if cur + size > hub.maxFile {
        FinishFile(hub, t);
        return TooLarge;
      }
      var total := hub.AddInflight(size);
      if total > hub.maxInflight {
        var added: int := size;
        var _ := hub.AddInflight(-added);
        ghost var w := I.Apply(old(Alone(hub, fileTransfers)), I.Chunk(0, t, size));
        assert Settled(w) == Settled(I.Apply(w, I.Go(0))) == Settled(I.Apply(I.Apply(w, I.Go(0)), I.Go(0)));
        FinishFile(hub, t);
        return Busy;
      }
      fileTransfers := fileTransfers[t := cur + size];
      return Relayed;
    }

    method FinishFile(hub: Counter, t: Transfer)
      modifies this, hub
      ensures fileTransfers == old(fileTransfers) - {t}
      ensures hub.inflight == old(hub.inflight) - I.Counted(old(fileTransfers), t)
    {
      if t in fileTransfers {
        var bytes: int := fileTransfers[t];
        var _ := hub.AddInflight(-bytes);
        fileTransfers := fileTransfers - {t};
      } else {
        assert fileTransfers - {t} == fileTransfers;
      }
    }

    /** The deferred cleanup gives back everything this connection still held. */
    method ReleaseAll(hub: Counter)
      modifies hub
      ensures hub.inflight == old(hub.inflight) - Sum(fileTransfers)
    {
      var rest := fileTransfers;
      while rest != map[]
        invariant forall t <- rest :: t in fileTransfers && rest[t] == fileTransfers[t]
        invariant hub.inflight - Sum(rest) == old(hub.inflight) - Sum(fileTransfers)
        decreases |rest|
      {
        var t :| t in rest;
        SumSplit(rest, t);
        var bytes: int := rest[t];
        var _ := hub.AddInflight(-bytes);
        rest := rest - {t};
      }
    }
  }
}

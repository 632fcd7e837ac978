/** The client's half of file transfer as the program runs it (chatclientd/transfers.go,
    chatclientd/files.go): a table of transfers, the files open for writing, and the disk. */
module Files {
  import opened Wrappers
  import opened Names
  import opened RelayModel
  import opened TransferModel

  /** The transfer table and the handles of the files that are landing. */
  class Transfers {
    var byId: map<TransferId, Transfer>
    var open: map<TransferId, string>

    constructor ()
      ensures byId == map[] && open == map[]
    {
      byId, open := map[], map[];
    }

    method Put(id: TransferId, tr: Transfer)
      modifies `byId
      ensures byId == old(byId)[id := tr]
    {
      byId := byId[id := tr];
    }

    method Get(id: TransferId) returns (tr: Option<Transfer>)
      ensures tr == if id in byId then Some(byId[id]) else None
    {
      tr := if id in byId then Some(byId[id]) else None;
    }

    method Update(id: TransferId, fn: Transfer -> Transfer) returns (tr: Option<Transfer>)
      modifies `byId
      ensures byId == if id in old(byId) then old(byId)[id := fn(old(byId)[id])] else old(byId)
      ensures tr == if id in byId then Some(byId[id]) else None
    {
      if id !in byId { return None; }
      byId := byId[id := fn(byId[id])];
      tr := Some(byId[id]);
    }

    ghost function LiveWith(peer: PeerId): set<TransferId>
      reads this
    {
      set id | id in byId && byId[id].peer == peer && byId[id].state.Live()
    }

    /** How many transfers with one person are waiting or moving. */
    method Active(peer: PeerId) returns (n: nat)
      ensures n == |LiveWith(peer)|
    {
      n := 0;
      var todo := byId.Keys;
      ghost var counted: set<TransferId> := {};
      while todo != {}
        invariant todo <= byId.Keys && n == |counted|
        invariant forall id :: id in counted <==> id in LiveWith(peer) && id !in todo
        decreases todo
      {
        var id :| id in todo;
        if byId[id].peer == peer && byId[id].state.Live() {
          n := n + 1;
          counted := counted + {id};
        }
        todo := todo - {id};
      }
      assert counted == LiveWith(peer);
    }

    method OpenFile(id: TransferId, path: string)
      modifies `open
      ensures open == old(open)[id := path]
    {
      open := open[id := path];
    }

    method TakeFile(id: TransferId)
      modifies `open
      ensures open == old(open) - {id}
    {
      open := open - {id};
    }
  }

  /** The table, the open files and the disk together; each transfer looks like a landing. */
  datatype Folder = Folder(byId: map<TransferId, Transfer>, open: map<TransferId, string>, disk: map<string, seq<Byte>>)
  {
    predicate Lands(i: TransferId) { i in byId && byId[i].incoming && byId[i].path != "" }

    /** Different transfers land in different files; an open file is there, is no other
        transfer's, and is the one being written while its transfer is running. */
    ghost predicate Ok() { PathsApart() && HandlesOk() && HandlesApart() }

    ghost predicate PathsApart() {
      forall i, j :: Lands(i) && Lands(j) && i != j ==> byId[i].path != byId[j].path
    }

    ghost predicate HandlesOk() {
      forall i :: i in open ==>
        && i in byId && byId[i].incoming && open[i] in disk
        && (byId[i].state.Running? ==> byId[i].path != "" && open[i] == byId[i].path)
    }

    ghost predicate HandlesApart() {
      forall i, j :: i in open && Lands(j) && i != j ==> byId[j].path != open[i]
    }

    function View(id: TransferId): Landing
      requires id in byId
    {
      var tr := byId[id];
      Landing(tr, id in open, if tr.incoming && tr.path != "" && tr.path in disk then Some(disk[tr.path]) else None)
    }
  }

  /** One transfer has come to look like l, and no other has changed. */
  ghost predicate Changed(f: Folder, g: Folder, id: TransferId, l: Landing) {
    && g.Ok() && g.byId.Keys == f.byId.Keys && id in g.byId && g.View(id) == l
    && forall j :: j in g.byId && j != id ==> g.View(j) == f.View(j)
  }

  lemma FailChanges(f: Folder, id: TransferId)
    requires f.Ok() && id in f.byId
    ensures Changed(f, f.(byId := f.byId[id := f.byId[id].(state := Failed)], open := f.open - {id}), id,
                    FailedLanding(f.View(id)))
  {
  }

  function Released(f: Folder, id: TransferId, st: TState): Folder
    requires id in f.byId
  {
    var tr := f.byId[id];
    if tr.incoming && tr.path != "" then
      Folder(f.byId[id := tr.(state := st, path := "")], f.open - {id}, f.disk - {tr.path})
    else f.(byId := f.byId[id := tr.(state := st)], open := f.open - {id})
  }

  lemma ReleasedOk(f: Folder, id: TransferId, st: TState)
    requires f.Ok() && id in f.byId
    ensures Released(f, id, st).Ok()
  {
    ReleasedHandles(f, id, st);
    assert forall i :: Released(f, id, st).Lands(i) ==>
      f.Lands(i) && Released(f, id, st).byId[i].path == f.byId[i].path;
  }

  lemma ReleasedHandles(f: Folder, id: TransferId, st: TState)
    requires f.HandlesOk() && f.HandlesApart() && id in f.byId
    ensures Released(f, id, st).HandlesOk()
  {
    assert forall i :: i in f.open && i != id && f.Lands(id) ==> f.open[i] != f.byId[id].path;
  }

  lemma ReleasedView(f: Folder, id: TransferId, st: TState)
    requires id in f.byId
    ensures Released(f, id, st).View(id) == CalledOff(f.View(id), st)
  {
  }

  lemma ReleasedElsewhere(f: Folder, id: TransferId, st: TState, j: TransferId)
    requires f.Ok() && id in f.byId && j in f.byId && j != id
    ensures Released(f, id, st).View(j) == f.View(j)
  {
    assert f.Lands(j) && f.Lands(id) ==> f.byId[j].path != f.byId[id].path;
  }

  /** A transfer called off takes only its own file with it. */
  lemma CallOffChanges(f: Folder, id: TransferId, st: TState)
    requires f.Ok() && id in f.byId
    ensures Changed(f, Released(f, id, st), id, CalledOff(f.View(id), st))
  {
    ReleasedOk(f, id, st);
    ReleasedView(f, id, st);
    forall j | j in f.byId && j != id ensures Released(f, id, st).View(j) == f.View(j) {
      ReleasedElsewhere(f, id, st, j);
    }
  }

  lemma AcceptChanges(f: Folder, id: TransferId, path: string)
    requires f.Ok() && id in f.byId && f.byId[id].incoming && f.byId[id].state.Incoming?
    requires path != "" && path !in f.disk && forall j :: j in f.byId ==> f.byId[j].path != path
    ensures Changed(f,
                    Folder(f.byId[id := f.byId[id].(state := Running, path := path, done := 0)], f.open[id := path],
                           f.disk[path := []]),
                    id, Accepted(f.View(id), path))
  {
    AcceptOk(f, id, path);
  }

  lemma AcceptOk(f: Folder, id: TransferId, path: string)
    requires f.Ok() && id in f.byId && f.byId[id].incoming
    requires path != "" && path !in f.disk && forall j :: j in f.byId ==> f.byId[j].path != path
    ensures Folder(f.byId[id := f.byId[id].(state := Running, path := path, done := 0)], f.open[id := path],
                   f.disk[path := []]).Ok()
  {
    assert forall i :: i in f.open ==> f.open[i] != path;
  }

  lemma WriteChanges(f: Folder, id: TransferId, data: seq<Byte>)
    requires f.Ok() && id in f.byId && id in f.open && f.byId[id].state.Running?
    requires f.byId[id].done + |data| <= f.byId[id].size
    ensures var path := f.open[id];
      Changed(f,
              f.(byId := f.byId[id := f.byId[id].(done := f.byId[id].done + |data|)],
                 disk := f.disk[path := f.disk[path] + data]),
              id, Chunked(f.View(id), f.byId[id].done, data))
  {
    assert f.Lands(id);
  }

  /** A file that does not match is removed with the transfer. */
  lemma MismatchChanges(f: Folder, id: TransferId)
    requires f.Ok() && id in f.byId && f.Lands(id)
    ensures Changed(f, Folder(f.byId[id := f.byId[id].(state := Failed)], f.open - {id}, f.disk - {f.byId[id].path}),
                    id, FailedLanding(f.View(id)).(disk := None))
  {
    MismatchOk(f, id);
    assert forall j :: j in f.byId && j != id && f.Lands(j) ==> f.byId[j].path != f.byId[id].path;
  }

  lemma MismatchOk(f: Folder, id: TransferId)
    requires f.Ok() && id in f.byId && f.Lands(id)
    ensures Folder(f.byId[id := f.byId[id].(state := Failed)], f.open - {id}, f.disk - {f.byId[id].path}).Ok()
  {
    assert forall i :: i in f.open && i != id ==> f.open[i] != f.byId[id].path;
  }

  lemma FinishChanges(f: Folder, id: TransferId)
    requires f.Ok() && id in f.byId && f.byId[id].incoming
    ensures var tr := f.byId[id];
      Changed(f, f.(byId := f.byId[id := tr.(state := Finished, done := tr.size)], open := f.open - {id}),
              id, f.View(id).(open := false, tr := tr.(state := Finished, done := tr.size)))
  {
  }

  /** Our own offers have nothing on disk to keep apart. */
  lemma OutgoingChanges(f: Folder, id: TransferId, tr: Transfer)
    requires f.Ok() && id in f.byId && !f.byId[id].incoming && !tr.incoming
    ensures Changed(f, f.(byId := f.byId[id := tr]), id, Landing(tr, false, None))
  {
    assert !f.Lands(id);
  }

  /** An offer takes the place of whatever was there under its id; a file that was open stays open. */
  lemma NewChanges(f: Folder, id: TransferId, tr: Transfer)
    requires f.Ok() && tr.path == "" && tr.incoming && tr.state.Incoming?
    ensures var g := f.(byId := f.byId[id := tr]);
      g.Ok() && g.View(id) == Landing(tr, id in f.open, None)
      && forall j :: j in f.byId && j != id ==> g.View(j) == f.View(j)
  {
  }

  lemma NewOutgoing(f: Folder, id: TransferId, tr: Transfer)
    requires f.Ok() && id !in f.byId && !tr.incoming
    ensures var g := f.(byId := f.byId[id := tr]);
      g.Ok() && g.View(id) == Landing(tr, false, None) && forall j :: j in f.byId ==> g.View(j) == f.View(j)
  {
    assert !f.Lands(id);
  }

  /** Only the progress of one outgoing transfer has moved, and perhaps what has become of it. */
  ghost predicate Pushing(f: Folder, g: Folder, id: TransferId) {
    && id in f.byId && id in g.byId && !f.byId[id].incoming
    && g == f.(byId := f.byId[id := f.byId[id].(done := g.byId[id].done, state := g.byId[id].state)])
  }

  /** What somebody else may make of a transfer that is being pushed. */
  predicate Ended(st: TState) { st.Declined? || st.Cancelled? || st.Failed? }

  /** Slices of a file, none empty and none over the limit. */
  predicate Slices(fs: seq<Transport>) { forall f :: f in fs && f.Chunk? ==> 0 < |f.data| <= CHUNK_SIZE }

  class FileClient {
    const xfers: Transfers
    const digest: seq<Byte> -> string
    var disk: map<string, seq<Byte>>
    var sent: seq<Transport>
    /** Whether we take ourselves to be connected, and how many more frames the connection will
        take before it drops. */
    var linked: bool
    var room: nat

    constructor (digest: seq<Byte> -> string, room: nat)
      ensures Valid() && fresh(xfers) && Abs() == Folder(map[], map[], map[]) && sent == [] && this.room == room
    {
      xfers := new Transfers();
      this.digest := digest;
      disk, sent := map[], [];
      linked, this.room := room > 0, room;
    }

    ghost function Abs(): Folder
      reads this, xfers
    {
      Folder(xfers.byId, xfers.open, disk)
    }

    ghost predicate Valid()
      reads this, xfers
    {
      Abs().Ok()
    }

    method Write(f: Transport) returns (ok: bool)
      modifies `sent, `room
      ensures ok <==> old(room) > 0
      ensures sent == if ok then old(sent) + [f] else old(sent)
      ensures room == if ok then old(room) - 1 else old(room)
    {
      ok := room > 0;
      if ok {
        sent := sent + [f];
        room := room - 1;
      }
    }

    method FailTransfer(id: TransferId) returns (known: bool)
      requires Valid() && id in xfers.byId
      modifies xfers
      ensures known && Changed(old(Abs()), Abs(), id, FailedLanding(old(Abs()).View(id)))
    {
      FailChanges(Abs(), id);
      xfers.TakeFile(id);
      var tr := xfers.Update(id, (t: Transfer) => t.(state := Failed));
      known := tr.Some?;
    }

    /** Everything in flight ends with the link. */
    method FailLiveTransfers()
      requires Valid()
      modifies xfers
      ensures Valid() && xfers.byId.Keys == old(xfers.byId).Keys
      ensures forall j :: j in xfers.byId ==>
        var was := old(Abs()).View(j); Abs().View(j) == if was.tr.state.Live() then FailedLanding(was) else was
    {
      ghost var f0 := Abs();
      var todo := xfers.byId.Keys;
      while todo != {}
        invariant Valid() && xfers.byId.Keys == f0.byId.Keys && todo <= xfers.byId.Keys
        invariant forall j :: j in todo ==> Abs().View(j) == f0.View(j)
        invariant forall j :: j in xfers.byId && j !in todo ==>
          Abs().View(j) == if f0.View(j).tr.state.Live() then FailedLanding(f0.View(j)) else f0.View(j)
        decreases todo
      {
        var id :| id in todo;
        assert Abs().View(id) == f0.View(id);
        if xfers.byId[id].state.Live() { var _ := FailTransfer(id); }
        todo := todo - {id};
      }
    }

    /** An offer from somebody with too many open is declined; one that is taken waits, in place of
        whatever was there under its id. */
    method OnOffer(id: TransferId, from: PeerId, size: int, sum: string) returns (taken: bool)
      requires Valid()
      modifies `sent, `room, xfers`byId
      ensures taken <==>
        (id != "" && from != "" && 0 <= size <= MAX_TRANSFER_BYTES && |old(xfers.LiveWith(from))| < MAX_OPEN_TRANSFERS)
      ensures Valid()
      ensures Abs() ==
        if taken then old(Abs()).(byId := old(xfers.byId)[id := NewLanding(from, size, sum).tr])
        else old(Abs())
      ensures taken ==>
        sent == old(sent) && Abs().View(id) == NewLanding(from, size, sum).(open := id in old(xfers.open))
      ensures forall j :: j in old(xfers.byId) && j != id ==> Abs().View(j) == old(Abs()).View(j)
    {
      if id == "" || from == "" || size < 0 || size > MAX_TRANSFER_BYTES { return false; }
      var n := xfers.Active(from);
      if n >= MAX_OPEN_TRANSFERS {
        var _ := Write(Decline(id, "", "too many transfers open"));
        return false;
      }
      NewChanges(Abs(), id, Transfer(from, true, size, sum, Incoming, 0, ""));
      xfers.Put(id, Transfer(from, true, size, sum, Incoming, 0, ""));
      taken := true;
    }

    method OpenLanding(id: TransferId, path: string)
      requires Valid() && path != "" && path !in disk && forall j :: j in xfers.byId ==> xfers.byId[j].path != path
      requires id in xfers.byId && xfers.byId[id].incoming && xfers.byId[id].state.Incoming?
      modifies `disk, xfers
      ensures Changed(old(Abs()), Abs(), id, Accepted(old(Abs()).View(id), path))
    {
      AcceptChanges(Abs(), id, path);
      disk := disk[path := []];
      xfers.OpenFile(id, path);
      var _ := xfers.Update(id, (t: Transfer) => t.(state := Running, path := path, done := 0));
    }

    /** Opens a fresh file and says yes; a connection that is gone fails the transfer. */
    method AcceptOffer(id: TransferId, path: string) returns (ok: bool)
      requires Valid() && path != "" && path !in disk && forall j :: j in xfers.byId ==> xfers.byId[j].path != path
      modifies this, xfers
      ensures ok <==>
        (id in old(xfers.byId) && old(xfers.byId)[id].incoming && old(xfers.byId)[id].state.Incoming? && old(room) > 0)
      ensures sent == if ok then old(sent) + [Accept(id, "")] else old(sent)
      ensures id !in old(xfers.byId) ==> Abs() == old(Abs())
      ensures id in old(xfers.byId) ==>
        var was := old(Abs()).View(id);
        var yes := Accepted(was, path);
        Changed(old(Abs()), Abs(), id, if yes != was && !ok then FailedLanding(yes) else yes)
    {
      var tr := xfers.Get(id);
      if tr.None? { return false; }
      if !tr.value.incoming || !tr.value.state.Incoming? { return false; }
      OpenLanding(id, path);
      ok := Write(Accept(id, ""));
      if !ok { var _ := FailTransfer(id); }
    }

    /** Ends a transfer by agreement, and takes what had landed off the disk. */
    method CallOff(id: TransferId, st: TState)
      requires Valid() && id in xfers.byId
      modifies `disk, xfers
      ensures Changed(old(Abs()), Abs(), id, CalledOff(old(Abs()).View(id), st))
    {
      CallOffChanges(Abs(), id, st);
      xfers.TakeFile(id);
      var tr := xfers.byId[id];
      if tr.incoming && tr.path != "" {
        disk := disk - {tr.path};
        xfers.Put(id, tr.(state := st, path := ""));
      } else {
        xfers.Put(id, tr.(state := st));
      }
    }

    method DeclineOffer(id: TransferId, reason: string) returns (known: bool)
      requires Valid()
      modifies this, xfers
      ensures known == (id in old(xfers.byId))
      ensures if known then Changed(old(Abs()), Abs(), id, CalledOff(old(Abs()).View(id), Cancelled))
        else Abs() == old(Abs())
      ensures sent ==
        if known && old(room) > 0 then old(sent) + [Decline(id, "", Clip(reason, MAX_REASON))] else old(sent)
    {
      known := id in xfers.byId;
      if known {
        CallOff(id, Cancelled);
        var _ := Write(Decline(id, "", Clip(reason, MAX_REASON)));
      }
    }

    method OnDeclined(id: TransferId)
      requires Valid()
      modifies `disk, xfers
      ensures if id in old(xfers.byId) then Changed(old(Abs()), Abs(), id, CalledOff(old(Abs()).View(id), Declined))
        else Abs() == old(Abs())
    {
      if id in xfers.byId { CallOff(id, Declined); }
    }

    method WriteSlice(id: TransferId, data: seq<Byte>)
      requires Valid() && id in xfers.byId && id in xfers.open && xfers.byId[id].state.Running?
      requires xfers.byId[id].done + |data| <= xfers.byId[id].size
      modifies `disk, xfers
      ensures Changed(old(Abs()), Abs(), id, Chunked(old(Abs()).View(id), old(xfers.byId)[id].done, data))
    {
      WriteChanges(Abs(), id, data);
      var path := xfers.open[id];
      disk := disk[path := disk[path] + data];
      var _ := xfers.Update(id, (t: Transfer) => t.(done := t.done + |data|));
    }

    method OnChunk(id: TransferId, offset: int, data: seq<Byte>)
      requires Valid()
      modifies `disk, xfers
      ensures if id in old(xfers.byId) then Changed(old(Abs()), Abs(), id, Chunked(old(Abs()).View(id), offset, data))
        else Abs() == old(Abs())
    {
      var found := xfers.Get(id);
      if found.None? { return; }
      var tr := found.value;
      if !tr.incoming || !tr.state.Running? { return; }
      if id !in xfers.open || offset != tr.done || tr.done + |data| > tr.size {
        var _ := FailTransfer(id);
        return;
      }
      WriteSlice(id, data);
    }

    method OnDone(id: TransferId)
      requires Valid()
      modifies `disk, xfers
      ensures if id in old(xfers.byId) then Changed(old(Abs()), Abs(), id, DoneLanding(old(Abs()).View(id), digest))
        else Abs() == old(Abs())
    {
      var found := xfers.Get(id);
      if found.None? || !found.value.incoming { return; }
      var tr := found.value;
      ghost var f0 := Abs();
      xfers.TakeFile(id);
      if tr.sum != "" && tr.path != "" && (tr.path !in disk || digest(disk[tr.path]) != tr.sum) {
        MismatchChanges(f0, id);
        disk := disk - {tr.path};
        var _ := xfers.Update(id, (t: Transfer) => t.(state := Failed));
        return;
      }
      FinishChanges(f0, id);
      var _ := xfers.Update(id, (t: Transfer) => t.(state := Finished, done := t.size));
    }

    /** Our offer was taken up, once. */
    method OnAccepted(id: TransferId) returns (push: bool)
      requires Valid()
      modifies xfers`byId
      ensures push <==> (id in old(xfers.byId) && !old(xfers.byId)[id].incoming && old(xfers.byId)[id].state.Offered?)
      ensures Valid()
      ensures Abs() ==
        if push then old(Abs()).(byId := old(xfers.byId)[id := old(xfers.byId)[id].(state := Running)])
        else old(Abs())
    {
      var found := xfers.Get(id);
      if found.None? || found.value.incoming || !found.value.state.Offered? { return false; }
      OutgoingChanges(Abs(), id, found.value.(state := Running));
      var _ := xfers.Update(id, (t: Transfer) => t.(state := Running));
      push := true;
    }

    /** Another goroutine may call the transfer off, or fail it, at any time. */
    method Meanwhile(id: TransferId)
      requires Valid() && id in xfers.byId && !xfers.byId[id].incoming
      modifies xfers`byId
      ensures Valid() && Pushing(old(Abs()), Abs(), id) && xfers.byId[id].done == old(xfers.byId)[id].done
      ensures xfers.byId[id].state == old(xfers.byId)[id].state || Ended(xfers.byId[id].state)
    {
      if * {
        var st: TState :| Ended(st);
        OutgoingChanges(Abs(), id, xfers.byId[id].(state := st));
        var _ := xfers.Update(id, (t: Transfer) => t.(state := st));
      }
    }

    /** One turn of the loop: a slice read and written. */
    method PushSlice(id: TransferId, file: seq<Byte>, off: nat) returns (n: nat, ok: bool)
      requires Valid() && id in xfers.byId && !xfers.byId[id].incoming && off < |file|
      modifies `sent, `room, xfers`byId
      ensures 0 < n <= CHUNK_SIZE && off + n <= |file| && ok == (old(room) > 0)
      ensures sent == if ok then old(sent) + [Chunk(id, "", off, file[off..off + n])] else old(sent)
      ensures room == if ok then old(room) - 1 else 0
      ensures Valid()
      ensures Abs() ==
        if ok then old(Abs()).(byId := old(xfers.byId)[id := old(xfers.byId)[id].(done := off + n)])
        else old(Abs())
    {
      n :| 0 < n <= CHUNK_SIZE && off + n <= |file|;
      OutgoingChanges(Abs(), id, xfers.byId[id].(done := off + n));
      ok := Write(Chunk(id, "", off, file[off..off + n]));
      if ok { var _ := xfers.Update(id, (t: Transfer) => t.(done := off + n)); }
    }

    /** Reads and writes a slice, if there is more. */
    method PushMore(id: TransferId, file: seq<Byte>, off: nat, ghost said: seq<Transport>)
      returns (off': nat, ghost said': seq<Transport>, more: bool)
      requires Valid() && id in xfers.byId && !xfers.byId[id].incoming && xfers.byId[id].state.Running?
      requires off <= |file| && Slices(said) && Flow(file, said, 0) == Some(off)
      modifies `sent, `room, xfers`byId
      ensures off <= off' <= |file| && id in xfers.byId && xfers.byId[id].state.Running?
      ensures !more && off' < |file| ==> room == 0
      ensures more ==> off < off'
      ensures said <= said' && sent == old(sent) + said'[|said|..] && Slices(said')
        && Flow(file, said', 0) == Some(off')
      ensures Valid() && Pushing(old(Abs()), Abs(), id)
    {
      off', said', more := off, said, false;
      if off < |file| {
        var n, ok := PushSlice(id, file, off);
        if ok {
          var chunk := Chunk(id, "", off, file[off..off + n]);
          FlowMore(file, said, chunk, 0);
          off', said', more := off + n, said + [chunk], true;
        }
      }
    }

    /** Looks at the transfer; while it is running and there is more, reads and writes a slice. */
    method PushTurn(id: TransferId, file: seq<Byte>, off: nat, ghost said: seq<Transport>)
      returns (off': nat, ghost said': seq<Transport>, running: bool, more: bool)
      requires Valid() && id in xfers.byId && !xfers.byId[id].incoming && xfers.byId[id].state.Running?
      requires off <= |file| && Slices(said) && Flow(file, said, 0) == Some(off)
      modifies `sent, `room, xfers`byId
      ensures off <= off' <= |file| && id in xfers.byId && running == xfers.byId[id].state.Running?
      ensures !running ==> Ended(xfers.byId[id].state)
      ensures running && !more && off' < |file| ==> room == 0
      ensures more ==> running && off < off'
      ensures said <= said' && sent == old(sent) + said'[|said|..] && Slices(said')
        && Flow(file, said', 0) == Some(off')
      ensures Valid() && Pushing(old(Abs()), Abs(), id)
    {
      off', said', more := off, said, false;
      Meanwhile(id);
      running := xfers.byId[id].state.Running?;
      if running { off', said', more := PushMore(id, file, off, said); }
    }

    /** Reads the file a slice at a time and writes each, looking at the transfer before every read,
        until the end, until the transfer is no longer running, or until the connection will not
        take a slice. */
    method PushSlices(id: TransferId, file: seq<Byte>) returns (off: nat, ghost said: seq<Transport>, running: bool)
      requires Valid() && id in xfers.byId && !xfers.byId[id].incoming && xfers.byId[id].state.Running?
      modifies `sent, `room, xfers`byId
      ensures off <= |file| && id in xfers.byId && running == xfers.byId[id].state.Running?
      ensures !running ==> Ended(xfers.byId[id].state)
      ensures running && off < |file| ==> room == 0
      ensures sent == old(sent) + said && Slices(said) && Flow(file, said, 0) == Some(off)
      ensures Valid() && Pushing(old(Abs()), Abs(), id)
    {
      off, said, running := 0, [], true;
      var more := true;
      while more
        invariant off <= |file| && id in xfers.byId && running == xfers.byId[id].state.Running?
        invariant more ==> running
        invariant !running ==> Ended(xfers.byId[id].state)
        invariant running && !more && off < |file| ==> room == 0
        invariant sent == old(sent) + said && Slices(said) && Flow(file, said, 0) == Some(off)
        invariant Valid() && Pushing(old(Abs()), Abs(), id)
        decreases |file| - off, more
      {
        ghost var was := said;
        off, said, running, more := PushTurn(id, file, off, said);
        assert said == was + said[|was|..];
      }
    }

    /** What has been written follows on from nothing to where it stopped. The transfer is finished
        exactly when it was still running at the end of the file, and done is written behind it;
        otherwise it was called off, or failed with the slice the connection would not take. */
    method PushFile(id: TransferId, file: seq<Byte>) returns (off: nat, ghost said: seq<Transport>)
      requires Valid() && id in xfers.byId && !xfers.byId[id].incoming && xfers.byId[id].state.Running?
      modifies `sent, `room, xfers
      ensures off <= |file| && Slices(said) && Flow(file, said, 0) == Some(off)
      ensures id in xfers.byId && (xfers.byId[id].state.Finished? || Ended(xfers.byId[id].state))
      ensures xfers.byId[id].state.Finished? ==>
        && off == |file| == xfers.byId[id].done
        && (sent == old(sent) + said + [Done(id, "", old(xfers.byId)[id].sum)]
            || (room == 0 && sent == old(sent) + said))
      ensures !xfers.byId[id].state.Finished? ==> sent == old(sent) + said
      ensures Valid() && forall j :: j in old(xfers.byId) && j != id ==>
        j in xfers.byId && Abs().View(j) == old(Abs()).View(j)
    {
      var running;
      off, said, running := PushSlices(id, file);
      if !running { return; }
      if off < |file| {
        var _ := FailTransfer(id);
        return;
      }
      FinishPush(id, off);
    }

    method FinishPush(id: TransferId, off: nat)
      requires Valid() && id in xfers.byId && !xfers.byId[id].incoming
      modifies `sent, `room, xfers`byId
      ensures Valid() && Pushing(old(Abs()), Abs(), id) && xfers.byId[id].state.Finished? && xfers.byId[id].done == off
      ensures sent == old(sent) + (if old(room) > 0 then [Done(id, "", old(xfers.byId)[id].sum)] else [])
      ensures old(room) == 0 ==> room == 0
    {
      var _ := Write(Done(id, "", xfers.byId[id].sum));
      OutgoingChanges(Abs(), id, xfers.byId[id].(state := Finished, done := off));
      var _ := xfers.Update(id, (t: Transfer) => t.(state := Finished, done := off));
    }

    method Record(id: TransferId, tr: Transfer)
      requires Valid() && (id in xfers.byId ==> !xfers.byId[id].incoming) && !tr.incoming
      modifies xfers`byId
      ensures Valid() && xfers.byId == old(xfers.byId)[id := tr]
      ensures forall j :: j in old(xfers.byId) && j != id ==> Abs().View(j) == old(Abs()).View(j)
    {
      if id in xfers.byId { OutgoingChanges(Abs(), id, tr); } else { NewOutgoing(Abs(), id, tr); }
      xfers.Put(id, tr);
    }

    /** Records our offer and announces it; a connection that turns out to be gone fails it. */
    method Announce(id: TransferId, conv: ConvId, tr: Transfer) returns (ok: bool)
      requires Valid() && id !in xfers.byId && !tr.incoming && tr.state.Offered?
      modifies `sent, `room, xfers
      ensures ok == (old(room) > 0)
      ensures xfers.byId == old(xfers.byId)[id := if ok then tr else tr.(state := Failed)]
      ensures Valid() && forall j :: j in old(xfers.byId) ==> Abs().View(j) == old(Abs()).View(j)
      ensures sent == if ok then old(sent) + [Offer(id, "", tr.peer, conv, tr.path, tr.size)] else old(sent)
    {
      Record(id, tr);
      ok := Write(Offer(id, "", tr.peer, conv, tr.path, tr.size));
      if !ok { Record(id, tr.(state := Failed)); }
    }

    /** Our own offer of a file to one person. */
    method OfferFile(id: TransferId, conv: ConvId, size: nat, sum: string, path: string) returns (ok: bool)
      requires Valid() && id !in xfers.byId
      modifies `sent, `room, xfers
      ensures var allowed := !IsRoom(conv) && ConvPeer(conv) != "" && linked && size <= MAX_TRANSFER_BYTES
                             && |old(xfers.LiveWith(ConvPeer(conv)))| < MAX_OPEN_TRANSFERS;
        var tr := Transfer(ConvPeer(conv), false, size, sum, if old(room) > 0 then Offered else Failed, 0, path);
        && ok == (allowed && old(room) > 0)
        && xfers.byId == if allowed then old(xfers.byId)[id := tr] else old(xfers.byId)
      ensures sent == if ok then old(sent) + [Offer(id, "", ConvPeer(conv), conv, path, size)] else old(sent)
      ensures Valid() && forall j :: j in old(xfers.byId) ==> Abs().View(j) == old(Abs()).View(j)
    {
      var peer := ConvPeer(conv);
      if IsRoom(conv) || peer == "" || !linked || size > MAX_TRANSFER_BYTES { return false; }
      var n := xfers.Active(peer);
      if n >= MAX_OPEN_TRANSFERS { return false; }
      ok := Announce(id, conv, Transfer(peer, false, size, sum, Offered, 0, path));
    }
  }
}

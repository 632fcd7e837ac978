/** Who may write where, and what joining and leaving a room comes to (chatserver/handle.go, route,
    onJoin and onLeave). */
module Membership {
  import opened Wrappers
  import opened Names
  import opened Messages
  import opened StoreModel
  import opened ServerModel
  import opened ClientModel
  import opened Replication
  import Daemons
  import Guarantees

  // ---------------------------------------------------------------- who may write where

  /** A room that the sender would be shown, or an enrolled person who is somebody else. */
  ghost predicate MayWrite(s: Server, sender: PeerId, conv: ConvId) {
    if IsRoom(conv) then CanonRoom(Room(conv)) != "" && Sees(conv, sender, s.RoomsOf(sender))
    else exists p :: p in s.roster && p != sender && conv == DirectConv(p)
  }

  /** A room takes a message exactly from those who would be shown it, and it goes to all of them
      under the folded name. */
  lemma RoomRouteExactlyWhen(s: Server, sender: PeerId, conv: ConvId)
    requires IsRoom(conv)
    ensures var r := Route(s, sender, conv);
      && (r.To? <==> MayWrite(s, sender, conv))
      && (r.To? ==> r.conv == RoomConv(Room(conv))
                    && forall p :: p in r.who <==> p in s.roster && Sees(conv, p, s.RoomsOf(p)))
      && (r.Refuse? ==> r.code == ERR_NOT_IN_ROOM)
  {
    CanonRoomIdempotent(Room(conv));
  }

  lemma PeerOf(conv: ConvId, p: PeerId)
    requires p != ""
    ensures conv == DirectConv(p) <==> ConvPeer(conv) == p
  {
    NamesAreDisjoint("", "", p, "");
    if ConvPeer(conv) == p { assert conv == "peer:" + conv[5..]; }
  }

  /** Any other conversation takes one exactly when it is with an enrolled person other than the
      sender, and it goes to the two of them under their key. */
  lemma DirectRouteExactlyWhen(s: Server, sender: PeerId, conv: ConvId)
    requires RosterOk(s) && !IsRoom(conv)
    ensures var r := Route(s, sender, conv);
      && (r.To? <==> MayWrite(s, sender, conv))
      && (forall p :: r.To? && conv == DirectConv(p) ==> r.conv == DirectKey(sender, p) && r.who == {sender, p})
      && (r == Refuse(ERR_NO_SUCH_PEER) <==>
            exists p :: p != "" && p != sender && p !in s.roster && conv == DirectConv(p))
      && (r.Refuse? ==> r.code == ERR_NO_SUCH_PEER || r.code == ERR_BAD_FRAME)
  {
    var other := ConvPeer(conv);
    if other != "" { PeerOf(conv, other); }
    forall p | conv == DirectConv(p) ensures p == other { NamesAreDisjoint("", "", p, ""); }
  }

  /** A message that is new is filed exactly when it has an id, is not too long, and its sender may
      write there; and one that is not is refused to the connection it came on, saying why. */
  lemma FiledExactlyWhen(s: Server, k: ConnId, sender: PeerId, f: Frame, now: int)
    requires RosterOk(s) && sender in s.roster && f.MsgFrame? && f.id !in s.store.table
    ensures var s' := OnMessage(s, k, sender, f, now);
      f.id in s'.store.table <==> f.id != "" && |f.body| <= MAX_BODY_RUNES && MayWrite(s, sender, f.conv)
  {
    if IsRoom(f.conv) { RoomRouteExactlyWhen(s, sender, f.conv); } else { DirectRouteExactlyWhen(s, sender, f.conv); }
    if Accepts(s, sender, f) {
      AcceptEffect(s, k, sender, f, now);
      FiledAsSent(s, sender, f, now);
    } else {
      var reply := RefuseEffect(s, k, sender, f, now);
    }
  }

  /** The answer to one that is not filed. */
  lemma RefusedBecause(s: Server, k: ConnId, sender: PeerId, f: Frame, now: int)
    requires RosterOk(s) && f.MsgFrame? && f.id !in s.store.table
    requires f.id == "" || |f.body| > MAX_BODY_RUNES || !MayWrite(s, sender, f.conv)
    ensures var why :=
        if f.id == "" || |f.body| > MAX_BODY_RUNES then ERR_BAD_FRAME
        else if IsRoom(f.conv) then ERR_NOT_IN_ROOM
        else if exists p :: p != "" && p != sender && p !in s.roster && f.conv == DirectConv(p) then ERR_NO_SUCH_PEER
        else ERR_BAD_FRAME;
      OnMessage(s, k, sender, f, now) == s.Send(k, [ErrorFrame(why)])
  {
    if IsRoom(f.conv) { RoomRouteExactlyWhen(s, sender, f.conv); } else { DirectRouteExactlyWhen(s, sender, f.conv); }
  }

  // ------------------------------------------------------------------- lists of rooms

  /** As the roster keeps it. */
  predicate Folded(rooms: Rooms) { CanonRooms(rooms) == rooms }

  predicate AllFolded(rooms: Rooms) { forall r :: r in rooms ==> Keepable(r) && CanonRoom(r) == r }

  lemma {:induction false} FoldedRoomsExactlyWhen(rooms: Rooms)
    ensures Folded(rooms) <==> NoRoomTwice(rooms) && AllFolded(rooms)
  {
    CanonRoomsAre(rooms);
    if Folded(rooms) {
      forall r | r in rooms ensures Keepable(r) && CanonRoom(r) == r {
        var i :| 0 <= i < |rooms| && CanonRoom(rooms[i]) == r;
        CanonRoomIdempotent(rooms[i]);
      }
    }
    if rooms != [] && NoRoomTwice(rooms) && AllFolded(rooms) {
      var init, last := rooms[..|rooms| - 1], rooms[|rooms| - 1];
      assert AllFolded(init) && NoRoomTwice(init);
      FoldedRoomsExactlyWhen(init);
      assert last in rooms && last !in init;
      assert rooms == init + [last];
    }
  }

  lemma {:induction false} WithoutIs(rooms: Rooms, room: string)
    ensures forall r :: r in Without(rooms, room) <==> r in rooms && r != room
  {
    if rooms != [] {
      WithoutIs(rooms[..|rooms| - 1], room);
      assert rooms == rooms[..|rooms| - 1] + [rooms[|rooms| - 1]];
    }
  }

  lemma {:induction false} WithoutNothing(rooms: Rooms, room: string)
    requires room !in rooms
    ensures Without(rooms, room) == rooms
  {
    if rooms != [] {
      var init, last := rooms[..|rooms| - 1], rooms[|rooms| - 1];
      assert rooms == init + [last] && last != room;
      WithoutNothing(init, room);
    }
  }

  lemma {:induction false} WithoutConcat(a: Rooms, b: Rooms, room: string)
    ensures Without(a + b, room) == Without(a, room) + Without(b, room)
  {
    if b == [] {
      assert a + b == a;
    } else {
      assert (a + b)[..|a + b| - 1] == a + b[..|b| - 1];
      WithoutConcat(a, b[..|b| - 1], room);
    }
  }

  /** What was before it and what was behind it stay as they were. */
  lemma WithoutOne(a: Rooms, b: Rooms, room: string)
    requires room !in a && room !in b
    ensures Without(a + [room] + b, room) == a + b
  {
    WithoutConcat(a + [room], b, room);
    WithoutLast(a, room);
    WithoutNothing(b, room);
  }

  lemma WithoutLast(a: Rooms, room: string)
    requires room !in a
    ensures Without(a + [room], room) == a
  {
    var ar := a + [room];
    assert ar[..|ar| - 1] == a && ar[|ar| - 1] == room;
    WithoutNothing(a, room);
  }

  lemma FoldedFewer(a: Rooms, room: string, b: Rooms)
    requires Folded(a + [room] + b)
    ensures Folded(a + b)
  {
    var rooms := a + [room] + b;
    FoldedRoomsExactlyWhen(rooms);
    assert forall j :: 0 <= j < |a + b| ==> (a + b)[j] == rooms[if j < |a| then j else j + 1];
    assert NoRoomTwice(a + b) && AllFolded(a + b);
    FoldedRoomsExactlyWhen(a + b);
  }

  /** Where in the list it is. */
  lemma SplitAt(rooms: Rooms, room: string) returns (a: Rooms, b: Rooms)
    requires NoRoomTwice(rooms) && room in rooms
    ensures rooms == a + [room] + b && room !in a && room !in b
  {
    var i :| 0 <= i < |rooms| && rooms[i] == room;
    a, b := rooms[..i], rooms[i + 1..];
    assert forall j :: 0 <= j < |a| ==> a[j] == rooms[j];
    assert forall j :: 0 <= j < |b| ==> b[j] == rooms[i + 1 + j];
  }

  lemma FoldedWithout(rooms: Rooms, room: string)
    requires Folded(rooms)
    ensures Folded(Without(rooms, room))
    ensures room !in rooms ==> Without(rooms, room) == rooms
  {
    if room in rooms {
      FoldedRoomsExactlyWhen(rooms);
      var a, b := SplitAt(rooms, room);
      WithoutOne(a, b, room);
      FoldedFewer(a, room, b);
    } else {
      WithoutNothing(rooms, room);
    }
  }

  // --------------------------------------------------------------------------- leaving

  ghost predicate RosterFolded(s: Server) { forall p :: p in s.roster ==> Folded(s.roster[p]) }

  /** Leaving takes exactly that room from that person's list, leaves the rest of it in order, and
      nobody else's list, no message and no queue is touched. */
  lemma LeavesExactly(s: Server, p: PeerId, name: string)
    requires RosterFolded(s)
    ensures var s', room := OnLeave(s, p, name), CanonRoom(name);
      && (forall r :: r in s'.RoomsOf(p) <==> r in s.RoomsOf(p) && r != room)
      && (forall a, b :: s.RoomsOf(p) == a + [room] + b ==> s'.RoomsOf(p) == a + b)
      && (room !in s.RoomsOf(p) ==> s'.RoomsOf(p) == s.RoomsOf(p))
      && (forall q :: q != p ==> s'.RoomsOf(q) == s.RoomsOf(q))
      && s'.store == s.store && s'.conns == s.conns && s'.out == s.out
  {
    var room := CanonRoom(name);
    assert Folded(s.RoomsOf(p));
    WithoutIs(s.RoomsOf(p), room);
    FoldedWithout(s.RoomsOf(p), room);
    forall a, b | s.RoomsOf(p) == a + [room] + b ensures Without(s.RoomsOf(p), room) == a + b {
      FoldedOnce(a, room, b);
      WithoutOne(a, b, room);
    }
  }

  lemma FoldedOnce(a: Rooms, room: string, b: Rooms)
    requires Folded(a + [room] + b)
    ensures room !in a && room !in b
  {
    var rooms := a + [room] + b;
    FoldedRoomsExactlyWhen(rooms);
    assert rooms[|a|] == room;
    assert forall j :: 0 <= j < |a| ==> a[j] == rooms[j];
    assert forall j :: 0 <= j < |b| ==> b[j] == rooms[|a| + 1 + j];
  }

  lemma JoinAdds(s: Server, p: PeerId, room: string)
    requires Folded(s.RoomsOf(p)) && Keepable(room) && CanonRoom(room) == room && room !in s.RoomsOf(p)
    ensures CanonRooms(s.RoomsOf(p) + [room]) == s.RoomsOf(p) + [room]
  {
    assert (s.RoomsOf(p) + [room])[..|s.RoomsOf(p)|] == s.RoomsOf(p);
  }

  /** Joining adds exactly that room, at the end, unless it is there or no name for a room; the latter is
      refused. */
  lemma JoinsExactly(s: Server, k: ConnId, p: PeerId, name: string, history: seq<Message>)
    requires RosterFolded(s)
    ensures var s', room := OnJoin(s, k, p, name, history), CanonRoom(name);
      && s'.RoomsOf(p) == Joined(s.RoomsOf(p), room)
      && (forall q :: q != p ==> s'.RoomsOf(q) == s.RoomsOf(q))
      && s'.store == s.store && s'.conns == s.conns
      && (!Keepable(room) ==> s' == s.Send(k, [ErrorFrame(ERR_BAD_FRAME)]))
  {
    var room := CanonRoom(name);
    CanonRoomIdempotent(name);
    JoinEnlists(s, k, p, name, history);
    assert Folded(s.RoomsOf(p));
    if Keepable(room) && room !in s.RoomsOf(p) { JoinAdds(s, p, room); }
  }

  lemma JoinEnlists(s: Server, k: ConnId, p: PeerId, name: string, history: seq<Message>)
    ensures var s', room := OnJoin(s, k, p, name, history), CanonRoom(name);
      && s'.store == s.store && s'.conns == s.conns
      && s'.roster == if Keepable(room) && room !in s.RoomsOf(p) then s.roster[p := CanonRooms(s.RoomsOf(p) + [room])]
                      else s.roster
  {
    CanonRoomIdempotent(name);
  }

  function Joined(rooms: Rooms, room: string): Rooms {
    if Keepable(room) && room !in rooms then rooms + [room] else rooms
  }

  /** Joining a new room and leaving it again gives the old list back. */
  lemma JoinThenLeave(s: Server, k: ConnId, p: PeerId, name: string, history: seq<Message>)
    requires RosterFolded(s) && CanonRoom(name) !in s.RoomsOf(p)
    ensures OnLeave(OnJoin(s, k, p, name, history), p, name).RoomsOf(p) == s.RoomsOf(p)
  {
    JoinsExactly(s, k, p, name, history);
    assert Folded(s.RoomsOf(p));
    LeftAgain(s.RoomsOf(p), CanonRoom(name));
  }

  lemma LeftAgain(rooms: Rooms, room: string)
    requires Folded(rooms) && room !in rooms
    ensures Without(Joined(rooms, room), room) == rooms && CanonRooms(Without(Joined(rooms, room), room)) == rooms
  {
    WithoutLast(rooms, room);
    WithoutNothing(rooms, room);
  }

  // ------------------------------------------------------------------------- over runs

  lemma OnMessageKeepsRoster(s: Server, k: ConnId, sender: PeerId, f: Frame, now: int)
    requires f.MsgFrame?
    ensures OnMessage(s, k, sender, f, now).roster == s.roster
  {
  }

  /** Whose list a step sets, and to what. */
  lemma RosterMoves(s: System, l: Label, s': System)
    requires Next(s, l, s')
    ensures !l.Enrol? && !l.Join? && !l.Leave? ==> s'.server.roster == s.server.roster
    ensures l.Enrol? ==> s'.server.roster == Enlisted(s.server, s.clients[l.c].self, s.clients[l.c].rooms).roster
    ensures l.Join? ==> s'.server == OnJoin(s.server, s.links[l.c], s.clients[l.c].self, l.name, l.history)
    ensures l.Leave? ==> s'.server == OnLeave(s.server, s.clients[l.c].self, l.name)
  {
    if l.Deliver? {
      OnMessageKeepsRoster(s.server, l.k, s.clients[l.c].self, Frame0(s.clients[l.c].store.table[l.id]), l.now);
    }
  }

  lemma FoldedStays(s: System, l: Label, s': System)
    requires Next(s, l, s') && RosterFolded(s.server)
    ensures RosterFolded(s'.server)
  {
    RosterMoves(s, l, s');
    if l.Enrol? { CanonRoomsIdempotent(s.clients[l.c].rooms); }
    if l.Join? { CanonRoomsIdempotent(s.server.RoomsOf(s.clients[l.c].self) + [CanonRoom(l.name)]); }
    if l.Leave? { CanonRoomsIdempotent(Without(s.server.RoomsOf(s.clients[l.c].self), CanonRoom(l.name))); }
  }

  lemma {:induction false} AlwaysFolded(states: seq<System>, labels: seq<Label>, n: nat)
    requires Run(states, labels) && n < |states|
    ensures RosterFolded(states[n].server)
  {
    if n > 0 {
      AlwaysFolded(states, labels, n - 1);
      StepFolded(states, labels, n - 1);
    }
  }

  lemma StepFolded(states: seq<System>, labels: seq<Label>, n: nat)
    requires Run(states, labels) && n < |labels| && RosterFolded(states[n].server)
    ensures RosterFolded(states[n + 1].server)
  {
    assert Next(states[n], labels[n], states[n + 1]);
    FoldedStays(states[n], labels[n], states[n + 1]);
  }

  /** The person enrols from somewhere in that room, or joins it. */
  predicate ComesIn(s: System, l: Label, p: PeerId, room: string) {
    || (l.Enrol? && l.c in s.clients && s.clients[l.c].self == p && room in CanonRooms(s.clients[l.c].rooms))
    || (l.Join? && l.c in s.clients && s.clients[l.c].self == p && CanonRoom(l.name) == room)
  }

  lemma StaysOut(s: System, l: Label, s': System, p: PeerId, room: string)
    requires Next(s, l, s') && RosterFolded(s.server) && !ComesIn(s, l, p, room) && room !in s.server.RoomsOf(p)
    ensures room !in s'.server.RoomsOf(p)
  {
    RosterMoves(s, l, s');
    if l.Join? { JoinsExactly(s.server, s.links[l.c], s.clients[l.c].self, l.name, l.history); }
    if l.Leave? { LeavesExactly(s.server, s.clients[l.c].self, l.name); }
  }

  predicate IsOut(s: System, p: PeerId, room: string) { room !in s.server.RoomsOf(p) }

  lemma {:induction false} ChainOut(states: seq<System>, i: nat, j: nat, p: PeerId, room: string)
    requires i <= j < |states| && IsOut(states[i], p, room)
    requires forall n :: i <= n < j && IsOut(states[n], p, room) ==> IsOut(states[n + 1], p, room)
    ensures IsOut(states[j], p, room)
  {
    if i < j { ChainOut(states, i, j - 1, p, room); }
  }

  lemma StillOut(states: seq<System>, labels: seq<Label>, i: nat, j: nat, p: PeerId, room: string)
    requires Run(states, labels) && i <= j < |states| && IsOut(states[i], p, room)
    requires forall n :: i <= n < j ==> !ComesIn(states[n], labels[n], p, room)
    ensures IsOut(states[j], p, room)
  {
    forall n | i <= n < j && IsOut(states[n], p, room) ensures IsOut(states[n + 1], p, room) {
      StepOut(states, labels, n, p, room);
    }
    ChainOut(states, i, j, p, room);
  }

  lemma StepOut(states: seq<System>, labels: seq<Label>, n: nat, p: PeerId, room: string)
    requires Run(states, labels) && n < |labels| && room !in states[n].server.RoomsOf(p)
    requires !ComesIn(states[n], labels[n], p, room)
    ensures room !in states[n + 1].server.RoomsOf(p)
  {
    AlwaysFolded(states, labels, n);
    assert Next(states[n], labels[n], states[n + 1]);
    StaysOut(states[n], labels[n], states[n + 1], p, room);
  }

  /** Nothing that a step queues on a connection is of this room. */
  ghost predicate SilentAbout(s: System, l: Label, s': System, k: ConnId, room: string)
    requires k in s'.server.out
  {
    exists fs: seq<Frame> :: Guarantees.Queued(s, l, s', k, fs)
      && forall i :: 0 <= i < |fs| && fs[i].MsgFrame? ==>
        fs[i].id in s'.Table() && s'.Table()[fs[i].id].conv != RoomConv(room)
  }

  lemma OutIsSilent(s: System, l: Label, s': System, k: ConnId, room: string)
    requires k in s'.server.out && k in s'.server.conns && Guarantees.TellsOnlyTheEntitled(s, l, s', k)
    requires CanonRoom(room) !in s'.server.RoomsOf(s'.server.conns[k])
    ensures SilentAbout(s, l, s', k, room)
  {
    NamesAreDisjoint("", "", "", room);
    CanonRoomIdempotent(room);
    var fs: seq<Frame> :| Guarantees.Queued(s, l, s', k, fs)
              && forall i :: 0 <= i < |fs| ==> Guarantees.Entitled(s', k, fs[i]);
    forall i | 0 <= i < |fs| && fs[i].MsgFrame?
      ensures fs[i].id in s'.Table() && s'.Table()[fs[i].id].conv != RoomConv(room)
    {
      assert Guarantees.Entitled(s', k, fs[i]);
    }
  }

  /** From the moment somebody leaves a room until they join it or enrol in it again, no step queues
      anything filed under it on any connection of theirs. */
  lemma SilentAfterLeaving(states: seq<System>, labels: seq<Label>, i: nat, j: nat, k: ConnId)
    requires Run(states, labels) && i <= j < |labels| && labels[i].Leave? && labels[i].c in states[i].clients
    requires var p, room := states[i].clients[labels[i].c].self, CanonRoom(labels[i].name);
      && (forall n :: i < n <= j ==> !ComesIn(states[n], labels[n], p, room))
      && k in states[j + 1].server.out && k in states[j + 1].server.conns && states[j + 1].server.conns[k] == p
    ensures SilentAbout(states[j], labels[j], states[j + 1], k, labels[i].name)
  {
    var p, room := states[i].clients[labels[i].c].self, CanonRoom(labels[i].name);
    LeavesAt(states, labels, i);
    StillOut(states, labels, i + 1, j + 1, p, room);
    ToldAt(states, labels, j, k);
    OutIsSilent(states[j], labels[j], states[j + 1], k, labels[i].name);
  }

  lemma LeavesAt(states: seq<System>, labels: seq<Label>, i: nat)
    requires Run(states, labels) && i < |labels| && labels[i].Leave? && labels[i].c in states[i].clients
    ensures IsOut(states[i + 1], states[i].clients[labels[i].c].self, CanonRoom(labels[i].name))
  {
    AlwaysFolded(states, labels, i);
    assert Next(states[i], labels[i], states[i + 1]);
    RosterMoves(states[i], labels[i], states[i + 1]);
    LeavesExactly(states[i].server, states[i].clients[labels[i].c].self, labels[i].name);
  }

  lemma ToldAt(states: seq<System>, labels: seq<Label>, j: nat, k: ConnId)
    requires Run(states, labels) && j < |labels| && k in states[j + 1].server.out
    ensures k in states[j + 1].server.conns
    ensures Guarantees.TellsOnlyTheEntitled(states[j], labels[j], states[j + 1], k)
  {
    Guarantees.OnlyTheEntitledAreTold(states, labels, j, k);
  }

  // ------------------------------------------------------------------------- joining

  /** A joiner is sent the last BACKLOG_WINDOW of the room, in order, and then the counter; and from
      then on every message filed there. */
  lemma JoinerIsShown(s: Server, k: ConnId, p: PeerId, name: string, history: seq<Message>, m: Message)
    requires RosterOk(s) && RosterFolded(s) && k in s.conns && s.conns[k] == p && Keepable(CanonRoom(name))
    requires IsListing(history, s.store.table, RoomConv(name))
    ensures var s', room := OnJoin(s, k, p, name, history), CanonRoom(name);
      && s'.out[k] == s.out[k] + Verbatim(Tail(history, BACKLOG_WINDOW)) + [SyncedFrame(s.store.nextSeq, room)]
      && k in s'.conns && (m.conv == RoomConv(name) ==> FrameOf(m, m.conv) in Heard(s', m, k))
  {
    var room := CanonRoom(name);
    JoinsExactly(s, k, p, name, history);
    NamesAreDisjoint("", "", "", name);
    CanonRoomIdempotent(name);
    assert s.out[k] + (Verbatim(Tail(history, BACKLOG_WINDOW)) + [SyncedFrame(s.store.nextSeq, room)])
        == s.out[k] + Verbatim(Tail(history, BACKLOG_WINDOW)) + [SyncedFrame(s.store.nextSeq, room)];
    var s' := OnJoin(s, k, p, name, history);
    assert room in s'.RoomsOf(p);
    if m.conv == RoomConv(name) {
      assert ConvFor(m.conv, p, s'.RoomsOf(p)) == Some(m.conv);
      assert Heard(s', m, k)[0] == FrameOf(m, m.conv);
    }
  }

  /** A client after it has read these. */
  function ApplyAll(cl: Client, fs: seq<Frame>, now: int): Client {
    if fs == [] then cl else ApplyFrame(ApplyAll(cl, fs[..|fs| - 1], now), fs[|fs| - 1], now)
  }

  lemma {:induction false} ReadHolds(cl: Client, fs: seq<Frame>, now: int)
    ensures cl.store.table.Keys <= ApplyAll(cl, fs, now).store.table.Keys
    ensures forall f :: f in fs && Daemons.Sound(f) ==> f.id in ApplyAll(cl, fs, now).store.table
  {
    if fs != [] {
      var init, last := fs[..|fs| - 1], fs[|fs| - 1];
      ReadHolds(cl, init, now);
      Daemons.AppliedHolds(ApplyAll(cl, init, now), last, now);
      assert fs == init + [last];
    }
  }

  /** What is sent of the server's messages the client can take. */
  lemma StoredIsSound(s: Server, x: Message, name: ConvId)
    requires ServerOk(s) && x.id in s.store.table && s.store.table[x.id] == x && name != ""
    ensures Daemons.Sound(FrameOf(x, name))
  {
  }

  /** And a joiner who reads what it is sent holds all of it. */
  lemma JoinerHolds(s: Server, name: string, history: seq<Message>, cl: Client, now: int)
    requires ServerOk(s) && IsListing(history, s.store.table, RoomConv(name))
    ensures var fs := Verbatim(Tail(history, BACKLOG_WINDOW)) + [SyncedFrame(s.store.nextSeq, CanonRoom(name))];
      forall x :: x in Tail(history, BACKLOG_WINDOW) ==> x.id in ApplyAll(cl, fs, now).store.table
  {
    var tail := Tail(history, BACKLOG_WINDOW);
    var fs := Verbatim(tail) + [SyncedFrame(s.store.nextSeq, CanonRoom(name))];
    ReadHolds(cl, fs, now);
    forall x | x in tail ensures x.id in ApplyAll(cl, fs, now).store.table {
      var i :| 0 <= i < |tail| && tail[i] == x;
      assert x in history;
      FilableNonEmpty(x.conv);
      StoredIsSound(s, x, x.conv);
      assert fs[i] == FrameOf(x, x.conv) && fs[i] in fs;
    }
  }

  // ------------------------------------------------------- a run in which a room is heard

  function Two(ann: PeerId, bob: PeerId, room: string): System {
    System(Server(Empty(true), map[], map[], map[]),
           map[0 := Client(ann, [room], Empty(true), 0, 0), 1 := Client(bob, [room], Empty(true), 0, 0)], map[])
  }

  function In(s: System, c: ClientId, k: ConnId, p: PeerId, room: string): System {
    System(Enrolled(s.server, k, p, [room], []), s.clients, s.links[c := k])
  }

  lemma ComesInFirst(s: System, c: ClientId, k: ConnId, room: string)
    requires c in s.clients && c !in s.links && k !in s.server.conns && s.clients[c].rooms == [room]
    requires s.server.store == Empty(true) && s.clients[c].cursor == 0
    ensures Next(s, Enrol(c, k, false, []), In(s, c, k, s.clients[c].self, room))
  {
    var p := s.clients[c].self;
    var s1 := Enlisted(s.server, p, [room]);
    assert IsDelta([], s1.store.table, p, s1.RoomsOf(p), 0);
    assert IsBacklog(s1, p, 0, false, []);
    assert s.clients[c := s.clients[c]] == s.clients;
  }

  lemma RunOn(states: seq<System>, labels: seq<Label>, l: Label, s': System)
    requires Run(states, labels) && Next(states[|labels|], l, s')
    ensures Run(states + [s'], labels + [l])
  {
    var ss, ls := states + [s'], labels + [l];
    forall i | 0 <= i < |ls| ensures Next(ss[i], ls[i], ss[i + 1]) {
      if i < |labels| { assert Next(states[i], labels[i], states[i + 1]); }
    }
  }

  /** Both are in the room and connected, and nothing has been said. */
  ghost predicate BothIn(s: System, ann: PeerId, bob: PeerId, room: string) {
    && s.clients == Two(ann, bob, room).clients && s.server.store == Empty(true)
    && s.server.conns == map[0 := ann, 1 := bob] && s.server.roster == map[ann := [room], bob := [room]]
    && s.server.out == map[0 := [SyncedFrame(0, "")], 1 := [SyncedFrame(0, "")]]
  }

  lemma BothComeIn(ann: PeerId, bob: PeerId, room: string) returns (states: seq<System>, labels: seq<Label>)
    requires ValidId(ann) && ValidId(bob) && ann != bob && Folded([room])
    ensures Run(states, labels) && BothIn(states[|labels|], ann, bob, room)
  {
    var s0 := Two(ann, bob, room);
    var s1 := In(s0, 0, 0, ann, room);
    var s2 := In(s1, 1, 1, bob, room);
    ComesInFirst(s0, 0, 0, room);
    ComesInFirst(s1, 1, 1, room);
    RunOn([s0], [], Enrol(0, 0, false, []), s1);
    RunOn([s0] + [s1], [] + [Enrol(0, 0, false, [])], Enrol(1, 1, false, []), s2);
    states, labels := [s0] + [s1] + [s2], [] + [Enrol(0, 0, false, [])] + [Enrol(1, 1, false, [])];
    BothAreIn(ann, bob, room);
  }

  lemma BothAreIn(ann: PeerId, bob: PeerId, room: string)
    requires ann != bob && Folded([room])
    ensures BothIn(In(In(Two(ann, bob, room), 0, 0, ann, room), 1, 1, bob, room), ann, bob, room)
  {
    var s := In(In(Two(ann, bob, room), 0, 0, ann, room), 1, 1, bob, room);
    var synced := [SyncedFrame(0, "")];
    assert Renamed([], ann, [room]) == Renamed([], bob, [room]) == [] && [] + synced == synced;
    assert s.server.roster == map[ann := [room], bob := [room]];
    assert s.server.conns == map[0 := ann, 1 := bob];
    assert s.server.out == map[0 := [SyncedFrame(0, "")], 1 := [SyncedFrame(0, "")]];
  }

  /** What Ann types in the room. */
  function Said(ann: PeerId, room: string, id: MessageId): Message {
    Message(id, RoomConv(room), ann, "hello", 1, 0, true, Queued, true, None, false)
  }

  lemma HeardByBoth(s: Server, s': Server, ann: PeerId, bob: PeerId, room: string, id: MessageId)
    requires ann != bob && CanonRoom(room) == room && s.conns == map[0 := ann, 1 := bob]
    requires s.roster == map[ann := [room], bob := [room]]
    requires s.out == map[0 := [SyncedFrame(0, "")], 1 := [SyncedFrame(0, "")]]
    requires var m := Said(ann, room, id).(num := 1, mine := false, state := Unset, read := false);
      s'.out.Keys == s.out.Keys && forall j :: j in s.out ==> s'.out[j] == s.out[j] + Heard(s, m, j)
    ensures var m := Said(ann, room, id).(num := 1);
      && s'.out.Keys == {0, 1}
      && s'.out[0] == [SyncedFrame(0, ""), FrameOf(m, m.conv), SeqFrame(id, 1)]
      && s'.out[1] == [SyncedFrame(0, ""), FrameOf(m, m.conv)]
  {
    var m := Said(ann, room, id).(num := 1, mine := false, state := Unset, read := false);
    HeardInRoom(s, m, ann, room, 0);
    HeardInRoom(s, m, bob, room, 1);
  }

  lemma SaidEffect(s: Server, ann: PeerId, bob: PeerId, room: string, id: MessageId)
    requires ValidId(ann) && ValidId(bob) && Folded([room]) && id != ""
    requires s.roster == map[ann := [room], bob := [room]] && s.store == Empty(true)
    requires s.conns == map[0 := ann, 1 := bob] && s.out.Keys == {0, 1}
    ensures var s', m := OnMessage(s, 0, ann, Frame0(Said(ann, room, id)), 0),
                         Said(ann, room, id).(num := 1, mine := false, state := Unset, read := false);
      && s'.conns == s.conns && s'.out.Keys == s.out.Keys
      && forall j :: j in s.out ==> s'.out[j] == s.out[j] + Heard(s, m, j)
  {
    RoomIsOpen(s, ann, bob, room, id);
    AcceptEffect(s, 0, ann, Frame0(Said(ann, room, id)), 0);
  }

  lemma RoomIsOpen(s: Server, ann: PeerId, bob: PeerId, room: string, id: MessageId)
    requires s.roster == map[ann := [room], bob := [room]] && s.store == Empty(true) && Folded([room]) && id != ""
    ensures Accepts(s, ann, Frame0(Said(ann, room, id)))
    ensures TheMessage(s, ann, Frame0(Said(ann, room, id)), 0) ==
      Said(ann, room, id).(num := 1, mine := false, state := Unset, read := false)
  {
    var f := Frame0(Said(ann, room, id));
    FoldedRoomsExactlyWhen([room]);
    assert [room][0] == room && room in [room];
    NamesAreDisjoint("", "", "", room);
    RoomRouteExactlyWhen(s, ann, f.conv);
  }

  lemma HeardInRoom(s: Server, m: Message, p: PeerId, room: string, k: ConnId)
    requires k in s.conns && s.conns[k] == p && s.RoomsOf(p) == [room] && CanonRoom(room) == room
    requires m.conv == RoomConv(room)
    ensures Heard(s, m, k) == [FrameOf(m, m.conv)] + if p == m.from then [SeqFrame(m.id, m.num)] else []
  {
    NamesAreDisjoint("", "", "", room);
    assert room in [room];
  }

  /** For any two people and any room there is a run in which one writes there, and both have it on
      their connections under the room's name, the writer with its number behind it. */
  lemma RoomHeardByBoth(ann: PeerId, bob: PeerId, room: string, id: MessageId)
    returns (states: seq<System>, labels: seq<Label>)
    requires ValidId(ann) && ValidId(bob) && ann != bob && Folded([room]) && id != ""
    ensures Run(states, labels)
    ensures var s, m := states[|labels|].server, Said(ann, room, id).(num := 1);
      && s.conns == map[0 := ann, 1 := bob] && s.out.Keys == {0, 1}
      && s.out[0] == [SyncedFrame(0, ""), FrameOf(m, RoomConv(room)), SeqFrame(id, 1)]
      && s.out[1] == [SyncedFrame(0, ""), FrameOf(m, RoomConv(room))]
  {
    var ss, ls := BothComeIn(ann, bob, room);
    states, labels := SaidRun(ss, ls, ann, bob, room, id);
    var s := ss[|ls|].server;
    SaidEffect(s, ann, bob, room, id);
    FoldedRoomsExactlyWhen([room]);
    assert room in [room];
    HeardByBoth(s, states[|labels|].server, ann, bob, room, id);
  }

  lemma SaidRun(ss: seq<System>, ls: seq<Label>, ann: PeerId, bob: PeerId, room: string, id: MessageId)
    returns (states: seq<System>, labels: seq<Label>)
    requires Run(ss, ls) && BothIn(ss[|ls|], ann, bob, room) && id != ""
    ensures Run(states, labels)
    ensures states[|labels|].server == OnMessage(ss[|ls|].server, 0, ann, Frame0(Said(ann, room, id)), 0)
  {
    var s2, m0 := ss[|ls|], Said(ann, room, id);
    var s3 := s2.SetStore(0, AppendMsg(s2.clients[0].store, m0, 0).0);
    TypedInRoom(s2, ann, bob, room, id);
    var s4 := s3.(server := OnMessage(s3.server, 0, ann, Frame0(m0), 0));
    RunOn(ss, ls, Compose(0, m0), s3);
    RunOn(ss + [s3], ls + [Compose(0, m0)], Deliver(0, id, 0, 0), s4);
    states, labels := ss + [s3] + [s4], ls + [Compose(0, m0)] + [Deliver(0, id, 0, 0)];
  }

  lemma TypedInRoom(s: System, ann: PeerId, bob: PeerId, room: string, id: MessageId)
    requires BothIn(s, ann, bob, room) && id != ""
    ensures var m0 := Said(ann, room, id);
      var s' := s.SetStore(0, AppendMsg(s.clients[0].store, m0, 0).0);
      && Next(s, Compose(0, m0), s')
      && Next(s', Deliver(0, id, 0, 0), s'.(server := OnMessage(s'.server, 0, ann, Frame0(m0), 0)))
  {
    assert Fresh(s, id);
  }
}

/** Cursor completeness: what a client's cursor claims, it holds. Stated for runs in which room
    membership stays as it is and every resume is a delta; the window path is in backlog.dfy. */
module Resume {
  import opened Wrappers
  import opened Names
  import opened Messages
  import opened StoreModel
  import opened Journal
  import opened ServerModel
  import opened ClientModel
  import opened Cursors
  import opened Replication

  /** Everything a person in these rooms may see, with its number. */
  ghost function VisibleTo(t: map<MessageId, Message>, p: PeerId, rooms: Rooms): Visible {
    map id | id in t && Sees(t[id].conv, p, rooms) :: t[id].num
  }

  /** The frames on their way to a client, if it has a link. */
  ghost function QueueOf(s: System, c: ClientId): Option<seq<Frame>> {
    if c in s.links && s.links[c] in s.server.out then Some(s.server.out[s.links[c]]) else None
  }

  /** The cursor in memory and the one on disk cover only what is held; and so will the cursor
      after any part of the queue, which brings all the rest. */
  ghost predicate Caught(cl: Client, v: Visible, q: Option<seq<Frame>>) {
    && Covered(Held(cl), cl.cursor, v) && Covered(Held(cl), cl.saved, v)
    && (q.Some? ==> Complete(Held(cl), cl.cursor, q.value, v) && Full(Held(cl), q.value, v))
  }

  ghost predicate CaughtUp(s: System, c: ClientId, rooms: map<PeerId, Rooms>)
    requires c in s.clients && s.clients[c].self in rooms
  {
    Caught(s.clients[c], VisibleTo(s.Table(), s.clients[c].self, rooms[s.clients[c].self]), QueueOf(s, c))
  }

  /** Everybody stays in the rooms they are in. */
  ghost predicate RoomsFixed(s: System, rooms: map<PeerId, Rooms>) {
    && (forall c :: c in s.clients ==> s.clients[c].self in rooms && s.clients[c].rooms == rooms[s.clients[c].self])
    && (forall p :: p in s.server.roster ==> p in rooms && s.server.roster[p] == rooms[p])
  }

  /** A resume asks this server for its own numbers, and has not fallen too far behind. */
  ghost predicate DeltaPath(s: System, l: Label) {
    l.Enrol? && l.c in s.clients ==>
      && !l.foreign
      && var cl := s.clients[l.c];
         forall delta :: IsDelta(delta, s.Table(), cl.self, CanonRooms(cl.rooms), cl.cursor) ==> |delta| <= MAX_BACKLOG
  }

  // ------------------------------------------------------------- one client, one step

  lemma CaughtMore(cl: Client, cl': Client, v: Visible, q: Option<seq<Frame>>)
    requires Caught(cl, v, q) && Held(cl) <= Held(cl') && cl'.cursor == cl.cursor && cl'.saved == cl.saved
    ensures Caught(cl', v, q)
  {
    if q.Some? { CompleteMore(Held(cl), Held(cl'), cl.cursor, q.value, v); }
  }

  lemma CaughtThen(cl: Client, v: Visible, q: seq<Frame>, fs: seq<Frame>)
    requires Caught(cl, v, Some(q))
    ensures Caught(cl, v, Some(q + fs))
  {
    CompleteThen(Held(cl), cl.cursor, q, fs, v);
    BringsAllConcat(q, fs);
  }

  lemma CaughtNewer(cl: Client, v: Visible, q: seq<Frame>, f: Frame, fs: seq<Frame>)
    requires Caught(cl, v, Some(q)) && f.MsgFrame?
    requires cl.cursor < f.num && cl.saved < f.num && forall i :: 0 <= i < |q| ==> Num(q[i]) < f.num
    ensures Caught(cl, v[f.id := f.num], Some(q + ([f] + fs)))
  {
    NewerQueued(Held(cl), cl.cursor, q, v, f, fs);
  }

  lemma CaughtRead(cl: Client, cl': Client, v: Visible, q: seq<Frame>)
    requires q != [] && Caught(cl, v, Some(q)) && Held(cl) + Brings(q[0]) <= Held(cl')
    requires cl'.cursor == Max(cl.cursor, Num(q[0])) && (cl'.saved == cl.saved || cl'.saved == cl'.cursor)
    ensures Caught(cl', v, Some(q[1..]))
  {
    CompleteMore(Held(cl) + Brings(q[0]), Held(cl'), cl'.cursor, q[1..], v);
  }

  lemma OneMoreNamed(fs: seq<Frame>, f: Frame, ms: seq<Message>)
    requires |ms| == |fs| + 1 && f.MsgFrame? && f.id == ms[|fs|].id && f.num == ms[|fs|].num
    requires forall i :: 0 <= i < |fs| ==> fs[i].MsgFrame? && fs[i].id == ms[i].id && fs[i].num == ms[i].num
    ensures forall i :: 0 <= i <= |fs| ==>
      (fs + [f])[i].MsgFrame? && (fs + [f])[i].id == ms[i].id && (fs + [f])[i].num == ms[i].num
  {
  }

  lemma {:induction false} RenamedDelta(ms: seq<Message>, p: PeerId, rooms: Rooms)
    requires forall i :: 0 <= i < |ms| ==> Sees(ms[i].conv, p, rooms)
    ensures var fs := Renamed(ms, p, rooms);
      && |fs| == |ms|
      && forall i :: 0 <= i < |fs| ==> fs[i].MsgFrame? && fs[i].id == ms[i].id && fs[i].num == ms[i].num
  {
    if ms != [] {
      var init := ms[..|ms| - 1];
      assert forall i :: 0 <= i < |init| ==> init[i] == ms[i];
      RenamedDelta(init, p, rooms);
      var f := RenamedLast(ms, p, rooms);
      OneMoreNamed(Renamed(init, p, rooms), f, ms);
    }
  }

  lemma RenamedLast(ms: seq<Message>, p: PeerId, rooms: Rooms) returns (f: Frame)
    requires ms != [] && Sees(ms[|ms| - 1].conv, p, rooms)
    ensures Renamed(ms, p, rooms) == Renamed(ms[..|ms| - 1], p, rooms) + [f]
    ensures f.MsgFrame? && f.id == ms[|ms| - 1].id && f.num == ms[|ms| - 1].num
  {
    f := FrameOf(ms[|ms| - 1], ConvFor(ms[|ms| - 1].conv, p, rooms).value);
  }

  lemma DeltaAscends(ms: seq<Message>, t: map<MessageId, Message>)
    requires Sorted(ms) && forall x :: x in ms ==> x.id in t && t[x.id] == x && x.num > 0
    requires forall i, j :: i in t && j in t && t[i].num == t[j].num ==> i == j
    ensures forall i, j :: 0 <= i < j < |ms| ==> ms[i].num < ms[j].num
  {
    forall i, j | 0 <= i < j < |ms| ensures ms[i].num < ms[j].num {
      assert Less(ms[i], ms[j]);
      LessTotal(ms[i], ms[i]);
      assert ms[i] in ms && ms[j] in ms;
    }
  }

  lemma CaughtResumed(cl: Client, t: map<MessageId, Message>, top: nat, rooms: Rooms, ms: seq<Message>)
    requires Numbered(t, top) && Keyed(t)
    requires Caught(cl, VisibleTo(t, cl.self, rooms), None) && IsDelta(ms, t, cl.self, rooms, cl.cursor)
    ensures Caught(cl, VisibleTo(t, cl.self, rooms), Some(Renamed(ms, cl.self, rooms) + [SyncedFrame(top, "")]))
  {
    var v, q := VisibleTo(t, cl.self, rooms), Renamed(ms, cl.self, rooms);
    assert forall i :: 0 <= i < |ms| ==> ms[i] in ms;
    RenamedDelta(ms, cl.self, rooms);
    DeltaAscends(ms, t);
    forall i | 0 <= i < |q| ensures q[i].id in v ==> v[q[i].id] == q[i].num { assert ms[i] in ms; }
    forall id | id in v ensures id in Held(cl) + BringsAll(q) {
      if v[id] > cl.cursor {
        assert t[id] in ms;
        var i :| 0 <= i < |ms| && ms[i] == t[id];
        Brought(q, i);
      }
    }
    AscendingBacklog(Held(cl), cl.cursor, q, SyncedFrame(top, ""), v);
  }

  // ------------------------------------------------------------- one step of the system

  /** A step that leaves the server's table, the queues and the other clients alone. */
  lemma OwnStepCaught(s: System, s': System, c: ClientId, d: ClientId, rooms: map<PeerId, Rooms>)
    requires d in s.clients && d in s'.clients && s.clients[d].self in rooms && CaughtUp(s, d, rooms)
    requires s'.Table() == s.Table() && QueueOf(s', d) == QueueOf(s, d)
    requires d != c ==> s'.clients[d] == s.clients[d]
    requires d == c ==> var cl, cl' := s.clients[c], s'.clients[c];
      cl'.self == cl.self && Held(cl) <= Held(cl') && cl'.cursor == cl.cursor && cl'.saved == cl.saved
    ensures CaughtUp(s', d, rooms)
  {
    var v := VisibleTo(s.Table(), s.clients[d].self, rooms[s.clients[d].self]);
    CaughtMore(s.clients[d], s'.clients[d], v, QueueOf(s, d));
  }

  predicate OwnStep(l: Label) {
    l.Compose? || l.LocalNote? || l.SetDelivery? || l.LocalRead? || l.ChangeRooms? || l.Leave?
  }

  lemma OwnStepHolds(s: System, l: Label, s': System)
    requires Next(s, l, s') && OwnStep(l)
    ensures s'.clients.Keys == s.clients.Keys && s'.links == s.links
    ensures s'.server.out == s.server.out && s'.server.store == s.server.store
    ensures forall d :: d in s.clients && d != l.c ==> s'.clients[d] == s.clients[d]
    ensures var cl, cl' := s.clients[l.c], s'.clients[l.c];
      cl'.self == cl.self && Held(cl) <= Held(cl') && cl'.cursor == cl.cursor && cl'.saved == cl.saved
  {
  }

  lemma QueueUpTo(s: System, k: ConnId, i: nat)
    requires Inv(s) && k in s.server.out && i < |s.server.out[k]|
    ensures Num(s.server.out[k][i]) <= s.Top()
  {
    assert QueueOk(s.server.out[k], s.Table(), s.Top());
    assert FrameOk(s.server.out[k][i], s.Table(), s.Top());
  }

  lemma DeliverCaught(s: System, l: Label, s': System, d: ClientId, rooms: map<PeerId, Rooms>)
    requires Inv(s) && l.Deliver? && Next(s, l, s') && RoomsFixed(s, rooms)
    requires d in s.clients && s.clients[d].self in rooms && CaughtUp(s, d, rooms)
    ensures d in s'.clients && s'.clients[d].self == s.clients[d].self && CaughtUp(s', d, rooms)
  {
    var cl := s.clients[l.c];
    var f := Frame0(cl.store.table[l.id]);
    assert s' == s.(server := OnMessage(s.server, l.k, cl.self, f, l.now));
    if Accepts(s.server, cl.self, f) {
      assert ClientOk(cl, s.Table(), s.Top());
      AcceptedCaught(s, l.k, cl.self, f, l.now, d, rooms);
    } else {
      RefusedCaught(s, l.k, cl.self, f, l.now, d, rooms);
    }
  }

  lemma RefusedCaught(s: System, k: ConnId, sender: PeerId, f: Frame, now: int, d: ClientId, rooms: map<PeerId, Rooms>)
    requires f.MsgFrame? && !Accepts(s.server, sender, f)
    requires d in s.clients && s.clients[d].self in rooms && CaughtUp(s, d, rooms)
    ensures CaughtUp(s.(server := OnMessage(s.server, k, sender, f, now)), d, rooms)
  {
    var v := VisibleTo(s.Table(), s.clients[d].self, rooms[s.clients[d].self]);
    var reply := RefuseEffect(s.server, k, sender, f, now);
    if QueueOf(s, d).Some? && s.links[d] == k { CaughtThen(s.clients[d], v, QueueOf(s, d).value, [reply]); }
  }

  lemma AcceptedCaught(s: System, k: ConnId, sender: PeerId, f: Frame, now: int, d: ClientId, rooms: map<PeerId, Rooms>)
    requires Inv(s) && RoomsFixed(s, rooms) && sender in s.server.roster && f.MsgFrame? && Accepts(s.server, sender, f)
    requires d in s.clients && s.clients[d].self in rooms && CaughtUp(s, d, rooms)
    ensures CaughtUp(s.(server := OnMessage(s.server, k, sender, f, now)), d, rooms)
  {
    AcceptEffect(s.server, k, sender, f, now);
    FiledAsSent(s.server, sender, f, now);
    var m := TheMessage(s.server, sender, f, now);
    VisibleGrows(s.Table(), m, s.clients[d].self, rooms[s.clients[d].self]);
    HeardCaught(s, m, d, rooms);
  }

  lemma VisibleGrows(t: map<MessageId, Message>, m: Message, p: PeerId, rooms: Rooms)
    requires m.id !in t
    ensures VisibleTo(t[m.id := m], p, rooms)
         == if Sees(m.conv, p, rooms) then VisibleTo(t, p, rooms)[m.id := m.num] else VisibleTo(t, p, rooms)
  {
  }

  lemma HeardCaught(s: System, m: Message, d: ClientId, rooms: map<PeerId, Rooms>)
    requires Inv(s) && RoomsFixed(s, rooms) && m.num == s.Top() + 1 && m.id !in s.Table()
    requires d in s.clients && s.clients[d].self in rooms && CaughtUp(s, d, rooms)
    ensures var cl, r := s.clients[d], rooms[s.clients[d].self];
      var v' := if Sees(m.conv, cl.self, r) then VisibleTo(s.Table(), cl.self, r)[m.id := m.num]
        else VisibleTo(s.Table(), cl.self, r);
      match QueueOf(s, d)
      case None => Caught(cl, v', None)
      case Some(q) => s.links[d] in s.server.conns && Caught(cl, v', Some(q + Heard(s.server, m, s.links[d])))
  {
    var cl, r := s.clients[d], rooms[s.clients[d].self];
    var v := VisibleTo(s.Table(), cl.self, r);
    assert ClientOk(cl, s.Table(), s.Top());
    match QueueOf(s, d)
    case None =>
    case Some(q) =>
      var k := s.links[d];
      assert s.server.conns[k] == cl.self && s.server.RoomsOf(cl.self) == r;
      forall i | 0 <= i < |q| ensures Num(q[i]) < m.num { QueueUpTo(s, k, i); }
      var rest := if cl.self == m.from then [SeqFrame(m.id, m.num)] else [];
      match ConvFor(m.conv, cl.self, r)
      case None =>
        CaughtThen(cl, v, q, rest);
        assert Heard(s.server, m, k) == rest;
      case Some(name) =>
        CaughtNewer(cl, v, q, FrameOf(m, name), rest);
        assert Heard(s.server, m, k) == [FrameOf(m, name)] + rest;
  }

  lemma BacklogIsDelta(s: System, l: Label, s': System)
    requires Next(s, l, s') && l.Enrol? && DeltaPath(s, l) && s.clients[l.c].cursor <= s.Top()
    ensures IsDelta(l.ms, s.Table(), s.clients[l.c].self, CanonRooms(s.clients[l.c].rooms), s.clients[l.c].cursor)
    ensures s'.clients == s.clients && s'.Table() == s.Table()
    ensures QueueOf(s', l.c) ==
      Some(Renamed(l.ms, s.clients[l.c].self, CanonRooms(s.clients[l.c].rooms)) + [SyncedFrame(s.Top(), "")])
    ensures s'.server.roster[s.clients[l.c].self] == CanonRooms(s.clients[l.c].rooms)
  {
  }

  /** One client's link is cut, made or read from. */
  ghost predicate Apart(s: System, s': System, d: ClientId) {
    && d in s.clients && d in s'.clients && s'.clients[d] == s.clients[d] && s'.Table() == s.Table()
    && QueueOf(s', d) == QueueOf(s, d)
  }

  lemma EnrolApart(s: System, l: Label, s': System, d: ClientId)
    requires LinksOk(s) && Next(s, l, s') && l.Enrol? && d in s.clients && d != l.c
    ensures Apart(s, s', d)
  {
  }

  lemma ReadApart(s: System, l: Label, s': System, d: ClientId)
    requires LinksOk(s) && Next(s, l, s') && (l.Receive? || l.Join?) && d in s.clients && d != l.c
    ensures Apart(s, s', d)
  {
  }

  lemma CutApart(s: System, l: Label, s': System, d: ClientId)
    requires LinksOk(s) && Next(s, l, s') && (l.Drop? || l.ClientRestart?) && d in s.clients && d != l.c
    ensures Apart(s, s', d)
  {
  }

  lemma OthersUntouched(s: System, l: Label, s': System, d: ClientId)
    requires LinksOk(s) && Next(s, l, s') && !OwnStep(l) && !l.Deliver? && !l.ServerRestart?
    requires d in s.clients && d != l.c
    ensures Apart(s, s', d)
  {
    if l.Enrol? { EnrolApart(s, l, s', d); }
    else if l.Receive? || l.Join? { ReadApart(s, l, s', d); }
    else { CutApart(s, l, s', d); }
  }

  lemma EnrolCaught(s: System, l: Label, s': System, rooms: map<PeerId, Rooms>)
    requires Inv(s) && l.Enrol? && Next(s, l, s') && RoomsFixed(s', rooms) && DeltaPath(s, l)
    requires s.clients[l.c].self in rooms && CaughtUp(s, l.c, rooms)
    ensures l.c in s'.clients && s'.clients[l.c].self == s.clients[l.c].self && CaughtUp(s', l.c, rooms)
  {
    var cl := s.clients[l.c];
    assert ClientOk(cl, s.Table(), s.Top());
    BacklogIsDelta(s, l, s');
    assert CanonRooms(cl.rooms) == rooms[cl.self];
    CaughtResumed(cl, s.Table(), s.Top(), rooms[cl.self], l.ms);
  }

  lemma ReadEffect(s: System, c: ClientId, now: int)
    requires Inv(s) && c in s.links && s.server.out[s.links[c]] != []
    ensures var cl, f := s.clients[c], s.server.out[s.links[c]][0];
      var cl' := ApplyFrame(cl, f, now);
      && cl'.self == cl.self && Held(cl) + Brings(f) <= Held(cl')
      && cl'.cursor == Max(cl.cursor, Num(f)) && (cl'.saved == cl.saved || cl'.saved == cl'.cursor)
  {
    FirstFrameOk(s, c);
    SavedMoves(s.clients[c], s.server.out[s.links[c]][0], now);
    ApplyKeepsClient(s.clients[c], s.server.out[s.links[c]][0], now, s.Table(), s.Top());
  }

  lemma FirstFrameOk(s: System, c: ClientId)
    requires Inv(s) && c in s.links && s.server.out[s.links[c]] != []
    ensures ClientOk(s.clients[c], s.Table(), s.Top()) && FrameOk(s.server.out[s.links[c]][0], s.Table(), s.Top())
  {
    assert QueueOk(s.server.out[s.links[c]], s.Table(), s.Top());
  }

  lemma SavedMoves(cl: Client, f: Frame, now: int)
    ensures var cl' := ApplyFrame(cl, f, now); cl'.saved == cl.saved || cl'.saved == cl'.cursor
  {
  }

  lemma ReceiveCaught(s: System, l: Label, s': System, rooms: map<PeerId, Rooms>)
    requires Inv(s) && l.Receive? && Next(s, l, s')
    requires s.clients[l.c].self in rooms && CaughtUp(s, l.c, rooms)
    ensures l.c in s'.clients && s'.clients[l.c].self == s.clients[l.c].self && CaughtUp(s', l.c, rooms)
  {
    var cl, q := s.clients[l.c], s.server.out[s.links[l.c]];
    ReadEffect(s, l.c, l.now);
    CaughtRead(cl, s'.clients[l.c], VisibleTo(s.Table(), cl.self, rooms[cl.self]), q);
  }

  lemma DropCaught(s: System, l: Label, s': System, rooms: map<PeerId, Rooms>)
    requires LinksOk(s) && l.Drop? && Next(s, l, s') && s.clients[l.c].self in rooms && CaughtUp(s, l.c, rooms)
    ensures l.c in s'.clients && s'.clients[l.c].self == s.clients[l.c].self && CaughtUp(s', l.c, rooms)
  {
  }

  lemma JoinCaught(s: System, l: Label, s': System, rooms: map<PeerId, Rooms>)
    requires RosterOk(s.server) && LinksOk(s) && l.Join? && Next(s, l, s')
    requires s.clients[l.c].self in rooms && CaughtUp(s, l.c, rooms)
    ensures l.c in s'.clients && s'.clients[l.c].self == s.clients[l.c].self && CaughtUp(s', l.c, rooms)
  {
    var cl, q := s.clients[l.c], s.server.out[s.links[l.c]];
    var v := VisibleTo(s.Table(), cl.self, rooms[cl.self]);
    CaughtThen(cl, v, q, [ErrorFrame(ERR_BAD_FRAME)]);
    CaughtThen(cl, v, q, Verbatim(Tail(l.history, BACKLOG_WINDOW)) + [SyncedFrame(s.Top(), CanonRoom(l.name))]);
  }

  lemma ReloadHeld(cl: Client, names: seq<ConvId>)
    requires JournalOk(cl.store) && Lists(names, cl.store)
    ensures Held(cl.(store := Reload(cl.store, names))) == Held(cl)
  {
    RestartBringsEverythingBack(cl.store, names);
    var r := Reload(cl.store, names);
    forall id | id in r.table ensures r.table[id].num == cl.store.table[id].num {
      assert Durable(cl.store.table[id]) == Durable(r.table[id]);
    }
  }

  lemma ClientRestartCaught(s: System, l: Label, s': System, rooms: map<PeerId, Rooms>)
    requires LinksOk(s) && l.ClientRestart? && Next(s, l, s') && JournalOk(s.clients[l.c].store)
    requires s.clients[l.c].self in rooms && CaughtUp(s, l.c, rooms)
    ensures l.c in s'.clients && s'.clients[l.c].self == s.clients[l.c].self && CaughtUp(s', l.c, rooms)
  {
    var cl := s.clients[l.c];
    ReloadHeld(cl, l.names);
    assert Held(s'.clients[l.c]) == Held(cl);
    assert QueueOf(s', l.c) == None;
  }

  lemma AlikeVisible(t: map<MessageId, Message>, u: map<MessageId, Message>, p: PeerId, rooms: Rooms)
    requires Alike(t, u)
    ensures VisibleTo(t, p, rooms) == VisibleTo(u, p, rooms)
  {
  }

  lemma ServerRestartCaught(s: System, l: Label, s': System, d: ClientId, rooms: map<PeerId, Rooms>)
    requires JournalOk(s.server.store) && Numbered(s.Table(), s.Top()) && l.ServerRestart? && Next(s, l, s')
    requires d in s.clients && s.clients[d].self in rooms && CaughtUp(s, d, rooms)
    ensures d in s'.clients && s'.clients[d].self == s.clients[d].self && CaughtUp(s', d, rooms)
  {
    ReloadedServer(s.server.store, l.names);
    AlikeVisible(s.Table(), s'.Table(), s.clients[d].self, rooms[s.clients[d].self]);
  }

  lemma OtherCaught(s: System, l: Label, s': System, d: ClientId, rooms: map<PeerId, Rooms>)
    requires LinksOk(s) && Next(s, l, s') && !OwnStep(l) && !l.Deliver? && !l.ServerRestart?
    requires d in s.clients && d != l.c && s.clients[d].self in rooms && CaughtUp(s, d, rooms)
    ensures d in s'.clients && s'.clients[d].self == s.clients[d].self && CaughtUp(s', d, rooms)
  {
    OthersUntouched(s, l, s', d);
  }

  lemma NextCaught(s: System, l: Label, s': System, d: ClientId, rooms: map<PeerId, Rooms>)
    requires Inv(s) && Next(s, l, s') && RoomsFixed(s, rooms) && RoomsFixed(s', rooms) && DeltaPath(s, l)
    requires d in s.clients && s.clients[d].self in rooms && CaughtUp(s, d, rooms)
    ensures d in s'.clients && s'.clients[d].self == s.clients[d].self && CaughtUp(s', d, rooms)
  {
    if OwnStep(l) {
      OwnStepHolds(s, l, s');
      OwnStepCaught(s, s', l.c, d, rooms);
    } else if l.Deliver? {
      DeliverCaught(s, l, s', d, rooms);
    } else if l.ServerRestart? {
      ServerRestartCaught(s, l, s', d, rooms);
    } else {
      LinkStepCaught(s, l, s', d, rooms);
    }
  }

  lemma LinkStepCaught(s: System, l: Label, s': System, d: ClientId, rooms: map<PeerId, Rooms>)
    requires Inv(s) && Next(s, l, s') && RoomsFixed(s', rooms) && DeltaPath(s, l)
    requires !OwnStep(l) && !l.Deliver? && !l.ServerRestart?
    requires d in s.clients && s.clients[d].self in rooms && CaughtUp(s, d, rooms)
    ensures d in s'.clients && s'.clients[d].self == s.clients[d].self && CaughtUp(s', d, rooms)
  {
    if d != l.c {
      OtherCaught(s, l, s', d, rooms);
    } else if l.Enrol? {
      EnrolCaught(s, l, s', rooms);
    } else if l.Receive? {
      ReceiveCaught(s, l, s', rooms);
    } else {
      QuietLinkCaught(s, l, s', rooms);
    }
  }

  lemma QuietLinkCaught(s: System, l: Label, s': System, rooms: map<PeerId, Rooms>)
    requires Inv(s) && Next(s, l, s') && (l.Drop? || l.Join? || l.ClientRestart?)
    requires s.clients[l.c].self in rooms && CaughtUp(s, l.c, rooms)
    ensures l.c in s'.clients && s'.clients[l.c].self == s.clients[l.c].self && CaughtUp(s', l.c, rooms)
  {
    assert ClientOk(s.clients[l.c], s.Table(), s.Top());
    match l
    case Drop(_) => DropCaught(s, l, s', rooms);
    case Join(_, _, _) => JoinCaught(s, l, s', rooms);
    case ClientRestart(_, _) => ClientRestartCaught(s, l, s', rooms);
  }

  lemma StartCaught(s: System, rooms: map<PeerId, Rooms>, d: ClientId)
    requires Start(s) && d in s.clients && RoomsFixed(s, rooms)
    ensures s.clients[d].self in rooms && CaughtUp(s, d, rooms)
  {
  }

  lemma StepCaught(states: seq<System>, labels: seq<Label>, n: nat, rooms: map<PeerId, Rooms>, d: ClientId)
    requires Run(states, labels) && n < |labels| && DeltaPath(states[n], labels[n])
    requires RoomsFixed(states[n], rooms) && RoomsFixed(states[n + 1], rooms)
    requires d in states[n].clients && states[n].clients[d].self in rooms && CaughtUp(states[n], d, rooms)
    ensures d in states[n + 1].clients && states[n + 1].clients[d].self in rooms && CaughtUp(states[n + 1], d, rooms)
  {
    AlwaysInv(states, labels);
    NextCaught(states[n], labels[n], states[n + 1], d, rooms);
  }

  lemma {:induction false} CaughtAt(states: seq<System>, labels: seq<Label>, rooms: map<PeerId, Rooms>, d: ClientId,
                                    n: nat)
    requires Run(states, labels) && d in states[0].clients && n < |states|
    requires forall i :: 0 <= i < |states| ==> RoomsFixed(states[i], rooms)
    requires forall i :: 0 <= i < |labels| ==> DeltaPath(states[i], labels[i])
    ensures d in states[n].clients && states[n].clients[d].self in rooms && CaughtUp(states[n], d, rooms)
  {
    if n == 0 {
      StartCaught(states[0], rooms, d);
    } else {
      CaughtAt(states, labels, rooms, d, n - 1);
      StepCaught(states, labels, n - 1, rooms, d);
    }
  }

  /** Over every run of drops, resends, resumes and restarts with fixed rooms and delta
      resumes, in every state: whatever is visible and numbered up to a client's cursor the
      client holds, with that number; and it still will after reading any part of its queue. */
  lemma CursorIsComplete(states: seq<System>, labels: seq<Label>, rooms: map<PeerId, Rooms>, d: ClientId)
    requires Run(states, labels) && d in states[0].clients
    requires forall i :: 0 <= i < |states| ==> RoomsFixed(states[i], rooms)
    requires forall i :: 0 <= i < |labels| ==> DeltaPath(states[i], labels[i])
    ensures d in states[|labels|].clients && states[|labels|].clients[d].self in rooms
    ensures CaughtUp(states[|labels|], d, rooms)
  {
    CaughtAt(states, labels, rooms, d, |labels|);
  }

  /** The same in plain terms. */
  lemma HoldsWhatTheCursorClaims(states: seq<System>, labels: seq<Label>, rooms: map<PeerId, Rooms>, d: ClientId,
                                 id: MessageId)
    requires Run(states, labels) && d in states[0].clients
    requires forall i :: 0 <= i < |states| ==> RoomsFixed(states[i], rooms)
    requires forall i :: 0 <= i < |labels| ==> DeltaPath(states[i], labels[i])
    ensures var s := states[|labels|];
      d in s.clients && s.clients[d].self in rooms &&
      (id in s.Table() && Sees(s.Table()[id].conv, s.clients[d].self, rooms[s.clients[d].self])
       && s.Table()[id].num <= s.clients[d].cursor ==>
         id in s.clients[d].store.table && s.clients[d].store.table[id].num == s.Table()[id].num)
  {
    CursorIsComplete(states, labels, rooms, d);
    AlwaysInv(states, labels);
    var s := states[|labels|];
    assert Inv(s);
    assert ClientOk(s.clients[d], s.Table(), s.Top());
    if id in s.clients[d].store.table { assert CopyOk(s.clients[d].store.table[id], s.clients[d].self, s.Table()); }
    var v := VisibleTo(s.Table(), s.clients[d].self, rooms[s.clients[d].self]);
    if id in v && v[id] <= s.clients[d].cursor { assert id in Held(s.clients[d]); }
  }

  /** The cursor on disk is as good: a client that comes back with only its files, and asks for
      what follows the cursor it saved, holds or is sent every message it may see. */
  lemma SavedCursorIsSafe(states: seq<System>, labels: seq<Label>, rooms: map<PeerId, Rooms>, d: ClientId,
                          delta: seq<Message>, id: MessageId)
    requires Run(states, labels) && d in states[0].clients
    requires forall i :: 0 <= i < |states| ==> RoomsFixed(states[i], rooms)
    requires forall i :: 0 <= i < |labels| ==> DeltaPath(states[i], labels[i])
    ensures var s := states[|labels|];
      d in s.clients && s.clients[d].self in rooms &&
      var cl := s.clients[d];
      (id in s.Table() && Sees(s.Table()[id].conv, cl.self, rooms[cl.self])
       && IsDelta(delta, s.Table(), cl.self, rooms[cl.self], cl.saved) ==>
         s.Table()[id] in delta || (id in cl.store.table && cl.store.table[id].num == s.Table()[id].num))
  {
    CursorIsComplete(states, labels, rooms, d);
    AlwaysInv(states, labels);
    var s := states[|labels|];
    assert Inv(s) && ClientOk(s.clients[d], s.Table(), s.Top());
    var v := VisibleTo(s.Table(), s.clients[d].self, rooms[s.clients[d].self]);
    if id in v && v[id] <= s.clients[d].saved {
      assert id in Held(s.clients[d]);
      assert CopyOk(s.clients[d].store.table[id], s.clients[d].self, s.Table());
    }
  }

  /** And a client that is connected and has read all there is holds everything it may see. */
  lemma AtRestHoldsEverything(states: seq<System>, labels: seq<Label>, rooms: map<PeerId, Rooms>, d: ClientId)
    requires Run(states, labels) && d in states[0].clients
    requires forall i :: 0 <= i < |states| ==> RoomsFixed(states[i], rooms)
    requires forall i :: 0 <= i < |labels| ==> DeltaPath(states[i], labels[i])
    requires QueueOf(states[|labels|], d) == Some([])
    ensures var s := states[|labels|];
      d in s.clients && s.clients[d].self in rooms &&
      forall id :: id in s.Table() && Sees(s.Table()[id].conv, s.clients[d].self, rooms[s.clients[d].self]) ==>
        id in s.clients[d].store.table && s.clients[d].store.table[id].num == s.Table()[id].num
  {
    CursorIsComplete(states, labels, rooms, d);
    AlwaysInv(states, labels);
    var s := states[|labels|];
    assert Inv(s) && ClientOk(s.clients[d], s.Table(), s.Top());
    HeldIsNumbered(s.clients[d], s.Table(), s.Top(), rooms[s.clients[d].self]);
  }

  lemma HeldIsNumbered(cl: Client, t: map<MessageId, Message>, top: nat, rooms: Rooms)
    requires ClientOk(cl, t, top) && Full(Held(cl), [], VisibleTo(t, cl.self, rooms))
    ensures forall id :: id in t && Sees(t[id].conv, cl.self, rooms) ==>
      id in cl.store.table && cl.store.table[id].num == t[id].num
  {
    forall id | id in t && Sees(t[id].conv, cl.self, rooms)
      ensures id in cl.store.table && cl.store.table[id].num == t[id].num
    {
      assert id in VisibleTo(t, cl.self, rooms);
      assert id in Held(cl);
      assert cl.store.table[id].id == id && CopyOk(cl.store.table[id], cl.self, t);
    }
  }
}

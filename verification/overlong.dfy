/** Runs in which the window leaves something out: one person writes any number of messages, more
    than MAX_BACKLOG, to somebody who is away, and the resume brings the last of them only. */
module Overlong {
  import opened Wrappers
  import opened Names
  import opened Messages
  import opened StoreModel
  import opened ServerModel
  import opened ClientModel
  import opened Replication
  import opened Backlog

  predicate Two(ann: PeerId, bob: PeerId) { ValidId(ann) && ValidId(bob) && ann != bob }

  function Name(n: nat): MessageId { seq(n + 1, _ => 'm') }

  /** What the one who stays types, the n-th time. */
  function Typed(ann: PeerId, bob: PeerId, n: nat): Message {
    Message(Name(n), DirectConv(bob), ann, "hello", 1, 0, true, Queued, true, None, false)
  }

  /** Bob was here and has gone, with nothing in his cache. */
  ghost predicate Left(s: System, ann: PeerId, bob: PeerId) {
    && s.clients.Keys == {0, 1} && s.clients[0].self == ann && s.clients[1] == Client(bob, [], Empty(true), 0, 0)
    && s.links == map[0 := 0] && s.server.conns == map[0 := ann] && s.server.roster == map[ann := [], bob := []]
  }

  ghost predicate Short(t: map<MessageId, Message>, n: nat) { forall id :: id in t ==> |id| <= n }

  /** One conversation, listed as it was numbered. */
  ghost predicate Holds(t: map<MessageId, Message>, l: seq<Message>, key: ConvId) {
    && IsListing(l, t, key) && (forall j :: 0 <= j < |l| ==> l[j].num == j + 1)
    && (forall id :: id in t ==> t[id].id == id && t[id].conv == key)
  }

  /** Bob is away, and l is all there is. */
  ghost predicate Away(s: System, ann: PeerId, bob: PeerId, l: seq<Message>) {
    && Left(s, ann, bob) && Holds(s.Table(), l, DirectKey(ann, bob)) && s.Top() == |l|
    && Short(s.Table(), |l|) && Short(s.clients[0].store.table, |l|)
  }

  lemma NewestLast(l: seq<Message>, m: Message)
    requires (forall j :: 0 <= j < |l| ==> l[j].num == j + 1) && m.num == |l| + 1
    ensures Insert(l, m) == l + [m]
  {
    InsertAt(l, m, |l|);
    assert l[..|l|] + [m] + l[|l|..] == l + [m];
  }

  lemma HoldsMore(t: map<MessageId, Message>, l: seq<Message>, m: Message)
    requires Holds(t, l, m.conv) && m.id !in t && m.num == |l| + 1
    ensures Holds(t[m.id := m], l + [m], m.conv)
  {
    InsertKeepsListing(l, t, m);
    NewestLast(l, m);
  }

  // ------------------------------------------------------------------- the opening

  lemma NothingMissed(s: Server, p: PeerId)
    requires s.store.table == map[]
    ensures IsBacklog(s, p, 0, false, [])
  {
    assert IsDelta([], s.store.table, p, s.RoomsOf(p), 0);
  }

  function Welcome(s: System, c: ClientId, k: ConnId, p: PeerId): System {
    System(Enrolled(s.server, k, p, [], []), s.clients, s.links[c := k])
  }

  lemma FirstEnrol(s: System, c: ClientId, k: ConnId)
    requires c in s.clients && c !in s.links && k !in s.server.conns && s.clients[c].rooms == []
    requires s.server.store == Empty(true) && s.clients[c].cursor == 0
    ensures Next(s, Enrol(c, k, false, []), Welcome(s, c, k, s.clients[c].self))
  {
    var p := s.clients[c].self;
    NothingMissed(Enlisted(s.server, p, []), p);
    assert Welcomed(s.clients[c], false, false) == s.clients[c];
    assert s.clients[c := s.clients[c]] == s.clients;
  }

  lemma FirstDrop(s: System, c: ClientId)
    requires c in s.links && c in s.clients && s.clients[c].saved == s.clients[c].cursor
    ensures Next(s, Drop(c), Unlink(s, c))
  {
    var cl := s.clients[c];
    assert cl.(saved := cl.cursor) == cl;
    assert s.clients[c := cl] == s.clients;
  }

  function First(ann: PeerId, bob: PeerId): System {
    System(Server(Empty(true), map[], map[], map[]),
           map[0 := Client(ann, [], Empty(true), 0, 0), 1 := Client(bob, [], Empty(true), 0, 0)], map[])
  }

  lemma Opening(ann: PeerId, bob: PeerId) returns (states: seq<System>, labels: seq<Label>)
    requires Two(ann, bob)
    ensures Run(states, labels) && Away(states[|labels|], ann, bob, [])
  {
    var s0 := First(ann, bob);
    var s1 := Welcome(s0, 0, 0, ann);
    var s2 := Welcome(s1, 1, 1, bob);
    FirstEnrol(s0, 0, 0);
    FirstEnrol(s1, 1, 1);
    FirstDrop(s2, 1);
    RunOn([s0], [], Enrol(0, 0, false, []), s1);
    RunOn([s0] + [s1], [] + [Enrol(0, 0, false, [])], Enrol(1, 1, false, []), s2);
    RunOn([s0] + [s1] + [s2], [] + [Enrol(0, 0, false, [])] + [Enrol(1, 1, false, [])], Drop(1), Unlink(s2, 1));
    labels := [] + [Enrol(0, 0, false, [])] + [Enrol(1, 1, false, [])] + [Drop(1)];
    states := [s0] + [s1] + [s2] + [Unlink(s2, 1)];
    Opened(ann, bob);
  }

  lemma Opened(ann: PeerId, bob: PeerId)
    requires Two(ann, bob)
    ensures Away(Unlink(Welcome(Welcome(First(ann, bob), 0, 0, ann), 1, 1, bob), 1), ann, bob, [])
  {
    var s := Unlink(Welcome(Welcome(First(ann, bob), 0, 0, ann), 1, 1, bob), 1);
    assert s.links == map[0 := 0] && s.server.conns == map[0 := ann];
    assert s.server.roster == map[ann := [], bob := []];
    assert s.clients == First(ann, bob).clients;
  }

  // ---------------------------------------------------------------- message by message

  function Typing(s: System, m: Message): System
    requires 0 in s.clients
  {
    s.SetStore(0, AppendMsg(s.clients[0].store, m, 0).0)
  }

  lemma TypedIsNew(s: System, ann: PeerId, bob: PeerId, l: seq<Message>)
    requires Away(s, ann, bob, l)
    ensures Fresh(s, Name(|l|))
  {
    assert |Name(|l|)| == |l| + 1;
  }

  lemma TypedStep(s: System, m: Message)
    requires 0 in s.clients && Fresh(s, m.id) && m.from == s.clients[0].self && m.mine && m.read && !m.system
      && m.num == 0
    requires m.conv != "" && |m.body| <= MAX_BODY_RUNES && m.sent != 0
    ensures Next(s, Compose(0, m), Typing(s, m))
    ensures Typing(s, m).clients[0].store.table == s.clients[0].store.table[m.id := m]
  {
  }

  function Taken(s: System, m: Message): System
    requires 0 in s.clients
  {
    s.(server := OnMessage(s.server, 0, s.clients[0].self, Frame0(m), 0))
  }

  lemma TakenStep(s: System, m: Message)
    requires 0 in s.clients && m.id in s.clients[0].store.table && s.clients[0].store.table[m.id] == m
    requires m.mine && !m.system && s.clients[0].self in s.server.roster
    ensures Next(s, Deliver(0, m.id, 0, 0), Taken(s, m))
  {
  }

  /** What the server makes of it. */
  lemma TakenEffect(s: Server, ann: PeerId, bob: PeerId, n: nat) returns (m: Message)
    requires Two(ann, bob) && RosterOk(s) && ann in s.roster && bob in s.roster && Name(n) !in s.store.table
    ensures m.id == Name(n) && m.num == s.store.nextSeq + 1 && m.conv == DirectKey(ann, bob)
    ensures var s' := OnMessage(s, 0, ann, Frame0(Typed(ann, bob, n)), 0);
      && s'.roster == s.roster && s'.conns == s.conns
      && s'.store.table == s.store.table[m.id := m] && s'.store.nextSeq == m.num
  {
    var f := Frame0(Typed(ann, bob, n));
    NamesAreDisjoint(ann, bob, bob, "");
    assert Accepts(s, ann, f);
    AcceptEffect(s, 0, ann, f, 0);
    FiledAsSent(s, ann, f, 0);
    m := TheMessage(s, ann, f, 0);
  }

  /** One more message is typed, and the server takes it. */
  lemma OneMoreTyped(s: System, ann: PeerId, bob: PeerId, l: seq<Message>) returns (m: Message)
    requires Two(ann, bob) && Away(s, ann, bob, l) && RosterOk(s.server)
    ensures var m0 := Typed(ann, bob, |l|);
      && Next(s, Compose(0, m0), Typing(s, m0))
      && Next(Typing(s, m0), Deliver(0, m0.id, 0, 0), Taken(Typing(s, m0), m0))
      && Away(Taken(Typing(s, m0), m0), ann, bob, l + [m])
  {
    var m0 := Typed(ann, bob, |l|);
    TypedIsNew(s, ann, bob, l);
    TypedStep(s, m0);
    TakenStep(Typing(s, m0), m0);
    m := TakenEffect(s.server, ann, bob, |l|);
    HoldsMore(s.Table(), l, m);
    StillAway(s, ann, bob, l, m);
  }

  lemma StillAway(s: System, ann: PeerId, bob: PeerId, l: seq<Message>, m: Message)
    requires Away(s, ann, bob, l) && m.id == Name(|l|) && Holds(s.Table()[m.id := m], l + [m], DirectKey(ann, bob))
    requires var m0 := Typed(ann, bob, |l|);
      && Typing(s, m0).clients[0].store.table == s.clients[0].store.table[m0.id := m0]
      && var t := Taken(Typing(s, m0), m0).server;
         t.store.table == s.Table()[m.id := m] && t.store.nextSeq == |l| + 1 && t.roster == s.server.roster
         && t.conns == s.server.conns
    ensures var m0 := Typed(ann, bob, |l|); Away(Taken(Typing(s, m0), m0), ann, bob, l + [m])
  {
    assert |Name(|l|)| == |l| + 1;
  }

  lemma {:induction false} Writing(ann: PeerId, bob: PeerId, n: nat)
    returns (states: seq<System>, labels: seq<Label>, l: seq<Message>)
    requires Two(ann, bob)
    ensures Run(states, labels) && Away(states[|labels|], ann, bob, l) && |l| == n
  {
    if n == 0 {
      states, labels := Opening(ann, bob);
      l := [];
    } else {
      var ss, ls, l0 := Writing(ann, bob, n - 1);
      var s, m0 := ss[|ls|], Typed(ann, bob, n - 1);
      AlwaysInv(ss, ls);
      var m := OneMoreTyped(s, ann, bob, l0);
      RunOn(ss, ls, Compose(0, m0), Typing(s, m0));
      RunOn(ss + [Typing(s, m0)], ls + [Compose(0, m0)], Deliver(0, m0.id, 0, 0), Taken(Typing(s, m0), m0));
      states := ss + [Typing(s, m0)] + [Taken(Typing(s, m0), m0)];
      labels, l := ls + [Compose(0, m0)] + [Deliver(0, m0.id, 0, 0)], l0 + [m];
    }
  }

  lemma RunOn(states: seq<System>, labels: seq<Label>, l: Label, s': System)
    requires Run(states, labels) && Next(states[|labels|], l, s')
    ensures Run(states + [s'], labels + [l])
  {
    var ss, ls := states + [s'], labels + [l];
    forall i | 0 <= i < |ls| ensures Next(ss[i], ls[i], ss[i + 1]) {
      if i < |labels| { assert Next(states[i], labels[i], states[i + 1]); }
    }
  }

  // ------------------------------------------------------------------------ the resume

  lemma AllIsDelta(t: map<MessageId, Message>, l: seq<Message>, ann: PeerId, bob: PeerId)
    requires Two(ann, bob) && Holds(t, l, DirectKey(ann, bob))
    ensures IsDelta(l, t, bob, [], 0)
  {
    DirectSeen(ann, bob);
    forall id | id in t ensures t[id].num > 0 { assert t[id] in l; }
  }

  lemma TailIsWindow(t: map<MessageId, Message>, l: seq<Message>, ann: PeerId, bob: PeerId)
    requires Two(ann, bob) && Holds(t, l, DirectKey(ann, bob)) && |l| > BACKLOG_WINDOW
    ensures IsWindow(Tail(l, BACKLOG_WINDOW), t, bob, [])
  {
    var tail := Tail(l, BACKLOG_WINDOW);
    DirectSeen(ann, bob);
    forall i, j | 0 <= i < j < |tail| ensures Less(tail[i], tail[j]) {
      assert Less(l[|l| - BACKLOG_WINDOW + i], l[|l| - BACKLOG_WINDOW + j]);
    }
    forall x | x in tail ensures x.id in t && t[x.id] == x && InTail(x, t, BACKLOG_WINDOW) {
      assert x in l;
    }
    forall id | id in t && InTail(t[id], t, BACKLOG_WINDOW) ensures t[id] in tail { InTailIs(l, t, t[id]); }
  }

  lemma LeftOut(t: map<MessageId, Message>, l: seq<Message>, ann: PeerId, bob: PeerId)
    requires Two(ann, bob) && Holds(t, l, DirectKey(ann, bob)) && |l| > BACKLOG_WINDOW
    ensures |Missed(t, DirectKey(ann, bob), 0)| == |l|
    ensures !BringsMissed(Tail(l, BACKLOG_WINDOW), t, bob, [], 0)
  {
    DirectSeen(ann, bob);
    SuffixCount(l, t, DirectKey(ann, bob), 0, 0);
    assert l[0].id in t && t[l[0].id] == l[0];
    assert forall j :: 0 <= j < BACKLOG_WINDOW ==> Tail(l, BACKLOG_WINDOW)[j] == l[|l| - BACKLOG_WINDOW + j];
  }

  lemma ResumeStep(s: System, ann: PeerId, bob: PeerId, l: seq<Message>)
    requires Two(ann, bob) && Away(s, ann, bob, l) && |l| > MAX_BACKLOG
    ensures var ms := Tail(l, BACKLOG_WINDOW);
      Next(s, Enrol(1, 2, false, ms), System(Enrolled(s.server, 2, bob, [], ms), s.clients, s.links[1 := 2]))
  {
    var ms, s1 := Tail(l, BACKLOG_WINDOW), Enlisted(s.server, bob, []);
    AllIsDelta(s.Table(), l, ann, bob);
    TailIsWindow(s.Table(), l, ann, bob);
    assert s1.RoomsOf(bob) == [];
    assert IsBacklog(s1, bob, 0, false, ms);
    assert s.clients[1 := s.clients[1]] == s.clients;
  }

  /** However many messages over MAX_BACKLOG are waiting for Bob, his resume is not told to start
      again, and what is put on his connection is the last BACKLOG_WINDOW of them and then the
      number of the newest: the others he missed he will not be sent. */
  lemma WindowLeavesOut(ann: PeerId, bob: PeerId, n: nat)
    returns (states: seq<System>, labels: seq<Label>, ms: seq<Message>)
    requires Two(ann, bob) && n > MAX_BACKLOG
    ensures Run(states, labels + [Enrol(1, 2, false, ms)]) && |ms| == BACKLOG_WINDOW
    ensures var s, s' := states[|labels|], states[|labels| + 1];
      && 1 in s.clients && s.clients[1].self == bob && s'.clients == s.clients && 2 in s'.server.out
      && !Reset(s.server, s.clients[1].cursor, false)
      && s'.server.out[2] == Renamed(ms, bob, []) + [SyncedFrame(n, "")]
      && |Missed(s'.Table(), DirectKey(ann, bob), s.clients[1].cursor)| == n
      && !BringsMissed(ms, s'.Table(), bob, [], s.clients[1].cursor)
  {
    var l;
    states, labels, l := Writing(ann, bob, n);
    var s := states[|labels|];
    ms := Tail(l, BACKLOG_WINDOW);
    ResumeStep(s, ann, bob, l);
    LeftOut(s.Table(), l, ann, bob);
    var s' := System(Enrolled(s.server, 2, bob, [], ms), s.clients, s.links[1 := 2]);
    RunOn(states, labels, Enrol(1, 2, false, ms), s');
    states := states + [s'];
  }
}

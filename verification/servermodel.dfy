/** What the server does with a frame (chatserver/handle.go, chatserver/server.go), as functions
    on its store, its roster of rooms and the queues of its connections. One handler is one
    step here; handoff.dfy takes the handlers apart. */
module ServerModel {
  import opened Wrappers
  import opened Names
  import opened Messages
  import opened StoreModel

  type ConnId = nat
  type Rooms = seq<string>

  datatype Frame =
    | MsgFrame(id: MessageId, conv: ConvId, from: PeerId, body: string, sent: int, num: nat,
               system: bool, transfer: Option<TransferId>)
    | SeqFrame(id: MessageId, num: nat)
    | SyncedFrame(cursor: nat, room: string)
    | ErrorFrame(code: nat)

  const ERR_BAD_FRAME: nat := 1
  const ERR_NO_SUCH_PEER: nat := 3
  const ERR_NOT_IN_ROOM: nat := 4
  const BACKLOG_WINDOW: nat := 200
  const MAX_BACKLOG: nat := 2000
  const MAX_ROOM: nat := 48

  datatype Server = Server(
    store: Store,
    roster: map<PeerId, Rooms>,
    conns: map<ConnId, PeerId>,
    out: map<ConnId, seq<Frame>>)
  {
    function RoomsOf(p: PeerId): Rooms { if p in roster then roster[p] else [] }

    function Send(k: ConnId, fs: seq<Frame>): Server {
      if k in out then this.(out := out[k := out[k] + fs]) else this
    }
  }

  // ---------------------------------------------------------------- wire form of a message

  function FrameOf(m: Message, conv: ConvId): Frame {
    MsgFrame(m.id, conv, m.from, m.body, m.sent, m.num, m.system, m.transfer)
  }

  /** The message a frame carries, filed under the sender the connection proves. */
  function MessageFromFrame(f: Frame, from: PeerId, now: int): Option<Message>
    requires f.MsgFrame?
  {
    if f.id == "" || |f.body| > MAX_BODY_RUNES then None
    else Some(Message(f.id, f.conv, from, f.body, if f.sent == 0 then now else f.sent, f.num,
                      false, Unset, false, f.transfer, f.system))
  }

  // ------------------------------------------------------------------- who may see what

  predicate HasRoom(rooms: Rooms, room: string) { CanonRoom(room) in rooms }

  /** The name a recipient calls a stored conversation, if they may see it at all. */
  function ConvFor(conv: ConvId, p: PeerId, rooms: Rooms): Option<ConvId> {
    if IsRoom(conv) then
      if HasRoom(rooms, Room(conv)) then Some(conv) else None
    else
      match DirectPair(conv)
      case None => None
      case Some((a, b)) =>
        if p == a then Some(DirectConv(b)) else if p == b then Some(DirectConv(a)) else None
  }

  predicate ConvVisible(conv: ConvId, p: PeerId, rooms: Rooms) {
    if IsRoom(conv) then HasRoom(rooms, Room(conv))
    else match DirectPair(conv) case None => false case Some((a, b)) => a == p || b == p
  }

  predicate Sees(conv: ConvId, p: PeerId, rooms: Rooms) { ConvFor(conv, p, rooms).Some? }

  /** The window asks ConvVisible and the relay asks ConvFor: they let through the same. */
  lemma VisibleIsNamed(conv: ConvId, p: PeerId, rooms: Rooms)
    ensures ConvVisible(conv, p, rooms) <==> Sees(conv, p, rooms)
  {
  }

  // ------------------------------------------------------------------------- routing

  datatype Routed = To(conv: ConvId, who: set<PeerId>) | Refuse(code: nat)

  function Route(s: Server, sender: PeerId, conv: ConvId): Routed {
    if IsRoom(conv) then
      var room := CanonRoom(Room(conv));
      if room == "" || !HasRoom(s.RoomsOf(sender), room) then Refuse(ERR_NOT_IN_ROOM)
      else To(RoomConv(room), set p | p in s.roster && room in s.roster[p])
    else
      var other := ConvPeer(conv);
      if other == "" || other == sender then Refuse(ERR_BAD_FRAME)
      else if other !in s.roster then Refuse(ERR_NO_SUCH_PEER)
      else To(DirectKey(sender, other), {sender, other})
  }

  /** Everybody the server has enrolled has a well-formed id. */
  ghost predicate RosterOk(s: Server) {
    && (forall p :: p in s.roster ==> ValidId(p))
    && (forall k :: k in s.conns ==> s.conns[k] in s.roster)
    && s.out.Keys == s.conns.Keys
  }

  /** A conversation the server files messages under: a canonical room, or an enrolled pair. */
  ghost predicate Filable(conv: ConvId) {
    || (exists r :: CanonRoom(r) != "" && conv == RoomConv(r))
    || (exists a, b :: ValidId(a) && ValidId(b) && a != b && conv == DirectKey(a, b))
  }

  /** The recipients of an accepted message are exactly the enrolled people who can see the
      conversation it is filed under, the sender among them. */
  lemma RecipientsAreWhoSees(s: Server, sender: PeerId, conv: ConvId)
    requires RosterOk(s) && sender in s.roster && Route(s, sender, conv).To?
    ensures var r := Route(s, sender, conv);
      && Filable(r.conv)
      && sender in r.who
      && r.who <= s.roster.Keys
      && forall p :: p in s.roster ==> (p in r.who <==> Sees(r.conv, p, s.RoomsOf(p)))
  {
    var r := Route(s, sender, conv);
    if IsRoom(conv) {
      var room := CanonRoom(Room(conv));
      CanonRoomIdempotent(Room(conv));
      NamesAreDisjoint("", "", "", room);
      assert CanonRoom(room) == room && r.conv == RoomConv(room);
    } else {
      var other := ConvPeer(conv);
      DirectSeen(sender, other);
      assert ValidId(sender) && ValidId(other) && sender != other;
    }
  }

  lemma DirectSeen(a: PeerId, b: PeerId)
    requires ValidId(a) && ValidId(b) && a != b
    ensures forall p, rooms ::
      ConvFor(DirectKey(a, b), p, rooms)
      == if p == a then Some(DirectConv(b)) else if p == b then Some(DirectConv(a)) else None
  {
    NamesAreDisjoint(a, b, a, "");
    ValidIdHasNoPlus(Lo(a, b));
    DirectPairInvertsDirectKey(a, b);
  }

  /** What each end of a one-to-one message is told to call the conversation routes back to
      the key the message is stored under. */
  lemma ReplyRoutesBack(s: Server, sender: PeerId, conv: ConvId, p: PeerId)
    requires RosterOk(s) && sender in s.roster && !IsRoom(conv) && Route(s, sender, conv).To?
    requires p in Route(s, sender, conv).who
    ensures var r := Route(s, sender, conv);
      var name := ConvFor(r.conv, p, s.RoomsOf(p));
      name.Some? && Route(s, p, name.value) == r
  {
    var other := ConvPeer(conv);
    DirectSeen(sender, other);
    DirectKeySymmetric(sender, other);
    NamesAreDisjoint(sender, other, sender, "");
    NamesAreDisjoint(sender, other, other, "");
    assert {sender, other} == {other, sender};
  }

  // ------------------------------------------------------------------------ handlers

  /** What one connection is sent of a message that has just been filed. */
  function LiveFor(s: Server, m: Message, who: set<PeerId>, k: ConnId): seq<Frame>
    requires k in s.conns
  {
    var name := ConvFor(m.conv, s.conns[k], s.RoomsOf(s.conns[k]));
    if s.conns[k] in who && name.Some? then [FrameOf(m, name.value)] else []
  }

  function FanOut(s: Server, m: Message, who: set<PeerId>): Server {
    s.(out := map k | k in s.out :: s.out[k] + if k in s.conns then LiveFor(s, m, who, k) else [])
  }

  /** One frame to every connection of one person. */
  function SendTo(s: Server, p: PeerId, f: Frame): Server {
    s.(out := map k | k in s.out :: s.out[k] + if k in s.conns && s.conns[k] == p then [f] else [])
  }

  /** The message as it is filed: under the routed name, with the next number. */
  function Stamped(s: Server, m: Message, conv: ConvId): Message {
    m.(conv := conv, num := NextSeq(s.store).1)
  }

  function OnMessage(s: Server, k: ConnId, sender: PeerId, f: Frame, now: int): Server
    requires f.MsgFrame?
  {
    match MessageFromFrame(f, sender, now)
    case None => s.Send(k, [ErrorFrame(ERR_BAD_FRAME)])
    case Some(m0) =>
      match Route(s, sender, f.conv)
      case Refuse(code) => s.Send(k, [ErrorFrame(code)])
      case To(conv, who) =>
        if m0.id in s.store.table then s.Send(k, [SeqFrame(m0.id, s.store.table[m0.id].num)])
        else
          var m := Stamped(s, m0, conv);
          var s1 := s.(store := AppendMsg(NextSeq(s.store).0, m, now).0);
          SendTo(FanOut(s1, m, who), sender, SeqFrame(m.id, m.num))
  }

  /** A resend is free: nothing is stored, nothing is numbered, nobody else hears of it, and the
      answer is the number the message was given the first time. */
  lemma ResendIsFree(s: Server, k: ConnId, sender: PeerId, f: Frame, now: int)
    requires f.MsgFrame? && f.id in s.store.table
    ensures var s' := OnMessage(s, k, sender, f, now);
      && s'.store == s.store
      && (forall j :: j in s.out && j != k ==> j in s'.out && s'.out[j] == s.out[j])
      && (MessageFromFrame(f, sender, now).Some? && Route(s, sender, f.conv).To? && k in s.out ==>
            s'.out[k] == s.out[k] + [SeqFrame(f.id, s.store.table[f.id].num)])
  {
  }

  /** Rooms as the roster keeps them: folded, non-empty, short, each once. */
  function CanonRooms(rooms: Rooms): Rooms {
    if rooms == [] then []
    else
      var init, r := CanonRooms(rooms[..|rooms| - 1]), CanonRoom(rooms[|rooms| - 1]);
      if r == "" || r in init || |r| > MAX_ROOM then init else init + [r]
  }

  predicate NoRoomTwice(rooms: Rooms) { forall i, j :: 0 <= i < j < |rooms| ==> rooms[i] != rooms[j] }

  predicate Keepable(r: string) { r != "" && |r| <= MAX_ROOM }

  /** The rooms kept are exactly the folded names that are neither empty nor too long, each once. */
  lemma {:induction false} CanonRoomsAre(rooms: Rooms)
    ensures NoRoomTwice(CanonRooms(rooms))
    ensures forall r :: r in CanonRooms(rooms) <==>
      Keepable(r) && exists i :: 0 <= i < |rooms| && CanonRoom(rooms[i]) == r
  {
    if rooms != [] {
      var init, last := rooms[..|rooms| - 1], rooms[|rooms| - 1];
      CanonRoomsAre(init);
      forall r ensures r in CanonRooms(rooms) <==> Keepable(r) && Spelt(rooms, r) {
        SpeltMore(init, last, r);
        assert rooms == init + [last];
      }
    }
  }

  predicate Spelt(rooms: Rooms, r: string) { exists i :: 0 <= i < |rooms| && CanonRoom(rooms[i]) == r }

  lemma SpeltMore(init: Rooms, last: string, r: string)
    ensures Spelt(init + [last], r) <==> Spelt(init, r) || CanonRoom(last) == r
  {
    var rooms := init + [last];
    if i :| 0 <= i < |init| && CanonRoom(init[i]) == r { assert CanonRoom(rooms[i]) == r; }
    assert rooms[|init|] == last;
  }

  lemma CanonRoomsKeeps(rooms: Rooms, r: string)
    requires CanonRoom(r) != "" && |CanonRoom(r)| <= MAX_ROOM
    ensures CanonRoom(r) in CanonRooms(rooms + [r])
  {
    CanonRoomsAre(rooms + [r]);
    assert (rooms + [r])[|rooms|] == r;
  }

  /** They stand in the order in which their first spellings came. */
  lemma {:induction false} CanonRoomsInOrder(rooms: Rooms, more: Rooms)
    ensures CanonRooms(rooms) <= CanonRooms(rooms + more)
  {
    if more == [] {
      assert rooms + more == rooms;
    } else {
      assert (rooms + more)[..|rooms + more| - 1] == rooms + more[..|more| - 1];
      CanonRoomsInOrder(rooms, more[..|more| - 1]);
    }
  }

  /** A list that has been folded is left as it is. */
  lemma {:induction false} CanonRoomsIdempotent(rooms: Rooms)
    ensures CanonRooms(CanonRooms(rooms)) == CanonRooms(rooms)
  {
    if rooms != [] {
      var init, r := CanonRooms(rooms[..|rooms| - 1]), CanonRoom(rooms[|rooms| - 1]);
      CanonRoomsIdempotent(rooms[..|rooms| - 1]);
      CanonRoomIdempotent(rooms[|rooms| - 1]);
      assert (init + [r])[..|init|] == init;
    }
  }

  function Renamed(ms: seq<Message>, p: PeerId, rooms: Rooms): seq<Frame> {
    if ms == [] then []
    else
      Renamed(ms[..|ms| - 1], p, rooms) +
      match ConvFor(ms[|ms| - 1].conv, p, rooms)
      case None => []
      case Some(name) => [FrameOf(ms[|ms| - 1], name)]
  }

  ghost predicate IsDelta(ms: seq<Message>, t: map<MessageId, Message>, p: PeerId, rooms: Rooms, cursor: nat) {
    && Sorted(ms)
    && (forall x :: x in ms ==> x.id in t && t[x.id] == x && x.num > cursor && Sees(x.conv, p, rooms))
    && (forall id :: id in t && t[id].num > cursor && Sees(t[id].conv, p, rooms) ==> t[id] in ms)
  }

  /** x is among the last limit messages of its conversation. */
  ghost predicate InTail(x: Message, t: map<MessageId, Message>, limit: nat) {
    exists l :: IsListing(l, t, x.conv) && x in Tail(l, limit)
  }

  ghost predicate IsWindow(ms: seq<Message>, t: map<MessageId, Message>, p: PeerId, rooms: Rooms) {
    && Sorted(ms)
    && (forall x :: x in ms ==> x.id in t && t[x.id] == x && Sees(x.conv, p, rooms) && InTail(x, t, BACKLOG_WINDOW))
    && (forall id :: id in t && Sees(t[id].conv, p, rooms) && InTail(t[id], t, BACKLOG_WINDOW) ==> t[id] in ms)
  }

  predicate Reset(s: Server, cursor: nat, foreign: bool) { cursor > s.store.nextSeq || foreign }

  /** The messages of the backlog, and whether they are a window rather than a delta. */
  ghost predicate IsBacklog(s: Server, p: PeerId, cursor: nat, reset: bool, ms: seq<Message>) {
    exists delta ::
      && IsDelta(delta, s.store.table, p, s.RoomsOf(p), cursor)
      && if reset || |delta| > MAX_BACKLOG then IsWindow(ms, s.store.table, p, s.RoomsOf(p)) else ms == delta
  }

  function Enlisted(s: Server, p: PeerId, rooms: Rooms): Server { s.(roster := s.roster[p := CanonRooms(rooms)]) }

  /** Enrolment on a new connection: rooms recorded, registered, backlog and synced queued. */
  function Enrolled(s: Server, k: ConnId, p: PeerId, rooms: Rooms, ms: seq<Message>): Server {
    var s1 := Enlisted(s, p, rooms);
    s1.(conns := s1.conns[k := p],
        out := s1.out[k := Renamed(ms, p, s1.RoomsOf(p)) + [SyncedFrame(s.store.nextSeq, "")]])
  }

  function OnJoin(s: Server, k: ConnId, p: PeerId, name: string, history: seq<Message>): Server {
    var room := CanonRoom(name);
    if room == "" || |room| > MAX_ROOM then s.Send(k, [ErrorFrame(ERR_BAD_FRAME)])
    else
      var s1 := if HasRoom(s.RoomsOf(p), room) then s else Enlisted(s, p, s.RoomsOf(p) + [room]);
      s1.Send(k, Verbatim(Tail(history, BACKLOG_WINDOW)) + [SyncedFrame(s.store.nextSeq, room)])
  }

  function Verbatim(ms: seq<Message>): (fs: seq<Frame>)
    ensures |fs| == |ms| && forall i :: 0 <= i < |ms| ==> fs[i] == FrameOf(ms[i], ms[i].conv)
  {
    seq(|ms|, i requires 0 <= i < |ms| => FrameOf(ms[i], ms[i].conv))
  }

  function Without(rooms: Rooms, room: string): Rooms {
    if rooms == [] then []
    else Without(rooms[..|rooms| - 1], room) + if rooms[|rooms| - 1] == room then [] else [rooms[|rooms| - 1]]
  }

  function OnLeave(s: Server, p: PeerId, name: string): Server {
    Enlisted(s, p, Without(s.RoomsOf(p), CanonRoom(name)))
  }

  function Gone(s: Server, k: ConnId): Server { s.(conns := s.conns - {k}, out := s.out - {k}) }
}

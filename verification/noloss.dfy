/** Nothing a person has sent is lost (chatclientd/daemon.go, chat/store.go). Changes to memory
    and the lines that record them are separate steps here: a line is written after the lock is
    let go, so lines land in any order, and a crash loses those that have not landed and may
    leave half of one behind. */
module NoLoss {
  import opened Wrappers
  import opened Names
  import opened Messages
  import opened StoreModel
  import opened Journal
  import ByteLog
  import ChatStores
  import Daemons

  // ------------------------------------------------- memory first, the line afterwards

  /** What an operation does to memory. */
  function Remember(s: Store, op: Op): Store { Exec(s.(persist := false), op).(persist := s.persist) }

  /** The line it owes to a history file. */
  function LineFor(s: Store, op: Op): Option<(ConvId, LogLine)> {
    match op
    case DoAppend(m, now) => if AppendMsg(s, m, now).1 == Added then Some((m.conv, MsgLine(Filed(m, now)))) else None
    case DoConfirm(id, num) => if id in s.table then Some((s.table[id].conv, NumLine(id, num, Delivered))) else None
    case DoState(id, st) => if id in s.table then Some((s.table[id].conv, StateLine(id, st))) else None
    case DoRead(c) => if s.Unread(c) > 0 then Some((c, ReadLine)) else None
    case DoMint => None
  }

  /** If the line lands at once this is the operation itself. */
  lemma LandingAtOnce(s: Store, op: Op)
    requires s.persist
    ensures Exec(s, op) ==
      match LineFor(s, op) case None => Remember(s, op) case Some((c, l)) => Remember(s, op).Log(c, l)
  {
  }

  /** pending holds the lines on their way; composed, the ids of everything typed here; kept, the
      messages whose Send has returned with the line whole on disk. */
  datatype Outbox = Outbox(store: Store, pending: multiset<(ConvId, LogLine)>, composed: set<MessageId>,
                           kept: map<MessageId, Message>)

  datatype Label =
    | Compose(m: Message)
    | Do(op: Op)
    | Land(c: ConvId, l: LogLine)
    | Crash(ends: map<ConvId, FileEnd>, names: seq<ConvId>)

  /** What a reader finds of a conversation, and the part of it that a newline ends. */
  function LinesIn(files: map<ConvId, LogFile>, c: ConvId): seq<LogLine> { if c in files then files[c].Read() else [] }

  function Firm(files: map<ConvId, LogFile>, c: ConvId): seq<LogLine> { if c in files then files[c].lines else [] }

  predicate OnDisk(files: map<ConvId, LogFile>, c: ConvId, l: LogLine) { l in LinesIn(files, c) }

  predicate Holds(files: map<ConvId, LogFile>, c: ConvId, id: MessageId) { HasMsg(LinesIn(files, c), id) }

  /** A text message as Send files it. */
  predicate Text(m: Message) { m.mine && !m.system && m.transfer.None? && m.num == 0 && m.state == Queued }

  /** No line and no entry has ever carried this id. */
  ghost predicate Fresh(s: Outbox, id: MessageId) {
    && id !in s.composed && id !in s.store.table
    && (forall c, l :: OnDisk(s.store.files, c, l) ==> !About(l, id))
    && (forall x :: x in s.pending ==> !About(x.1, id))
  }

  predicate About(l: LogLine, id: MessageId) {
    match l
    case MsgLine(m) => m.id == id
    case StateLine(i, _) => i == id
    case NumLine(i, _, _) => i == id
    case _ => false
  }

  /** What the rest of the client does: the server's numbers are above 0, what comes back of our
      own is what was sent, and only what announced a transfer is ever marked failed. */
  predicate Ordinary(s: Outbox, op: Op) {
    match op
    case DoAppend(m, _) => !Text(m) && (m.id in s.composed ==> m.mine && m.transfer.None? && m.num > 0)
    case DoConfirm(_, num) => num > 0
    case DoState(id, st) => st == Sending || (id in s.store.table && s.store.table[id].transfer.Some?)
    case DoRead(_) => true
    case DoMint => false
  }

  function Owing(s: Outbox, op: Op): Outbox {
    s.(store := Remember(s.store, op),
       pending := match LineFor(s.store, op) case None => s.pending case Some(x) => s.pending + multiset{x})
  }

  function Landed(s: Outbox, c: ConvId, l: LogLine): Outbox {
    s.(store := s.store.(files := s.store.files[c := AppendLog(s.store.File(c), l)]),
       pending := s.pending - multiset{(c, l)},
       kept := if l.MsgLine? && Text(l.m) && s.store.File(c).tail.Ended? then s.kept[l.m.id := l.m] else s.kept)
  }

  /** How a crash may leave a file: with part of a line that was being written, or with all of it
      but the newline. */
  ghost predicate CanEnd(s: Outbox, c: ConvId, e: FileEnd) {
    match e
    case Ended => false
    case Half => exists x :: x in s.pending && x.0 == c
    case Loose(l) => s.store.File(c).tail.Ended? && (c, l) in s.pending
  }

  function Crashed(s: Store, ends: map<ConvId, FileEnd>): Store {
    s.(files := map c | c in s.files.Keys + ends.Keys ::
                  if c in ends then LogFile(s.File(c).lines, ends[c]) else s.File(c))
  }

  ghost predicate Next(s: Outbox, l: Label, s': Outbox) {
    match l
    case Compose(m) =>
      && Fresh(s, m.id) && m.id != "" && m.conv != "" && Text(m) && m.sent != 0 && |m.body| <= MAX_BODY_RUNES
      && s' == Owing(s, DoAppend(m, 0)).(composed := s.composed + {m.id})
    case Do(op) => Ordinary(s, op) && s' == Owing(s, op)
    case Land(c, line) => (c, line) in s.pending && s' == Landed(s, c, line)
    case Crash(ends, names) =>
      && (forall c :: c in ends ==> CanEnd(s, c, ends[c]))
      && Lists(names, Crashed(s.store, ends))
      && s' == s.(store := Reload(Crashed(s.store, ends), names), pending := multiset{})
  }

  // ------------------------------------------------------------- what the bytes make of it

  /** The end that the first k bytes of a line leave. */
  ghost predicate CutLeaves(codec: ByteLog.LineCodec, s: Outbox, c: ConvId, l: LogLine, k: nat, e: FileEnd) {
    && (c, l) in s.pending && 0 < k <= |codec.enc(l)|
    && e == ByteLog.AfterWrite(codec, s.store.File(c), ByteLog.Written(l, k)).tail
  }

  /** The ends a crash may leave are exactly those of a line on its way, cut after some of its
      bytes. */
  lemma EndsAreCutWrites(codec: ByteLog.LineCodec, s: Outbox, c: ConvId, e: FileEnd)
    requires forall l :: |codec.enc(l)| > 1
    ensures CanEnd(s, c, e) <==> exists l, k :: CutLeaves(codec, s, c, l, k, e)
  {
    if CanEnd(s, c, e) && e.Half? {
      var x :| x in s.pending && x.0 == c;
      assert CutLeaves(codec, s, c, x.1, 1, e);
    }
    if CanEnd(s, c, e) && e.Loose? { assert CutLeaves(codec, s, c, e.l, |codec.enc(e.l)|, e); }
    if exists l, k :: CutLeaves(codec, s, c, l, k, e) {
      var l, k :| CutLeaves(codec, s, c, l, k, e);
      assert (c, l) in s.pending;
    }
  }

  /** However much of a line on its way reaches the bytes of its file, the step is one of this
      system's: nothing, a line that lands, or an end that a crash may leave. */
  lemma BytesLandOrEnd(codec: ByteLog.LineCodec, b: seq<Byte>, s: Outbox, c: ConvId, l: LogLine, k: nat)
    requires ByteLog.OneObjectALine(codec) && ByteLog.RestOk(codec, b) && ByteLog.FileOf(codec, b) == s.store.File(c)
    requires (c, l) in s.pending && !l.Garbled? && k <= |ByteLog.Whole(codec, l)|
    ensures var after := ByteLog.FileOf(codec, b + ByteLog.Whole(codec, l)[..k]);
      if k == 0 then after == s.store.File(c)
      else if k == |ByteLog.Whole(codec, l)| then after == Landed(s, c, l).store.File(c)
      else CanEnd(s, c, after.tail) && after == Crashed(s.store, map[c := after.tail]).File(c)
  {
    if k == 0 {
      assert b + ByteLog.Whole(codec, l)[..0] == b;
    } else if k == |ByteLog.Whole(codec, l)| {
      assert ByteLog.Whole(codec, l)[..k] == ByteLog.Whole(codec, l);
      ByteLog.WholeWrite(codec, b, l);
    } else {
      ByteLog.CutWrite(codec, b, l, k);
    }
  }

  ghost predicate Run(states: seq<Outbox>, labels: seq<Label>) {
    && |states| == |labels| + 1 && states[0] == Outbox(Empty(true), multiset{}, {}, map[])
    && forall i :: 0 <= i < |labels| ==> Next(states[i], labels[i], states[i + 1])
  }

  // ------------------------------------------------------------------ what always holds

  /** Numbered by the server, or among what is offered to it at every reconnection. */
  predicate Safe(m: Message) { m.num > 0 || (m.mine && (m.state == Queued || m.state == Sending)) }

  predicate LineOk(l: LogLine, composed: set<MessageId>) {
    match l
    case MsgLine(m) => m.id in composed ==> m.transfer.None? && m.mine && (m.num > 0 || m.state == Queued)
    case StateLine(id, st) => id in composed ==> st == Sending
    case NumLine(_, num, st) => num > 0 && st == Delivered
    case _ => true
  }

  ghost predicate LinesOk(s: Outbox) {
    && (forall c, l :: OnDisk(s.store.files, c, l) ==> LineOk(l, s.composed))
    && (forall x :: x in s.pending ==> LineOk(x.1, s.composed))
  }

  ghost predicate MemoryOk(s: Outbox) {
    && Keyed(s.store.table)
    && forall id :: id in s.store.table && id in s.composed ==>
        Safe(s.store.table[id]) && s.store.table[id].mine && s.store.table[id].transfer.None?
  }

  /** What is on disk is in memory, under one conversation. */
  ghost predicate FilesHeld(s: Outbox) {
    forall c, id :: Holds(s.store.files, c, id) ==>
      && MsgTable(LinesIn(s.store.files, c))[id].id == id && MsgTable(LinesIn(s.store.files, c))[id].conv == c
      && id in s.store.table && s.store.table[id].conv == c
  }

  ghost predicate FilesRead(s: Outbox) { forall c :: Loadable(LinesIn(s.store.files, c), c) }

  /** A message line on its way is for something in memory, is the only one, and has not landed. */
  ghost predicate PendingOk(s: Outbox) {
    && (forall x :: x in s.pending && x.1.MsgLine? ==>
          && x.1.m.id != "" && x.1.m.conv == x.0 != "" && s.pending[x] == 1
          && x.1.m.id in s.store.table && s.store.table[x.1.m.id].conv == x.0
          && !Holds(s.store.files, x.0, x.1.m.id))
    && (forall x, y :: x in s.pending && y in s.pending && x.1.MsgLine? && y.1.MsgLine? && x.1.m.id == y.1.m.id ==>
        x == y)
  }

  predicate SameText(m: Message, k: Message) {
    m.id == k.id && m.conv == k.conv && m.from == k.from && m.body == k.body && m.sent == k.sent && m.mine == k.mine
  }

  ghost predicate KeptEntry(s: Outbox, id: MessageId)
    requires id in s.kept
  {
    && id in s.composed && id in s.store.table
    && HasMsg(Firm(s.store.files, s.kept[id].conv), id)
    && MsgTable(Firm(s.store.files, s.kept[id].conv))[id] == s.kept[id]
    && SameText(s.store.table[id], s.kept[id])
  }

  ghost predicate KeptOk(s: Outbox) { forall id :: id in s.kept ==> KeptEntry(s, id) }

  /** While its line is on its way a composed message is already as it was typed. */
  ghost predicate TypedOk(s: Outbox) {
    forall x :: x in s.pending && x.1.MsgLine? && Text(x.1.m) && x.1.m.id in s.store.table ==>
      SameText(s.store.table[x.1.m.id], x.1.m) && x.1.m.id in s.composed
  }

  ghost predicate Inv(s: Outbox) {
    && s.store.persist && FilesRead(s)
    && LinesOk(s) && MemoryOk(s) && FilesHeld(s) && PendingOk(s) && KeptOk(s) && TypedOk(s)
  }

  // ---------------------------------------------------------------- changes to memory

  /** A new message: an entry, and its line on the way. */
  ghost predicate Filing(s: Outbox, f: Message, s': Outbox) {
    && f.id !in s.store.table && f.id != "" && f.conv != ""
    && s'.store.files == s.store.files && s'.store.persist && s'.store.table == s.store.table[f.id := f]
    && s'.pending == s.pending + multiset{(f.conv, MsgLine(f))} && s'.kept == s.kept
    && (s'.composed == s.composed || (s'.composed == s.composed + {f.id} && Fresh(s, f.id)))
    && (f.id in s'.composed ==> f.mine && f.transfer.None? && (f.num > 0 || f.state == Queued))
    && (Text(f) ==> f.id in s'.composed)
  }

  lemma FiledKeeps(s: Outbox, f: Message, s': Outbox)
    requires Inv(s) && Filing(s, f, s')
    ensures Inv(s')
  {
    FiledKeepsLines(s, f, s');
    FiledKeepsPending(s, f, s');
    FiledKeepsKept(s, f, s');
  }

  lemma FiledKeepsPending(s: Outbox, f: Message, s': Outbox)
    requires PendingOk(s) && TypedOk(s) && FilesHeld(s) && Filing(s, f, s')
    ensures PendingOk(s') && TypedOk(s') && FilesHeld(s')
  {
    var line := (f.conv, MsgLine(f));
    assert line !in s.pending && !Holds(s.store.files, f.conv, f.id);
    forall x | x in s'.pending ensures x in s.pending || x == line {}
  }

  lemma FiledKeepsKept(s: Outbox, f: Message, s': Outbox)
    requires MemoryOk(s) && KeptOk(s) && Filing(s, f, s')
    ensures MemoryOk(s') && KeptOk(s')
  {
  }

  lemma FiledKeepsLines(s: Outbox, f: Message, s': Outbox)
    requires LinesOk(s) && Filing(s, f, s')
    ensures LinesOk(s')
  {
    forall c, l | OnDisk(s'.store.files, c, l) ensures LineOk(l, s'.composed) { assert OnDisk(s.store.files, c, l); }
    forall x | x in s'.pending ensures LineOk(x.1, s'.composed) { assert x in s.pending || x == (f.conv, MsgLine(f)); }
  }

  /** Entries stay where they are with what was typed in them, and no message line is added. */
  lemma ShapeKeeps(s: Outbox, x: (ConvId, LogLine), s': Outbox)
    requires FilesHeld(s) && PendingOk(s) && KeptOk(s) && TypedOk(s) && !x.1.MsgLine?
    requires s'.store.files == s.store.files && s'.store.table.Keys == s.store.table.Keys
    requires forall id :: id in s.store.table ==> SameText(s'.store.table[id], s.store.table[id])
    requires s'.pending == s.pending || s'.pending == s.pending + multiset{x}
    requires s'.kept == s.kept && s'.composed == s.composed
    ensures FilesHeld(s') && PendingOk(s') && KeptOk(s') && TypedOk(s')
  {
    assert forall y :: y in s'.pending && y.1.MsgLine? ==> y in s.pending && s'.pending[y] == s.pending[y];
  }

  /** An entry that changes in place, and the line that says so on its way. */
  lemma AmendedKeeps(s: Outbox, id: MessageId, m: Message, l: LogLine, s': Outbox)
    requires Inv(s) && id in s.store.table
    requires m == s.store.table[id].(num := m.num, state := m.state, read := m.read)
    requires s'.store.files == s.store.files && s'.store.persist && s'.store.table == s.store.table[id := m]
    requires s'.pending == s.pending + multiset{(m.conv, l)} && s'.kept == s.kept && s'.composed == s.composed
    requires !l.MsgLine? && LineOk(l, s.composed) && (id in s.composed ==> Safe(m))
    ensures Inv(s')
  {
    forall x | x in s'.pending ensures x in s.pending || x == (m.conv, l) {}
    ShapeKeeps(s, (m.conv, l), s');
  }

  lemma ReadKeeps(s: Outbox, c: ConvId, s': Outbox)
    requires Inv(s) && s'.store.files == s.store.files && s'.store.persist
      && s'.store.table == ReadAll(s.store.table, c)
    requires s'.pending == s.pending || s'.pending == s.pending + multiset{(c, ReadLine)}
    requires s'.kept == s.kept && s'.composed == s.composed
    ensures Inv(s')
  {
    forall x | x in s'.pending ensures x in s.pending || x == (c, ReadLine) {}
    ShapeKeeps(s, (c, ReadLine), s');
  }

  lemma ComposeKeeps(s: Outbox, m: Message, s': Outbox)
    requires Inv(s) && Next(s, Compose(m), s')
    ensures Inv(s')
  {
    assert Filed(m, 0) == m;
    FiledKeeps(s, m, s');
  }

  lemma DoKeeps(s: Outbox, op: Op, s': Outbox)
    requires Inv(s) && Ordinary(s, op) && s' == Owing(s, op)
    ensures Inv(s')
  {
    match op
    case DoAppend(m, now) =>
      if AppendMsg(s.store, m, now).1 == Added { FiledKeeps(s, Filed(m, now), s'); }
    case DoConfirm(id, num) =>
      if id in s.store.table {
        AmendedKeeps(s, id, Confirmed(s.store.table[id], num), NumLine(id, num, Delivered), s');
      }
      else { NothingKeeps(s, s'); }
    case DoState(id, st) =>
      if id in s.store.table { AmendedKeeps(s, id, s.store.table[id].(state := st), StateLine(id, st), s'); }
    case DoRead(c) => ReadKeeps(s, c, s');
  }

  lemma NothingKeeps(s: Outbox, s': Outbox)
    requires Inv(s) && s'.store.files == s.store.files && s'.store.persist && s'.store.table == s.store.table
    requires s'.pending == s.pending && s'.kept == s.kept && s'.composed == s.composed
    ensures Inv(s')
  {
  }

  // ------------------------------------------------------------------------- landing

  lemma MsgTableMore(ls: seq<LogLine>, l: LogLine)
    ensures MsgTable(ls + [l]) == if l.MsgLine? && l.m.id != "" then MsgTable(ls)[l.m.id := l.m] else MsgTable(ls)
  {
    InitOfSnoc(ls, l);
  }

  lemma LoadableMore(ls: seq<LogLine>, l: LogLine, c: ConvId)
    ensures Loadable(ls + [l], c) <==>
      Loadable(ls, c) && (l.MsgLine? && l.m.id != "" ==> l.m.conv == c && c != "" && l.m.id !in MsgTable(ls))
  {
    InitOfSnoc(ls, l);
  }

  /** What stands after the last newline takes nothing away from what stands before it. */
  lemma FirmIsRead(f: LogFile, c: ConvId)
    requires Loadable(f.Read(), c)
    ensures Loadable(f.lines, c)
    ensures forall id :: HasMsg(f.lines, id) ==> HasMsg(f.Read(), id) && MsgTable(f.Read())[id] == MsgTable(f.lines)[id]
    ensures forall l :: l in f.lines ==> l in f.Read()
  {
    if !f.tail.Ended? {
      var x := if f.tail.Half? then Garbled else f.tail.l;
      MsgTableMore(f.lines, x);
      LoadableMore(f.lines, x, c);
    }
  }

  /** s' has in its files nothing that was not there or on its way, and has lost nothing firm. */
  ghost predicate Wrote(s: Outbox, c: ConvId, line: LogLine, s': Outbox) {
    && (forall d :: d != c ==> LinesIn(s'.store.files, d) == LinesIn(s.store.files, d))
    && (forall d :: d != c ==> Firm(s'.store.files, d) == Firm(s.store.files, d))
    && LinesIn(s'.store.files, c) == Firm(s'.store.files, c) == Firm(s.store.files, c) + [line]
  }

  lemma LandWrites(s: Outbox, c: ConvId, l: LogLine, s': Outbox)
    requires s' == Landed(s, c, l)
    ensures Wrote(s, c, if s.store.File(c).tail.Ended? then l else Garbled, s')
  {
  }

  /** The file that was written to, against what it was. */
  ghost predicate Grown(s: Outbox, c: ConvId, line: LogLine, s': Outbox) {
    && (forall id :: HasMsg(Firm(s.store.files, c), id) ==>
          Holds(s.store.files, c, id)
            && MsgTable(LinesIn(s.store.files, c))[id] == MsgTable(Firm(s.store.files, c))[id])
    && (forall k :: k in LinesIn(s'.store.files, c) ==> OnDisk(s.store.files, c, k) || k == line)
    && MsgTable(LinesIn(s'.store.files, c)) ==
         (if line.MsgLine? && line.m.id != "" then MsgTable(Firm(s.store.files, c))[line.m.id := line.m]
          else MsgTable(Firm(s.store.files, c)))
  }

  lemma LandGrows(s: Outbox, c: ConvId, line: LogLine, s': Outbox)
    requires FilesRead(s) && Wrote(s, c, line, s')
    ensures Grown(s, c, line, s') && Loadable(Firm(s.store.files, c), c)
  {
    assert Loadable(LinesIn(s.store.files, c), c);
    if c in s.store.files { FirmIsRead(s.store.files[c], c); }
    MsgTableMore(Firm(s.store.files, c), line);
    forall k | k in LinesIn(s'.store.files, c) ensures OnDisk(s.store.files, c, k) || k == line {
      if k != line { assert k in Firm(s.store.files, c); }
    }
  }

  lemma LandKeeps(s: Outbox, c: ConvId, l: LogLine, s': Outbox)
    requires Inv(s) && (c, l) in s.pending && s' == Landed(s, c, l)
    ensures Inv(s')
  {
    var line := if s.store.File(c).tail.Ended? then l else Garbled;
    LandWrites(s, c, l, s');
    LandGrows(s, c, line, s');
    LandKeepsDisk(s, c, l, line, s');
    LandKeepsKept(s, c, l, line, s');
    LandKeepsTyped(s, c, l, s');
  }

  lemma LandKeepsDisk(s: Outbox, c: ConvId, l: LogLine, line: LogLine, s': Outbox)
    requires FilesRead(s) && LinesOk(s) && FilesHeld(s) && PendingOk(s) && (c, l) in s.pending && s' == Landed(s, c, l)
    requires line == l || line == Garbled
    requires Wrote(s, c, line, s') && Grown(s, c, line, s') && Loadable(Firm(s.store.files, c), c)
    ensures FilesRead(s') && LinesOk(s') && FilesHeld(s') && PendingOk(s')
  {
    forall x | x in s'.pending ensures x in s.pending {}
    LandKeepsLines(s, c, l, line, s');
    LandKeepsRead(s, c, l, line, s');
    LandKeepsFiles(s, c, l, line, s');
    LandKeepsPending(s, c, l, line, s');
  }

  lemma LandKeepsTyped(s: Outbox, c: ConvId, l: LogLine, s': Outbox)
    requires MemoryOk(s) && TypedOk(s) && s' == Landed(s, c, l)
    ensures MemoryOk(s') && TypedOk(s')
  {
    forall x | x in s'.pending ensures x in s.pending {}
  }

  lemma LandKeepsLines(s: Outbox, c: ConvId, l: LogLine, line: LogLine, s': Outbox)
    requires LinesOk(s) && (c, l) in s.pending && (line == l || line == Garbled)
    requires s'.composed == s.composed && (forall x :: x in s'.pending ==> x in s.pending)
    requires Wrote(s, c, line, s') && Grown(s, c, line, s')
    ensures LinesOk(s')
  {
    forall d, k | OnDisk(s'.store.files, d, k) ensures LineOk(k, s'.composed) {
      assert OnDisk(s.store.files, d, k) || k == line;
    }
  }

  lemma LandKeepsRead(s: Outbox, c: ConvId, l: LogLine, line: LogLine, s': Outbox)
    requires FilesRead(s) && PendingOk(s) && (c, l) in s.pending && (line == l || line == Garbled)
    requires Wrote(s, c, line, s') && Grown(s, c, line, s') && Loadable(Firm(s.store.files, c), c)
    ensures FilesRead(s')
  {
    LoadableMore(Firm(s.store.files, c), line, c);
    forall d ensures Loadable(LinesIn(s'.store.files, d), d) {
      assert d != c ==> Loadable(LinesIn(s.store.files, d), d);
    }
  }

  lemma LandKeepsFiles(s: Outbox, c: ConvId, l: LogLine, line: LogLine, s': Outbox)
    requires FilesHeld(s) && PendingOk(s) && (c, l) in s.pending && (line == l || line == Garbled)
    requires s'.store.table == s.store.table && Wrote(s, c, line, s') && Grown(s, c, line, s')
    ensures FilesHeld(s')
  {
    forall d, id | Holds(s'.store.files, d, id)
      ensures MsgTable(LinesIn(s'.store.files, d))[id].id == id && MsgTable(LinesIn(s'.store.files, d))[id].conv == d
           && id in s'.store.table && s'.store.table[id].conv == d
    {
      if d != c { assert Holds(s.store.files, d, id); }
      else if !(line.MsgLine? && line.m.id == id) { assert Holds(s.store.files, c, id); }
    }
  }

  lemma LandKeepsPending(s: Outbox, c: ConvId, l: LogLine, line: LogLine, s': Outbox)
    requires PendingOk(s) && (c, l) in s.pending && (line == l || line == Garbled)
    requires s'.store.table == s.store.table && s'.pending == s.pending - multiset{(c, l)}
    requires Wrote(s, c, line, s') && Grown(s, c, line, s')
    ensures PendingOk(s')
  {
    forall x | x in s'.pending && x.1.MsgLine?
      ensures s'.pending[x] == 1 && !Holds(s'.store.files, x.0, x.1.m.id)
    {
      assert x in s.pending && x != (c, l);
      assert !Holds(s.store.files, x.0, x.1.m.id);
    }
  }

  lemma LandKeepsKept(s: Outbox, c: ConvId, l: LogLine, line: LogLine, s': Outbox)
    requires KeptOk(s) && PendingOk(s) && TypedOk(s) && (c, l) in s.pending
    requires s' == Landed(s, c, l) && line == if s.store.File(c).tail.Ended? then l else Garbled
    requires Wrote(s, c, line, s') && Grown(s, c, line, s')
    ensures KeptOk(s')
  {
    forall id | id in s'.kept ensures KeptEntry(s', id) {
      if id in s.kept { LandKeepsOld(s, c, l, line, s', id); } else { LandKeepsNew(s, c, l, s'); }
    }
  }

  lemma LandKeepsNew(s: Outbox, c: ConvId, l: LogLine, s': Outbox)
    requires PendingOk(s) && TypedOk(s) && (c, l) in s.pending && l.MsgLine? && Text(l.m)
    requires s.store.File(c).tail.Ended? && s' == Landed(s, c, l)
    ensures KeptEntry(s', l.m.id)
  {
    MsgTableMore(Firm(s.store.files, c), l);
    LandWrites(s, c, l, s');
  }

  lemma LandKeepsOld(s: Outbox, c: ConvId, l: LogLine, line: LogLine, s': Outbox, id: MessageId)
    requires PendingOk(s) && (c, l) in s.pending && id in s.kept && KeptEntry(s, id)
    requires s' == Landed(s, c, l) && line == if s.store.File(c).tail.Ended? then l else Garbled
    requires Wrote(s, c, line, s') && Grown(s, c, line, s')
    ensures id in s'.kept && s'.kept[id] == s.kept[id] && KeptEntry(s', id)
  {
    assert l.MsgLine? ==> !Holds(s.store.files, c, l.m.id) && s.store.table[l.m.id].conv == c;
    assert l.MsgLine? ==> l.m.id != id;
  }

  // -------------------------------------------------------------------------- crashing

  /** One file after a crash: it can be read, and says nothing memory did not hold. */
  ghost predicate LeftReadable(s: Outbox, c: ConvId, ls: seq<LogLine>) {
    && Loadable(ls, c)
    && (forall l :: l in ls ==> LineOk(l, s.composed))
    && (forall id :: HasMsg(ls, id) ==> id in s.store.table && s.store.table[id].conv == c)
    && (forall id :: HasMsg(Firm(s.store.files, c), id) ==>
        HasMsg(ls, id) && MsgTable(ls)[id] == MsgTable(Firm(s.store.files, c))[id])
  }

  lemma UntouchedReadable(s: Outbox, c: ConvId)
    requires Inv(s)
    ensures LeftReadable(s, c, LinesIn(s.store.files, c))
  {
    assert Loadable(LinesIn(s.store.files, c), c);
    if c in s.store.files { FirmIsRead(s.store.files[c], c); }
    forall l | l in LinesIn(s.store.files, c) ensures LineOk(l, s.composed) { assert OnDisk(s.store.files, c, l); }
    forall id | HasMsg(LinesIn(s.store.files, c), id) ensures id in s.store.table && s.store.table[id].conv == c {
      assert Holds(s.store.files, c, id);
    }
  }

  lemma EndedReadable(s: Outbox, c: ConvId, x: LogLine)
    requires Inv(s) && (x == Garbled || (s.store.File(c).tail.Ended? && (c, x) in s.pending))
    ensures LeftReadable(s, c, Firm(s.store.files, c) + [x])
  {
    var ls := Firm(s.store.files, c);
    UntouchedReadable(s, c);
    if c in s.store.files { FirmIsRead(s.store.files[c], c); }
    LoadableMore(ls, x, c);
    MsgTableMore(ls, x);
    if x != Garbled {
      assert LinesIn(s.store.files, c) == ls;
      assert x.MsgLine? ==> !Holds(s.store.files, c, x.m.id);
    }
  }

  lemma CrashedReadable(s: Outbox, ends: map<ConvId, FileEnd>, c: ConvId)
    requires Inv(s) && forall d :: d in ends ==> CanEnd(s, d, ends[d])
    ensures LeftReadable(s, c, LinesIn(Crashed(s.store, ends).files, c))
    ensures Firm(Crashed(s.store, ends).files, c) == Firm(s.store.files, c)
  {
    if c in ends {
      EndedReadable(s, c, if ends[c].Half? then Garbled else ends[c].l);
    } else {
      UntouchedReadable(s, c);
    }
  }

  /** Whatever a crash leaves behind, the program's loader takes. */
  lemma CrashedDirLoadable(s: Outbox, ends: map<ConvId, FileEnd>)
    requires Inv(s) && forall c :: c in ends ==> CanEnd(s, c, ends[c])
    ensures DirLoadable(Crashed(s.store, ends))
    ensures forall c :: LeftReadable(s, c, LinesIn(Crashed(s.store, ends).files, c))
  {
    var t := Crashed(s.store, ends);
    forall c ensures LeftReadable(s, c, LinesIn(t.files, c)) && t.File(c).Read() == LinesIn(t.files, c) {
      CrashedReadable(s, ends, c);
    }
    forall c, d, id | HasMsg(t.File(c).Read(), id) && HasMsg(t.File(d).Read(), id) ensures c == d {
      assert HasMsg(LinesIn(t.files, c), id) && HasMsg(LinesIn(t.files, d), id);
    }
  }

  /** The restart is the loading loop of the program, run on the files as the crash left them. */
  method Restart(ghost s: Outbox, ghost ends: map<ConvId, FileEnd>, names: seq<ConvId>, disk: ChatStores.ChatStore,
                 ghost s': Outbox)
    requires Inv(s) && Next(s, Label.Crash(ends, names), s')
    requires disk.Valid() && disk.Abs() == Store(s.store.persist, map[], map[], 0, Crashed(s.store, ends).files)
    modifies disk
    ensures disk.Valid() && disk.Abs() == s'.store
  {
    CrashedDirLoadable(s, ends);
    DirDependsOnFiles(Crashed(s.store, ends), disk.Abs(), names);
    disk.LoadHistory(names);
  }

  lemma DirDependsOnFiles(t: Store, b: Store, names: seq<ConvId>)
    requires DirLoadable(t) && Lists(names, t) && b == Store(t.persist, map[], map[], 0, t.files)
    ensures DirLoadable(b) && Lists(names, b) && Reload(t, names) == LoadDir(b, names) == Reload(b, names)
  {
    assert forall c :: b.File(c) == t.File(c);
  }

  /** A message that came back is as its file says. */
  lemma CameBack(s: Outbox, ends: map<ConvId, FileEnd>, names: seq<ConvId>, s': Outbox)
    requires Inv(s) && Next(s, Label.Crash(ends, names), s')
    ensures Reread(s, s')
  {
    var t := Crashed(s.store, ends);
    CrashedDirLoadable(s, ends);
    ReadFromDisk(t, names, s'.store);
    forall c ensures Firm(s'.store.files, c) == Firm(s.store.files, c) { CrashedReadable(s, ends, c); }
  }

  lemma ReadFromDisk(t: Store, names: seq<ConvId>, r: Store)
    requires DirLoadable(t) && Lists(names, t) && r == Reload(t, names)
    ensures r.files == t.files && r.persist == t.persist
    ensures forall c, id :: Holds(r.files, c, id) ==>
      id in r.table && r.table[id] == LoadedMsg(LinesIn(r.files, c), id)
    ensures forall id :: id in r.table ==> exists c :: Holds(r.files, c, id)
  {
    var b := Store(t.persist, map[], map[], 0, t.files);
    DirDependsOnFiles(t, b, names);
    LoadDirReads(b, b, names);
    forall c, id | Holds(r.files, c, id) ensures id in r.table && r.table[id] == LoadedMsg(LinesIn(r.files, c), id) {
      assert LinesIn(r.files, c) != [] && c in names;
      assert b.File(c).Read() == LinesIn(r.files, c) && HasMsg(b.File(c).Read(), id);
      assert HasMsg(b.File(r.table[id].conv).Read(), id);
    }
    forall id | id in r.table ensures exists c :: Holds(r.files, c, id) {
      assert b.File(r.table[id].conv).Read() == LinesIn(r.files, r.table[id].conv);
      assert Holds(r.files, r.table[id].conv, id);
    }
  }

  /** Memory is what the files say, and the files say nothing memory did not. */
  ghost predicate Reread(s: Outbox, s': Outbox) {
    && s'.composed == s.composed && s'.kept == s.kept && s'.pending == multiset{} && s'.store.persist
    && (forall c :: LeftReadable(s, c, LinesIn(s'.store.files, c)) && Firm(s'.store.files, c) == Firm(s.store.files, c))
    && (forall c, id :: Holds(s'.store.files, c, id) ==>
          id in s'.store.table && s'.store.table[id] == LoadedMsg(LinesIn(s'.store.files, c), id))
    && (forall id :: id in s'.store.table ==> exists c :: Holds(s'.store.files, c, id))
  }

  lemma {:induction false} NotesAreSafe(ls: seq<LogLine>, composed: set<MessageId>)
    requires forall l :: l in ls ==> LineOk(l, composed)
    ensures forall id :: id in Nums(ls) ==> Nums(ls)[id] > 0
    ensures forall id :: id in States(ls) && id in composed ==> States(ls)[id] == Sending || id in Nums(ls)
    ensures forall id :: id in MsgTable(ls) && id in composed ==>
      var m := MsgTable(ls)[id]; m.id == id ==> m.transfer.None? && m.mine && (m.num > 0 || m.state == Queued)
  {
    if ls != [] {
      assert Last(ls) in ls && forall l :: l in Init(ls) ==> l in ls;
      NotesAreSafe(Init(ls), composed);
    }
  }

  lemma CrashKeeps(s: Outbox, ends: map<ConvId, FileEnd>, names: seq<ConvId>, s': Outbox)
    requires Inv(s) && Next(s, Label.Crash(ends, names), s')
    ensures Inv(s')
  {
    CameBack(s, ends, names, s');
    CrashKeepsMemory(s, s');
    CrashKeepsFiles(s, s');
    CrashKeepsKept(s, s');
  }

  lemma CrashKeepsMemory(s: Outbox, s': Outbox)
    requires Reread(s, s')
    ensures MemoryOk(s')
  {
    forall id | id in s'.store.table
      ensures s'.store.table[id].id == id
      ensures id in s'.composed ==>
        Safe(s'.store.table[id]) && s'.store.table[id].mine && s'.store.table[id].transfer.None?
    {
      var c :| Holds(s'.store.files, c, id);
      assert LeftReadable(s, c, LinesIn(s'.store.files, c));
      LoadableKeys(LinesIn(s'.store.files, c), c);
      NotesAreSafe(LinesIn(s'.store.files, c), s.composed);
    }
  }

  lemma CrashKeepsFiles(s: Outbox, s': Outbox)
    requires Reread(s, s')
    ensures LinesOk(s') && FilesHeld(s') && FilesRead(s')
  {
    forall c ensures Loadable(LinesIn(s'.store.files, c), c) { assert LeftReadable(s, c, LinesIn(s'.store.files, c)); }
    forall c, l | OnDisk(s'.store.files, c, l) ensures LineOk(l, s'.composed) {
      assert LeftReadable(s, c, LinesIn(s'.store.files, c));
    }
    forall c, id | Holds(s'.store.files, c, id)
      ensures MsgTable(LinesIn(s'.store.files, c))[id].id == id && MsgTable(LinesIn(s'.store.files, c))[id].conv == c
           && id in s'.store.table && s'.store.table[id].conv == c
    {
      LoadableKeys(LinesIn(s'.store.files, c), c);
    }
  }

  lemma CrashKeepsKept(s: Outbox, s': Outbox)
    requires Reread(s, s') && KeptOk(s)
    ensures KeptOk(s')
  {
    forall id | id in s'.kept ensures KeptEntry(s', id) {
      var c := s.kept[id].conv;
      assert KeptEntry(s, id) && LeftReadable(s, c, LinesIn(s'.store.files, c));
      assert Holds(s'.store.files, c, id);
    }
  }

  lemma NextKeeps(s: Outbox, l: Label, s': Outbox)
    requires Inv(s) && Next(s, l, s')
    ensures Inv(s')
  {
    match l
    case Compose(m) => ComposeKeeps(s, m, s');
    case Do(op) => DoKeeps(s, op, s');
    case Land(c, line) => LandKeeps(s, c, line, s');
    case Crash(ends, names) => CrashKeeps(s, ends, names, s');
  }

  lemma {:induction false} AlwaysInv(states: seq<Outbox>, labels: seq<Label>, i: nat)
    requires Run(states, labels) && i < |states|
    ensures Inv(states[i])
  {
    if i == 0 {
      assert forall c :: LinesIn(states[0].store.files, c) == [];
    } else {
      AlwaysInv(states, labels, i - 1);
      assert Next(states[i - 1], labels[i - 1], states[i]);
      NextKeeps(states[i - 1], labels[i - 1], states[i]);
    }
  }

  // --------------------------------------------------------------------- what follows

  ghost predicate KeepsAll(s: Outbox, s': Outbox) {
    forall id :: id in s.kept ==> id in s'.kept && s'.kept[id] == s.kept[id]
  }

  lemma KeptStays(s: Outbox, l: Label, s': Outbox)
    requires Inv(s) && Next(s, l, s')
    ensures KeepsAll(s, s')
  {
    if l.Land? {
      assert l.l.MsgLine? && l.l.m.id in s.kept ==> KeptEntry(s, l.l.m.id) && !Holds(s.store.files, l.c, l.l.m.id);
      assert Loadable(LinesIn(s.store.files, l.c), l.c);
      if l.c in s.store.files { FirmIsRead(s.store.files[l.c], l.c); }
    }
  }

  lemma StepKeepsAll(states: seq<Outbox>, labels: seq<Label>, i: nat)
    requires Run(states, labels) && i < |labels|
    ensures KeepsAll(states[i], states[i + 1])
  {
    AlwaysInv(states, labels, i);
    KeptStays(states[i], labels[i], states[i + 1]);
  }

  lemma {:induction false} ChainKeepsAll(states: seq<Outbox>, i: nat, j: nat)
    requires i <= j < |states| && forall k :: 0 <= k < |states| - 1 ==> KeepsAll(states[k], states[k + 1])
    ensures KeepsAll(states[i], states[j])
  {
    if i < j {
      ChainKeepsAll(states, i, j - 1);
      assert KeepsAll(states[j - 1], states[j - 1 + 1]);
    }
  }

  lemma KeptIsSafe(s: Outbox, id: MessageId)
    requires MemoryOk(s) && KeptOk(s) && id in s.kept
    ensures id in s.store.table && SameText(s.store.table[id], s.kept[id]) && Safe(s.store.table[id])
  {
    assert KeptEntry(s, id);
  }

  /** Once Send has returned with its line whole on disk, whatever else happens, lands late or
      crashes, the message is there as it was typed, and it is either numbered or among those
      offered to the server again. */
  lemma NothingSentIsLost(states: seq<Outbox>, labels: seq<Label>, i: nat, j: nat, id: MessageId)
    requires Run(states, labels) && i <= j < |states| && id in states[i].kept
    ensures id in states[j].store.table
    ensures SameText(states[j].store.table[id], states[i].kept[id]) && Safe(states[j].store.table[id])
  {
    AlwaysInv(states, labels, j);
    forall k | 0 <= k < |states| - 1 ensures KeepsAll(states[k], states[k + 1]) { StepKeepsAll(states, labels, k); }
    ChainKeepsAll(states, i, j);
    KeptIsSafe(states[j], id);
  }

  /** In every reachable state what was kept and has no number yet is in the queue that goes out
      at the next synced. */
  lemma UnnumberedIsOffered(states: seq<Outbox>, labels: seq<Label>, i: nat, id: MessageId, q: seq<Message>)
    requires Run(states, labels) && i < |states| && id in states[i].kept
    requires Daemons.IsQueue(q, states[i].store.table)
    ensures id in states[i].store.table
    ensures states[i].store.table[id].num == 0 ==> states[i].store.table[id] in q
  {
    NothingSentIsLost(states, labels, i, i, id);
    assert states[i].store.table[id].num == 0 ==> ChatStores.Waiting(states[i].store.table[id]);
  }
}

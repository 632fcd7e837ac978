/** What a store is: a table of messages, the unread counts, the counter and the history
    files. A conversation's list is never state of its own here: it is the one sorted listing
    of the table (IsListing), and chatstore.dfy proves that the lists kept by insertion are it. */
module StoreModel {
  import opened Wrappers
  import opened Names
  import opened Messages

  /** One line of a history file. Garbled is a line that does not parse. */
  datatype LogLine =
    | MsgLine(m: Message)
    | StateLine(id: MessageId, st: Delivery)
    | NumLine(id: MessageId, num: nat, st: Delivery)
    | ReadLine
    | Garbled

  /** How a file ends: with a newline, with part of a line, or with a whole line that has lost
      its newline. bytelog.dfy derives this from the bytes. */
  datatype FileEnd = Ended | Half | Loose(l: LogLine)

  /** The lines of one file that a newline ends, and what follows them. */
  datatype LogFile = LogFile(lines: seq<LogLine>, tail: FileEnd)
  {
    /** The lines a reader finds. */
    function Read(): seq<LogLine> {
      match tail case Ended => lines case Half => lines + [Garbled] case Loose(l) => lines + [l]
    }
  }

  /** What is appended after an unfinished end runs into it, and the two cannot be read back. */
  function AppendLog(f: LogFile, l: LogLine): LogFile {
    LogFile(f.lines + [if f.tail.Ended? then l else Garbled], Ended)
  }

  datatype Store = Store(
    persist: bool,
    table: map<MessageId, Message>,
    unread: map<ConvId, nat>,
    nextSeq: nat,
    files: map<ConvId, LogFile>)
  {
    function File(c: ConvId): LogFile { if c in files then files[c] else LogFile([], Ended) }

    function Unread(c: ConvId): nat { if c in unread then unread[c] else 0 }

    function Log(c: ConvId, l: LogLine): Store {
      if persist then this.(files := files[c := AppendLog(File(c), l)]) else this
    }
  }

  function Empty(persist: bool): Store { Store(persist, map[], map[], 0, map[]) }

  function Max(a: nat, b: nat): nat { if a < b then b else a }

  // --------------------------------------------------------------- operations

  datatype AppendResult = Added | Duplicate | Refused

  /** The copy that is filed: a missing clock is filled in and the body is bounded. */
  function Filed(m: Message, now: int): Message {
    m.(sent := if m.sent == 0 then now else m.sent, body := ClipRunes(m.body, MAX_BODY_RUNES))
  }

  predicate Counts(m: Message) { !m.mine && !m.read && !m.system }

  function AppendMsg(s: Store, m: Message, now: int): (Store, AppendResult) {
    if m.id == "" || m.conv == "" then (s, Refused)
    else if m.id in s.table then (s, Duplicate)
    else
      var f := Filed(m, now);
      (Store(s.persist, s.table[m.id := f],
             if Counts(f) then s.unread[m.conv := s.Unread(m.conv) + 1] else s.unread,
             Max(s.nextSeq, m.num), s.files).Log(m.conv, MsgLine(f)),
       Added)
  }

  function NextSeq(s: Store): (Store, nat) {
    (s.(nextSeq := s.nextSeq + 1), s.nextSeq + 1)
  }

  function Confirmed(m: Message, num: nat): Message { m.(num := num, state := Delivered) }

  function Confirm(s: Store, id: MessageId, num: nat): (Store, Option<Message>) {
    var s1 := s.(nextSeq := Max(s.nextSeq, num));
    if id in s.table then
      var m := Confirmed(s.table[id], num);
      (s1.(table := s.table[id := m]).Log(m.conv, NumLine(id, num, Delivered)), Some(m))
    else (s1, None)
  }

  function SetState(s: Store, id: MessageId, st: Delivery): (Store, Option<Message>) {
    if id in s.table then
      var m := s.table[id].(state := st);
      (s.(table := s.table[id := m]).Log(m.conv, StateLine(id, st)), Some(m))
    else (s, None)
  }

  function ReadAll(t: map<MessageId, Message>, c: ConvId): map<MessageId, Message> {
    map id | id in t :: if t[id].conv == c then t[id].(read := true) else t[id]
  }

  function MarkRead(s: Store, c: ConvId): (Store, nat) {
    var n := s.Unread(c);
    var s1 := s.(table := ReadAll(s.table, c), unread := s.unread - {c});
    (if n > 0 then s1.Log(c, ReadLine) else s1, n)
  }

  // -------------------------------------------------- the lists the table stands for

  ghost predicate Keyed(t: map<MessageId, Message>) {
    forall id :: id in t ==> t[id].id == id
  }

  ghost predicate IsListing(s: seq<Message>, t: map<MessageId, Message>, c: ConvId) {
    && Sorted(s)
    && (forall i :: 0 <= i < |s| ==> s[i].id in t && t[s[i].id] == s[i] && s[i].conv == c)
    && (forall id :: id in t && t[id].conv == c ==> t[id] in s)
  }

  /** The last of a list, up to a limit; 0 is no limit. */
  function Tail(s: seq<Message>, limit: nat): seq<Message> {
    if 0 < limit < |s| then s[|s| - limit..] else s
  }

  lemma TailIs(s: seq<Message>, limit: nat) returns (front: seq<Message>)
    ensures s == front + Tail(s, limit)
    ensures |Tail(s, limit)| == if 0 < limit < |s| then limit else |s|
  {
    front := s[..|s| - |Tail(s, limit)|];
  }

  /** A store has exactly one list per conversation. */
  lemma ListingUnique(a: seq<Message>, b: seq<Message>, t: map<MessageId, Message>, c: ConvId)
    requires IsListing(a, t, c) && IsListing(b, t, c)
    ensures a == b
  {
    forall x ensures x in a <==> x in b {
      if x in a { assert t[x.id] in b; }
      if x in b { assert t[x.id] in a; }
    }
    SortedUnique(a, b);
  }

  lemma SortedDistinct(s: seq<Message>)
    requires Sorted(s)
    ensures forall i, j :: 0 <= i < j < |s| ==> s[i] != s[j]
  {
    forall i, j | 0 <= i < j < |s| ensures s[i] != s[j] { LessTotal(s[i], s[i]); }
  }

  lemma InsertKeepsListing(s: seq<Message>, t: map<MessageId, Message>, m: Message)
    requires IsListing(s, t, m.conv) && m.id !in t
    ensures IsListing(Insert(s, m), t[m.id := m], m.conv)
  {
    InsertSorted(s, m);
    var r := Insert(s, m);
    forall i | 0 <= i < |r| ensures r[i].id in t[m.id := m] && t[m.id := m][r[i].id] == r[i] && r[i].conv == m.conv {
      assert r[i] in r;
    }
  }

  lemma RemoveKeepsListing(s: seq<Message>, t: map<MessageId, Message>, c: ConvId, i: nat)
    requires Keyed(t) && IsListing(s, t, c) && i < |s|
    ensures IsListing(s[..i] + s[i + 1..], t - {s[i].id}, c)
  {
    var rest, u := s[..i] + s[i + 1..], t - {s[i].id};
    SortedDistinct(s);
    forall k | 0 <= k < |rest| ensures rest[k].id in u && u[rest[k].id] == rest[k] && rest[k].conv == c {
      var j := if k < i then k else k + 1;
      assert rest[k] == s[j];
      assert t[s[j].id] == s[j] && t[s[i].id] == s[i];
    }
    forall id | id in u && u[id].conv == c ensures u[id] in rest {
      assert t[id] in s;
      var k :| 0 <= k < |s| && s[k] == t[id];
      assert s[k] == rest[if k < i then k else k - 1];
    }
  }

  /** Confirming: the changed entry is taken out and put back where its number says, and
      nothing is lost or doubled. */
  lemma MoveKeepsListing(s: seq<Message>, t: map<MessageId, Message>, c: ConvId, i: nat, m: Message)
    requires Keyed(t) && IsListing(s, t, c) && i < |s| && m.id == s[i].id && m.conv == c
    ensures Sorted(s[..i] + s[i + 1..])
    ensures IsListing(Insert(s[..i] + s[i + 1..], m), t[m.id := m], c)
  {
    RemoveKeepsListing(s, t, c, i);
    InsertKeepsListing(s[..i] + s[i + 1..], t - {m.id}, m);
    assert (t - {m.id})[m.id := m] == t[m.id := m];
  }

  /** A change that leaves the three keys alone leaves every entry where it is. */
  lemma EditKeepsListing(s: seq<Message>, t: map<MessageId, Message>, r: seq<Message>, u: map<MessageId, Message>,
                         c: ConvId)
    requires IsListing(s, t, c) && |r| == |s| && u.Keys == t.Keys
    requires Keyed(t)
    requires forall id :: id in t ==> u[id].id == t[id].id && u[id].conv == t[id].conv
    requires forall i :: 0 <= i < |s| ==> s[i].id in u && r[i] == u[s[i].id]
    requires forall i :: 0 <= i < |s| ==> r[i].id == s[i].id && r[i].num == s[i].num && r[i].sent == s[i].sent
    ensures IsListing(r, u, c)
  {
    forall i, j | 0 <= i < j < |r| ensures Less(r[i], r[j]) { assert Less(s[i], s[j]); }
    forall id | id in u && u[id].conv == c ensures u[id] in r {
      assert t[id] in s;
      var i :| 0 <= i < |s| && s[i] == t[id];
      assert r[i] == u[s[i].id] && r[i] in r;
    }
  }

  // --------------------------------------------------------------- the invariant

  ghost function UnreadIds(t: map<MessageId, Message>, c: ConvId): set<MessageId> {
    set id | id in t && t[id].conv == c && Counts(t[id])
  }

  /** Every id names one message, filed under a real conversation, numbered below the
      counter. */
  ghost predicate TableOk(t: map<MessageId, Message>, top: nat) {
    forall id :: id in t ==>
      t[id].id == id && id != "" && t[id].conv != "" && t[id].num <= top && |t[id].body| <= MAX_BODY_RUNES
  }

  ghost predicate UnreadOk(s: Store) {
    forall c :: s.Unread(c) == |UnreadIds(s.table, c)|
  }

  ghost predicate StoreOk(s: Store) { TableOk(s.table, s.nextSeq) && UnreadOk(s) }

  lemma UnreadUnchanged(t: map<MessageId, Message>, u: map<MessageId, Message>)
    requires t.Keys == u.Keys
    requires forall id :: id in t ==> t[id].conv == u[id].conv && Counts(t[id]) == Counts(u[id])
    ensures forall c :: UnreadIds(t, c) == UnreadIds(u, c)
  {
  }

  lemma AppendKeepsUnread(t: map<MessageId, Message>, f: Message, c: ConvId)
    requires f.id !in t
    ensures |UnreadIds(t[f.id := f], c)| == |UnreadIds(t, c)| + if f.conv == c && Counts(f) then 1 else 0
  {
    assert UnreadIds(t[f.id := f], c) == UnreadIds(t, c) + if f.conv == c && Counts(f) then {f.id} else {};
  }

  lemma AppendKeepsStoreOk(s: Store, m: Message, now: int)
    requires StoreOk(s)
    ensures StoreOk(AppendMsg(s, m, now).0)
  {
    var s' := AppendMsg(s, m, now).0;
    if AppendMsg(s, m, now).1 == Added {
      var f := Filed(m, now);
      forall c ensures s'.Unread(c) == |UnreadIds(s'.table, c)| {
        AppendKeepsUnread(s.table, f, c);
        assert s'.table == s.table[f.id := f];
      }
      assert TableOk(s'.table, s'.nextSeq);
    }
  }

  lemma NextSeqKeepsStoreOk(s: Store)
    requires StoreOk(s)
    ensures StoreOk(NextSeq(s).0)
    ensures forall id :: id in s.table ==> s.table[id].num < NextSeq(s).1
  {
  }

  lemma ConfirmKeepsStoreOk(s: Store, id: MessageId, num: nat)
    requires StoreOk(s)
    ensures StoreOk(Confirm(s, id, num).0)
  {
    if id in s.table { UnreadUnchanged(s.table, Confirm(s, id, num).0.table); }
  }

  lemma SetStateKeepsStoreOk(s: Store, id: MessageId, st: Delivery)
    requires StoreOk(s)
    ensures StoreOk(SetState(s, id, st).0)
  {
    if id in s.table { UnreadUnchanged(s.table, SetState(s, id, st).0.table); }
  }

  /** Reading a conversation empties its count, returns what it was, and touches no other. */
  lemma MarkReadKeepsStoreOk(s: Store, c: ConvId)
    requires StoreOk(s)
    ensures StoreOk(MarkRead(s, c).0)
    ensures MarkRead(s, c).1 == |UnreadIds(s.table, c)|
    ensures UnreadIds(MarkRead(s, c).0.table, c) == {}
    ensures forall d :: d != c ==> UnreadIds(MarkRead(s, c).0.table, d) == UnreadIds(s.table, d)
  {
    var s' := MarkRead(s, c).0;
    forall d ensures s'.Unread(d) == |UnreadIds(s'.table, d)| {
      if d == c {
        assert UnreadIds(s'.table, c) == {};
      } else {
        assert UnreadIds(s'.table, d) == UnreadIds(s.table, d);
        assert s'.Unread(d) == s.Unread(d);
      }
    }
  }

  datatype Op =
    | DoAppend(m: Message, now: int)
    | DoConfirm(id: MessageId, num: nat)
    | DoState(id: MessageId, st: Delivery)
    | DoRead(c: ConvId)
    | DoMint

  function Exec(s: Store, op: Op): Store {
    match op
    case DoAppend(m, now) => AppendMsg(s, m, now).0
    case DoConfirm(id, num) => Confirm(s, id, num).0
    case DoState(id, st) => SetState(s, id, st).0
    case DoRead(c) => MarkRead(s, c).0
    case DoMint => NextSeq(s).0
  }

  function RunOps(s: Store, ops: seq<Op>): Store {
    if ops == [] then s else Exec(RunOps(s, ops[..|ops| - 1]), ops[|ops| - 1])
  }

  /** The store-wide invariant, over every run of the operations. */
  lemma {:induction false} RunKeepsStoreOk(persist: bool, ops: seq<Op>)
    ensures StoreOk(RunOps(Empty(persist), ops))
  {
    if ops == [] {
      assert forall c :: UnreadIds(Empty(persist).table, c) == {};
    } else {
      RunKeepsStoreOk(persist, ops[..|ops| - 1]);
      var s := RunOps(Empty(persist), ops[..|ops| - 1]);
      match ops[|ops| - 1]
      case DoAppend(m, now) => AppendKeepsStoreOk(s, m, now);
      case DoConfirm(id, num) => ConfirmKeepsStoreOk(s, id, num);
      case DoState(id, st) => SetStateKeepsStoreOk(s, id, st);
      case DoRead(c) => MarkReadKeepsStoreOk(s, c);
      case DoMint => NextSeqKeepsStoreOk(s);
    }
  }

  // ------------------------------------------------- arrival order does not matter

  function FileAll(s: Store, ms: seq<Message>, now: int): Store {
    if ms == [] then s else AppendMsg(FileAll(s, ms[..|ms| - 1], now), ms[|ms| - 1], now).0
  }

  /** Messages that can be filed, with their clocks set, one per id. */
  ghost predicate Fileable(ms: seq<Message>) {
    && (forall i :: 0 <= i < |ms| ==> ms[i].id != "" && ms[i].conv != "" && ms[i].sent != 0)
    && (forall i, j :: 0 <= i < |ms| && 0 <= j < |ms| && ms[i].id == ms[j].id ==> ms[i] == ms[j])
  }

  /** What filing a run of messages leaves behind, without reference to their order. */
  ghost predicate Contents(s: Store, ms: seq<Message>, t: map<MessageId, Message>) {
    && (forall id :: id in s.table ==> id in t && t[id] == s.table[id])
    && (forall m :: m in ms && m.id !in s.table ==> m.id in t && t[m.id] == Filed(m, 0))
    && (forall id :: id in t && id !in s.table ==> exists m :: m in ms && m.id == id)
  }

  lemma {:induction false} FileAllContents(s: Store, ms: seq<Message>, now: int)
    requires Fileable(ms)
    ensures Contents(s, ms, FileAll(s, ms, now).table)
  {
    if ms != [] {
      var init, m := ms[..|ms| - 1], ms[|ms| - 1];
      FileAllContents(s, init, now);
      assert ms == init + [m];
      OneMoreFiled(s, init, m, FileAll(s, init, now), now);
    }
  }

  lemma OneMoreFiled(s: Store, init: seq<Message>, m: Message, t0: Store, now: int)
    requires Fileable(init + [m]) && Contents(s, init, t0.table)
    ensures Contents(s, init + [m], AppendMsg(t0, m, now).0.table)
  {
    var ms, t := init + [m], AppendMsg(t0, m, now).0.table;
    assert m in ms && ms[|init|] == m;
    assert t == if m.id in t0.table then t0.table else t0.table[m.id := Filed(m, 0)];
    if m.id in t0.table && m.id !in s.table { FiledBefore(s, init, m, t0.table); }
    forall id | id in t && id !in s.table ensures exists x :: x in ms && x.id == id {
      if id in t0.table { var x :| x in init && x.id == id; assert x in ms; }
    }
  }

  /** n is the highest number newly filed, or the counter as it was. */
  ghost predicate TopIs(s: Store, ms: seq<Message>, n: nat) {
    && s.nextSeq <= n
    && (forall m :: m in ms && m.id !in s.table ==> m.num <= n)
    && (n == s.nextSeq || exists m :: m in ms && m.id !in s.table && m.num == n)
  }

  lemma TopSnoc(s: Store, init: seq<Message>, m: Message, n: nat)
    requires TopIs(s, init, n)
    ensures m.id in s.table || m in init ==> TopIs(s, init + [m], n)
    ensures m.id !in s.table ==> TopIs(s, init + [m], Max(n, m.num))
  {
    var ms := init + [m];
    forall x | x in init ensures x in ms {}
    assert m in ms;
  }

  lemma {:induction false} FileAllTop(s: Store, ms: seq<Message>, now: int)
    requires Fileable(ms)
    ensures TopIs(s, ms, FileAll(s, ms, now).nextSeq)
  {
    if ms != [] {
      var init, m := ms[..|ms| - 1], ms[|ms| - 1];
      FileAllTop(s, init, now);
      FileAllContents(s, init, now);
      var t0 := FileAll(s, init, now);
      assert ms == init + [m];
      OneMoreTop(s, init, m, t0, now);
    }
  }

  lemma OneMoreTop(s: Store, init: seq<Message>, m: Message, t0: Store, now: int)
    requires Fileable(init + [m]) && Contents(s, init, t0.table) && TopIs(s, init, t0.nextSeq)
    ensures TopIs(s, init + [m], AppendMsg(t0, m, now).0.nextSeq)
  {
    TopSnoc(s, init, m, t0.nextSeq);
    assert (init + [m])[|init|] == m;
    if m.id in t0.table && m.id !in s.table { FiledBefore(s, init, m, t0.table); }
  }

  lemma FiledBefore(s: Store, init: seq<Message>, m: Message, t: map<MessageId, Message>)
    requires Fileable(init + [m]) && Contents(s, init, t) && m.id in t && m.id !in s.table
    ensures m in init
  {
    var ms := init + [m];
    var y :| y in init && y.id == m.id;
    assert y in ms && m in ms;
  }

  lemma SameContents(s: Store, a: seq<Message>, b: seq<Message>, t: map<MessageId, Message>, u: map<MessageId, Message>)
    requires Contents(s, a, t) && Contents(s, b, u)
    requires forall m :: m in a <==> m in b
    ensures t == u
  {
    forall id ensures id in t ==> id in u && t[id] == u[id] {
      if id in t && id !in s.table { var m :| m in a && m.id == id; assert m in b; }
    }
    forall id ensures id in u ==> id in t {
      if id in u && id !in s.table { var m :| m in b && m.id == id; assert m in a; }
    }
  }

  lemma SameTop(s: Store, a: seq<Message>, b: seq<Message>, n: nat, n': nat)
    requires TopIs(s, a, n) && TopIs(s, b, n') && forall m :: m in a <==> m in b
    ensures n == n'
  {
  }

  lemma SameTableSameLists(t: map<MessageId, Message>)
    ensures forall l1, l2, c :: IsListing(l1, t, c) && IsListing(l2, t, c) ==> l1 == l2
  {
    forall l1, l2, c | IsListing(l1, t, c) && IsListing(l2, t, c) ensures l1 == l2 {
      ListingUnique(l1, l2, t, c);
    }
  }

  /** Any two arrival orders of the same messages, with any repetitions, end in the same
      table, the same counter and the same lists. */
  lemma ArrivalOrderIrrelevant(s: Store, a: seq<Message>, b: seq<Message>, now: int, now': int)
    requires Fileable(a) && Fileable(b)
    requires forall m :: m in a <==> m in b
    ensures FileAll(s, a, now).table == FileAll(s, b, now').table
    ensures FileAll(s, a, now).nextSeq == FileAll(s, b, now').nextSeq
    ensures forall l1, l2, c ::
      IsListing(l1, FileAll(s, a, now).table, c) && IsListing(l2, FileAll(s, b, now').table, c) ==> l1 == l2
  {
    FileAllContents(s, a, now);
    FileAllContents(s, b, now');
    SameContents(s, a, b, FileAll(s, a, now).table, FileAll(s, b, now').table);
    SameTableSameLists(FileAll(s, a, now).table);
    FileAllTop(s, a, now);
    FileAllTop(s, b, now');
    SameTop(s, a, b, FileAll(s, a, now).nextSeq, FileAll(s, b, now').nextSeq);
  }

  // ------------------------------------------------- the optimistic copy converges

  /** Filing our own message without a number, letting anything else arrive, and confirming it
      ends where filing the numbered, delivered message would have. */
  lemma {:induction false} OptimisticCopyConverges(s: Store, m: Message, num: nat, others: seq<Message>, now: int)
    requires m.id != "" && m.conv != "" && m.sent != 0 && m.num == 0 && m.id !in s.table
    requires forall o :: o in others ==> o.id != m.id
    ensures var early := Confirm(FileAll(AppendMsg(s, m, now).0, others, now), m.id, num).0;
            var late := AppendMsg(FileAll(s, others, now), Confirmed(m, num), now).0;
            && early.table == late.table
            && early.nextSeq == late.nextSeq
            && forall l1, l2, c :: IsListing(l1, early.table, c) && IsListing(l2, late.table, c) ==> l1 == l2
  {
    OthersCommute(s, m, others, now);
    var with, without := FileAll(AppendMsg(s, m, now).0, others, now), FileAll(s, others, now);
    ConfirmedEqualsFiled(with, without, m, num, now);
    SameTableSameLists(Confirm(with, m.id, num).0.table);
  }

  lemma ConfirmedEqualsFiled(with: Store, without: Store, m: Message, num: nat, now: int)
    requires m.id != "" && m.conv != "" && m.id !in without.table && with.table == without.table[m.id := Filed(m, now)]
    requires with.nextSeq == without.nextSeq
    ensures var early, late := Confirm(with, m.id, num).0, AppendMsg(without, Confirmed(m, num), now).0;
      early.table == late.table && early.nextSeq == late.nextSeq
  {
    assert Filed(Confirmed(m, num), now) == Confirmed(Filed(m, now), num);
    assert Confirm(with, m.id, num).0.table == without.table[m.id := Confirmed(Filed(m, now), num)];
  }

  /** Two stores that differ by m alone differ by m alone once another message has arrived. */
  lemma OneCommutes(with: Store, without: Store, m: Message, o: Message, now: int)
    requires m.id !in without.table && with.table == without.table[m.id := Filed(m, now)]
    requires with.nextSeq == without.nextSeq && o.id != m.id
    ensures var a, b := AppendMsg(with, o, now).0, AppendMsg(without, o, now).0;
      m.id !in b.table && a.table == b.table[m.id := Filed(m, now)] && a.nextSeq == b.nextSeq
  {
    assert without.table[m.id := Filed(m, now)][o.id := Filed(o, now)]
        == without.table[o.id := Filed(o, now)][m.id := Filed(m, now)];
  }

  lemma {:induction false} OthersCommute(s: Store, m: Message, others: seq<Message>, now: int)
    requires m.id != "" && m.conv != "" && m.sent != 0 && m.num == 0 && m.id !in s.table
    requires forall o :: o in others ==> o.id != m.id
    ensures var with, without := FileAll(AppendMsg(s, m, now).0, others, now), FileAll(s, others, now);
      m.id !in without.table && with.table == without.table[m.id := Filed(m, now)] && with.nextSeq == without.nextSeq
  {
    if others != [] {
      var init, o := others[..|others| - 1], others[|others| - 1];
      assert o in others;
      OthersCommute(s, m, init, now);
      OneCommutes(FileAll(AppendMsg(s, m, now).0, init, now), FileAll(s, init, now), m, o, now);
    }
  }
}

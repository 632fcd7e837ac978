/** The history files and what reading them back gives (chat/store.go, appendLog and loadLog).
    A file is a sequence of lines; a message line files a message and the other lines amend it.
    Memory and disk agree up to the read flag and up to "sending", which comes back as
    "queued". */
module Journal {
  import opened Names
  import opened Messages
  import opened StoreModel

  function Init<T>(s: seq<T>): seq<T> requires s != [] { s[..|s| - 1] }
  function Last<T>(s: seq<T>): T requires s != [] { s[|s| - 1] }

  // ------------------------------------------------------------ reading one file

  function MsgTable(ls: seq<LogLine>): map<MessageId, Message> {
    if ls == [] then map[]
    else
      var t := MsgTable(Init(ls));
      match Last(ls)
      case MsgLine(m) => if m.id == "" then t else t[m.id := m]
      case _ => t
  }

  function Nums(ls: seq<LogLine>): map<MessageId, nat> {
    if ls == [] then map[]
    else if Last(ls).NumLine? then Nums(Init(ls))[Last(ls).id := Last(ls).num]
    else Nums(Init(ls))
  }

  function States(ls: seq<LogLine>): map<MessageId, Delivery> {
    if ls == [] then map[]
    else
      var t := States(Init(ls));
      match Last(ls)
      case StateLine(id, st) => t[id := st]
      case NumLine(id, _, st) => if st == Unset then t else t[id := st]
      case _ => t
  }

  function HasRead(ls: seq<LogLine>): bool {
    ls != [] && (Last(ls).ReadLine? || HasRead(Init(ls)))
  }

  /** The highest number mentioned anywhere in the file. */
  function Top(ls: seq<LogLine>): nat {
    if ls == [] then 0
    else
      var n := Top(Init(ls));
      match Last(ls)
      case MsgLine(m) => if m.id == "" then n else Max(n, m.num)
      case NumLine(_, num, _) => Max(n, num)
      case _ => n
  }

  /** What was in flight when the program stopped is queued again. */
  function Settled(mine: bool, st: Delivery): Delivery {
    if mine && st == Sending then Queued else st
  }

  /** A message line as amended by the rest of the file. */
  function Patch(m: Message, nums: map<MessageId, nat>, states: map<MessageId, Delivery>, read: bool): Message {
    m.(num := if m.id in nums then nums[m.id] else m.num,
       state := Settled(m.mine, if m.id in states then states[m.id] else m.state),
       read := m.read || read)
  }

  function LoadedMsg(ls: seq<LogLine>, id: MessageId): Message
    requires id in MsgTable(ls)
  {
    Patch(MsgTable(ls)[id], Nums(ls), States(ls), HasRead(ls))
  }

  function LoadedTable(ls: seq<LogLine>): map<MessageId, Message> {
    map id | id in MsgTable(ls) :: LoadedMsg(ls, id)
  }

  /** The ids loadLog counts as unread, which it does only for a file without a read line. */
  function LoadedUnreadIds(ls: seq<LogLine>): set<MessageId> {
    set id | id in LoadedTable(ls) && !LoadedTable(ls)[id].mine && !LoadedTable(ls)[id].system
  }

  function LoadFile(s: Store, c: ConvId, ls: seq<LogLine>): Store {
    s.(table := s.table + LoadedTable(ls),
       unread := if HasRead(ls) || MsgTable(ls) == map[] then s.unread
                 else s.unread[c := |LoadedUnreadIds(ls)|],
       nextSeq := Max(s.nextSeq, Top(ls)))
  }

  function LoadDir(s: Store, names: seq<ConvId>): Store {
    if names == [] then s
    else LoadFile(LoadDir(s, Init(names)), Last(names), s.File(Last(names)).Read())
  }

  /** A store opened on the files of another: the order of the directory is a parameter. */
  function Reload(s: Store, names: seq<ConvId>): Store {
    LoadDir(Store(s.persist, map[], map[], 0, s.files), names)
  }

  // --------------------------------------------------- what a well-kept file looks like

  predicate HasMsg(ls: seq<LogLine>, id: MessageId) { id in MsgTable(ls) }

  /** Every line was written for conversation c by one of the operations: a message is filed
      once, and amended only after it was filed. */
  predicate FileOk(ls: seq<LogLine>, c: ConvId) {
    ls == [] ||
    (FileOk(Init(ls), c) &&
     match Last(ls)
     case MsgLine(m) => m.id != "" && m.conv == c != "" && |m.body| <= MAX_BODY_RUNES && m.id !in MsgTable(Init(ls))
     case StateLine(id, _) => id in MsgTable(Init(ls))
     case NumLine(id, _, st) => id in MsgTable(Init(ls)) && st == Delivered
     case ReadLine => true
     case Garbled => false)
  }

  /** All that reading a file back asks of it: a message line is for this conversation and is the
      only one for its id. Anything may be garbled, and an amendment may stand anywhere. */
  predicate Loadable(ls: seq<LogLine>, c: ConvId) {
    ls == [] ||
    (Loadable(Init(ls), c) &&
     (Last(ls).MsgLine? && Last(ls).m.id != "" ==>
        Last(ls).m.conv == c && c != "" && Last(ls).m.id !in MsgTable(Init(ls))))
  }

  lemma {:induction false} FileOkIsLoadable(ls: seq<LogLine>, c: ConvId)
    requires FileOk(ls, c)
    ensures Loadable(ls, c)
  {
    if ls != [] { FileOkIsLoadable(Init(ls), c); }
  }

  lemma {:induction false} LoadableKeys(ls: seq<LogLine>, c: ConvId)
    requires Loadable(ls, c)
    ensures forall id :: id in MsgTable(ls) ==>
      MsgTable(ls)[id].id == id && MsgTable(ls)[id].conv == c && id != "" && c != ""
  {
    if ls != [] { LoadableKeys(Init(ls), c); }
  }

  lemma {:induction false} PrefixLoadable(ls: seq<LogLine>, c: ConvId, k: nat)
    requires Loadable(ls, c) && k <= |ls|
    ensures Loadable(ls[..k], c)
  {
    if k < |ls| {
      PrefixLoadable(Init(ls), c, k);
      assert Init(ls)[..k] == ls[..k];
    } else {
      assert ls[..k] == ls;
    }
  }

  lemma {:induction false} PrefixOk(ls: seq<LogLine>, c: ConvId, k: nat)
    requires FileOk(ls, c) && k <= |ls|
    ensures FileOk(ls[..k], c)
  {
    if k < |ls| {
      PrefixOk(Init(ls), c, k);
      assert Init(ls)[..k] == ls[..k];
    } else {
      assert ls[..k] == ls;
    }
  }

  lemma {:induction false} FileOkKeys(ls: seq<LogLine>, c: ConvId)
    requires FileOk(ls, c)
    ensures forall id :: id in MsgTable(ls) ==>
      MsgTable(ls)[id].id == id && MsgTable(ls)[id].conv == c && id != "" && c != ""
    ensures forall id :: id in MsgTable(ls) ==> |MsgTable(ls)[id].body| <= MAX_BODY_RUNES
    ensures Nums(ls).Keys <= MsgTable(ls).Keys && States(ls).Keys <= MsgTable(ls).Keys
  {
    if ls != [] { FileOkKeys(Init(ls), c); }
  }

  lemma {:induction false} TopBounds(ls: seq<LogLine>)
    ensures forall id :: id in MsgTable(ls) ==> MsgTable(ls)[id].num <= Top(ls)
    ensures forall id :: id in Nums(ls) ==> Nums(ls)[id] <= Top(ls)
  {
    if ls != [] { TopBounds(Init(ls)); }
  }

  // ----------------------------------------------------------- memory against disk

  /** A message up to what a restart may change. */
  function Durable(m: Message): Message {
    m.(state := Settled(m.mine, m.state), read := false)
  }

  ghost predicate Agree(t: map<MessageId, Message>, c: ConvId, ls: seq<LogLine>) {
    && (forall id :: id in MsgTable(ls) <==> id in t && t[id].conv == c)
    && (forall id :: id in MsgTable(ls) ==> Durable(LoadedMsg(ls, id)) == Durable(t[id]))
  }

  ghost predicate FileAgrees(s: Store, c: ConvId) {
    var f := s.File(c);
    f.tail.Ended? && FileOk(f.lines, c) && Agree(s.table, c, f.lines) && Top(f.lines) <= s.nextSeq
  }

  ghost predicate JournalOk(s: Store) {
    && s.persist
    && Keyed(s.table)
    && (forall id :: id in s.table ==> s.table[id].conv in s.files)
    && (forall c :: FileAgrees(s, c))
  }

  function DurableList(s: seq<Message>): (r: seq<Message>)
    ensures |r| == |s| && forall i :: 0 <= i < |s| ==> r[i] == Durable(s[i])
  {
    seq(|s|, i requires 0 <= i < |s| => Durable(s[i]))
  }

  ghost predicate SameUpToRestart(t: map<MessageId, Message>, u: map<MessageId, Message>, c: ConvId) {
    && (forall id :: id in t && t[id].conv == c ==> id in u && u[id].conv == c)
    && (forall id :: id in t && t[id].conv == c ==> Durable(t[id]) == Durable(u[id]))
  }

  lemma DurableContained(a: seq<Message>, t: map<MessageId, Message>, b: seq<Message>, u: map<MessageId, Message>,
                         c: ConvId, i: nat)
    requires IsListing(a, t, c) && IsListing(b, u, c) && SameUpToRestart(t, u, c) && i < |a|
    ensures Durable(a[i]) in DurableList(b)
  {
    var id := a[i].id;
    assert t[id] == a[i];
    assert u[id] in b;
    var j :| 0 <= j < |b| && b[j] == u[id];
    assert DurableList(b)[j] == Durable(a[i]);
  }

  lemma DurableSorted(s: seq<Message>)
    requires Sorted(s)
    ensures Sorted(DurableList(s))
  {
    var r := DurableList(s);
    forall i, j | 0 <= i < j < |r| ensures Less(r[i], r[j]) { assert Less(s[i], s[j]); }
  }

  lemma SameTablesSameLists(a: seq<Message>, t: map<MessageId, Message>, b: seq<Message>, u: map<MessageId, Message>,
                            c: ConvId)
    requires IsListing(a, t, c) && IsListing(b, u, c)
    requires SameUpToRestart(t, u, c) && SameUpToRestart(u, t, c)
    ensures DurableList(a) == DurableList(b)
  {
    DurableSorted(a);
    DurableSorted(b);
    forall x ensures x in DurableList(a) <==> x in DurableList(b) {
      if x in DurableList(a) {
        var i :| 0 <= i < |a| && DurableList(a)[i] == x;
        DurableContained(a, t, b, u, c, i);
      }
      if x in DurableList(b) {
        var i :| 0 <= i < |b| && DurableList(b)[i] == x;
        DurableContained(b, u, a, t, c, i);
      }
    }
    SortedUnique(DurableList(a), DurableList(b));
  }

  /** The list read back shows the same messages, numbers and states in the same order. */
  lemma ReplayedListIsTheSame(loaded: seq<Message>, live: seq<Message>, t: map<MessageId, Message>, c: ConvId,
                              ls: seq<LogLine>)
    requires FileOk(ls, c) && Agree(t, c, ls)
    requires IsListing(loaded, LoadedTable(ls), c) && IsListing(live, t, c)
    ensures DurableList(loaded) == DurableList(live)
  {
    FileOkKeys(ls, c);
    SameTablesSameLists(loaded, LoadedTable(ls), live, t, c);
  }

  // ------------------------------------------------- every operation keeps them agreeing

  lemma InitOfSnoc<T>(s: seq<T>, x: T)
    ensures Init(s + [x]) == s && Last(s + [x]) == x
  {
  }

  lemma LoadedAfterMsg(ls: seq<LogLine>, m: Message, c: ConvId, id: MessageId)
    requires FileOk(ls + [MsgLine(m)], c) && id in MsgTable(ls + [MsgLine(m)])
    ensures id != m.id ==> id in MsgTable(ls) && LoadedMsg(ls + [MsgLine(m)], id) == LoadedMsg(ls, id)
    ensures id == m.id ==> Durable(LoadedMsg(ls + [MsgLine(m)], id)) == Durable(m)
  {
    InitOfSnoc(ls, MsgLine(m));
    FileOkKeys(ls, c);
    if id == m.id {
      assert id !in Nums(ls) && id !in States(ls);
    } else {
      assert MsgTable(ls)[id].id == id;
    }
  }

  lemma MsgLineAgrees(t: map<MessageId, Message>, c: ConvId, ls: seq<LogLine>, m: Message)
    requires FileOk(ls, c) && Agree(t, c, ls) && m.id !in t && m.id != "" && m.conv == c != ""
    requires |m.body| <= MAX_BODY_RUNES
    ensures FileOk(ls + [MsgLine(m)], c) && Agree(t[m.id := m], c, ls + [MsgLine(m)])
  {
    InitOfSnoc(ls, MsgLine(m));
    var u, ms := t[m.id := m], ls + [MsgLine(m)];
    forall id | id in MsgTable(ms) ensures Durable(LoadedMsg(ms, id)) == Durable(u[id]) {
      LoadedAfterMsg(ls, m, c, id);
    }
  }

  /** l is the line that records the change of was into m. */
  predicate Amends(l: LogLine, was: Message, m: Message) {
    || (l == StateLine(m.id, m.state) && m == was.(state := m.state))
    || (l == NumLine(m.id, m.num, Delivered) && m == Confirmed(was, m.num))
  }

  lemma LoadedAfterAmend(ls: seq<LogLine>, l: LogLine, was: Message, m: Message, c: ConvId, id: MessageId)
    requires FileOk(ls, c) && id in MsgTable(ls) && Amends(l, was, m) && was.id == m.id
    requires id == m.id ==> Durable(LoadedMsg(ls, id)) == Durable(was)
    ensures id in MsgTable(ls + [l])
    ensures id != m.id ==> LoadedMsg(ls + [l], id) == LoadedMsg(ls, id)
    ensures id == m.id ==> Durable(LoadedMsg(ls + [l], id)) == Durable(m)
  {
    InitOfSnoc(ls, l);
    FileOkKeys(ls, c);
    assert MsgTable(ls)[id].id == id;
  }

  lemma AmendAgrees(t: map<MessageId, Message>, c: ConvId, ls: seq<LogLine>, l: LogLine, m: Message)
    requires FileOk(ls, c) && Agree(t, c, ls) && Keyed(t)
    requires m.id in t && t[m.id].conv == c && Amends(l, t[m.id], m)
    ensures FileOk(ls + [l], c) && Agree(t[m.id := m], c, ls + [l])
  {
    InitOfSnoc(ls, l);
    var u, ms := t[m.id := m], ls + [l];
    assert m.id in MsgTable(ls);
    forall id | id in MsgTable(ms) ensures Durable(LoadedMsg(ms, id)) == Durable(u[id]) {
      LoadedAfterAmend(ls, l, t[m.id], m, c, id);
    }
  }

  lemma ReadLineAgrees(t: map<MessageId, Message>, c: ConvId, ls: seq<LogLine>)
    requires FileOk(ls, c) && Agree(t, c, ls)
    ensures FileOk(ls + [ReadLine], c) && Agree(t, c, ls + [ReadLine])
  {
    InitOfSnoc(ls, ReadLine);
    forall id | id in MsgTable(ls) ensures Durable(LoadedMsg(ls + [ReadLine], id)) == Durable(LoadedMsg(ls, id)) {}
  }

  lemma ReadAllAgrees(t: map<MessageId, Message>, d: ConvId, c: ConvId, ls: seq<LogLine>)
    requires Agree(t, c, ls)
    ensures Agree(ReadAll(t, d), c, ls)
  {
  }

  lemma OtherFileAgrees(t: map<MessageId, Message>, m: Message, c: ConvId, ls: seq<LogLine>)
    requires Agree(t, c, ls) && m.conv != c && (m.id in t ==> t[m.id].conv == m.conv)
    ensures Agree(t[m.id := m], c, ls)
  {
  }

  lemma LogTop(ls: seq<LogLine>, l: LogLine)
    ensures Top(ls + [l]) <= Max(Top(ls), match l case MsgLine(m) => m.num case NumLine(_, n, _) => n case _ => 0)
  {
    InitOfSnoc(ls, l);
  }

  lemma FilingKeepsJournal(s: Store, f: Message, s': Store)
    requires JournalOk(s) && f.id !in s.table && f.id != "" && f.conv != "" && |f.body| <= MAX_BODY_RUNES
    requires s'.persist && s'.table == s.table[f.id := f] && s'.nextSeq == Max(s.nextSeq, f.num)
    requires s'.files == s.files[f.conv := AppendLog(s.File(f.conv), MsgLine(f))]
    ensures JournalOk(s')
  {
    forall c ensures FileAgrees(s', c) {
      assert FileAgrees(s, c);
      if c == f.conv {
        MsgLineAgrees(s.table, c, s.File(c).lines, f);
        LogTop(s.File(c).lines, MsgLine(f));
      } else {
        OtherFileAgrees(s.table, f, c, s.File(c).lines);
      }
    }
  }

  lemma AppendKeepsJournal(s: Store, m: Message, now: int)
    requires JournalOk(s)
    ensures JournalOk(AppendMsg(s, m, now).0)
  {
    if AppendMsg(s, m, now).1 == Added {
      FilingKeepsJournal(s, Filed(m, now), AppendMsg(s, m, now).0);
    }
  }

  lemma AmendKeepsJournal(s: Store, m: Message, l: LogLine)
    requires JournalOk(s)
    requires m.id in s.table && m.num <= s.nextSeq
    requires Amends(l, s.table[m.id], m)
    ensures JournalOk(s.(table := s.table[m.id := m]).Log(m.conv, l))
  {
    var s' := s.(table := s.table[m.id := m]).Log(m.conv, l);
    forall c ensures FileAgrees(s', c) {
      assert FileAgrees(s, c);
      if c == m.conv {
        AmendAgrees(s.table, c, s.File(c).lines, l, m);
        LogTop(s.File(c).lines, l);
      } else {
        OtherFileAgrees(s.table, m, c, s.File(c).lines);
      }
    }
  }

  lemma ConfirmKeepsJournal(s: Store, id: MessageId, num: nat)
    requires JournalOk(s)
    ensures JournalOk(Confirm(s, id, num).0)
  {
    var s1 := s.(nextSeq := Max(s.nextSeq, num));
    forall c ensures FileAgrees(s1, c) { assert FileAgrees(s, c); }
    if id in s.table { AmendKeepsJournal(s1, Confirmed(s.table[id], num), NumLine(id, num, Delivered)); }
  }

  lemma SetStateKeepsJournal(s: Store, id: MessageId, st: Delivery)
    requires JournalOk(s) && TableOk(s.table, s.nextSeq)
    ensures JournalOk(SetState(s, id, st).0)
  {
    if id in s.table { AmendKeepsJournal(s, s.table[id].(state := st), StateLine(id, st)); }
  }

  lemma MarkReadKeepsJournal(s: Store, d: ConvId)
    requires JournalOk(s)
    ensures JournalOk(MarkRead(s, d).0)
  {
    var s' := MarkRead(s, d).0;
    forall c ensures FileAgrees(s', c) {
      assert FileAgrees(s, c);
      ReadAllAgrees(s.table, d, c, s.File(c).lines);
      if c == d {
        ReadLineAgrees(ReadAll(s.table, d), c, s.File(c).lines);
        LogTop(s.File(c).lines, ReadLine);
      }
    }
  }

  lemma MintKeepsJournal(s: Store)
    requires JournalOk(s)
    ensures JournalOk(NextSeq(s).0)
  {
    forall c ensures FileAgrees(NextSeq(s).0, c) { assert FileAgrees(s, c); }
  }

  lemma ExecKeepsJournal(s: Store, op: Op)
    requires JournalOk(s) && TableOk(s.table, s.nextSeq)
    ensures JournalOk(Exec(s, op))
  {
    match op
    case DoAppend(m, now) => AppendKeepsJournal(s, m, now);
    case DoConfirm(id, num) => ConfirmKeepsJournal(s, id, num);
    case DoState(id, st) => SetStateKeepsJournal(s, id, st);
    case DoRead(c) => MarkReadKeepsJournal(s, c);
    case DoMint => MintKeepsJournal(s);
  }

  lemma {:induction false} RunKeepsJournal(ops: seq<Op>)
    ensures JournalOk(RunOps(Empty(true), ops))
  {
    if ops == [] {
      assert forall c :: Empty(true).File(c) == LogFile([], Ended);
      assert forall c :: FileAgrees(Empty(true), c);
    } else {
      RunKeepsJournal(Init(ops));
      RunKeepsStoreOk(true, Init(ops));
      ExecKeepsJournal(RunOps(Empty(true), Init(ops)), Last(ops));
    }
  }

  // ------------------------------------------------------------------ crash anywhere

  /** An operation writes at most one line of a file. */
  lemma ExecWritesAtMostOneLine(s: Store, op: Op, c: ConvId)
    requires s.File(c).tail.Ended?
    ensures Exec(s, op).File(c).lines == s.File(c).lines || Init'(Exec(s, op).File(c).lines) == s.File(c).lines
  {
  }

  function Init'<T>(s: seq<T>): seq<T> { if s == [] then [] else Init(s) }

  /** Cut the file of a conversation after any number of whole lines: what is read back is what
      memory held after some prefix of the operations. */
  lemma {:induction false} CrashPrefixReplays(ops: seq<Op>, c: ConvId, k: nat)
    requires k <= |RunOps(Empty(true), ops).File(c).lines|
    ensures exists j ::
      && 0 <= j <= |ops|
      && RunOps(Empty(true), ops[..j]).File(c).lines == RunOps(Empty(true), ops).File(c).lines[..k]
      && Agree(RunOps(Empty(true), ops[..j]).table, c, RunOps(Empty(true), ops).File(c).lines[..k])
  {
    var ls := RunOps(Empty(true), ops).File(c).lines;
    RunKeepsJournal(ops);
    assert FileAgrees(RunOps(Empty(true), ops), c);
    if k == |ls| {
      assert ops[..|ops|] == ops && ls[..k] == ls;
    } else {
      var init := Init(ops);
      RunKeepsJournal(init);
      assert FileAgrees(RunOps(Empty(true), init), c);
      ExecWritesAtMostOneLine(RunOps(Empty(true), init), Last(ops), c);
      var ls0 := RunOps(Empty(true), init).File(c).lines;
      assert ls[..k] == ls0[..k];
      CrashPrefixReplays(init, c, k);
      var j :| 0 <= j <= |init|
        && RunOps(Empty(true), init[..j]).File(c).lines == ls0[..k]
        && Agree(RunOps(Empty(true), init[..j]).table, c, ls0[..k]);
      assert init[..j] == ops[..j];
    }
  }

  /** The same for what a person sees: the list read back is the list that was on the screen
      after that prefix, up to read marks and "sending". */
  lemma CrashPrefixLists(ops: seq<Op>, c: ConvId, k: nat, loaded: seq<Message>)
    requires k <= |RunOps(Empty(true), ops).File(c).lines|
    requires IsListing(loaded, LoadedTable(RunOps(Empty(true), ops).File(c).lines[..k]), c)
    ensures exists j ::
      && 0 <= j <= |ops|
      && forall live :: IsListing(live, RunOps(Empty(true), ops[..j]).table, c) ==>
        DurableList(loaded) == DurableList(live)
  {
    CrashPrefixReplays(ops, c, k);
    var ls := RunOps(Empty(true), ops).File(c).lines[..k];
    var j :| 0 <= j <= |ops| && RunOps(Empty(true), ops[..j]).File(c).lines == ls
      && Agree(RunOps(Empty(true), ops[..j]).table, c, ls);
    RunKeepsJournal(ops[..j]);
    var t := RunOps(Empty(true), ops[..j]).table;
    assert FileAgrees(RunOps(Empty(true), ops[..j]), c);
    forall live | IsListing(live, t, c) ensures DurableList(loaded) == DurableList(live) {
      ReplayedListIsTheSame(loaded, live, t, c, ls);
    }
  }

  // ------------------------------------------------------------ opening the files again

  /** Every file well kept, and no message in two of them. */
  ghost predicate FilesOk(s: Store) {
    && s.persist
    && (forall c :: s.File(c).tail.Ended? && FileOk(s.File(c).lines, c))
    && (forall c, d, id :: HasMsg(s.File(c).lines, id) && HasMsg(s.File(d).lines, id) ==> c == d)
  }

  lemma JournalOkFiles(s: Store)
    requires JournalOk(s)
    ensures FilesOk(s)
  {
    forall c ensures s.File(c).tail.Ended? && FileOk(s.File(c).lines, c) { assert FileAgrees(s, c); }
    forall c, d, id | HasMsg(s.File(c).lines, id) && HasMsg(s.File(d).lines, id) ensures c == d {
      assert FileAgrees(s, c) && FileAgrees(s, d);
    }
  }

  /** Every file can be read back, and no message is in two of them. */
  ghost predicate DirLoadable(s: Store) {
    && (forall c :: Loadable(s.File(c).Read(), c))
    && (forall c, d, id :: HasMsg(s.File(c).Read(), id) && HasMsg(s.File(d).Read(), id) ==> c == d)
  }

  lemma FilesOkLoadable(s: Store)
    requires FilesOk(s)
    ensures DirLoadable(s) && forall c :: s.File(c).Read() == s.File(c).lines
  {
    forall c ensures Loadable(s.File(c).Read(), c) && s.File(c).Read() == s.File(c).lines {
      assert FileOk(s.File(c).lines, c);
      FileOkIsLoadable(s.File(c).lines, c);
    }
  }

  /** What has been read once the named files have been. */
  ghost predicate LoadedFrom(r: Store, s: Store, names: seq<ConvId>) {
    && r.persist == s.persist && r.files == s.files
    && (forall id :: id in r.table ==> var c := r.table[id].conv;
          c in names && HasMsg(s.File(c).Read(), id) && r.table[id] == LoadedMsg(s.File(c).Read(), id))
    && (forall c, id :: c in names && HasMsg(s.File(c).Read(), id) ==> id in r.table)
    && (forall c :: c in names ==> Top(s.File(c).Read()) <= r.nextSeq)
  }

  lemma LoadFileStep(r: Store, s: Store, names: seq<ConvId>, c: ConvId)
    requires DirLoadable(s) && LoadedFrom(r, s, names) && c !in names
    ensures LoadedFrom(LoadFile(r, c, s.File(c).Read()), s, names + [c])
  {
    var ls := s.File(c).Read();
    LoadableKeys(ls, c);
    forall id | id in r.table ensures id !in LoadedTable(ls) {
      assert HasMsg(s.File(r.table[id].conv).Read(), id);
      assert id in LoadedTable(ls) ==> HasMsg(ls, id);
    }
  }

  lemma {:induction false} LoadDirReads(b: Store, s: Store, names: seq<ConvId>)
    requires DirLoadable(s) && b == Store(s.persist, map[], map[], 0, s.files)
    requires forall i, j :: 0 <= i < j < |names| ==> names[i] != names[j]
    ensures LoadedFrom(LoadDir(b, names), s, names)
  {
    if names != [] {
      LoadDirReads(b, s, Init(names));
      LoadFileStep(LoadDir(b, Init(names)), s, Init(names), Last(names));
      assert names == Init(names) + [Last(names)];
    }
  }

  /** A directory listing: every file once, in some order. */
  ghost predicate Lists(names: seq<ConvId>, s: Store) {
    && (forall i, j :: 0 <= i < j < |names| ==> names[i] != names[j])
    && (forall c :: c in names <==> c in s.files)
  }

  lemma ReadBackAgrees(r: Store, s: Store, names: seq<ConvId>, c: ConvId)
    requires FilesOk(s) && Lists(names, s) && LoadedFrom(r, s, names) && s.File(c).Read() == s.File(c).lines
    requires forall d :: s.File(d).Read() == s.File(d).lines
    ensures FileAgrees(r, c)
  {
    var ls := s.File(c).lines;
    FileOkKeys(ls, c);
    assert r.File(c) == s.File(c);
    forall id ensures id in MsgTable(ls) <==> id in r.table && r.table[id].conv == c {
      if id in MsgTable(ls) {
        assert HasMsg(s.File(c).Read(), id) && c in names;
        assert HasMsg(s.File(r.table[id].conv).Read(), id);
      }
    }
    assert c !in names ==> ls == [];
  }

  lemma ReadBackTableOk(r: Store, s: Store, names: seq<ConvId>)
    requires FilesOk(s) && LoadedFrom(r, s, names) && forall d :: s.File(d).Read() == s.File(d).lines
    ensures TableOk(r.table, r.nextSeq)
  {
    forall id | id in r.table
      ensures r.table[id].id == id && id != "" && r.table[id].conv != ""
           && r.table[id].num <= r.nextSeq && |r.table[id].body| <= MAX_BODY_RUNES
    {
      var c := r.table[id].conv;
      assert HasMsg(s.File(c).Read(), id);
      FileOkKeys(s.File(c).lines, c);
      TopBounds(s.File(c).lines);
    }
  }

  /** A store opened on well-kept files agrees with them, whatever the order of the directory,
      and its counter is above every number it holds. */
  lemma ReloadAgrees(s: Store, names: seq<ConvId>)
    requires FilesOk(s) && Lists(names, s)
    ensures JournalOk(Reload(s, names)) && Reload(s, names).files == s.files
    ensures TableOk(Reload(s, names).table, Reload(s, names).nextSeq)
  {
    var r := Reload(s, names);
    FilesOkLoadable(s);
    LoadDirReads(Store(s.persist, map[], map[], 0, s.files), s, names);
    forall c ensures FileAgrees(r, c) { ReadBackAgrees(r, s, names, c); }
    ReadBackTableOk(r, s, names);
    forall id | id in r.table ensures r.table[id].conv in r.files { assert r.table[id].conv in names; }
  }

  /** Two stores that agree with the same files hold the same messages up to a restart. */
  lemma SameFilesSameMessages(s: Store, r: Store)
    requires JournalOk(s) && JournalOk(r) && s.files == r.files
    ensures s.table.Keys == r.table.Keys
    ensures forall id :: id in s.table ==> Durable(s.table[id]) == Durable(r.table[id])
    ensures forall c :: SameUpToRestart(s.table, r.table, c)
  {
    forall id ensures id in s.table ==> id in r.table && Durable(s.table[id]) == Durable(r.table[id]) {
      if id in s.table {
        var c := s.table[id].conv;
        assert FileAgrees(s, c) && FileAgrees(r, c);
        assert id in MsgTable(s.File(c).lines);
      }
    }
    forall id ensures id in r.table ==> id in s.table {
      if id in r.table {
        var c := r.table[id].conv;
        assert FileAgrees(s, c) && FileAgrees(r, c);
        assert id in MsgTable(r.File(c).lines);
      }
    }
    forall c ensures SameUpToRestart(s.table, r.table, c) {}
  }

  /** A clean restart brings back every message with its number, and its state up to
      "sending". */
  lemma RestartBringsEverythingBack(s: Store, names: seq<ConvId>)
    requires JournalOk(s) && Lists(names, s)
    ensures var r := Reload(s, names);
      && JournalOk(r) && TableOk(r.table, r.nextSeq)
      && r.table.Keys == s.table.Keys
      && (forall id :: id in s.table ==> Durable(s.table[id]) == Durable(r.table[id]))
  {
    JournalOkFiles(s);
    ReloadAgrees(s, names);
    SameFilesSameMessages(s, Reload(s, names));
  }

  // ------------------------------------------- runs with crashes and restarts anywhere

  /** The first k lines of a file; what follows was never written. */
  function Cut(f: LogFile, k: nat): LogFile {
    LogFile(if k < |f.lines| then f.lines[..k] else f.lines, Ended)
  }

  datatype Event = Do(op: Op) | Crash(kept: map<ConvId, nat>, names: seq<ConvId>)

  function CutFiles(s: Store, kept: map<ConvId, nat>): Store {
    s.(files := map c | c in s.files :: if c in kept then Cut(s.files[c], kept[c]) else s.files[c])
  }

  ghost predicate Step(s: Store, e: Event, s': Store) {
    match e
    case Do(op) => s' == Exec(s, op)
    case Crash(kept, names) => Lists(names, s) && s' == Reload(CutFiles(s, kept), names)
  }

  lemma {:induction false} PrefixHas(ls: seq<LogLine>, k: nat, id: MessageId)
    requires k <= |ls| && HasMsg(ls[..k], id)
    ensures HasMsg(ls, id)
  {
    if k < |ls| {
      assert Init(ls)[..k] == ls[..k];
      PrefixHas(Init(ls), k, id);
    } else {
      assert ls[..k] == ls;
    }
  }

  lemma CutFilesOk(s: Store, kept: map<ConvId, nat>)
    requires FilesOk(s)
    ensures FilesOk(CutFiles(s, kept))
  {
    var s' := CutFiles(s, kept);
    forall c ensures s'.File(c).tail.Ended? && FileOk(s'.File(c).lines, c)
      ensures forall id :: HasMsg(s'.File(c).lines, id) ==> HasMsg(s.File(c).lines, id)
    {
      assert FileOk(s.File(c).lines, c);
      if c in s.files && c in kept && kept[c] < |s.files[c].lines| {
        PrefixOk(s.File(c).lines, c, kept[c]);
        forall id | HasMsg(s'.File(c).lines, id) ensures HasMsg(s.File(c).lines, id) {
          PrefixHas(s.File(c).lines, kept[c], id);
        }
      }
    }
  }

  /** Over any run of operations, crashes that lose the end of any files, and restarts, the
      store in memory is what the files say. */
  lemma {:induction false} MemoryFollowsDisk(states: seq<Store>, events: seq<Event>)
    requires |states| == |events| + 1 && states[0] == Empty(true)
    requires forall i :: 0 <= i < |events| ==> Step(states[i], events[i], states[i + 1])
    ensures JournalOk(Last(states)) && TableOk(Last(states).table, Last(states).nextSeq)
  {
    if events == [] {
      RunKeepsJournal([]);
    } else {
      MemoryFollowsDisk(Init(states), Init(events));
      var s := states[|events| - 1];
      assert Init(states)[|events| - 1] == s;
      assert Step(s, Last(events), Last(states));
      match Last(events)
      case Do(op) =>
        ExecKeepsJournal(s, op);
        ExecKeepsTable(s, op);
      case Crash(kept, names) =>
        JournalOkFiles(s);
        CutFilesOk(s, kept);
        ReloadAgrees(CutFiles(s, kept), names);
    }
  }

  lemma ExecKeepsTable(s: Store, op: Op)
    requires TableOk(s.table, s.nextSeq)
    ensures TableOk(Exec(s, op).table, Exec(s, op).nextSeq)
  {
    if op.DoAppend? { AppendKeepsTable(s, op.m, op.now); }
  }

  lemma AppendKeepsTable(s: Store, m: Message, now: int)
    requires TableOk(s.table, s.nextSeq)
    ensures TableOk(AppendMsg(s, m, now).0.table, AppendMsg(s, m, now).0.nextSeq)
  {
  }

  // ------------------------------------------------------- lines that land out of order

  function Msgs(ls: seq<LogLine>): seq<LogLine> {
    if ls == [] then [] else Msgs(Init(ls)) + if Last(ls).MsgLine? then [Last(ls)] else []
  }

  function Amendments(ls: seq<LogLine>): seq<LogLine> {
    if ls == [] then [] else Amendments(Init(ls)) + if Last(ls).MsgLine? then [] else [Last(ls)]
  }

  lemma SnocMsgs(ls: seq<LogLine>)
    requires ls != []
    ensures Last(ls).MsgLine? ==> Msgs(ls) == Msgs(Init(ls)) + [Last(ls)] && Amendments(ls) == Amendments(Init(ls))
    ensures !Last(ls).MsgLine? ==> Msgs(ls) == Msgs(Init(ls)) && Amendments(ls) == Amendments(Init(ls)) + [Last(ls)]
    ensures Last(ls).MsgLine? ==> Init(Msgs(ls)) == Msgs(Init(ls)) && Last(Msgs(ls)) == Last(ls)
    ensures !Last(ls).MsgLine? ==> Init(Amendments(ls)) == Amendments(Init(ls)) && Last(Amendments(ls)) == Last(ls)
  {
  }

  lemma {:induction false} SplitMsgs(ls: seq<LogLine>)
    ensures MsgTable(ls) == MsgTable(Msgs(ls))
  {
    if ls != [] {
      SplitMsgs(Init(ls));
      SnocMsgs(ls);
    }
  }

  lemma {:induction false} SplitAmendments(ls: seq<LogLine>)
    ensures Nums(ls) == Nums(Amendments(ls))
    ensures States(ls) == States(Amendments(ls))
    ensures HasRead(ls) == HasRead(Amendments(ls))
  {
    if ls != [] {
      SplitAmendments(Init(ls));
      SnocMsgs(ls);
    }
  }

  lemma {:induction false} SplitTop(ls: seq<LogLine>)
    ensures Top(ls) == Max(Top(Msgs(ls)), Top(Amendments(ls)))
  {
    if ls != [] {
      SplitTop(Init(ls));
      SnocMsgs(ls);
    }
  }

  /** An amending line may land before the message it amends: only the order of the amendments
      among themselves is read. */
  lemma EarlyAmendmentsAreHonoured(x: seq<LogLine>, y: seq<LogLine>)
    requires Msgs(x) == Msgs(y) && Amendments(x) == Amendments(y)
    ensures LoadedTable(x) == LoadedTable(y) && Top(x) == Top(y)
  {
    SplitMsgs(x);
    SplitMsgs(y);
    SplitAmendments(x);
    SplitAmendments(y);
    SplitTop(x);
    SplitTop(y);
  }

  // ------------------------------------------------------------ what does not hold

  function LoadedUnread(ls: seq<LogLine>): nat {
    if HasRead(ls) then 0 else |LoadedUnreadIds(ls)|
  }

  /** No read line has been written while nothing countable has been read. */
  ghost predicate ReadLineTells(s: Store, c: ConvId) {
    HasRead(s.File(c).lines) ||
    forall id :: id in s.table && s.table[id].conv == c && !s.table[id].mine && !s.table[id].system ==>
      !s.table[id].read
  }

  /** Only our own messages are filed as read. */
  predicate FiledUnread(op: Op) { op.DoAppend? && op.m.read ==> op.m.mine }

  lemma HasReadSnoc(f: LogFile, l: LogLine)
    requires f.tail.Ended?
    ensures HasRead(AppendLog(f, l).lines) == (HasRead(f.lines) || l.ReadLine?)
  {
    InitOfSnoc(f.lines, l);
  }

  lemma ReadingKeepsReadLineTells(s: Store, d: ConvId, c: ConvId)
    requires JournalOk(s) && UnreadOk(s) && ReadLineTells(s, c)
    ensures ReadLineTells(MarkRead(s, d).0, c)
  {
    assert FileAgrees(s, c);
    HasReadSnoc(s.File(c), ReadLine);
    if d == c && s.Unread(c) == 0 { NothingUnread(s, c); }
  }

  lemma NothingUnread(s: Store, c: ConvId)
    requires UnreadOk(s) && s.Unread(c) == 0
    ensures forall id :: id in s.table && s.table[id].conv == c ==> !Counts(s.table[id])
  {
    assert UnreadIds(s.table, c) == {};
    assert forall id :: id in s.table && s.table[id].conv == c ==> id !in UnreadIds(s.table, c);
  }

  /** Nothing but reading touches a read mark of what is already there. */
  lemma WritingKeepsReadLineTells(s: Store, s': Store, l: LogLine, d: ConvId, c: ConvId)
    requires s.persist && s.File(c).tail.Ended? && ReadLineTells(s, c)
    requires s'.files == s.files || s'.files == s.Log(d, l).files
    requires forall id :: id in s.table ==> id in s'.table && s'.table[id].conv == s.table[id].conv
    requires forall id :: id in s'.table && !s'.table[id].mine && !s'.table[id].system && s'.table[id].read ==>
      id in s.table && s.table[id].read && !s.table[id].mine && !s.table[id].system
    ensures ReadLineTells(s', c)
  {
    HasReadSnoc(s.File(c), l);
  }

  lemma ExecKeepsReadLineTells(s: Store, op: Op, c: ConvId)
    requires JournalOk(s) && StoreOk(s) && ReadLineTells(s, c) && FiledUnread(op)
    ensures ReadLineTells(Exec(s, op), c)
  {
    assert FileAgrees(s, c);
    match op
    case DoAppend(m, now) => AppendKeepsReadLineTells(s, m, now, c);
    case DoConfirm(id, num) => AmendKeepsReadLineTells(s, op, c);
    case DoState(id, st) => AmendKeepsReadLineTells(s, op, c);
    case DoRead(d) => ReadingKeepsReadLineTells(s, d, c);
    case DoMint =>
  }

  lemma AppendKeepsReadLineTells(s: Store, m: Message, now: int, c: ConvId)
    requires s.persist && s.File(c).tail.Ended? && ReadLineTells(s, c) && FiledUnread(DoAppend(m, now))
    ensures ReadLineTells(AppendMsg(s, m, now).0, c)
  {
    WritingKeepsReadLineTells(s, AppendMsg(s, m, now).0, MsgLine(Filed(m, now)), m.conv, c);
  }

  lemma AmendKeepsReadLineTells(s: Store, op: Op, c: ConvId)
    requires s.persist && s.File(c).tail.Ended? && ReadLineTells(s, c) && (op.DoConfirm? || op.DoState?)
    ensures ReadLineTells(Exec(s, op), c)
  {
    if op.id in s.table {
      var l := if op.DoConfirm? then NumLine(op.id, op.num, Delivered) else StateLine(op.id, op.st);
      WritingKeepsReadLineTells(s, Exec(s, op), l, s.table[op.id].conv, c);
    }
  }

  lemma {:induction false} RunKeepsReadLineTells(ops: seq<Op>, c: ConvId)
    requires forall i :: 0 <= i < |ops| ==> FiledUnread(ops[i])
    ensures ReadLineTells(RunOps(Empty(true), ops), c)
  {
    if ops != [] {
      RunKeepsReadLineTells(Init(ops), c);
      RunKeepsJournal(Init(ops));
      RunKeepsStoreOk(true, Init(ops));
      ExecKeepsReadLineTells(RunOps(Empty(true), Init(ops)), Last(ops), c);
    }
  }

  /** The unread count survives a restart exactly when the conversation was never marked read
      or has nothing unread: a read line marks the whole file. */
  lemma UnreadSurvivesExactlyWhen(ops: seq<Op>, c: ConvId)
    requires forall i :: 0 <= i < |ops| ==> FiledUnread(ops[i])
    ensures var s := RunOps(Empty(true), ops);
      LoadedUnread(s.File(c).lines) == s.Unread(c) <==> !HasRead(s.File(c).lines) || s.Unread(c) == 0
  {
    var s := RunOps(Empty(true), ops);
    var ls := s.File(c).lines;
    RunKeepsReadLineTells(ops, c);
    RunKeepsJournal(ops);
    RunKeepsStoreOk(true, ops);
    assert FileAgrees(s, c);
    if !HasRead(ls) {
      assert LoadedUnreadIds(ls) == UnreadIds(s.table, c);
    }
  }

  /** Something to be read, as somebody else sends it. */
  predicate Readable(m: Message) { m.id != "" && m.conv != "" && Counts(m) }

  lemma NewIsUnread(s: Store, m: Message, now: int)
    requires StoreOk(s) && Readable(m) && m.id !in s.table
    ensures AppendMsg(s, m, now).0.Unread(m.conv) == s.Unread(m.conv) + 1
    ensures s.persist ==> AppendMsg(s, m, now).0.File(m.conv) == AppendLog(s.File(m.conv), MsgLine(Filed(m, now)))
  {
  }

  lemma RunMore(s: Store, ops: seq<Op>, op: Op, all: seq<Op>)
    requires all == ops + [op]
    ensures RunOps(s, all) == Exec(RunOps(s, ops), op)
  {
    assert all[..|all| - 1] == ops && all[|all| - 1] == op;
  }

  lemma ArrivedAndRead(m: Message, now: int)
    requires Readable(m)
    ensures var s := MarkRead(AppendMsg(Empty(true), m, now).0, m.conv).0;
      && StoreOk(s) && s.persist && s.Unread(m.conv) == 0 && s.table.Keys == {m.id}
      && s.File(m.conv).tail.Ended? && HasRead(s.File(m.conv).lines)
  {
    var s1 := AppendMsg(Empty(true), m, now).0;
    RunKeepsStoreOk(true, []);
    AppendKeepsStoreOk(Empty(true), m, now);
    MarkReadKeepsStoreOk(s1, m.conv);
    NewIsUnread(Empty(true), m, now);
    HasReadSnoc(s1.File(m.conv), ReadLine);
  }

  /** And it comes about: a message arrives and is read, another arrives behind it, and after a
      restart that one counts as read too. */
  lemma UnreadLost(m: Message, x: Message, now: int)
    requires Readable(m) && Readable(x) && m.conv == x.conv && m.id != x.id
    ensures var s := RunOps(Empty(true), [DoAppend(m, now), DoRead(m.conv), DoAppend(x, now)]);
      s.Unread(m.conv) == 1 && LoadedUnread(s.File(m.conv).lines) == 0
  {
    var a, b, c := DoAppend(m, now), DoRead(m.conv), DoAppend(x, now);
    RunMore(Empty(true), [], a, [a]);
    RunMore(Empty(true), [a], b, [a, b]);
    RunMore(Empty(true), [a, b], c, [a, b, c]);
    ArrivedAndRead(m, now);
    var s2 := RunOps(Empty(true), [a, b]);
    NewIsUnread(s2, x, now);
    HasReadSnoc(s2.File(m.conv), MsgLine(Filed(x, now)));
  }
}

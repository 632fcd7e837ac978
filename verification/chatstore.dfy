/** The store as the program runs it (chat/store.go): lists kept sorted by insertion, a set of
    ids for duplicates, counters, and history files that are only ever appended to. Each method
    is tied to the operation of the same name on the abstract store. */
module ChatStores {
  import opened Wrappers
  import opened Names
  import opened Messages
  import opened StoreModel
  import opened Journal

  /** Which entries a walk for outgoing messages picks. */
  predicate Waiting(m: Message) { m.mine && (m.state == Queued || m.state == Sending) }

  ghost predicate Selects(s: seq<Message>, t: map<MessageId, Message>, p: Message -> bool) {
    && (forall x :: x in s ==> x.id in t && t[x.id] == x && p(x))
    && (forall id :: id in t && p(t[id]) ==> t[id] in s)
  }

  // --------------------------------- lists kept by insertion are the listings of the table

  function ListOf(msgs: map<ConvId, seq<Message>>, c: ConvId): seq<Message> {
    if c in msgs then msgs[c] else []
  }

  ghost predicate Refines(msgs: map<ConvId, seq<Message>>, t: map<MessageId, Message>) {
    && Keyed(t)
    && (forall c :: c in msgs ==> msgs[c] != [] && IsListing(msgs[c], t, c))
    && (forall id :: id in t ==> t[id].conv in msgs)
  }

  /** A change of one id leaves the listing of every other conversation alone. */
  lemma OtherListing(s: seq<Message>, t: map<MessageId, Message>, m: Message, d: ConvId)
    requires Keyed(t) && IsListing(s, t, d) && m.conv != d
    requires m.id in t ==> t[m.id].conv == m.conv
    ensures IsListing(s, t[m.id := m], d)
  {
  }

  lemma ReplaceRefines(msgs: map<ConvId, seq<Message>>, t: map<MessageId, Message>, u: map<MessageId, Message>,
                       c: ConvId, list: seq<Message>)
    requires Refines(msgs, t) && c in msgs && Keyed(u) && u.Keys == t.Keys
    requires forall id :: id in t ==> u[id].conv == t[id].conv
    requires list != [] && IsListing(list, u, c)
    requires forall d :: d in msgs && d != c ==> IsListing(msgs[d], u, d)
    ensures Refines(msgs[c := list], u)
  {
  }

  lemma InsertRefines(msgs: map<ConvId, seq<Message>>, t: map<MessageId, Message>, m: Message)
    requires Refines(msgs, t) && m.id !in t
    ensures Sorted(ListOf(msgs, m.conv))
    ensures Refines(msgs[m.conv := Insert(ListOf(msgs, m.conv), m)], t[m.id := m])
  {
    InsertKeepsListing(ListOf(msgs, m.conv), t, m);
    forall d | d in msgs && d != m.conv ensures IsListing(msgs[d], t[m.id := m], d) {
      OtherListing(msgs[d], t, m, d);
    }
  }

  lemma MoveRefines(msgs: map<ConvId, seq<Message>>, t: map<MessageId, Message>, c: ConvId, i: nat, m: Message)
    requires Refines(msgs, t) && c in msgs && i < |msgs[c]| && m.id == msgs[c][i].id && m.conv == c
    ensures Sorted(msgs[c][..i] + msgs[c][i + 1..])
    ensures Refines(msgs[c := Insert(msgs[c][..i] + msgs[c][i + 1..], m)], t[m.id := m])
  {
    MoveKeepsListing(msgs[c], t, c, i, m);
    assert msgs[c][i].conv == c && t[m.id] == msgs[c][i];
    forall d | d in msgs && d != c ensures IsListing(msgs[d], t[m.id := m], d) {
      OtherListing(msgs[d], t, m, d);
    }
  }

  lemma EditRefines(msgs: map<ConvId, seq<Message>>, t: map<MessageId, Message>, c: ConvId, i: nat, m: Message)
    requires Refines(msgs, t) && c in msgs && i < |msgs[c]|
    requires m == msgs[c][i].(state := m.state)
    ensures Refines(msgs[c := msgs[c][i := m]], t[m.id := m])
  {
    var s := msgs[c];
    SortedDistinct(s);
    assert t[m.id] == s[i] && s[i].conv == c;
    forall k | 0 <= k < |s| ensures s[k].id in t[m.id := m] && s[i := m][k] == t[m.id := m][s[k].id] {
      assert t[s[k].id] == s[k];
    }
    EditKeepsListing(s, t, s[i := m], t[m.id := m], c);
    forall d | d in msgs && d != c ensures IsListing(msgs[d], t[m.id := m], d) {
      OtherListing(msgs[d], t, m, d);
    }
  }

  lemma ReadRefines(msgs: map<ConvId, seq<Message>>, t: map<MessageId, Message>, c: ConvId, out: seq<Message>)
    requires Refines(msgs, t) && c in msgs && |out| == |msgs[c]|
    requires forall k :: 0 <= k < |out| ==> out[k] == msgs[c][k].(read := true)
    ensures Refines(msgs[c := out], ReadAll(t, c))
  {
    EditKeepsListing(msgs[c], t, out, ReadAll(t, c), c);
    forall d | d in msgs && d != c ensures IsListing(msgs[d], ReadAll(t, c), d) {
      assert IsListing(msgs[d], t, d);
    }
  }

  lemma NothingToRead(msgs: map<ConvId, seq<Message>>, t: map<MessageId, Message>, c: ConvId)
    requires Refines(msgs, t) && c !in msgs
    ensures ReadAll(t, c) == t
  {
  }

  lemma UpdateOfSum<K, V>(a: map<K, V>, b: map<K, V>, k: K, v: V)
    ensures (a + b)[k := v] == a + b[k := v]
  {
  }

  /** What loadLog carries from line to line besides the messages. */
  datatype Notes = Notes(nums: map<MessageId, nat>, states: map<MessageId, Delivery>, read: bool)

  function NotesOf(ls: seq<LogLine>): Notes { Notes(Nums(ls), States(ls), HasRead(ls)) }

  function Note(n: Notes, l: LogLine): Notes {
    match l
    case StateLine(id, st) => n.(states := n.states[id := st])
    case NumLine(id, num, st) =>
      n.(nums := n.nums[id := num], states := if st == Unset then n.states else n.states[id := st])
    case ReadLine => n.(read := true)
    case _ => n
  }

  lemma LineStep(ls: seq<LogLine>, c: ConvId, i: nat)
    requires Loadable(ls, c) && i < |ls|
    ensures Files(ls[i]) ==> ls[i].m.id !in MsgTable(ls[..i]) && ls[i].m.id in MsgTable(ls)
    ensures MsgTable(ls[..i + 1]) ==
      if Files(ls[i]) then MsgTable(ls[..i])[ls[i].m.id := ls[i].m] else MsgTable(ls[..i])
    ensures NotesOf(ls[..i + 1]) == Note(NotesOf(ls[..i]), ls[i])
    ensures Top(ls[..i + 1]) == Max(Top(ls[..i]), NumberOn(ls[i]))
  {
    PrefixLoadable(ls, c, i + 1);
    assert Init(ls[..i + 1]) == ls[..i];
    if Files(ls[i]) { PrefixHas(ls, i + 1, ls[i].m.id); }
  }

  predicate Files(l: LogLine) { l.MsgLine? && l.m.id != "" }

  function NumberOn(l: LogLine): nat {
    match l case MsgLine(m) => if m.id == "" then 0 else m.num case NumLine(_, num, _) => num case _ => 0
  }

  lemma {:induction false} SortOfSortedIsSame(s: seq<Message>)
    requires Sorted(s)
    ensures Sort(s) == s
  {
    if s != [] {
      SortOfSortedIsSame(s[1..]);
      if |s| > 1 { LessTrans'(s[0], s[1]); }
      assert s == [s[0]] + s[1..];
    }
  }

  lemma LessTrans'(a: Message, b: Message)
    requires Less(a, b)
    ensures !Less(b, a)
  {
    if Less(b, a) { LessTrans(a, b, a); LessTotal(a, a); }
  }

  ghost function IncomingIds(t: map<MessageId, Message>, c: ConvId): set<MessageId> {
    set id | id in t && t[id].conv == c && !t[id].mine && !t[id].system
  }

  lemma PatchedOwn(list: seq<Message>, t0: map<MessageId, Message>, c: ConvId, ls: seq<LogLine>, out: seq<Message>)
    requires Loadable(ls, c) && Keyed(t0) && (forall id :: id in t0 ==> t0[id].conv != c)
    requires IsListing(list, t0 + MsgTable(ls), c) && MsgTable(ls).Keys !! t0.Keys
    requires Patched(list, ls, out)
    ensures IsListing(Sort(out), t0 + LoadedTable(ls), c)
  {
    var t, u := t0 + MsgTable(ls), t0 + LoadedTable(ls);
    LoadableKeys(ls, c);
    PatchedDistinct(list, t, c, out);
    forall k | 0 <= k < |list| ensures u[list[k].id] == out[k] {
      assert t[list[k].id] == list[k];
    }
    SortSorted(out);
    ListedByMembership(Sort(out), list, out, t, u, c);
  }

  ghost predicate Patched(list: seq<Message>, ls: seq<LogLine>, out: seq<Message>) {
    && |out| == |list|
    && forall k :: 0 <= k < |out| ==> out[k] == Patch(list[k], Nums(ls), States(ls), HasRead(ls))
  }

  lemma UnmovedStaysSorted(list: seq<Message>, ls: seq<LogLine>, out: seq<Message>)
    requires Sorted(list) && Patched(list, ls, out)
    requires forall k :: 0 <= k < |out| ==> out[k].num == list[k].num
    ensures Sort(out) == out
  {
    forall i, j | 0 <= i < j < |out| ensures Less(out[i], out[j]) { assert Less(list[i], list[j]); }
    SortOfSortedIsSame(out);
  }

  lemma OthersKept(msgs: map<ConvId, seq<Message>>, t0: map<MessageId, Message>, c: ConvId, ls: seq<LogLine>)
    requires Refines(msgs, t0 + MsgTable(ls)) && Loadable(ls, c) && MsgTable(ls).Keys !! t0.Keys
    ensures forall d :: d in msgs && d != c ==> IsListing(msgs[d], t0 + LoadedTable(ls), d)
  {
    forall d | d in msgs && d != c ensures IsListing(msgs[d], t0 + LoadedTable(ls), d) {
      KeptListing(msgs[d], t0, ls, c, d);
    }
  }

  lemma LoadingKeepsShape(t0: map<MessageId, Message>, c: ConvId, ls: seq<LogLine>)
    requires Loadable(ls, c) && Keyed(t0)
    ensures Keyed(t0 + LoadedTable(ls)) && (t0 + LoadedTable(ls)).Keys == (t0 + MsgTable(ls)).Keys
    ensures forall id :: id in t0 + MsgTable(ls) ==> (t0 + LoadedTable(ls))[id].conv == (t0 + MsgTable(ls))[id].conv
  {
    LoadableKeys(ls, c);
  }

  /** The patched list of a file, sorted, is the listing of what the file loads. */
  lemma PatchedRefines(msgs: map<ConvId, seq<Message>>, t0: map<MessageId, Message>, c: ConvId, ls: seq<LogLine>,
                       out: seq<Message>)
    requires Refines(msgs, t0 + MsgTable(ls)) && Loadable(ls, c) && c in msgs
    requires Keyed(t0) && MsgTable(ls).Keys !! t0.Keys && forall id :: id in t0 ==> t0[id].conv != c
    requires Patched(msgs[c], ls, out)
    ensures Refines(msgs[c := Sort(out)], t0 + LoadedTable(ls))
  {
    PatchedOwn(msgs[c], t0, c, ls, out);
    LoadingKeepsShape(t0, c, ls);
    OthersKept(msgs, t0, c, ls);
    ReplaceRefines(msgs, t0 + MsgTable(ls), t0 + LoadedTable(ls), c, Sort(out));
  }

  lemma PatchedDistinct(list: seq<Message>, t: map<MessageId, Message>, c: ConvId, out: seq<Message>)
    requires IsListing(list, t, c) && |out| == |list|
    requires forall k :: 0 <= k < |out| ==> out[k].id == list[k].id
    ensures DistinctIds(out)
  {
    SortedDistinct(list);
    forall i, j | 0 <= i < j < |out| ensures out[i].id != out[j].id {
      assert t[list[i].id] == list[i] && t[list[j].id] == list[j];
    }
  }

  lemma ListedByMembership(sorted: seq<Message>, list: seq<Message>, out: seq<Message>, t: map<MessageId, Message>,
                           u: map<MessageId, Message>, c: ConvId)
    requires Sorted(sorted) && (forall x :: x in sorted <==> x in out)
    requires IsListing(list, t, c) && |out| == |list| && Keyed(t) && t.Keys == u.Keys
    requires forall k :: 0 <= k < |list| ==> u[list[k].id] == out[k] && out[k].id == list[k].id && out[k].conv == c
    requires forall id :: id in t ==> u[id].conv == t[id].conv
    ensures IsListing(sorted, u, c)
  {
    forall i | 0 <= i < |sorted| ensures sorted[i].id in u && u[sorted[i].id] == sorted[i] && sorted[i].conv == c {
      assert sorted[i] in sorted;
    }
    forall id | id in u && u[id].conv == c ensures u[id] in sorted {
      assert t[id] in list;
      var k :| 0 <= k < |list| && list[k] == t[id];
      assert out[k] in out;
    }
  }

  lemma KeptListing(s: seq<Message>, t0: map<MessageId, Message>, ls: seq<LogLine>, c: ConvId, d: ConvId)
    requires Loadable(ls, c) && d != c && IsListing(s, t0 + MsgTable(ls), d) && MsgTable(ls).Keys !! t0.Keys
    ensures IsListing(s, t0 + LoadedTable(ls), d)
  {
    LoadableKeys(ls, c);
    var t, u := t0 + MsgTable(ls), t0 + LoadedTable(ls);
    forall i | 0 <= i < |s| ensures s[i].id in u && u[s[i].id] == s[i] {
      assert t[s[i].id] == s[i] && s[i].conv == d;
      assert s[i].id !in MsgTable(ls);
    }
    forall id | id in u && u[id].conv == d ensures u[id] in s {
      assert id !in MsgTable(ls);
      assert t[id] == u[id];
    }
  }

  lemma FileHasConv(t: map<MessageId, Message>, t0: map<MessageId, Message>, c: ConvId, ls: seq<LogLine>)
    requires Loadable(ls, c) && t == t0 + MsgTable(ls) && MsgTable(ls) != map[]
    ensures exists id :: id in t && t[id].conv == c
  {
    LoadableKeys(ls, c);
    var id :| id in MsgTable(ls);
    assert id in t;
  }

  lemma IncomingOfFile(t0: map<MessageId, Message>, c: ConvId, ls: seq<LogLine>)
    requires Loadable(ls, c) && forall id :: id in t0 ==> t0[id].conv != c
    ensures IncomingIds(t0 + LoadedTable(ls), c) == LoadedUnreadIds(ls)
  {
    LoadableKeys(ls, c);
  }

  /** The next file of the directory holds nothing that is already in memory. */
  lemma FreshFile(msgs: map<ConvId, seq<Message>>, t: map<MessageId, Message>, s: Store, r: Store, names: seq<ConvId>,
                  i: nat)
    requires Refines(msgs, t) && r.table == t && DirLoadable(s) && Lists(names, s)
    requires i < |names| && LoadedFrom(r, s, names[..i])
    ensures names[i] !in msgs && MsgTable(s.File(names[i]).Read()).Keys !! t.Keys
  {
    var c := names[i];
    assert c !in names[..i];
    assert c in msgs ==> msgs[c] != [] && IsListing(msgs[c], t, c) && msgs[c][0].conv == c;
    forall id | id in t ensures id !in MsgTable(s.File(c).Read()) {
      assert HasMsg(s.File(t[id].conv).Read(), id);
      if id in MsgTable(s.File(c).Read()) { assert HasMsg(s.File(c).Read(), id); }
    }
  }

  lemma NextIsFresh(msgs: map<ConvId, seq<Message>>, s: Store, r: Store, names: seq<ConvId>, i: nat)
    requires Refines(msgs, r.table) && DirLoadable(s) && Lists(names, s) && i < |names|
    requires s == Store(s.persist, map[], map[], 0, s.files) && r == LoadDir(s, names[..i])
    ensures names[i] !in msgs && MsgTable(s.File(names[i]).Read()).Keys !! r.table.Keys
    ensures r.files == s.files && Loadable(s.File(names[i]).Read(), names[i])
  {
    LoadDirReads(s, s, names[..i]);
    FreshFile(msgs, r.table, s, r, names, i);
  }

  ghost predicate SortedNames(cs: seq<ConvId>) { forall i, j :: 0 <= i < j < |cs| ==> StrLess(cs[i], cs[j]) }

  method InsertName(cs: seq<ConvId>, c: ConvId) returns (out: seq<ConvId>)
    requires SortedNames(cs) && c !in cs
    ensures SortedNames(out) && forall x :: x in out <==> x in cs || x == c
  {
    var i := 0;
    while i < |cs| && StrLess(cs[i], c)
      invariant 0 <= i <= |cs| && forall k :: 0 <= k < i ==> StrLess(cs[k], c)
    {
      i := i + 1;
    }
    forall k | i <= k < |cs| ensures StrLess(c, cs[k]) {
      StrLessTotal(cs[i], c);
      if k > i { StrLessTrans(c, cs[i], cs[k]); }
    }
    out := cs[..i] + [c] + cs[i..];
  }

  class ChatStore {
    const persist: bool
    var msgs: map<ConvId, seq<Message>>
    var seen: set<MessageId>
    var unread: map<ConvId, nat>
    var nextSeq: nat
    var files: map<ConvId, LogFile>
    ghost var table: map<MessageId, Message>

    ghost predicate Valid()
      reads this
    {
      Refines(msgs, table) && seen == table.Keys
    }

    ghost function Abs(): Store
      reads this
    {
      Store(persist, table, unread, nextSeq, files)
    }

    constructor (persist: bool)
      ensures Valid() && Abs() == Empty(persist)
    {
      this.persist := persist;
      msgs, seen, unread, nextSeq, files, table := map[], {}, map[], 0, map[], map[];
    }

    method AppendLine(c: ConvId, l: LogLine)
      modifies `files
      ensures Abs() == old(Abs()).Log(c, l)
    {
      if persist {
        var f := if c in files then files[c] else LogFile([], Ended);
        files := files[c := AppendLog(f, l)];
      }
    }

    method NextSeq() returns (n: nat)
      requires Valid()
      modifies this
      ensures Valid() && (Abs(), n) == StoreModel.NextSeq(old(Abs()))
    {
      nextSeq := nextSeq + 1;
      n := nextSeq;
    }

    method Have(id: MessageId) returns (b: bool)
      requires Valid()
      ensures b <==> id in table
    {
      b := id in seen;
    }

    method FileNew(f: Message)
      requires Valid() && f.id !in table
      modifies `seen, `msgs, `table
      ensures Valid() && table == old(table)[f.id := f]
    {
      seen := seen + {f.id};
      InsertRefines(msgs, table, f);
      var list := InsertOrdered(ListOf(msgs, f.conv), f);
      msgs := msgs[f.conv := list];
      table := table[f.id := f];
    }

    method CountUnread(f: Message)
      modifies `unread
      ensures unread == if Counts(f) then old(unread)[f.conv := old(Abs()).Unread(f.conv) + 1] else old(unread)
    {
      if !f.mine && !f.read && !f.system {
        unread := unread[f.conv := (if f.conv in unread then unread[f.conv] else 0) + 1];
      }
    }

    method AddNew(f: Message)
      requires Valid() && f.id !in table
      modifies `seen, `msgs, `table, `unread, `nextSeq
      ensures Valid() && table == old(table)[f.id := f] && nextSeq == Max(old(nextSeq), f.num)
      ensures unread == if Counts(f) then old(unread)[f.conv := old(Abs()).Unread(f.conv) + 1] else old(unread)
    {
      FileNew(f);
      CountUnread(f);
      if f.num > nextSeq { nextSeq := f.num; }
    }

    method Append(m: Message, now: int) returns (r: AppendResult)
      requires Valid()
      modifies this
      ensures Valid() && (Abs(), r) == AppendMsg(old(Abs()), m, now)
    {
      if m.id == "" || m.conv == "" { return Refused; }
      var f := m.(sent := if m.sent == 0 then now else m.sent, body := ClipRunes(m.body, MAX_BODY_RUNES));
      if m.id in seen { return Duplicate; }
      assert f == Filed(m, now);
      AddNew(f);
      AppendLine(m.conv, MsgLine(f));
      r := Added;
    }

    method IndexIn(list: seq<Message>, id: MessageId) returns (i: nat)
      ensures i <= |list|
      ensures i < |list| ==> list[i].id == id
      ensures i == |list| ==> forall k :: 0 <= k < |list| ==> list[k].id != id
    {
      i := 0;
      while i < |list|
        invariant i <= |list|
        invariant forall k :: 0 <= k < i ==> list[k].id != id
      {
        if list[i].id == id { return; }
        i := i + 1;
      }
    }

    /** Walks the conversations in whatever order the map gives them. */
    method Locate(id: MessageId) returns (at: Option<(ConvId, nat)>)
      requires Valid()
      ensures at.None? <==> id !in table
      ensures at.Some? ==> var (c, i) := at.value; c in msgs && i < |msgs[c]| && msgs[c][i] == table[id]
    {
      var todo := msgs.Keys;
      while todo != {}
        invariant todo <= msgs.Keys
        invariant id in table ==> table[id].conv in todo
        decreases todo
      {
        var c :| c in todo;
        var i := IndexIn(msgs[c], id);
        if i < |msgs[c]| { return Some((c, i)); }
        todo := todo - {c};
      }
      return None;
    }

    method Message(id: MessageId) returns (m: Option<Message>)
      requires Valid()
      ensures m == if id in table then Some(table[id]) else None
    {
      var at := Locate(id);
      match at
      case None => m := None;
      case Some((c, i)) => m := Some(msgs[c][i]);
    }

    /** The tail of a conversation; limit 0 asks for all of it. */
    method Messages(c: ConvId, limit: nat) returns (out: seq<Message>)
      requires Valid()
      ensures out == Tail(ListOf(msgs, c), limit) && IsListing(ListOf(msgs, c), table, c)
    {
      out := ListOf(msgs, c);
      if 0 < limit < |out| { out := out[|out| - limit..]; }
    }

    /** Takes an entry out of its list and puts the changed copy in where its keys say. */
    method Reinsert(c: ConvId, i: nat, m: Message)
      requires Valid() && c in msgs && i < |msgs[c]| && m.id == msgs[c][i].id && m.conv == c
      modifies `msgs, `table
      ensures Valid() && table == old(table)[m.id := m]
    {
      MoveRefines(msgs, table, c, i, m);
      var list := msgs[c];
      var moved := InsertOrdered(list[..i] + list[i + 1..], m);
      msgs := msgs[c := moved];
      table := table[m.id := m];
    }

    method Overwrite(c: ConvId, i: nat, m: Message)
      requires Valid() && c in msgs && i < |msgs[c]| && m == msgs[c][i].(state := m.state)
      modifies `msgs, `table
      ensures Valid() && table == old(table)[m.id := m]
    {
      EditRefines(msgs, table, c, i, m);
      msgs := msgs[c := msgs[c][i := m]];
      table := table[m.id := m];
    }

    method Confirm(id: MessageId, num: nat) returns (found: Option<Message>)
      requires Valid()
      modifies this
      ensures Valid() && (Abs(), found) == StoreModel.Confirm(old(Abs()), id, num)
    {
      found := None;
      var at := Locate(id);
      if at.Some? {
        var (c, i) := at.value;
        var m := msgs[c][i].(num := num, state := Delivered);
        Reinsert(c, i, m);
        found := Some(m);
      }
      if num > nextSeq { nextSeq := num; }
      if found.Some? { AppendLine(found.value.conv, NumLine(id, num, Delivered)); }
    }

    method SetState(id: MessageId, st: Delivery) returns (found: Option<Message>)
      requires Valid()
      modifies this
      ensures Valid() && (Abs(), found) == StoreModel.SetState(old(Abs()), id, st)
    {
      found := None;
      var at := Locate(id);
      if at.Some? {
        var (c, i) := at.value;
        var m := msgs[c][i].(state := st);
        Overwrite(c, i, m);
        found := Some(m);
      }
      if found.Some? { AppendLine(found.value.conv, StateLine(id, st)); }
    }

    method MarkAll(list: seq<Message>) returns (out: seq<Message>)
      ensures |out| == |list| && forall k :: 0 <= k < |out| ==> out[k] == list[k].(read := true)
    {
      out := list;
      var i := 0;
      while i < |list|
        invariant 0 <= i <= |list| == |out|
        invariant forall k :: 0 <= k < i ==> out[k] == list[k].(read := true)
        invariant forall k :: i <= k < |list| ==> out[k] == list[k]
      {
        out := out[i := out[i].(read := true)];
        i := i + 1;
      }
    }

    method MarkMessages(c: ConvId)
      requires Valid()
      modifies `msgs, `table
      ensures Valid() && table == ReadAll(old(table), c)
    {
      if c in msgs {
        var out := MarkAll(msgs[c]);
        ReadRefines(msgs, table, c, out);
        msgs := msgs[c := out];
        table := ReadAll(table, c);
      } else {
        NothingToRead(msgs, table, c);
      }
    }

    method MarkRead(c: ConvId) returns (n: nat)
      requires Valid()
      modifies this
      ensures Valid() && (Abs(), n) == StoreModel.MarkRead(old(Abs()), c)
    {
      n := if c in unread then unread[c] else 0;
      unread := unread - {c};
      MarkMessages(c);
      if n > 0 { AppendLine(c, ReadLine); }
    }

    /** Every stored message with the property, in the order of the lists. */
    method Collect(p: Message -> bool) returns (out: seq<Message>)
      requires Valid()
      ensures Selects(out, table, p) && Sorted(out)
    {
      out := [];
      var todo := msgs.Keys;
      while todo != {}
        invariant todo <= msgs.Keys
        invariant forall x :: x in out ==> x.id in table && table[x.id] == x && p(x) && x.conv !in todo
        invariant forall id :: id in table && table[id].conv !in todo && p(table[id]) ==> table[id] in out
        invariant DistinctIds(out)
        decreases todo
      {
        var c :| c in todo;
        var picked := Pick(c, p);
        forall i, j | 0 <= i < |out| && 0 <= j < |picked| ensures out[i].id != picked[j].id {
          assert out[i] in out && picked[j] in msgs[c];
        }
        out := out + picked;
        todo := todo - {c};
      }
      SortSorted(out);
      out := Sort(out);
    }

    method Pick(c: ConvId, p: Message -> bool) returns (out: seq<Message>)
      requires Valid() && c in msgs
      ensures forall x :: x in out <==> x in msgs[c] && p(x)
      ensures DistinctIds(out)
    {
      out := [];
      var list := msgs[c];
      for i := 0 to |list|
        invariant forall x :: x in out <==> x in list[..i] && p(x)
        invariant DistinctIds(out)
      {
        assert list[..i + 1] == list[..i] + [list[i]];
        SortedDistinct(list);
        if p(list[i]) {
          forall k | 0 <= k < |out| ensures out[k].id != list[i].id {
            assert out[k] in list[..i];
            assert table[out[k].id] == out[k] && table[list[i].id] == list[i];
          }
          out := out + [list[i]];
        }
      }
    }

    /** Outgoing messages still waiting, oldest first: all of them, or those of one conversation. */
    method Queued(c: ConvId) returns (out: seq<Message>)
      requires Valid()
      ensures Sorted(out)
      ensures c == "" ==> Selects(out, table, Waiting)
      ensures c != "" ==> Selects(out, table, (m: Message) => Waiting(m) && m.conv == c)
    {
      if c == "" {
        out := Collect(Waiting);
      } else {
        out := [];
        if c in msgs { out := Pick(c, Waiting); }
        SortSorted(out);
        out := Sort(out);
      }
    }

    /** What is numbered above the cursor, in number order; a limit keeps the last of it. */
    method Since(cursor: nat, limit: nat) returns (out: seq<Message>, ghost all: seq<Message>)
      requires Valid()
      ensures Selects(all, table, (m: Message) => m.num > cursor) && Sorted(all)
      ensures out == Tail(all, limit)
    {
      var found := Collect((m: Message) => m.num > cursor);
      all := found;
      out := found;
      if 0 < limit < |found| { out := found[|found| - limit..]; }
    }

    /** Every conversation that holds a message, in order of name. */
    method Convs() returns (cs: seq<ConvId>)
      requires Valid()
      ensures SortedNames(cs) && forall c :: c in cs <==> exists id :: id in table && table[id].conv == c
    {
      cs := [];
      var todo := msgs.Keys;
      while todo != {}
        invariant todo <= msgs.Keys && SortedNames(cs)
        invariant forall c :: c in cs <==> c in msgs && c !in todo
        decreases todo
      {
        var c :| c in todo;
        cs := InsertName(cs, c);
        todo := todo - {c};
      }
      forall c | c in cs ensures exists id :: id in table && table[id].conv == c {
        assert table[msgs[c][0].id].conv == c;
      }
    }

    // -------------------------------------------------------------- reading history back

    /** The amendments of a file, applied entry by entry; resort says a number moved. */
    static method PatchList(list: seq<Message>, n: Notes) returns (out: seq<Message>, resort: bool)
      ensures |out| == |list|
      ensures forall k :: 0 <= k < |list| ==> out[k] == Patch(list[k], n.nums, n.states, n.read)
      ensures !resort ==> forall k :: 0 <= k < |list| ==> out[k].num == list[k].num
    {
      out, resort := list, false;
      var i := 0;
      while i < |list|
        invariant 0 <= i <= |list| == |out|
        invariant forall k :: 0 <= k < i ==> out[k] == Patch(list[k], n.nums, n.states, n.read)
        invariant forall k :: i <= k < |list| ==> out[k] == list[k]
        invariant !resort ==> forall k :: 0 <= k < |list| ==> out[k].num == list[k].num
      {
        var m := out[i];
        if m.id in n.nums && n.nums[m.id] != m.num {
          m := m.(num := n.nums[m.id]);
          resort := true;
        }
        if m.id in n.states { m := m.(state := n.states[m.id]); }
        if m.mine && m.state == Sending { m := m.(state := Delivery.Queued); }
        if n.read { m := m.(read := true); }
        out := out[i := m];
        i := i + 1;
      }
    }

    static method PatchAndSort(ghost msgs: map<ConvId, seq<Message>>, ghost t0: map<MessageId, Message>,
                               ghost c: ConvId, list: seq<Message>, ghost ls: seq<LogLine>, n: Notes)
      returns (out: seq<Message>)
      requires c in msgs && list == msgs[c] && Loadable(ls, c) && n == NotesOf(ls) && Refines(msgs, t0 + MsgTable(ls))
      requires Keyed(t0) && MsgTable(ls).Keys !! t0.Keys && (forall id :: id in t0 ==> t0[id].conv != c)
      ensures Refines(msgs[c := out], t0 + LoadedTable(ls))
    {
      var resort;
      out, resort := PatchList(list, n);
      PatchedRefines(msgs, t0, c, ls, out);
      if resort {
        out := Sort(out);
      } else {
        UnmovedStaysSorted(list, ls, out);
      }
    }

    method Amend(c: ConvId, ghost ls: seq<LogLine>, ghost t0: map<MessageId, Message>, n: Notes)
      requires Valid() && Loadable(ls, c) && c in msgs && table == t0 + MsgTable(ls) && n == NotesOf(ls)
      requires Keyed(t0) && MsgTable(ls).Keys !! t0.Keys && (forall id :: id in t0 ==> t0[id].conv != c)
      modifies `msgs, `table
      ensures Valid() && table == t0 + LoadedTable(ls)
    {
      var out := PatchAndSort(msgs, t0, c, msgs[c], ls, n);
      msgs := msgs[c := out];
      table := t0 + LoadedTable(ls);
    }

    /** Messages from somebody else, whatever their read flag says. */
    static method CountIncoming(list: seq<Message>, ghost t: map<MessageId, Message>, ghost c: ConvId) returns (n: nat)
      requires Keyed(t) && IsListing(list, t, c)
      ensures n == |IncomingIds(t, c)|
    {
      SortedDistinct(list);
      n := 0;
      ghost var ids: set<MessageId> := {};
      for i := 0 to |list|
        invariant forall id :: id in ids ==> id in IncomingIds(t, c) && t[id] in list[..i]
        invariant forall k :: 0 <= k < i && !list[k].mine && !list[k].system ==> list[k].id in ids
        invariant n == |ids|
      {
        if !list[i].mine && !list[i].system {
          assert t[list[i].id] == list[i] && list[i] !in list[..i];
          n := n + 1;
          ids := ids + {list[i].id};
        }
      }
      forall id | id in IncomingIds(t, c) ensures id in ids { assert t[id] in list; }
      assert ids == IncomingIds(t, c);
    }

    /** The first i lines of ls have been read on top of a table t0 and a counter n0. */
    ghost predicate TakenIn(t0: map<MessageId, Message>, n0: nat, ls: seq<LogLine>, notes: Notes, any: bool)
      reads this
    {
      && table == t0 + MsgTable(ls) && nextSeq == Max(n0, Top(ls))
      && notes == NotesOf(ls) && any == (MsgTable(ls) != map[])
    }

    method TakeLine(l: LogLine, notes: Notes, any: bool, ghost c: ConvId, ghost ls: seq<LogLine>, ghost i: nat,
                    ghost t0: map<MessageId, Message>, ghost n0: nat)
      returns (notes': Notes, any': bool)
      requires Valid() && Loadable(ls, c) && i < |ls| && l == ls[i] && MsgTable(ls).Keys !! t0.Keys
      requires TakenIn(t0, n0, ls[..i], notes, any)
      modifies `msgs, `seen, `table, `nextSeq
      ensures Valid() && TakenIn(t0, n0, ls[..i + 1], notes', any')
    {
      LineStep(ls, c, i);
      notes', any' := notes, any;
      if l.MsgLine? {
        if l.m.id != "" {
          FileNew(l.m);
          UpdateOfSum(t0, MsgTable(ls[..i]), l.m.id, l.m);
          any' := true;
        }
      } else {
        notes' := Note(notes, l);
      }
      if NumberOn(l) > nextSeq { nextSeq := NumberOn(l); }
    }

    /** The lines of one file: message lines are inserted as they come, amendments noted. */
    method ReadLines(c: ConvId, ls: seq<LogLine>) returns (notes: Notes, any: bool)
      requires Valid() && Loadable(ls, c) && c !in msgs && MsgTable(ls).Keys !! table.Keys
      modifies `msgs, `seen, `table, `nextSeq
      ensures Valid() && table == old(table) + MsgTable(ls) && nextSeq == Max(old(nextSeq), Top(ls))
      ensures notes == NotesOf(ls) && any == (MsgTable(ls) != map[])
    {
      notes, any := Notes(map[], map[], false), false;
      var i := 0;
      while i < |ls|
        invariant 0 <= i <= |ls|
        invariant Valid() && TakenIn(old(table), old(nextSeq), ls[..i], notes, any)
      {
        notes, any := TakeLine(ls[i], notes, any, c, ls, i, old(table), old(nextSeq));
        i := i + 1;
      }
      assert ls[..i] == ls;
    }

    /** The messages of a file, amended; the list is sorted again only if a number changed. */
    method LoadMessages(c: ConvId, ls: seq<LogLine>) returns (read: bool, any: bool)
      requires Valid() && Loadable(ls, c) && c !in msgs && MsgTable(ls).Keys !! table.Keys
      modifies `msgs, `seen, `table, `nextSeq
      ensures Valid() && table == old(table) + LoadedTable(ls) && nextSeq == Max(old(nextSeq), Top(ls))
      ensures read == HasRead(ls) && any == (MsgTable(ls) != map[])
    {
      ghost var t0 := table;
      var notes;
      notes, any := ReadLines(c, ls);
      read := notes.read;
      if any {
        FileHasConv(table, t0, c, ls);
        Amend(c, ls, t0, notes);
      } else {
        assert LoadedTable(ls) == map[];
      }
    }

    /** One history file, and its unread count. */
    method LoadLog(c: ConvId, ls: seq<LogLine>)
      requires Valid() && Loadable(ls, c) && c !in msgs && MsgTable(ls).Keys !! table.Keys
      modifies this
      ensures Valid() && Abs() == LoadFile(old(Abs()), c, ls)
    {
      ghost var t0 := table;
      var read, any := LoadMessages(c, ls);
      if any && !read {
        var n := CountFile(c, ls, t0);
        unread := unread[c := n];
      }
    }

    method CountFile(c: ConvId, ghost ls: seq<LogLine>, ghost t0: map<MessageId, Message>) returns (n: nat)
      requires Valid() && Loadable(ls, c) && table == t0 + LoadedTable(ls)
      requires forall id :: id in t0 ==> t0[id].conv != c
      ensures n == |LoadedUnreadIds(ls)|
    {
      IncomingOfFile(t0, c, ls);
      n := CountIncoming(ListOf(msgs, c), table, c);
    }

    /** The next file of the directory. */
    method LoadNext(names: seq<ConvId>, i: nat, ghost s0: Store)
      requires i < |names| && s0 == Store(persist, map[], map[], 0, files) && DirLoadable(s0) && Lists(names, s0)
      requires Valid() && Abs() == LoadDir(s0, names[..i])
      modifies this
      ensures Valid() && Abs() == LoadDir(s0, names[..i + 1]) && files == s0.files
    {
      var c := names[i];
      NextIsFresh(msgs, s0, Abs(), names, i);
      LoadLog(c, if c in files then files[c].Read() else []);
      assert Init(names[..i + 1]) == names[..i];
    }

    /** Every history file, in the order of the directory. */
    method LoadHistory(names: seq<ConvId>)
      requires Valid() && Abs() == Store(persist, map[], map[], 0, files) && DirLoadable(Abs()) && Lists(names, Abs())
      modifies this
      ensures Valid() && Abs() == Reload(old(Abs()), names)
    {
      ghost var s0 := Abs();
      var i := 0;
      while i < |names|
        invariant 0 <= i <= |names|
        invariant Valid() && Abs() == LoadDir(s0, names[..i]) && files == s0.files
      {
        LoadNext(names, i, s0);
        i := i + 1;
      }
      assert names[..i] == names;
    }
  }
}

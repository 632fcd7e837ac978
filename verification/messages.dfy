/** Messages and the one order every copy of the application displays (chat/types.go,
    chat/store.go). */
module Messages {
  import opened Wrappers
  import opened Names

  /** Unset is the empty state of a message somebody else composed. */
  datatype Delivery = Unset | Queued | Sending | Delivered | Failed

  /** sent is the sender's clock, 0 standing for Go's zero time; num is the sequence number, 0 until the server
      has numbered the message. */
  datatype Message = Message(
    id: MessageId, conv: ConvId, from: PeerId, body: string, sent: int, num: nat,
    mine: bool, state: Delivery, read: bool, transfer: Option<TransferId>, system: bool)

  const MAX_BODY_RUNES: nat := 8000

  function ClipRunes(s: string, n: nat): (r: string)
    ensures r <= s && |r| == if |s| <= n then |s| else n
  {
    if |s| <= n then s else s[..n]
  }

  predicate Less(a: Message, b: Message) {
    if (a.num == 0) != (b.num == 0) then b.num == 0
    else if a.num != b.num then a.num < b.num
    else if a.sent != b.sent then a.sent < b.sent
    else StrLess(a.id, b.id)
  }

  lemma LessTrans(a: Message, b: Message, c: Message)
    requires Less(a, b) && Less(b, c)
    ensures Less(a, c)
  {
    if a.num == b.num == c.num && a.sent == b.sent == c.sent {
      StrLessTrans(a.id, b.id, c.id);
    }
  }

  /** On messages with different ids the order is total and strict. */
  lemma LessTotal(a: Message, b: Message)
    ensures !Less(a, a)
    ensures a.id != b.id ==> (Less(a, b) <==> !Less(b, a))
  {
    StrLessTotal(a.id, a.id);
    StrLessTotal(a.id, b.id);
  }

  /** What the order is for: numbered messages by number, then what waits for one, by clock. */
  lemma ListedInOrder(s: seq<Message>, i: nat, j: nat)
    requires Sorted(s) && i < j < |s|
    ensures s[j].num != 0 ==> 0 < s[i].num <= s[j].num
    ensures s[i].num == s[j].num ==> s[i].sent <= s[j].sent
    ensures s[i].num == s[j].num && s[i].sent == s[j].sent ==> exists k: nat :: ComesFirst(s[i].id, s[j].id, k)
  {
    assert Less(s[i], s[j]);
    StrLessExactlyWhen(s[i].id, s[j].id);
  }

  ghost predicate Sorted(s: seq<Message>) {
    forall i, j {:trigger Less(s[i], s[j])} :: 0 <= i < j < |s| ==> Less(s[i], s[j])
  }

  predicate DistinctIds(s: seq<Message>) {
    forall i, j :: 0 <= i < j < |s| ==> s[i].id != s[j].id
  }

  /** A strictly sorted sequence is determined by its set of messages. */
  lemma {:induction false} SortedUnique(a: seq<Message>, b: seq<Message>)
    requires Sorted(a) && Sorted(b)
    requires forall x :: x in a <==> x in b
    ensures a == b
  {
    assert |b| > 0 ==> b[0] in b;
    if a != [] {
      assert a[0] in b;
      var i :| 0 <= i < |b| && b[i] == a[0];
      assert b[0] in a;
      var j :| 0 <= j < |a| && a[j] == b[0];
      if i > 0 && j > 0 {
        LessTrans(a[0], b[0], a[0]);
        LessTotal(a[0], a[0]);
      }
      assert a[0] == b[0];
      LessTotal(a[0], a[0]);
      assert a == [a[0]] + a[1..] && b == [b[0]] + b[1..];
      forall x ensures x in a[1..] <==> x in b[1..] {
        if x in a[1..] { assert x in a; assert x != a[0]; }
        if x in b[1..] { assert x in b; assert x != b[0]; }
      }
      SortedUnique(a[1..], b[1..]);
    }
  }

  // ---------------------------------------------------------------- insertion

  /** The place of m in a sorted list, by walking it from the front. */
  function Insert(s: seq<Message>, m: Message): (r: seq<Message>)
    ensures forall x :: x in r <==> x in s || x == m
    ensures |r| == |s| + 1
  {
    if s != [] && Less(s[0], m) then [s[0]] + Insert(s[1..], m) else [m] + s
  }

  lemma {:induction false} InsertSorted(s: seq<Message>, m: Message)
    requires Sorted(s) && forall x :: x in s ==> x.id != m.id
    ensures Sorted(Insert(s, m))
  {
    if s != [] && Less(s[0], m) {
      InsertSorted(s[1..], m);
      var t := Insert(s[1..], m);
      forall k | 0 <= k < |t| ensures Less(s[0], t[k]) { assert t[k] in t; }
    } else if s != [] {
      LessTotal(s[0], m);
      forall k | 0 < k < |s| ensures Less(m, s[k]) { LessTrans(m, s[0], s[k]); }
    }
  }

  /** Where a binary search stops is where the walk stops. */
  lemma {:induction false} InsertAt(s: seq<Message>, m: Message, k: nat)
    requires k <= |s|
    requires forall i :: 0 <= i < k ==> Less(s[i], m)
    requires k < |s| ==> !Less(s[k], m)
    ensures Insert(s, m) == s[..k] + [m] + s[k..]
  {
    if k == 0 {
      assert s[..0] + [m] + s[0..] == [m] + s;
    } else {
      InsertAt(s[1..], m, k - 1);
      assert s[..k] == [s[0]] + s[1..][..k - 1];
    }
  }

  /** Sorting from scratch, one insertion at a time. */
  function Sort(s: seq<Message>): (r: seq<Message>)
    ensures forall x :: x in r <==> x in s
    ensures |r| == |s|
  {
    if s == [] then [] else Insert(Sort(s[1..]), s[0])
  }

  lemma {:induction false} SortSorted(s: seq<Message>)
    requires DistinctIds(s)
    ensures Sorted(Sort(s))
  {
    if s != [] {
      SortSorted(s[1..]);
      InsertSorted(Sort(s[1..]), s[0]);
    }
  }

  /** The slice insertion of the store: compare with the last entry, else search by halving,
      then open a gap. It is the walk of Insert on an already ordered list. */
  method InsertOrdered(list: seq<Message>, m: Message) returns (out: seq<Message>)
    requires Sorted(list)
    ensures out == Insert(list, m)
  {
    if |list| == 0 || Less(list[|list| - 1], m) {
      forall i | 0 <= i < |list| ensures Less(list[i], m) {
        if i < |list| - 1 { LessTrans(list[i], list[|list| - 1], m); }
      }
      InsertAt(list, m, |list|);
      assert list[..|list|] + [m] + list[|list|..] == list + [m];
      return list + [m];
    }
    var lo, hi := 0, |list|;
    while lo < hi
      invariant 0 <= lo <= hi <= |list|
      invariant forall i :: 0 <= i < lo ==> Less(list[i], m)
      invariant hi < |list| ==> !Less(list[hi], m)
    {
      var h := (lo + hi) / 2;
      if Less(list[h], m) {
        forall i | 0 <= i < h ensures Less(list[i], m) { LessTrans(list[i], list[h], m); }
        lo := h + 1;
      } else {
        hi := h;
      }
    }
    InsertAt(list, m, lo);
    out := list[..lo] + [m] + list[lo..];
  }
}

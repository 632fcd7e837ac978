/** How people, rooms and conversations are named (chat/types.go).
    Identifiers are strings of characters; Go compares them bytewise, which is the order
    StrLess on the identifiers this program mints. */
module Names {
  import opened Wrappers

  type PeerId = string
  type ConvId = string
  type MessageId = string
  type TransferId = string

  // ------------------------------------------------------------ string order

  predicate StrLess(a: string, b: string) {
    if b == "" then false
    else if a == "" then true
    else if a[0] != b[0] then a[0] < b[0]
    else StrLess(a[1..], b[1..])
  }

  lemma {:induction false} StrLessTrans(a: string, b: string, c: string)
    requires StrLess(a, b) && StrLess(b, c)
    ensures StrLess(a, c)
  {
    if a != "" && a[0] == b[0] && b[0] == c[0] {
      StrLessTrans(a[1..], b[1..], c[1..]);
    }
  }

  lemma {:induction false} StrLessTotal(a: string, b: string)
    ensures a == b ==> !StrLess(a, b)
    ensures a != b ==> (StrLess(a, b) <==> !StrLess(b, a))
  {
    if a != "" && b != "" && a[0] == b[0] {
      StrLessTotal(a[1..], b[1..]);
      assert a == [a[0]] + a[1..] && b == [b[0]] + b[1..];
    }
  }

  /** a comes first where it ends inside b, or where it has the lower character at the first
      place they differ. */
  ghost predicate ComesFirst(a: string, b: string, k: nat) {
    k <= |a| && k < |b| && a[..k] == b[..k] && (k == |a| || a[k] < b[k])
  }

  lemma {:induction false} StrLessExactlyWhen(a: string, b: string)
    ensures StrLess(a, b) <==> exists k: nat :: ComesFirst(a, b, k)
  {
    if a == "" || b == "" || a[0] != b[0] {
      assert StrLess(a, b) ==> ComesFirst(a, b, 0);
    } else {
      StrLessExactlyWhen(a[1..], b[1..]);
      if k: nat :| ComesFirst(a[1..], b[1..], k) {
        assert a[..k + 1] == [a[0]] + a[1..][..k] && b[..k + 1] == [b[0]] + b[1..][..k];
        assert ComesFirst(a, b, k + 1);
      }
      if k: nat :| ComesFirst(a, b, k) {
        assert k > 0;
        assert a[1..][..k - 1] == a[..k][1..] && b[1..][..k - 1] == b[..k][1..];
        assert ComesFirst(a[1..], b[1..], k - 1);
      }
    }
  }

  // ------------------------------------------------- room names (ASCII folding)

  predicate IsSpace(c: char): (r: bool)
    ensures r <==> c in {' ', '\t', '\n', '\U{000b}', '\U{000c}', '\r'}
  {
    c == ' ' || '\t' <= c <= '\r'
  }

  function Lower(c: char): char { if 'A' <= c <= 'Z' then c - 'A' + 'a' else c }

  function ToLower(s: string): (r: string)
    ensures |r| == |s| && forall i :: 0 <= i < |s| ==> r[i] == Lower(s[i])
  {
    seq(|s|, i requires 0 <= i < |s| => Lower(s[i]))
  }

  lemma AlphabetFolds()
    ensures ToLower("ABCDEFGHIJKLMNOPQRSTUVWXYZ") == "abcdefghijklmnopqrstuvwxyz"
    ensures forall c :: !('A' <= c <= 'Z') ==> Lower(c) == c
  {
  }

  function TrimLeft(s: string): string {
    if s != "" && IsSpace(s[0]) then TrimLeft(s[1..]) else s
  }

  function TrimRight(s: string): string {
    if s != "" && IsSpace(s[|s| - 1]) then TrimRight(s[..|s| - 1]) else s
  }

  function CanonRoom(s: string): string { ToLower(TrimRight(TrimLeft(s))) }

  lemma {:induction false} TrimRightKeepsHead(s: string)
    ensures TrimRight(s) == "" || (s != "" && TrimRight(s)[0] == s[0])
    ensures TrimRight(s) == "" || !IsSpace(TrimRight(s)[|TrimRight(s)| - 1])
  {
    if s != "" && IsSpace(s[|s| - 1]) {
      TrimRightKeepsHead(s[..|s| - 1]);
    }
  }

  lemma {:induction false} TrimLeftHead(s: string)
    ensures TrimLeft(s) == "" || !IsSpace(TrimLeft(s)[0])
  {
    if s != "" && IsSpace(s[0]) {
      TrimLeftHead(s[1..]);
    }
  }

  /** Folding a room name twice is folding it once: a canonical name is a fixed point, so the
      name stored on a message is the name every later lookup computes. */
  lemma CanonRoomIdempotent(s: string)
    ensures CanonRoom(CanonRoom(s)) == CanonRoom(s)
  {
    var t := TrimLeft(s);
    var u := TrimRight(t);
    TrimLeftHead(s);
    TrimRightKeepsHead(t);
    var v := ToLower(u);
    assert forall i :: 0 <= i < |v| ==> Lower(v[i]) == v[i];
    assert TrimLeft(v) == v;
    assert TrimRight(v) == v;
    assert ToLower(v) == v;
  }

  predicate AllSpace(s: string) { forall i :: 0 <= i < |s| ==> IsSpace(s[i]) }

  lemma {:induction false} TrimLeftDrops(s: string) returns (n: nat)
    ensures n <= |s| && TrimLeft(s) == s[n..] && AllSpace(s[..n])
  {
    if s != "" && IsSpace(s[0]) {
      n := TrimLeftDrops(s[1..]);
      n := n + 1;
      assert s[..n] == [s[0]] + s[1..][..n - 1] && s[n..] == s[1..][n - 1..];
    } else {
      n := 0;
    }
  }

  lemma {:induction false} TrimRightDrops(s: string)
    ensures TrimRight(s) <= s && AllSpace(s[|TrimRight(s)|..])
  {
    if s != "" && IsSpace(s[|s| - 1]) {
      var init := s[..|s| - 1];
      TrimRightDrops(init);
      assert s[|TrimRight(s)|..] == init[|TrimRight(s)|..] + [s[|s| - 1]];
    }
  }

  /** What is trimmed is outer space and no more: the rest stands between two stretches of it, and
      neither begins nor ends with any. */
  lemma TrimmedIs(s: string) returns (pre: string, post: string)
    ensures s == pre + TrimRight(TrimLeft(s)) + post && AllSpace(pre) && AllSpace(post)
    ensures var t := TrimRight(TrimLeft(s)); t == "" || (!IsSpace(t[0]) && !IsSpace(t[|t| - 1]))
  {
    var n := TrimLeftDrops(s);
    var u := TrimLeft(s);
    TrimRightDrops(u);
    TrimLeftHead(s);
    TrimRightKeepsHead(u);
    pre, post := s[..n], u[|TrimRight(u)|..];
  }

  lemma {:induction false} TrimLeftOuter(pre: string, s: string)
    requires AllSpace(pre)
    ensures TrimLeft(pre + s) == TrimLeft(s)
  {
    if pre == "" {
      assert pre + s == s;
    } else {
      assert (pre + s)[1..] == pre[1..] + s;
      TrimLeftOuter(pre[1..], s);
    }
  }

  lemma {:induction false} TrimRightOuter(s: string, post: string)
    requires AllSpace(post)
    ensures TrimRight(s + post) == TrimRight(s)
  {
    if post == "" {
      assert s + post == s;
    } else {
      assert (s + post)[..|s + post| - 1] == s + post[..|post| - 1];
      TrimRightOuter(s, post[..|post| - 1]);
    }
  }

  lemma {:induction false} TrimLeftWithin(s: string, post: string)
    requires TrimLeft(s) != ""
    ensures TrimLeft(s + post) == TrimLeft(s) + post
  {
    if IsSpace(s[0]) {
      assert (s + post)[1..] == s[1..] + post;
      TrimLeftWithin(s[1..], post);
    }
  }

  lemma {:induction false} TrimLeftAll(s: string)
    ensures TrimLeft(s) == "" <==> AllSpace(s)
  {
    if s != "" && IsSpace(s[0]) {
      TrimLeftAll(s[1..]);
      assert forall i :: 0 < i < |s| ==> s[i] == s[1..][i - 1];
    }
  }

  /** A name is empty after trimming exactly when it is nothing but space. */
  lemma TrimmedAwayExactlyWhen(s: string)
    ensures TrimRight(TrimLeft(s)) == "" <==> AllSpace(s)
  {
    TrimLeftAll(s);
    TrimLeftHead(s);
    TrimRightKeepsHead(TrimLeft(s));
    TrimRightDrops(TrimLeft(s));
  }

  /** Outer white space makes no difference to a room name. */
  lemma OuterSpaceFolds(pre: string, s: string, post: string)
    requires AllSpace(pre) && AllSpace(post)
    ensures CanonRoom(pre + s + post) == CanonRoom(s)
  {
    assert pre + s + post == pre + (s + post);
    TrimLeftOuter(pre, s + post);
    TrimLeftAll(s);
    if TrimLeft(s) == "" {
      assert AllSpace(s + post);
      TrimLeftAll(s + post);
    } else {
      TrimLeftWithin(s, post);
      TrimRightOuter(TrimLeft(s), post);
    }
  }

  predicate SameLetters(a: string, b: string) {
    |a| == |b| && forall i :: 0 <= i < |a| ==> Lower(a[i]) == Lower(b[i])
  }

  lemma {:induction false} CaseFoldsLeft(a: string, b: string)
    requires SameLetters(a, b)
    ensures SameLetters(TrimLeft(a), TrimLeft(b))
  {
    if a != "" {
      assert IsSpace(a[0]) == IsSpace(b[0]);
      if IsSpace(a[0]) { CaseFoldsLeft(a[1..], b[1..]); }
    }
  }

  lemma {:induction false} CaseFoldsRight(a: string, b: string)
    requires SameLetters(a, b)
    ensures SameLetters(TrimRight(a), TrimRight(b))
  {
    if a != "" {
      assert IsSpace(a[|a| - 1]) == IsSpace(b[|b| - 1]);
      if IsSpace(a[|a| - 1]) { CaseFoldsRight(a[..|a| - 1], b[..|b| - 1]); }
    }
  }

  /** Nor does case. */
  lemma CaseFolds(a: string, b: string)
    requires SameLetters(a, b)
    ensures CanonRoom(a) == CanonRoom(b)
  {
    CaseFoldsLeft(a, b);
    CaseFoldsRight(TrimLeft(a), TrimLeft(b));
  }

  /** A name as the server keeps it: no capital, and no space at either end. */
  predicate IsFolded(r: string) {
    && (forall i :: 0 <= i < |r| ==> !('A' <= r[i] <= 'Z'))
    && (r != "" ==> !IsSpace(r[0]) && !IsSpace(r[|r| - 1]))
  }

  lemma FoldsToFolded(s: string)
    ensures IsFolded(CanonRoom(s))
  {
    var t := TrimLeft(s);
    TrimLeftHead(s);
    TrimRightKeepsHead(t);
    var u, v := TrimRight(t), CanonRoom(s);
    assert forall i :: 0 <= i < |v| ==> v[i] == Lower(u[i]) && (IsSpace(v[i]) <==> IsSpace(u[i]));
  }

  /** Folding leaves exactly such names as they are, and makes every name one. */
  lemma FoldedExactlyWhen(r: string)
    ensures IsFolded(CanonRoom(r))
    ensures IsFolded(r) <==> CanonRoom(r) == r
  {
    FoldsToFolded(r);
    if IsFolded(r) {
      assert TrimLeft(r) == r && TrimRight(r) == r;
      assert ToLower(r) == r;
    }
  }

  // ------------------------------------------------------------ conversations

  predicate HasPrefix(s: string, p: string) { p <= s }

  function TrimPrefix(s: string, p: string): string {
    if p <= s then s[|p|..] else s
  }

  function DirectConv(p: PeerId): ConvId { "peer:" + p }

  function ConvPeer(c: ConvId): PeerId {
    if HasPrefix(c, "peer:") then TrimPrefix(c, "peer:") else ""
  }

  function RoomConv(room: string): ConvId { "room:" + CanonRoom(room) }

  predicate IsRoom(c: ConvId) { HasPrefix(c, "room:") }

  function Room(c: ConvId): string { TrimPrefix(c, "room:") }

  function DirectKey(a: PeerId, b: PeerId): ConvId {
    if StrLess(b, a) then "dm:" + b + "+" + a else "dm:" + a + "+" + b
  }

  predicate IsDirectKey(c: ConvId) { HasPrefix(c, "dm:") }

  /** The first position of x, or |s| when there is none. */
  function IndexOf(s: string, x: char): (i: nat)
    ensures i <= |s|
    ensures i < |s| ==> s[i] == x
    ensures forall j :: 0 <= j < i ==> s[j] != x
  {
    if s == "" || s[0] == x then 0 else 1 + IndexOf(s[1..], x)
  }

  function DirectPair(c: ConvId): Option<(PeerId, PeerId)> {
    if !IsDirectKey(c) then None
    else
      var rest := TrimPrefix(c, "dm:");
      var i := IndexOf(rest, '+');
      if i == |rest| || i == 0 then None else Some((rest[..i], rest[i + 1..]))
  }

  // ------------------------------------------------------------- identities

  predicate IsHexDigit(c: char) { '0' <= c <= '9' || 'a' <= c <= 'f' || 'A' <= c <= 'F' }

  /** The only identities a server enrols (chatwire/wire.go, ValidHello). */
  predicate ValidId(p: PeerId) {
    |p| == 32 && forall i :: 0 <= i < |p| ==> IsHexDigit(p[i])
  }

  function Lo(a: PeerId, b: PeerId): PeerId { if StrLess(b, a) then b else a }
  function Hi(a: PeerId, b: PeerId): PeerId { if StrLess(b, a) then a else b }

  /** The server's name for a pair does not depend on who asks. */
  lemma DirectKeySymmetric(a: PeerId, b: PeerId)
    ensures DirectKey(a, b) == DirectKey(b, a)
  {
    StrLessTotal(a, b);
  }

  lemma PairOfJoined(lo: PeerId, hi: PeerId)
    ensures DirectPair("dm:" + lo + "+" + hi) == Some((lo, hi)) <==> lo != "" && '+' !in lo
  {
    var c := "dm:" + lo + "+" + hi;
    var rest := lo + "+" + hi;
    assert TrimPrefix(c, "dm:") == rest;
    var i := IndexOf(rest, '+');
    assert rest[|lo|] == '+';
    if '+' !in lo {
      assert forall j :: 0 <= j < |lo| ==> rest[j] == lo[j];
      assert i == |lo|;
      assert rest[..i] == lo && rest[i + 1..] == hi;
    } else {
      assert i < |lo| by {
        var j :| 0 <= j < |lo| && lo[j] == '+';
        assert rest[j] == '+';
      }
      assert |rest[..i]| != |lo|;
    }
  }

  /** DirectPair inverts DirectKey exactly on the pairs whose lower id is non-empty and
      free of '+'. */
  lemma DirectPairInvertsDirectKey(a: PeerId, b: PeerId)
    ensures DirectPair(DirectKey(a, b)) == Some((Lo(a, b), Hi(a, b)))
            <==> Lo(a, b) != "" && '+' !in Lo(a, b)
  {
    PairOfJoined(Lo(a, b), Hi(a, b));
  }

  /** Ids a pair can be read back from; every enrolled id is one. */
  predicate PlainId(p: PeerId) { p != "" && '+' !in p }

  lemma ValidIdHasNoPlus(p: PeerId)
    requires ValidId(p)
    ensures PlainId(p)
  {
  }

  /** Two pairs share a key only when they are the same two people. */
  lemma DirectKeyInjective(a: PeerId, b: PeerId, c: PeerId, d: PeerId)
    requires PlainId(a) && PlainId(b) && PlainId(c) && PlainId(d)
    ensures DirectKey(a, b) == DirectKey(c, d) <==> {a, b} == {c, d}
  {
    if DirectKey(a, b) == DirectKey(c, d) { SameKeySamePair(a, b, c, d); }
    if {a, b} == {c, d} { SamePairSameKey(a, b, c, d); }
  }

  lemma SameKeySamePair(a: PeerId, b: PeerId, c: PeerId, d: PeerId)
    requires PlainId(a) && PlainId(b) && PlainId(c) && PlainId(d) && DirectKey(a, b) == DirectKey(c, d)
    ensures {a, b} == {c, d}
  {
    DirectPairInvertsDirectKey(a, b);
    DirectPairInvertsDirectKey(c, d);
    assert {a, b} == {Lo(a, b), Hi(a, b)};
    assert {c, d} == {Lo(c, d), Hi(c, d)};
  }

  lemma SamePairSameKey(a: PeerId, b: PeerId, c: PeerId, d: PeerId)
    requires {a, b} == {c, d}
    ensures DirectKey(a, b) == DirectKey(c, d)
  {
    assert a in {c, d} && b in {c, d} && c in {a, b} && d in {a, b};
    DirectKeySymmetric(a, b);
  }

  lemma NamesAreDisjoint(a: PeerId, b: PeerId, p: PeerId, r: string)
    ensures !IsRoom(DirectKey(a, b)) && !IsRoom(DirectConv(p)) && IsRoom(RoomConv(r))
    ensures ConvPeer(DirectConv(p)) == p && Room(RoomConv(r)) == CanonRoom(r)
    ensures DirectKey(a, b) != "" && IsDirectKey(DirectKey(a, b))
  {
    assert DirectKey(a, b)[0] == 'd';
    assert DirectConv(p)[0] == 'p';
    assert "room:" <= RoomConv(r);
    assert RoomConv(r)[5..] == CanonRoom(r);
    assert DirectConv(p)[5..] == p;
  }
}

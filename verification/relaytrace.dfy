/** What one transfer looks like from outside: the frames the server sends to people about it,
    read by an automaton that knows nothing of the server's table (chatserver/relay.go). */
module RelayTrace {
  import opened Wrappers
  import opened Names
  import opened RelayModel

  // -------------------------------------------------------------------- the automaton

  /** Unheard of, or offered: by whom, to whom, how large, whether the offer was accepted, how
      much has been passed on, and which end has been told it is over. */
  datatype Watch =
    | Unheard
    | Seen(from: PeerId, to: PeerId, size: int, accepted: bool, sent: nat, toldFrom: bool, toldTo: bool)
  {
    predicate Over() { Unheard? || toldFrom || toldTo }
  }

  /** The next frame to a person, if the grammar allows it here: an offer when nothing is open;
      one accept, to the offerer; slices to the receiver, accepted and consecutive from 0 and
      within the size; one done or decline to the receiver; one decline to the offerer; and
      after either, at most the decline that tells the receiver an offer has lapsed. */
  function Allowed(w: Watch, p: PeerId, f: Transport): Option<Watch> {
    match f
    case Offer(_, from, to, _, _, size) =>
      if w.Over() && p == to && from != to && size >= 0 then Some(Seen(from, to, size, false, 0, false, false))
      else None
    case Accept(_, from) =>
      if !w.Over() && p == w.from && from == w.to && !w.accepted then Some(w.(accepted := true)) else None
    case Chunk(_, from, offset, data) =>
      if !w.Over() && p == w.to && from == w.from && w.accepted && offset == w.sent && w.sent + |data| <= w.size
      then Some(w.(sent := w.sent + |data|)) else None
    case Done(_, from, _) =>
      if !w.Over() && p == w.to && from == w.from then Some(w.(toldTo := true)) else None
    case Decline(_, from, _) =>
      if w.Unheard? || w.toldTo then None
      else if p == w.to && from == w.from then Some(w.(toldTo := true))
      else if p == w.from && from == w.to && !w.toldFrom then Some(w.(toldFrom := true))
      else None
  }

  /** What people are told about one transfer, in order. */
  function News(posts: seq<Post>, t: TransferId): seq<Post> {
    if posts == [] then []
    else
      News(posts[..|posts| - 1], t)
        + if posts[|posts| - 1].ToPeer? && posts[|posts| - 1].f.id == t then [posts[|posts| - 1]] else []
  }

  function Follow(posts: seq<Post>, t: TransferId): Option<Watch> {
    if posts == [] then Some(Unheard)
    else
      var w, last := Follow(posts[..|posts| - 1], t), posts[|posts| - 1];
      if w.None? || !last.ToPeer? || last.f.id != t then w else Allowed(w.value, last.p, last.f)
  }

  lemma FollowOne(posts: seq<Post>, post: Post, t: TransferId)
    ensures Follow(posts + [post], t) ==
      var w := Follow(posts, t);
      if w.None? || !post.ToPeer? || post.f.id != t then w else Allowed(w.value, post.p, post.f)
  {
    assert (posts + [post])[..|posts|] == posts;
  }

  lemma NewsOne(posts: seq<Post>, post: Post, t: TransferId)
    ensures News(posts + [post], t) == News(posts, t) + if post.ToPeer? && post.f.id == t then [post] else []
  {
    assert (posts + [post])[..|posts|] == posts;
  }

  /** What has been said about a transfer agrees with the table. */
  predicate Agrees(w: Option<Watch>, s: Relay, t: TransferId) {
    && w.Some?
    && if t in s.xfers then
         var r := s.xfers[t];
         w.value == Seen(r.from, r.to, r.size, r.running, r.sent, false, false)
       else w.value.Over()
  }

  ghost predicate Traced(s: Relay) { forall t :: Agrees(Follow(s.posts, t), s, t) }

  // ------------------------------------------------------------------ single messages

  /** Nothing is said to a person. */
  lemma QuietStays(s: Relay, s': Relay, post: Post)
    requires Traced(s) && s'.xfers == s.xfers && (s'.posts == s.posts || (post.ToConn? && s'.posts == s.posts + [post]))
    ensures Traced(s')
  {
    forall t ensures Agrees(Follow(s'.posts, t), s', t) {
      FollowOne(s.posts, post, t);
      assert Agrees(Follow(s.posts, t), s, t);
    }
  }

  /** One thing is said about one transfer, and it is what the change to its record calls for. */
  lemma OneSaid(s: Relay, s': Relay, t: TransferId, p: PeerId, f: Transport)
    requires Traced(s) && s'.posts == s.posts + [ToPeer(p, f)] && f.id == t
    requires forall x :: x != t ==> (x in s.xfers <==> x in s'.xfers)
    requires forall x :: x != t && x in s.xfers ==> s'.xfers[x] == s.xfers[x]
    requires Agrees(Follow(s.posts, t), s, t) ==> Agrees(Allowed(Follow(s.posts, t).value, p, f), s', t)
    ensures Traced(s')
  {
    forall x ensures Agrees(Follow(s'.posts, x), s', x) {
      FollowOne(s.posts, ToPeer(p, f), x);
      assert Agrees(Follow(s.posts, x), s, x);
    }
  }

  lemma OfferTraced(s: Relay, k: ConnId, p: PeerId, f: Transport, now: int)
    requires RelayOk(s) && Traced(s) && f.Offer?
    ensures Traced(OnOffer(s, k, p, f, now))
  {
    var s', to := OnOffer(s, k, p, f, now), Addressee(f);
    if s'.xfers == s.xfers {
      if s'.posts == s.posts { QuietStays(s, s', ToConn(k, f)); }
      else { QuietStays(s, s', s'.posts[|s.posts|]); }
    } else {
      RecordedOffer(s, k, p, f, now);
      OneSaid(s, s', f.id, to, f.(from := p, to := to, conv := DirectConv(p)));
    }
  }

  lemma AcceptTraced(s: Relay, p: PeerId, id: TransferId)
    requires RelayOk(s) && Traced(s)
    ensures Traced(OnAccept(s, p, id))
  {
    var s' := OnAccept(s, p, id);
    if s' != s { OneSaid(s, s', id, s.xfers[id].from, Accept(id, p)); }
  }

  lemma DeclineTraced(s: Relay, p: PeerId, id: TransferId, reason: string)
    requires RelayOk(s) && Traced(s)
    ensures Traced(OnDecline(s, p, id, reason))
  {
    var s' := OnDecline(s, p, id, reason);
    if id in s.xfers && s.xfers[id].Has(p) {
      assert RecordOk(s, id);
      OneSaid(s, s', id, s.xfers[id].Other(p), Decline(id, p, Clip(reason, MAX_REASON)));
    }
  }

  lemma ChunkTraced(s: Relay, k: ConnId, p: PeerId, id: TransferId, offset: int, data: seq<Byte>)
    requires RelayOk(s) && Traced(s)
    ensures Traced(OnChunk(s, k, p, id, offset, data))
  {
    var s' := OnChunk(s, k, p, id, offset, data);
    if id in s.xfers && s.xfers[id].from == p && s.xfers[id].running {
      var r := s.xfers[id];
      assert RecordOk(s, id);
      if Pass(r, offset, |data|).Some? {
        OneSaid(s, s', id, r.to, Chunk(id, p, offset, data));
      } else {
        var s1 := s.Say([ToConn(k, Decline(id, "", OUT_OF_STEP))]);
        QuietStays(s, s1, ToConn(k, Decline(id, "", OUT_OF_STEP)));
        assert s'.posts == s1.posts + [ToPeer(r.to, Decline(id, p, OUT_OF_STEP))];
        OneSaid(s1, s', id, r.to, Decline(id, p, OUT_OF_STEP));
      }
    }
  }

  lemma DoneTraced(s: Relay, p: PeerId, id: TransferId, digest: string)
    requires RelayOk(s) && Traced(s)
    ensures Traced(OnDone(s, p, id, digest))
  {
    var s' := OnDone(s, p, id, digest);
    if id in s.xfers && s.xfers[id].from == p {
      OneSaid(s, s', id, s.xfers[id].to, Done(id, p, digest));
    }
  }

  // ------------------------------------------------------------------- many at once

  function Without(s: Relay, gone: seq<TransferId>): map<TransferId, Record> {
    map t | t in s.xfers && t !in gone :: s.xfers[t]
  }

  lemma {:induction false} FailuresTraced(s: Relay, p: PeerId, gone: seq<TransferId>)
    requires RelayOk(s) && Traced(s) && Enumerates(gone, set t | t in gone)
    requires forall t :: t in gone ==> t in s.xfers && s.xfers[t].Has(p)
    ensures Traced(Failed(s, p, gone))
  {
    if gone == [] {
      assert Without(s, gone) == s.xfers && s.posts + [] == s.posts;
      assert Failed(s, p, gone) == s;
    } else {
      var init, t := gone[..|gone| - 1], gone[|gone| - 1];
      assert t in gone && t !in init && forall x :: x in init ==> x in gone;
      FailuresTraced(s, p, init);
      assert RecordOk(s, t);
      OneSaid(Failed(s, p, init), Failed(s, p, gone), t, s.xfers[t].Other(p), Decline(t, p, DISCONNECTED));
    }
  }

  lemma {:induction false} ExpiriesTraced(s: Relay, gone: seq<TransferId>)
    requires RelayOk(s) && Traced(s) && Enumerates(gone, set t | t in gone)
    requires forall t :: t in gone ==> t in s.xfers
    ensures Traced(Expired(s, gone))
  {
    if gone == [] {
      assert Without(s, gone) == s.xfers && s.posts + [] == s.posts;
      assert Expired(s, gone) == s;
    } else {
      var init, t := gone[..|gone| - 1], gone[|gone| - 1];
      assert t in gone && t !in init && forall x :: x in init ==> x in gone;
      ExpiriesTraced(s, init);
      assert RecordOk(s, t);
      var r, s0 := s.xfers[t], Expired(s, init);
      var s1 := s0.Close(t).Say([ToPeer(r.from, Decline(t, r.to, UNANSWERED))]);
      OneSaid(s0, s1, t, r.from, Decline(t, r.to, UNANSWERED));
      FollowOne(s0.posts, ToPeer(r.from, Decline(t, r.to, UNANSWERED)), t);
      assert Agrees(Follow(s0.posts, t), s0, t);
      var s2 := Expired(s, gone);
      assert s2.posts == s1.posts + [ToPeer(r.to, Decline(t, r.from, UNANSWERED))];
      OneSaid(s1, s2, t, r.to, Decline(t, r.from, UNANSWERED));
    }
  }

  /** Over every run, every transfer is heard of from the outside as the grammar says, and the
      amount passed on is the amount recorded. */
  lemma {:induction false} AlwaysTraced(states: seq<Relay>, labels: seq<Label>, i: nat)
    requires Run(states, labels) && i < |states|
    ensures Traced(states[i])
  {
    if i > 0 {
      AlwaysTraced(states, labels, i - 1);
      AlwaysRelayOk(states, labels, i - 1);
      assert Next(states[i - 1], labels[i - 1], states[i]);
      NextTraced(states[i - 1], labels[i - 1], states[i]);
    }
  }

  lemma NextTraced(s: Relay, l: Label, s': Relay)
    requires RelayOk(s) && Traced(s) && Next(s, l, s')
    ensures Traced(s')
  {
    match l
    case Connect(k, p) => QuietStays(s, s', ToConn(k, Accept("", p)));
    case Disconnect(k, gone) =>
      var s1 := s.(conns := s.conns - {k});
      FailuresTraced(s, s.conns[k], gone);
      var s2 := Failed(s, s.conns[k], gone);
      QuietStays(s2, s', ToConn(k, Accept("", "")));
    case Hear(k, f, now) => HeardTraced(s, k, f, now);
    case Tick(now, gone) => ExpiriesTraced(s, gone);
  }

  lemma HeardTraced(s: Relay, k: ConnId, f: Transport, now: int)
    requires RelayOk(s) && Traced(s) && k in s.conns
    ensures Traced(Heard(s, k, f, now))
  {
    var p := s.conns[k];
    match f
    case Offer(_, _, _, _, _, _) => OfferTraced(s, k, p, f, now);
    case Accept(id, _) => AcceptTraced(s, p, id);
    case Decline(id, _, reason) => DeclineTraced(s, p, id, reason);
    case Chunk(id, _, offset, data) => ChunkTraced(s, k, p, id, offset, data);
    case Done(id, _, digest) => DoneTraced(s, p, id, digest);
  }

  // ----------------------------------------------- who hears that a transfer has ended

  lemma {:induction false} FailureNews(xfers: map<TransferId, Record>, gone: seq<TransferId>, p: PeerId, t: TransferId)
    requires (forall x :: x in gone ==> x in xfers) && Enumerates(gone, set x | x in gone)
    ensures News(FailurePosts(xfers, gone, p), t)
         == if t in gone then [ToPeer(xfers[t].Other(p), Decline(t, p, DISCONNECTED))] else []
  {
    if gone != [] {
      var init, x := gone[..|gone| - 1], gone[|gone| - 1];
      assert x in gone && x !in init && gone == init + [x] && forall y :: y in init ==> y in gone;
      FailureNews(xfers, init, p, t);
      NewsOne(FailurePosts(xfers, init, p), ToPeer(xfers[x].Other(p), Decline(x, p, DISCONNECTED)), t);
    }
  }

  lemma NewsTwo(posts: seq<Post>, a: Post, b: Post, t: TransferId)
    requires a.ToPeer? && b.ToPeer? && a.f.id == b.f.id
    ensures News(posts + [a, b], t) == News(posts, t) + if a.f.id == t then [a, b] else []
  {
    NewsOne(posts, a, t);
    NewsOne(posts + [a], b, t);
    assert posts + [a, b] == posts + [a] + [b];
  }

  lemma {:induction false} ExpiryNews(xfers: map<TransferId, Record>, gone: seq<TransferId>, t: TransferId)
    requires (forall x :: x in gone ==> x in xfers) && Enumerates(gone, set x | x in gone)
    ensures News(ExpiryPosts(xfers, gone), t)
         == if t in gone then [ToPeer(xfers[t].from, Decline(t, xfers[t].to, UNANSWERED)),
                               ToPeer(xfers[t].to, Decline(t, xfers[t].from, UNANSWERED))] else []
  {
    if gone != [] {
      var init, x := gone[..|gone| - 1], gone[|gone| - 1];
      assert x in gone && x !in init && gone == init + [x] && forall y :: y in init ==> y in gone;
      ExpiryNews(xfers, init, t);
      var posts := ExpiryPosts(xfers, init);
      var a := ToPeer(xfers[x].from, Decline(x, xfers[x].to, UNANSWERED));
      var b := ToPeer(xfers[x].to, Decline(x, xfers[x].from, UNANSWERED));
      NewsTwo(posts, a, b, t);
    }
  }

  /** A connection that goes ends exactly the transfers of its person, and the other end of each
      hears of it once. */
  lemma DisconnectEndsItsTransfers(s: Relay, k: ConnId, gone: seq<TransferId>, s': Relay)
    requires RelayOk(s) && Next(s, Disconnect(k, gone), s')
    ensures var p := s.conns[k];
      && s'.Of(p) == {} && (forall t :: t in s'.xfers <==> t in s.xfers && !s.xfers[t].Has(p))
      && (forall t :: t in s'.xfers ==> s'.xfers[t] == s.xfers[t])
      && s.posts <= s'.posts
      && forall t :: News(s'.posts[|s.posts|..], t)
           == if t in s.xfers && s.xfers[t].Has(p) then [ToPeer(s.xfers[t].Other(p), Decline(t, p, DISCONNECTED))]
              else []
  {
    var p := s.conns[k];
    assert s'.posts[|s.posts|..] == FailurePosts(s.xfers, gone, p);
    forall t ensures News(s'.posts[|s.posts|..], t)
      == if t in s.xfers && s.xfers[t].Has(p) then [ToPeer(s.xfers[t].Other(p), Decline(t, p, DISCONNECTED))] else []
    {
      FailureNews(s.xfers, gone, p, t);
      assert t in gone <==> t in s.Of(p);
    }
  }

  /** Housekeeping ends exactly the offers left too long, and each end hears of it once. */
  lemma ExpiryEndsStaleOffers(s: Relay, now: int, gone: seq<TransferId>, s': Relay)
    requires RelayOk(s) && Next(s, Tick(now, gone), s')
    ensures
      && (forall t :: t in s'.xfers <==> t in s.xfers && (s.xfers[t].running || s.xfers[t].at >= now - OFFER_TIMEOUT))
      && (forall t :: t in s'.xfers ==> s'.xfers[t] == s.xfers[t])
      && s.posts <= s'.posts
      && forall t :: News(s'.posts[|s.posts|..], t)
           == if t in s.xfers && t !in s'.xfers
              then [ToPeer(s.xfers[t].from, Decline(t, s.xfers[t].to, UNANSWERED)),
                    ToPeer(s.xfers[t].to, Decline(t, s.xfers[t].from, UNANSWERED))]
              else []
  {
    assert s'.posts[|s.posts|..] == ExpiryPosts(s.xfers, gone);
    assert forall t :: t in gone <==> t in StaleIds(s, now);
    forall t ensures News(s'.posts[|s.posts|..], t)
      == if t in s.xfers && t !in s'.xfers
         then [ToPeer(s.xfers[t].from, Decline(t, s.xfers[t].to, UNANSWERED)),
               ToPeer(s.xfers[t].to, Decline(t, s.xfers[t].from, UNANSWERED))]
         else []
    {
      ExpiryNews(s.xfers, gone, t);
    }
  }
}

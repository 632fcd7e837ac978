/** The relay as the program runs it (chatserver/relay.go): one table of open transfers, changed
    in place by each handler. */
module Relays {
  import opened Wrappers
  import opened Names
  import opened RelayModel

  lemma ExpiryPostsMore(xfers: map<TransferId, Record>, gone: seq<TransferId>, t: TransferId)
    requires (forall x :: x in gone ==> x in xfers) && t in xfers
    ensures ExpiryPosts(xfers, gone + [t]) == ExpiryPosts(xfers, gone)
      + [ToPeer(xfers[t].from, Decline(t, xfers[t].to, UNANSWERED)),
         ToPeer(xfers[t].to, Decline(t, xfers[t].from, UNANSWERED))]
  {
    assert (gone + [t])[..|gone|] == gone;
  }

  lemma FailurePostsMore(xfers: map<TransferId, Record>, gone: seq<TransferId>, p: PeerId, t: TransferId)
    requires (forall x :: x in gone ==> x in xfers) && t in xfers
    ensures FailurePosts(xfers, gone + [t], p) ==
      FailurePosts(xfers, gone, p) + [ToPeer(xfers[t].Other(p), Decline(t, p, DISCONNECTED))]
  {
    assert (gone + [t])[..|gone|] == gone;
  }

  class RelayServer {
    var xfers: map<TransferId, Record>
    var conns: map<ConnId, PeerId>
    var known: set<PeerId>
    var posts: seq<Post>

    ghost function Abs(): Relay
      reads this
    {
      Relay(xfers, conns, known, posts)
    }

    constructor ()
      ensures Abs() == Relay(map[], map[], {}, [])
    {
      xfers, conns, known, posts := map[], map[], {}, [];
    }

    method Reply(k: ConnId, f: Transport)
      modifies `posts
      ensures posts == old(posts) + [ToConn(k, f)]
    {
      posts := posts + [ToConn(k, f)];
    }

    method SendTo(p: PeerId, f: Transport)
      modifies `posts
      ensures posts == old(posts) + [ToPeer(p, f)]
    {
      posts := posts + [ToPeer(p, f)];
    }

    /** How many open transfers somebody takes part in, at either end. */
    method CountOpen(p: PeerId) returns (open: nat)
      ensures open == |Abs().Of(p)|
    {
      open := 0;
      var todo := xfers.Keys;
      ghost var counted: set<TransferId> := {};
      while todo != {}
        invariant todo <= xfers.Keys && open == |counted|
        invariant forall t :: t in counted <==> t in xfers && t !in todo && xfers[t].Has(p)
        decreases todo
      {
        var t :| t in todo;
        if xfers[t].from == p || xfers[t].to == p {
          open := open + 1;
          counted := counted + {t};
        }
        todo := todo - {t};
      }
      assert counted == Abs().Of(p);
    }

    method OnOffer(k: ConnId, p: PeerId, f: Transport, now: int)
      requires f.Offer?
      modifies `xfers, `posts
      ensures Abs() == RelayModel.OnOffer(old(Abs()), k, p, f, now)
    {
      var to := if f.to == "" then ConvPeer(f.conv) else f.to;
      if f.id == "" || f.size < 0 || f.size > MAX_TRANSFER_BYTES {
        Reply(k, Decline(f.id, to, "that offer is not one the server will carry"));
        return;
      }
      if to == "" || to == p {
        Reply(k, Decline(f.id, to, "a file goes to one person, not to a room"));
        return;
      }
      if to !in known {
        Reply(k, Decline(f.id, to, "nobody with that id has ever enrolled here"));
        return;
      }
      if to !in conns.Values {
        Reply(k, Decline(f.id, to, "they are not connected, so a file cannot be sent right now"));
        return;
      }
      if f.id in xfers { return; }
      var open := CountOpen(p);
      if open >= MAX_OPEN_TRANSFERS {
        Reply(k, Decline(f.id, to, "too many transfers are already open"));
        return;
      }
      xfers := xfers[f.id := Record(p, to, f.size, 0, false, now)];
      SendTo(to, f.(from := p, to := to, conv := DirectConv(p)));
    }

    method OnAccept(p: PeerId, id: TransferId)
      modifies `xfers, `posts
      ensures Abs() == RelayModel.OnAccept(old(Abs()), p, id)
    {
      if id !in xfers || xfers[id].to != p || xfers[id].running { return; }
      var from := xfers[id].from;
      xfers := xfers[id := xfers[id].(running := true)];
      SendTo(from, Accept(id, p));
    }

    method OnDecline(p: PeerId, id: TransferId, reason: string)
      modifies `xfers, `posts
      ensures Abs() == RelayModel.OnDecline(old(Abs()), p, id, reason)
    {
      if id !in xfers || !(xfers[id].from == p || xfers[id].to == p) { return; }
      var other := if xfers[id].from == p then xfers[id].to else xfers[id].from;
      xfers := xfers - {id};
      SendTo(other, Decline(id, p, Clip(reason, MAX_REASON)));
    }

    method OnChunk(k: ConnId, p: PeerId, id: TransferId, offset: int, data: seq<Byte>)
      modifies `xfers, `posts
      ensures Abs() == RelayModel.OnChunk(old(Abs()), k, p, id, offset, data)
    {
      if id !in xfers || xfers[id].from != p || !xfers[id].running { return; }
      var r := xfers[id];
      if offset != r.sent || r.sent + |data| > r.size {
        xfers := xfers - {id};
        Reply(k, Decline(id, "", OUT_OF_STEP));
        SendTo(r.to, Decline(id, p, OUT_OF_STEP));
        return;
      }
      xfers := xfers[id := r.(sent := r.sent + |data|)];
      SendTo(r.to, Chunk(id, p, offset, data));
    }

    method OnDone(p: PeerId, id: TransferId, digest: string)
      modifies `xfers, `posts
      ensures Abs() == RelayModel.OnDone(old(Abs()), p, id, digest)
    {
      if id !in xfers || xfers[id].from != p { return; }
      var to := xfers[id].to;
      xfers := xfers - {id};
      SendTo(to, Done(id, p, digest));
    }

    /** Takes the records with a property out of the table and lists them as they were met. */
    method TakeOut(p: Record -> bool) returns (gone: seq<TransferId>)
      modifies `xfers
      ensures Enumerates(gone, set t | t in old(xfers) && p(old(xfers)[t]))
      ensures forall t :: t in gone ==> t in old(xfers)
      ensures xfers == map t | t in old(xfers) && t !in gone :: old(xfers)[t]
    {
      gone := [];
      var todo := xfers.Keys;
      while todo != {}
        invariant todo <= old(xfers).Keys
        invariant forall t :: t in gone <==> t in old(xfers) && t !in todo && p(old(xfers)[t])
        invariant forall i, j :: 0 <= i < j < |gone| ==> gone[i] != gone[j]
        invariant xfers == map t | t in old(xfers) && t !in gone :: old(xfers)[t]
        decreases todo
      {
        var t :| t in todo;
        assert t !in gone && xfers[t] == old(xfers)[t];
        if p(xfers[t]) {
          gone := gone + [t];
          xfers := xfers - {t};
        }
        todo := todo - {t};
      }
    }

    method ExpireOffers(now: int) returns (ghost gone: seq<TransferId>)
      modifies `xfers, `posts
      ensures Enumerates(gone, StaleIds(old(Abs()), now)) && Abs() == Expired(old(Abs()), gone)
    {
      var before := xfers;
      var taken := TakeOut((r: Record) => Stale(r, now));
      gone := taken;
      var i := 0;
      while i < |taken|
        invariant 0 <= i <= |taken| && forall x :: x in taken[..i] ==> x in before
        invariant posts == old(posts) + ExpiryPosts(before, taken[..i])
        invariant xfers == Expired(old(Abs()), gone).xfers
      {
        var t := taken[i];
        assert t in taken && taken[..i + 1] == taken[..i] + [t];
        ExpiryPostsMore(before, taken[..i], t);
        SendTo(before[t].from, Decline(t, before[t].to, UNANSWERED));
        SendTo(before[t].to, Decline(t, before[t].from, UNANSWERED));
        i := i + 1;
      }
      assert taken[..i] == taken;
    }

    method FailTransfersOf(p: PeerId) returns (ghost gone: seq<TransferId>)
      modifies `xfers, `posts
      ensures Enumerates(gone, old(Abs()).Of(p)) && Abs() == Failed(old(Abs()), p, gone)
    {
      var before := xfers;
      var taken := TakeOut((r: Record) => r.Has(p));
      gone := taken;
      var i := 0;
      while i < |taken|
        invariant 0 <= i <= |taken| && forall x :: x in taken[..i] ==> x in before
        invariant posts == old(posts) + FailurePosts(before, taken[..i], p)
        invariant xfers == Failed(old(Abs()), p, gone).xfers
      {
        var t := taken[i];
        assert t in taken && taken[..i + 1] == taken[..i] + [t];
        FailurePostsMore(before, taken[..i], p, t);
        SendTo(if before[t].from == p then before[t].to else before[t].from, Decline(t, p, DISCONNECTED));
        i := i + 1;
      }
      assert taken[..i] == taken;
    }

    method Connect(k: ConnId, p: PeerId)
      requires k !in conns && p != ""
      modifies `conns, `known
      ensures RelayModel.Next(old(Abs()), Label.Connect(k, p), Abs())
    {
      conns := conns[k := p];
      known := known + {p};
    }

    method Disconnect(k: ConnId) returns (ghost gone: seq<TransferId>)
      requires k in conns
      modifies `conns, `xfers, `posts
      ensures RelayModel.Next(old(Abs()), Label.Disconnect(k, gone), Abs())
    {
      var p := conns[k];
      conns := conns - {k};
      gone := FailTransfersOf(p);
    }
  }
}

/** What a client daemon does with a frame from the server (chatclientd/link.go), as functions on
    its cache and its cursor. */
module ClientModel {
  import opened Names
  import opened Messages
  import opened StoreModel
  import opened ServerModel

  /** saved is the cursor last written to cursor.json. */
  datatype Client = Client(self: PeerId, rooms: Rooms, store: Store, cursor: nat, saved: nat)

  function Advance(cl: Client, n: nat): Client {
    if n > cl.cursor then cl.(cursor := n) else cl
  }

  /** A relayed message: our own only fixes the place of the copy already here. */
  function ApplyMessage(cl: Client, f: Frame, now: int): Client
    requires f.MsgFrame?
  {
    if f.from == "" then cl
    else
      var c1 := Advance(cl, f.num);
      match MessageFromFrame(f, f.from, now)
      case None => c1
      case Some(m) =>
        if f.from != cl.self then c1.(store := AppendMsg(c1.store, m, now).0)
        else
          var (st, found) := Confirm(c1.store, m.id, m.num);
          if found.Some? then c1.(store := st)
          else c1.(store := AppendMsg(st, m.(mine := true, read := true, state := Delivered), now).0)
  }

  /** Everything but the flush that follows synced, which goes out through SetState. */
  function ApplyFrame(cl: Client, f: Frame, now: int): Client {
    match f
    case MsgFrame(_, _, _, _, _, _, _, _) => ApplyMessage(cl, f, now)
    case SeqFrame(id, num) =>
      var c1 := Advance(cl, num);
      c1.(store := Confirm(c1.store, id, num).0)
    case SyncedFrame(cursor, _) =>
      var c1 := Advance(cl, cursor);
      c1.(saved := c1.cursor)
    case ErrorFrame(_) => cl
  }

  /** The cursor the client goes on from once it has been welcomed. */
  function Welcomed(cl: Client, reset: bool, foreign: bool): Client {
    if reset || foreign then cl.(cursor := 0) else cl
  }
}

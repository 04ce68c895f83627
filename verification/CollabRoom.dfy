/** A room as the object the relay keeps: a map of client objects changed in place. Every
    method is tied to the room functions of the service. */
module RoomObjects {
  import opened Options
  import opened Protocol
  import opened Delivery
  import opened Identity
  import opened Rooms

  /** A room that has taken in a message, and the addressees it did not have. */
  ghost function TakenIn(room: Room, e: Event): Room {
    Noted(room, e.body).(clients := Heard(room.clients, e))
  }

  ghost function Unheard(room: Room, e: Event): seq<ClientId> {
    if IsAddressed(e.body) then Missing(e.body.toClientIds, room.clients.Keys) else []
  }

  /** A room whose ownership has passed to another tab. */
  ghost function OwnedBy(room: Room, heir: ClientId): Room
    requires heir in room.clients
  {
    room.(clients := Crowned(room.clients, heir), ownerId := heir)
  }

  /** A room that has let a client in. */
  ghost function TakenPlace(room: Room, c: Client, note: Event, owner: bool, newTitle: string): Room {
    Room(Seated(room.clients, c, note),
         if owner then c.info.clientId else room.ownerId,
         if owner then c.browserId else room.ownerBrowser,
         room.encrypted,
         if room.title == "" then newTitle else room.title)
  }

  lemma {:induction false} SeatedTwice(clients: map<ClientId, Client>, c: Client, note: Event)
    ensures Seated(clients[c.info.clientId := c], c, note) == Seated(clients, c, note)
  {
  }

  class CollabClient {
    const browserId: string
    const principal: Option<Principal>
    const welcome: Event
    var info: PeerInfo
    var pipe: Pipe

    ghost function Model(): Client
      reads this
    {
      Client(info, browserId, principal, welcome, pipe)
    }

    constructor (c: Client)
      ensures Model() == c
    {
      browserId, principal, welcome, info, pipe := c.browserId, c.principal, c.welcome, c.info, c.pipe;
    }

    /** `deliver`. */
    method Deliver(e: Event)
      modifies this
      ensures Model() == Offered(old(Model()), e)
    {
      var o := Offer(e.from, e);
      pipe := pipe.(room := pipe.room.(offered := pipe.room.offered + [o]));
      if pipe.room.slow {
        return;
      }
      if |pipe.chan.queue| < CAPACITY {
        pipe := pipe.(chan := Push(pipe.chan, o));
      } else {
        pipe := pipe.(room := pipe.room.(slow := true));
      }
    }

    method Crown()
      modifies this
      ensures Model() == old(Model()).(info := old(info).(isOwner := true))
    {
      info := info.(isOwner := true);
    }

    /** Out of the room's map. */
    method Leave()
      modifies this
      ensures Model() == Gone(old(Model()))
    {
      pipe := LockedApply(pipe, LockedStep.Remove);
    }

    /** close(SendCh), as the client is taken out of its room. */
    method CloseChannel()
      modifies this
      ensures Model() == Closed(old(Model()))
    {
      pipe := LockedApply(pipe, LockedStep.CloseChannel);
    }
  }

  class CollabRoom {
    var clients: map<ClientId, CollabClient>
    var ownerId: ClientId
    var ownerBrowser: string
    var encrypted: bool
    var title: string

    /** No two entries share a client object. */
    ghost predicate Valid()
      reads this`clients
    {
      forall a, b :: a in clients && b in clients && clients[a] == clients[b] ==> a == b
    }

    ghost function Members(): (r: map<ClientId, Client>)
      reads this`clients, clients.Values
      ensures r.Keys == clients.Keys
    {
      map id | id in clients :: clients[id].Model()
    }

    ghost function Model(): Room
      reads this, clients.Values
    {
      Room(Members(), ownerId, ownerBrowser, encrypted, title)
    }

    constructor ()
      ensures Valid() && Model() == EMPTY_ROOM && clients == map[]
    {
      clients := map[];
      ownerId, ownerBrowser, encrypted, title := "", "", false, "";
    }

    method AddClient(id: ClientId, c: CollabClient)
      requires Valid() && forall k :: k in clients ==> clients[k] != c
      modifies this`clients
      ensures Valid() && clients == old(clients)[id := c]
      ensures Members() == old(Members())[id := c.Model()]
    {
      clients := clients[id := c];
    }

    /** RemoveClient; the id need not be in the room. */
    method RemoveClient(id: ClientId) returns (c: Option<CollabClient>)
      requires Valid()
      modifies this`clients, clients.Values
      ensures Valid() && clients == old(clients) - {id}
      ensures Members() == old(Members()) - {id}
      ensures c == if id in old(clients) then Some(old(clients)[id]) else None
      ensures c.Some? ==> c.value.Model() == Gone(old(clients[id].Model()))
    {
      if id in clients {
        c := Some(clients[id]);
        clients := clients - {id};
        c.value.Leave();
      } else {
        c := None;
        clients := clients - {id};
      }
    }

    /** FindByBrowserId: any other client of that browser, none if there is none. */
    method FindByBrowserId(browserId: string, exclude: ClientId) returns (found: Option<ClientId>)
      ensures found.Some? ==> found.value in clients && found.value != exclude && clients[found.value].browserId == browserId
      ensures found.None? ==> forall id :: id in clients && id != exclude ==> clients[id].browserId != browserId
    {
      var todo := clients.Keys;
      while todo != {}
        invariant todo <= clients.Keys
        invariant forall id :: id in clients && id !in todo && id != exclude ==> clients[id].browserId != browserId
      {
        var id :| id in todo;
        todo := todo - {id};
        if id != exclude && clients[id].browserId == browserId {
          return Some(id);
        }
      }
      found := None;
    }

    method GetPeerInfo() returns (peers: map<ClientId, PeerInfo>)
      ensures peers == Peers(Model())
    {
      peers := map id | id in clients :: clients[id].info;
    }

    /** BroadcastToAll and BroadcastExcept: deliver to every client in `to`. */
    method Broadcast(e: Event, to: set<ClientId>)
      requires Valid()
      modifies clients.Values
      ensures Members() == OfferTo(old(Members()), e, to)
    {
      var todo := clients.Keys;
      while todo != {}
        invariant todo <= clients.Keys
        invariant forall id :: id in clients ==>
          clients[id].Model() == if id !in todo && id in to then Offered(old(clients[id].Model()), e) else old(clients[id].Model())
      {
        var id :| id in todo;
        todo := todo - {id};
        if id in to {
          clients[id].Deliver(e);
        }
      }
    }

    /** SendEach: one addressed copy per distinct id in the room, the missing ids returned. */
    method SendEach(to: seq<ClientId>, e: Event) returns (missing: seq<ClientId>)
      requires Valid()
      modifies clients.Values
      ensures Members() == OfferEach(old(Members()), e, Ids(to))
      ensures missing == Missing(to, clients.Keys)
    {
      var seen: set<ClientId> := {};
      missing := [];
      for i := 0 to |to|
        invariant seen == Ids(to[..i])
        invariant missing == Missing(to[..i], clients.Keys)
        invariant forall id :: id in clients ==>
          clients[id].Model() == if id in seen then Offered(old(clients[id].Model()), Addressed(e, id)) else old(clients[id].Model())
      {
        var id := to[i];
        assert to[..i + 1] == to[..i] + [id] && to[..i + 1][..i] == to[..i];
        assert Ids(to[..i + 1]) == Ids(to[..i]) + {id};
        assert id in to[..i] <==> id in seen;
        if id in seen {
          continue;
        }
        seen := seen + {id};
        if id !in clients {
          missing := missing + [id];
        } else {
          clients[id].Deliver(Addressed(e, id));
        }
      }
      assert to[..|to|] == to;
    }

    /** A message to its addressees, or to everyone but its sender. */
    method Hear(e: Event) returns (missing: seq<ClientId>)
      requires Valid()
      modifies clients.Values
      ensures Members() == Heard(old(Members()), e)
      ensures missing == if IsAddressed(e.body) then Missing(e.body.toClientIds, clients.Keys) else []
    {
      missing := [];
      if IsAddressed(e.body) {
        missing := SendEach(e.body.toClientIds, e);
      } else {
        Broadcast(e, clients.Keys - {e.from});
      }
    }

    /** What a relayed message changes in the room, then its fan-out. */
    method Take(e: Event) returns (missing: seq<ClientId>)
      requires Valid()
      modifies this, clients.Values
      ensures Valid() && clients == old(clients)
      ensures Model() == TakenIn(old(Model()), e) && missing == Unheard(old(Model()), e)
    {
      if e.body.CredentialsChanged? && e.body.credentialsReason == "password_removed" {
        encrypted := false;
      }
      if e.body.TitleChanged? {
        title := e.body.title;
      }
      missing := Hear(e);
    }

    /** A client let in may bring ownership, and a title for a room that has none. */
    method Claim(id: ClientId, owner: bool, browserId: string, newTitle: string)
      modifies this`ownerId, this`ownerBrowser, this`title
      ensures ownerId == (if owner then id else old(ownerId)) && ownerBrowser == (if owner then browserId else old(ownerBrowser))
      ensures title == if old(title) == "" then newTitle else old(title)
    {
      if owner {
        ownerId, ownerBrowser := id, browserId;
      }
      if title == "" {
        title := newTitle;
      }
    }

    /** The others are told of it. */
    method Announce(id: ClientId, note: Event)
      requires Valid() && id in clients && clients[id].info.clientId == id
      modifies clients.Values
      ensures Members() == Seated(old(Members()), old(Members())[id], note)
    {
      Broadcast(note, clients.Keys - {id});
    }

    /** A client let in: added, perhaps made the owner, announced to the others. */
    method Admit(id: ClientId, c: CollabClient, note: Event, owner: bool, newTitle: string)
      requires Valid() && (forall k :: k in clients ==> clients[k] != c) && c.info.clientId == id
      modifies this, clients.Values, c
      ensures Valid() && clients == old(clients)[id := c]
      ensures Model() == TakenPlace(old(Model()), old(c.Model()), note, owner, newTitle)
    {
      ghost var before, newcomer := Members(), c.Model();
      AddClient(id, c);
      Claim(id, owner, c.browserId, newTitle);
      assert Members() == before[id := newcomer];
      Announce(id, note);
      SeatedTwice(before, newcomer, note);
    }

    /** Ownership passes to another tab. */
    method CrownMember(heir: ClientId)
      requires Valid() && heir in clients
      modifies this, clients.Values
      ensures Valid() && clients == old(clients) && Model() == OwnedBy(old(Model()), heir)
    {
      clients[heir].Crown();
      ownerId := heir;
      assert forall k :: k in clients && k != heir ==> clients[k] != clients[heir];
    }

    method CloseOne(id: ClientId)
      requires id in clients
      modifies this`clients, clients[id]
      ensures clients == old(clients) - {id} && old(clients)[id].Model() == Closed(old(clients[id].Model()))
    {
      clients[id].CloseChannel();
      clients := clients - {id};
    }

    /** CloseAllClients: every channel closed, every client out. */
    method CloseAllClients()
      requires Valid()
      modifies this`clients, clients.Values
      ensures clients == map[]
      ensures forall id :: id in old(clients) ==> old(clients)[id].Model() == Closed(old(clients[id].Model()))
    {
      ghost var all := clients;
      var todo := clients.Keys;
      while todo != {}
        invariant todo <= all.Keys && clients == all - (all.Keys - todo)
        invariant forall id :: id in all ==>
          all[id].Model() == if id in todo then old(all[id].Model()) else Closed(old(all[id].Model()))
      {
        var id :| id in todo;
        todo := todo - {id};
        CloseOne(id);
      }
    }

    /** A last message to everyone, then everyone out. */
    method Disperse(e: Event)
      requires Valid()
      modifies this`clients, clients.Values
      ensures clients == map[]
      ensures forall x :: x in old(clients) ==> old(clients)[x].Model() == Closed(Offered(old(clients[x].Model()), e))
    {
      ghost var all, before := clients, Members();
      Broadcast(e, clients.Keys);
      assert forall x :: x in all ==> all[x].Model() == Members()[x] == Offered(before[x], e);
      CloseAllClients();
    }
  }
}

/** The daemon as it runs: sockets and waiting requests are objects, and a post is handed to
    each of them in turn. */
module EventDaemon {
  import opened Options
  import opened EventLog
  import opened EventPoll

  class Socket {
    var lastMsg: int
    var filter: Option<set<string>>
    var sent: seq<Message>

    constructor ()
      ensures Abs() == Follower(0, None, [])
    {
      lastMsg, filter, sent := 0, None, [];
    }

    function Abs(): Follower
      reads this
    {
      Follower(lastMsg, filter, sent)
    }

    method StartMsg(start: int)
      modifies this
      ensures Abs() == old(Abs()).(lastMsg := start)
    {
      lastMsg := start;
    }

    method GotMessage(m: Message)
      requires filter.Some?
      modifies this
      ensures Abs() == Got(old(Abs()), m)
    {
      if m.channel in filter.value { sent := sent + [m]; }
      lastMsg := m.id;
    }
  }

  class Request {
    var last: int
    var channels: set<string>
    var waiting: bool
    var received: seq<Message>

    constructor (last: int, channels: set<string>)
      ensures Abs() == Poller(last, channels, false, [])
    {
      this.last, this.channels, waiting, received := last, channels, false, [];
    }

    function Abs(): Poller
      reads this
    {
      Poller(last, channels, waiting, received)
    }

    /** Answer the request if the message is on one of its channels. */
    method GotMessage(m: Message) returns (answered: bool)
      modifies this
      ensures answered == (m.channel in old(channels))
      ensures Abs() == if answered then Give(old(Abs()), m) else old(Abs())
    {
      if m.channel in channels {
        received := received + [m];
        last := m.id;
        waiting := false;
        return true;
      }
      return false;
    }
  }

  class Server {
    var messages: seq<Message>
    var messageId: int
    const maxQueue: nat
    var followers: set<Socket>
    var pollers: set<Request>

    constructor (now: int, maxQueue: nat)
      ensures Valid() && Log() == Daemon([], now, maxQueue) && followers == {} && pollers == {}
    {
      messages, messageId, followers, pollers := [], now, {}, {};
      this.maxQueue := maxQueue;
    }

    function Log(): Daemon
      reads this
    {
      Daemon(messages, messageId, maxQueue)
    }

    ghost predicate Valid()
      reads this, followers, pollers
    {
      && (forall f :: f in followers ==> f.filter.Some?)
      && (forall r :: r in pollers ==> r.waiting)
    }

    /** The message goes to the log, to every follower, and to every waiting request on its
        channel, which then waits no more. */
    method Post(channel: string, body: string) returns (id: int)
      requires Valid()
      modifies this, followers, pollers
      ensures Valid() && id == messageId == old(messageId) + 1
      ensures Log() == PostTo(old(Log()), channel, body)
      ensures followers == old(followers)
      ensures forall f :: f in followers ==> f.Abs() == Got(old(f.Abs()), Next(old(Log()), channel, body))
      ensures pollers == set r | r in old(pollers) && channel !in old(r.channels)
      ensures forall r :: r in old(pollers) ==>
        r.Abs() == if channel in old(r.channels) then Give(old(r.Abs()), Next(old(Log()), channel, body))
                   else old(r.Abs())
      ensures maxQueue > 0 ==> messages != [] && messages[|messages| - 1] == Message(id, channel, body)
      ensures forall f :: f in old(followers) ==>
        f.sent == old(f.sent) + (if channel in f.filter.value then [Message(id, channel, body)] else [])
      ensures forall r :: r in old(pollers) && channel in old(r.channels) ==>
        r.received == old(r.received) + [Message(id, channel, body)]
    {
      messageId := messageId + 1;
      var m := Message(messageId, channel, body);
      messages := messages + [m];
      if |messages| > maxQueue { messages := messages[1..]; }
      TellFollowers(m);
      TellPollers(m);
      return m.id;
    }

    method TellFollowers(m: Message)
      requires Valid()
      modifies followers
      ensures Valid()
      ensures forall f :: f in followers ==> f.Abs() == Got(old(f.Abs()), m)
    {
      var rest := followers;
      while rest != {}
        invariant rest <= followers
        invariant forall f :: f in followers ==>
          f.filter.Some? && f.Abs() == if f in rest then old(f.Abs()) else Got(old(f.Abs()), m)
        decreases rest
      {
        var f :| f in rest;
        f.GotMessage(m);
        rest := rest - {f};
      }
    }

    method TellPollers(m: Message)
      requires Valid()
      modifies this`pollers, pollers
      ensures Valid()
      ensures pollers == set r | r in old(pollers) && m.channel !in old(r.channels)
      ensures forall r :: r in old(pollers) ==>
        r.Abs() == if m.channel in old(r.channels) then Give(old(r.Abs()), m) else old(r.Abs())
    {
      var rest := pollers;
      ghost var told := {};
      while rest != {}
        invariant rest <= old(pollers) && told == old(pollers) - rest
        invariant pollers == rest + set r | r in told && m.channel !in old(r.channels)
        invariant forall r :: r in rest ==> r.Abs() == old(r.Abs())
        invariant forall r :: r in told ==>
          r.Abs() == if m.channel in old(r.channels) then Give(old(r.Abs()), m) else old(r.Abs())
        decreases rest
      {
        var r :| r in rest;
        assert r in old(pollers);
        var answered := r.GotMessage(m);
        if answered { pollers := pollers - {r}; }
        rest, told := rest - {r}, told + {r};
      }
    }

    /** A valid set-filter: remember it, follow, and catch up from the log. */
    method SetFilter(socket: Socket, filter: set<string>)
      requires Valid()
      modifies this`followers, socket
      ensures Valid() && followers == old(followers) + {socket} && Log() == old(Log())
      ensures socket.Abs() == CatchUp(old(socket.Abs()).(filter := Some(filter)), messages)
    {
      socket.filter := Some(filter);
      followers := followers + {socket};
      ghost var start := socket.Abs();
      for i := 0 to |messages|
        modifies socket
        invariant socket.filter == Some(filter)
        invariant CatchUp(socket.Abs(), messages[i..]) == CatchUp(start, messages)
      {
        if messages[i].id > socket.lastMsg { socket.GotMessage(messages[i]); }
      }
    }

    method Close(socket: Socket)
      requires Valid()
      modifies this`followers
      ensures Valid() && followers == old(followers) - {socket}
    {
      followers := followers - {socket};
    }

    /** Answer a request from the log or let it wait. */
    method Handle(request: Request)
      requires Valid() && !request.waiting && request !in pollers
      modifies this`pollers, request
      ensures Valid() && Log() == old(Log())
      ensures request.Abs() == PollStep(System(old(Log()), old(request.Abs()), []), PollAction.Request).poller
      ensures pollers == if request.waiting then old(pollers) + {request} else old(pollers)
    {
      var got := false;
      ghost var before := request.Abs();
      ghost var first := FirstUnread(messages, before.last, before.channels);
      for i := 0 to |messages|
        modifies request
        invariant got ==> first.Some? && request.Abs() == Give(before, first.value)
        invariant !got ==> request.Abs() == before && FirstUnread(messages[i..], before.last, before.channels) == first
      {
        if !got && messages[i].id > request.last { got := request.GotMessage(messages[i]); }
      }
      if !got {
        request.waiting := true;
        pollers := pollers + {request};
      }
    }
  }
}

/** Channel membership and join admission, with the client and message records the
    channel works on. Client and Channel refer to each other (a client knows the channels
    it is in, a channel lists its members), so they share this module. */
module Channels {
  import opened Wire

  predicate NoDuplicates<T(==)>(s: seq<T>)
  {
    forall i, j :: 0 <= i < j < |s| ==> s[i] != s[j]
  }

  /** A connected client, reduced to what the registry and the channels read and change.
      The client's own implementation is not part of this model; its send operation is
      taken to append the line to `outbox`, and its channel list is taken to be a set. */
  class Client {
    const fd: int
    var nickname: string
    var username: string
    var fullname: string
    var outbox: seq<Reply>
    var channels: set<Channel>

    constructor(fd: int)
      ensures this.fd == fd
      ensures nickname == "" && username == "" && fullname == ""
      ensures outbox == [] && channels == {}
    {
      this.fd := fd;
      nickname, username, fullname := "", "", "";
      outbox := [];
      channels := {};
    }

    /** The client has completed NICK and USER. */
    predicate Registered()
      reads this
    {
      nickname != "" && username != ""
    }

    /** Queue one line for delivery to this client. */
    method Send(r: Reply)
      modifies this`outbox
      ensures outbox == old(outbox) + [r]
    {
      outbox := outbox + [r];
    }

    /** Since the old state, this client was sent exactly `lines` and nothing else of it
        changed. */
    twostate predicate Received(lines: seq<Reply>)
      reads this
    {
      outbox == old(outbox) + lines &&
      nickname == old(nickname) && username == old(username) &&
      fullname == old(fullname) && channels == old(channels)
    }
  }

  /** One parsed command line: who sent it, the command word, the positional arguments,
      the trailing text after `:`, the channel name it mentions and the channel that name
      resolved to. The tokenizer that builds it is not part of this model. */
  datatype Message = Message(sender: Client, cmd: string, args: seq<string>,
                             colon: string, channelName: string, channel: Channel?)
  {
    /** The i-th positional argument, or "" when there are fewer. */
    function Arg(i: nat): string
    {
      if i < |args| then args[i] else ""
    }
  }

  /** The outcome of the admission checks a join request runs. */
  datatype Admission = Admitted | Refused(reply: Reply)

  class Channel {
    const name: string
    var topic: string
    var key: string
    var limit: nat            // 0 means no limit
    var inviteOnly: bool
    var topicProtected: bool
    var members: seq<Client>
    var operators: seq<Client>

    /** The channel's invariant: a client is listed at most once. */
    ghost predicate Valid()
      reads this
    {
      NoDuplicates(members)
    }

    /** A channel created by `client`: the creator is its only member and only operator,
        every mode is off, and the creator is sent the JOIN notice. */
    constructor(name: string, client: Client)
      modifies client
      ensures this.name == name && topic == "" && key == "" && limit == 0
      ensures !inviteOnly && !topicProtected
      ensures members == [client] && operators == [client]
      ensures Valid() && IsActive()
      ensures client.channels == old(client.channels) + {this}
      ensures client.outbox == old(client.outbox) + [Line(JoinLine(client.nickname, client.username, name))]
      ensures client.nickname == old(client.nickname) && client.username == old(client.username)
      ensures client.fullname == old(client.fullname)
    {
      this.name := name;
      topic, key, limit := "", "", 0;
      inviteOnly, topicProtected := false, false;
      members := [client];
      operators := [client];
      new;
      client.channels := client.channels + {this};
      client.Send(Line(JoinLine(client.nickname, client.username, name)));
    }

    /** The member-wise copy the compiler supplies (the class declares no copy
        constructor): the lists are copied, so the copy names the same clients, and no
        client learns of the copy. */
    constructor Copy(original: Channel)
      ensures name == original.name && topic == original.topic && key == original.key
      ensures limit == original.limit && inviteOnly == original.inviteOnly
      ensures topicProtected == original.topicProtected
      ensures members == original.members && operators == original.operators
    {
      name := original.name;
      topic, key, limit := original.topic, original.key, original.limit;
      inviteOnly, topicProtected := original.inviteOnly, original.topicProtected;
      members := original.members;
      operators := original.operators;
    }

    /** Channels are equal when their names are. */
    function Equals(other: Channel): bool
    {
      name == other.name
    }

    /** A channel is active while it has both an operator and a member. */
    function IsActive(): bool
      reads this
    {
      if |operators| == 0 then false
      else if |members| == 0 then false
      else true
    }

    /** Whether `client` itself (not merely a client with the same name) is a member. */
    method IsClientInChannel(client: Client) returns (found: bool)
      ensures found <==> client in members
    {
      if |members| == 0 {
        return false;
      }
      var i := 0;
      while i < |members|
        invariant 0 <= i <= |members|
        invariant client !in members[..i]
      {
        if members[i] == client {
          return true;
        }
        i := i + 1;
      }
      return false;
    }

    /** Send `line` to every member, once each, in list order, the sender of the line
        included. */
    method SendMessageToClients(line: Reply)
      requires Valid()
      modifies members
      ensures forall c :: c in members ==> c.Received([line])
    {
      var i := 0;
      while i < |members|
        invariant 0 <= i <= |members|
        invariant forall j :: 0 <= j < i ==> members[j].Received([line])
        invariant forall j :: i <= j < |members| ==> unchanged(members[j])
      {
        members[i].Send(line);
        i := i + 1;
      }
    }

    /** The admission chain a join request runs, in the order it runs it: a member is
        refused first, then a wrong key, then an invite-only channel (invitations are not
        tracked, so every joiner is refused there), then a full channel. */
    function Admission(msg: Message): (a: Admission)
      reads this, msg.sender
      ensures a == Admitted <==>
                msg.sender !in members && (key == "" || key == msg.Arg(0)) &&
                !inviteOnly && (limit == 0 || |members| < limit)
      ensures msg.sender in members ==>
                a == Refused(Numeric(ERR_USERONCHANNEL, msg.sender.nickname + " " + msg.channelName + " :is already on channel"))
      ensures msg.sender !in members && key != "" && key != msg.Arg(0) ==>
                a == Refused(Numeric(ERR_BADCHANNELKEY, name + " :Cannot join channel (+k)"))
      ensures msg.sender !in members && (key == "" || key == msg.Arg(0)) && inviteOnly ==>
                a == Refused(Numeric(ERR_INVITEONLYCHAN, name + " :Cannot join channel (+i)"))
      ensures msg.sender !in members && (key == "" || key == msg.Arg(0)) && !inviteOnly &&
              limit != 0 && |members| >= limit ==>
                a == Refused(Numeric(ERR_CHANNELISFULL, msg.channelName + " :Cannot join channel (+l)"))
    {
      if msg.sender in members then
        Refused(Numeric(ERR_USERONCHANNEL, msg.sender.nickname + " " + msg.channelName + " :is already on channel"))
      else if key != "" && key != msg.Arg(0) then
        Refused(Numeric(ERR_BADCHANNELKEY, name + " :Cannot join channel (+k)"))
      else if inviteOnly then
        Refused(Numeric(ERR_INVITEONLYCHAN, name + " :Cannot join channel (+i)"))
      else if limit != 0 && |members| != 0 && |members| >= limit then
        Refused(Numeric(ERR_CHANNELISFULL, msg.channelName + " :Cannot join channel (+l)"))
      else
        Admitted
    }

    /** A join request. A refused joiner gets the one refusal reply and nothing else
        changes; an admitted joiner is appended to the member list, records the channel,
        and is sent the JOIN notice directly and again by the broadcast to all members,
        while every earlier member gets it once. */
    method AddClient(msg: Message)
      requires Valid()
      modifies this, msg.sender, members
      ensures Valid()
      ensures topic == old(topic) && key == old(key) && limit == old(limit)
      ensures inviteOnly == old(inviteOnly) && topicProtected == old(topicProtected)
      ensures operators == old(operators)
      ensures old(Admission(msg)).Refused? ==>
                members == old(members) &&
                msg.sender.Received([old(Admission(msg)).reply]) &&
                forall c :: c in old(members) && c != msg.sender ==> unchanged(c)
      ensures old(Admission(msg)) == Admitted ==>
                var join := Line(JoinLine(old(msg.sender.nickname), old(msg.sender.username), name));
                members == old(members) + [msg.sender] &&
                msg.sender.outbox == old(msg.sender.outbox) + [join, join] &&
                msg.sender.channels == old(msg.sender.channels) + {this} &&
                msg.sender.nickname == old(msg.sender.nickname) &&
                msg.sender.username == old(msg.sender.username) &&
                msg.sender.fullname == old(msg.sender.fullname) &&
                forall c :: c in old(members) ==> c.Received([join])
      ensures old(IsActive()) ==> IsActive()
    {
      var sender := msg.sender;
      var present := IsClientInChannel(sender);
      if present {
        sender.Send(Numeric(ERR_USERONCHANNEL, sender.nickname + " " + msg.channelName + " :is already on channel"));
        return;
      }
      if key != "" && key != msg.Arg(0) {
        sender.Send(Numeric(ERR_BADCHANNELKEY, name + " :Cannot join channel (+k)"));
        return;
      }
      if inviteOnly {
        sender.Send(Numeric(ERR_INVITEONLYCHAN, name + " :Cannot join channel (+i)"));
        return;
      }
      if limit != 0 && |members| != 0 && |members| >= limit {
        sender.Send(Numeric(ERR_CHANNELISFULL, msg.channelName + " :Cannot join channel (+l)"));
        return;
      }
      members := members + [sender];
      sender.channels := sender.channels + {this};
      var join := Line(JoinLine(sender.nickname, sender.username, name));
      sender.Send(join);
      assert sender in members;
      assert forall c :: c in old(members) ==> c in members && c != sender && c.Received([]);
      SendMessageToClients(join);
    }

    /** Tearing the channel down: every member forgets its reference to the channel and
        the member list is emptied. The operator list is left as it was. */
    method Destroy()
      requires Valid()
      modifies this, members
      ensures members == [] && !IsActive()
      ensures forall c :: c in old(members) ==>
                c.channels == old(c.channels) - {this} &&
                c.outbox == old(c.outbox) && c.nickname == old(c.nickname) &&
                c.username == old(c.username) && c.fullname == old(c.fullname)
      ensures topic == old(topic) && key == old(key) && limit == old(limit)
      ensures inviteOnly == old(inviteOnly) && topicProtected == old(topicProtected)
      ensures operators == old(operators)
    {
      var i := 0;
      while i < |members|
        modifies members
        invariant 0 <= i <= |members|
        invariant forall j :: 0 <= j < i ==>
                    members[j].channels == old(members[j].channels) - {this} &&
                    members[j].outbox == old(members[j].outbox) &&
                    members[j].nickname == old(members[j].nickname) &&
                    members[j].username == old(members[j].username) &&
                    members[j].fullname == old(members[j].fullname)
        invariant forall j :: i <= j < |members| ==> unchanged(members[j])
      {
        members[i].channels := members[i].channels - {this};
        i := i + 1;
      }
      members := [];
    }
  }
}

/** The server's registry of clients and channels, the registration gate, the command
    dispatcher and the command handlers that have bodies (NICK, USER, PRIVMSG). */
module Registry {
  import opened Wire
  import opened PortRule
  import opened Channels

  /** The handlers the command table can name. */
  datatype Command =
    | NickCmd | UserCmd | WhoisCmd | PrivmsgCmd | JoinCmd
    | InviteCmd | TopicCmd | ModeCmd | KickCmd | PartCmd

  /** The command table, built once when the server is constructed. */
  const CommandTable: map<string, Command> :=
    map["NICK" := NickCmd, "USER" := UserCmd, "WHOIS" := WhoisCmd,
        "PRIVMSG" := PrivmsgCmd, "JOIN" := JoinCmd, "INVITE" := InviteCmd,
        "TOPIC" := TopicCmd, "MODE" := ModeCmd, "KICK" := KickCmd, "PART" := PartCmd]

  const NotRegistered: Reply := Numeric(ERR_NOTREGISTERED, ":You have not registered")

  /** One entry of the descriptor list handed to poll(2). */
  datatype PollFd = PollFd(fd: int, events: int)

  /** poll(2)'s "there is data to read" event bit. */
  const POLLIN: int := 1

  // ---------------------------------------------------------------------------
  // First-match searches over the registry's lists
  // ---------------------------------------------------------------------------

  /** The position of the first client on socket `fd`, or |cs| when there is none. */
  function FdIndex(cs: seq<Client>, fd: int): (i: nat)
    ensures i <= |cs|
    ensures i < |cs| ==> cs[i].fd == fd
    ensures forall j :: 0 <= j < i ==> cs[j].fd != fd
  {
    if cs == [] then 0
    else if cs[0].fd == fd then 0
    else 1 + FdIndex(cs[1..], fd)
  }

  /** The position of the first client named `nick`, or |cs| when there is none. */
  function NickIndex(cs: seq<Client>, nick: string): (i: nat)
    reads cs
    ensures i <= |cs|
    ensures i < |cs| ==> cs[i].nickname == nick
    ensures forall j :: 0 <= j < i ==> cs[j].nickname != nick
  {
    if cs == [] then 0
    else if cs[0].nickname == nick then 0
    else 1 + NickIndex(cs[1..], nick)
  }

  /** The position of the first channel named `name`, or |chs| when there is none. */
  function NameIndex(chs: seq<Channel>, name: string): (i: nat)
    ensures i <= |chs|
    ensures i < |chs| ==> chs[i].name == name
    ensures forall j :: 0 <= j < i ==> chs[j].name != name
  {
    if chs == [] then 0
    else if chs[0].name == name then 0
    else 1 + NameIndex(chs[1..], name)
  }

  /** Looking up a socket after a client was appended: an earlier client on that socket
      still wins, otherwise the appended one is found if it is on that socket. */
  lemma {:induction false} FdIndexAppend(cs: seq<Client>, c: Client, fd: int)
    ensures FdIndex(cs + [c], fd) ==
              if FdIndex(cs, fd) < |cs| then FdIndex(cs, fd)
              else if c.fd == fd then |cs| else |cs| + 1
  {
    if cs != [] {
      assert (cs + [c])[1..] == cs[1..] + [c];
      FdIndexAppend(cs[1..], c, fd);
    }
  }

  /** The name check behind NICK: no client, the sender included, already has `nick`. */
  predicate NameAvailable(cs: seq<Client>, nick: string)
    reads cs
  {
    forall c :: c in cs ==> c.nickname != nick
  }

  /** The client list with every client on socket `fd` taken out, the rest in order. */
  function WithoutFd(cs: seq<Client>, fd: int): (r: seq<Client>)
    ensures forall c :: c in r ==> c in cs && c.fd != fd
    ensures forall c :: c in cs && c.fd != fd ==> c in r
    ensures |r| <= |cs|
  {
    if cs == [] then []
    else (if cs[0].fd == fd then [] else [cs[0]]) + WithoutFd(cs[1..], fd)
  }

  /** Removal works element by element, so it keeps the order of what it keeps. */
  lemma {:induction false} WithoutFdAppend(a: seq<Client>, b: seq<Client>, fd: int)
    ensures WithoutFd(a + b, fd) == WithoutFd(a, fd) + WithoutFd(b, fd)
  {
    if a != [] {
      var head := if a[0].fd == fd then [] else [a[0]];
      assert (a + b)[0] == a[0] && (a + b)[1..] == a[1..] + b;
      calc {
        WithoutFd(a + b, fd);
        head + WithoutFd(a[1..] + b, fd);
        { WithoutFdAppend(a[1..], b, fd); }
        head + (WithoutFd(a[1..], fd) + WithoutFd(b, fd));
        (head + WithoutFd(a[1..], fd)) + WithoutFd(b, fd);
        WithoutFd(a, fd) + WithoutFd(b, fd);
      }
    } else {
      assert a + b == b;
    }
  }

  /** Removing the clients of one socket leaves a list without duplicates duplicate-free. */
  lemma {:induction false} WithoutFdDistinct(cs: seq<Client>, fd: int)
    requires NoDuplicates(cs)
    ensures NoDuplicates(WithoutFd(cs, fd))
  {
    if cs != [] {
      WithoutFdDistinct(cs[1..], fd);
      assert cs[0] !in cs[1..];
    }
  }

  /** Two different clients never share a nickname that has been set. */
  predicate NicknamesUnique(cs: seq<Client>)
    reads cs
  {
    forall a, b :: a in cs && b in cs && a != b && a.nickname != "" ==> a.nickname != b.nickname
  }

  /** No name other than "" is used by two entries of the channel list. */
  predicate ChannelNamesUnique(chs: seq<Channel>)
  {
    forall i, j :: 0 <= i < j < |chs| && chs[i].name != "" ==> chs[i].name != chs[j].name
  }

  /** In a channel list whose names are unique, channel equality, which compares names,
      is identity. */
  lemma EqualsIsIdentity(chs: seq<Channel>, a: Channel, b: Channel)
    requires ChannelNamesUnique(chs)
    requires a in chs && b in chs && a.name != ""
    ensures a.Equals(b) <==> a == b
  {
    var i :| 0 <= i < |chs| && chs[i] == a;
    var j :| 0 <= j < |chs| && chs[j] == b;
  }

  /** The outcome of constructing a server. */
  datatype Startup = Running(server: Server) | Aborted(error: PortError)

  /** Server construction: the port argument is checked and the object exists only if
      it passes. The password is stored unchecked; the listening socket's descriptor,
      which network set-up obtains, is given. */
  method Start(portArg: string, password: string, socketFd: int) returns (r: Startup)
    ensures r.Aborted? <==> ParsePort(portArg).Rejected?
    ensures r.Aborted? ==> r.error == ParsePort(portArg).error
    ensures r.Running? ==>
              fresh(r.server) && r.server.Valid() &&
              r.server.port == ParsePort(portArg).port && r.server.password == password &&
              r.server.socketFd == socketFd &&
              r.server.clients == [] && r.server.channels == []
  {
    match ParsePort(portArg)
    case Rejected(e) =>
      r := Aborted(e);
    case Accepted(p) =>
      var s := new Server(p, password, socketFd);
      r := Running(s);
  }

  class Server {
    const port: nat
    const password: string
    const socketFd: int
    const cmds: map<string, Command>
    var clients: seq<Client>
    var channels: seq<Channel>

    /** The registry's invariant. */
    ghost predicate Valid()
      reads this, clients
    {
      IsAllowedPort(port) && cmds == CommandTable &&
      NoDuplicates(clients) && NicknamesUnique(clients) && ChannelNamesUnique(channels)
    }

    constructor(port: nat, password: string, socketFd: int)
      requires IsAllowedPort(port)
      ensures Valid()
      ensures this.port == port && this.password == password && this.socketFd == socketFd
      ensures clients == [] && channels == []
    {
      this.port := port;
      this.password := password;
      this.socketFd := socketFd;
      cmds := CommandTable;
      clients := [];
      channels := [];
    }

    // -------------------------------------------------------------------------
    // Lookups
    // -------------------------------------------------------------------------

    /** The first client on socket `fd`, or null. */
    function GetClientByFd(fd: int): (r: Client?)
      reads this
      ensures r == null <==> forall c :: c in clients ==> c.fd != fd
      ensures r != null ==>
                exists i :: 0 <= i < |clients| && clients[i] == r && r.fd == fd &&
                            forall j :: 0 <= j < i ==> clients[j].fd != fd
    {
      var i := FdIndex(clients, fd);
      if i < |clients| then clients[i] else null
    }

    /** The first client named `nick`, or null: null exactly when the name is
        available. */
    function GetClientByNick(nick: string): (r: Client?)
      reads this, clients
      ensures r == null <==> NameAvailable(clients, nick)
      ensures r != null ==>
                exists i :: 0 <= i < |clients| && clients[i] == r && r.nickname == nick &&
                            forall j :: 0 <= j < i ==> clients[j].nickname != nick
    {
      var i := NickIndex(clients, nick);
      if i < |clients| then clients[i] else null
    }

    /** The first channel named `name`, or null; never a channel for the empty name. */
    function GetChannelByName(name: string): (r: Channel?)
      reads this
      ensures name == "" ==> r == null
      ensures r == null <==> name == "" || forall ch :: ch in channels ==> ch.name != name
      ensures r != null ==>
                exists i :: 0 <= i < |channels| && channels[i] == r && r.name == name &&
                            forall j :: 0 <= j < i ==> channels[j].name != name
    {
      if name == "" then null
      else
        var i := NameIndex(channels, name);
        if i < |channels| then channels[i] else null
    }

    /** With unique nicknames, looking a name up finds the one client that has it. */
    lemma LookupFindsOwner(c: Client)
      requires Valid()
      requires c in clients && c.nickname != ""
      ensures GetClientByNick(c.nickname) == c
    {
      var r := GetClientByNick(c.nickname);
      assert r != null;
    }

    // -------------------------------------------------------------------------
    // Registry operations
    // -------------------------------------------------------------------------

    /** The descriptor list for poll(2): the listening socket, then every client's
        socket in list order, all waiting for input. */
    method GetFdsAsVector() returns (fds: seq<PollFd>)
      ensures |fds| == 1 + |clients|
      ensures fds[0] == PollFd(socketFd, POLLIN)
      ensures forall i :: 0 <= i < |clients| ==> fds[i + 1] == PollFd(clients[i].fd, POLLIN)
    {
      fds := [PollFd(socketFd, POLLIN)];
      var i := 0;
      while i < |clients|
        invariant 0 <= i <= |clients|
        invariant |fds| == 1 + i
        invariant fds[0] == PollFd(socketFd, POLLIN)
        invariant forall j :: 0 <= j < i ==> fds[j + 1] == PollFd(clients[j].fd, POLLIN)
      {
        fds := fds + [PollFd(clients[i].fd, POLLIN)];
        i := i + 1;
      }
      // The source throws when the list is empty; it always holds the listening socket.
    }

    /** A newly accepted connection: a fresh client on socket `fd` joins the end of the
        list. A lookup by `fd` still finds an earlier client on that socket first. */
    method AddClient(fd: int) returns (c: Client)
      requires Valid()
      modifies this
      ensures Valid() && fresh(c)
      ensures c.fd == fd && c.nickname == "" && c.username == "" && c.fullname == ""
      ensures c.outbox == [] && c.channels == {}
      ensures clients == old(clients) + [c] && channels == old(channels)
      ensures GetClientByFd(fd) == if old(GetClientByFd(fd)) == null then c else old(GetClientByFd(fd))
    {
      c := new Client(fd);
      FdIndexAppend(clients, c, fd);
      clients := clients + [c];
    }

    /** Taking a client out of the list: every client on the same socket goes (client
        equality compares sockets), the others keep their order, and a lookup by that
        socket then finds nothing. */
    method RemoveClient(client: Client?)
      requires Valid()
      modifies this
      ensures Valid()
      ensures channels == old(channels)
      ensures client == null ==> clients == old(clients)
      ensures client != null ==>
                clients == WithoutFd(old(clients), client.fd) && GetClientByFd(client.fd) == null
    {
      if client == null {
        return;
      }
      WithoutFdDistinct(clients, client.fd);
      clients := WithoutFd(clients, client.fd);
    }

    /** A channel named after the message's channel name, created by the sender, unless
        one of that name exists. The empty name never matches, so it is always created.
        The channel is built as a temporary and copied into the list; the temporary's
        destructor then takes the temporary out of the sender's channel set, so the
        sender's set ends as it began and never holds the stored channel. */
    method CreateNewChannel(msg: Message) returns (ch: Channel?)
      requires Valid()
      modifies this, msg.sender
      ensures Valid()
      ensures clients == old(clients)
      ensures old(GetChannelByName(msg.channelName)) != null ==>
                ch == null && channels == old(channels) && unchanged(msg.sender)
      ensures old(GetChannelByName(msg.channelName)) == null ==>
                ch != null && fresh(ch) && channels == old(channels) + [ch] &&
                ch.name == msg.channelName && ch.members == [msg.sender] &&
                ch.operators == [msg.sender] && ch.topic == "" && ch.key == "" &&
                ch.limit == 0 && !ch.inviteOnly && !ch.topicProtected &&
                msg.sender.channels == old(msg.sender.channels) && ch !in msg.sender.channels &&
                msg.sender.outbox == old(msg.sender.outbox) +
                  [Line(JoinLine(old(msg.sender.nickname), old(msg.sender.username), msg.channelName))] &&
                msg.sender.nickname == old(msg.sender.nickname) &&
                msg.sender.username == old(msg.sender.username) &&
                msg.sender.fullname == old(msg.sender.fullname)
    {
      if GetChannelByName(msg.channelName) != null {
        return null;
      }
      var temporary := new Channel(msg.channelName, msg.sender);
      ch := new Channel.Copy(temporary);
      temporary.Destroy();
      channels := channels + [ch];
    }

    // -------------------------------------------------------------------------
    // What each command does, stated once and used by the handler, the gate, the
    // dispatcher and message processing
    // -------------------------------------------------------------------------

    /** The client list is as it was, and so is every client on it other than
        `except`. */
    twostate predicate OthersUnchanged(except: Client)
      reads this, clients
    {
      clients == old(clients) &&
      forall c :: c in clients && c != except ==> unchanged(c)
    }

    /** NICK: an empty name gets 431 and a taken one 433, both leaving the name; a free
        name is set and the sender alone is told `:<old>!<user>@localhost NICK :<new>`,
        where <old> is the new name when none was set. */
    twostate predicate NickEffect(msg: Message)
      reads this, clients, msg.sender
    {
      var s := msg.sender;
      var name := msg.Arg(0);
      var before := old(s.nickname);
      clients == old(clients) && OthersUnchanged(s) &&
      if name == "" then
        s.Received([Numeric(ERR_NONICKNAMEGIVEN, ":No nickname given")])
      else if !old(NameAvailable(clients, name)) then
        s.Received([Numeric(ERR_NICKNAMEINUSE, name + " :Nickname is already in use")])
      else
        s.nickname == name && s.username == old(s.username) &&
        s.fullname == old(s.fullname) && s.channels == old(s.channels) &&
        s.outbox == old(s.outbox) + [Line(NickLine(if before == "" then name else before, old(s.username), name))]
    }

    /** USER: with three arguments and a trailing text all non-empty, the username
        becomes the first argument and the full name the text, and nothing is sent;
        otherwise 461 and nothing changes. */
    twostate predicate UserEffect(msg: Message)
      reads this, clients, msg.sender
    {
      var s := msg.sender;
      clients == old(clients) && OthersUnchanged(s) &&
      if msg.Arg(0) != "" && msg.Arg(1) != "" && msg.Arg(2) != "" && msg.colon != "" then
        s.username == msg.Arg(0) && s.fullname == msg.colon &&
        s.nickname == old(s.nickname) && s.channels == old(s.channels) && s.outbox == old(s.outbox)
      else
        s.Received([Numeric(ERR_NEEDMOREPARAMS, "USER :Not enough parameters")])
    }

    /** PRIVMSG: no recipient gets 411, then no text 412, then an unknown nickname 401,
        each to the sender only; otherwise the first client with that nickname, and no
        one else, is sent one `:<nick>!<user>@localhost PRIVMSG <recipient> :<text>`. */
    twostate predicate PrivmsgEffect(msg: Message)
      reads this, clients, msg.sender
    {
      var s := msg.sender;
      var to := msg.Arg(0);
      clients == old(clients) &&
      if to == "" then
        s.Received([Numeric(ERR_NORECIPIENT, ":No recipient given (PRIVMSG)")]) && OthersUnchanged(s)
      else if msg.colon == "" then
        s.Received([Numeric(ERR_NOTEXTTOSEND, ":No text to send")]) && OthersUnchanged(s)
      else if old(GetClientByNick(to)) == null then
        s.Received([Numeric(ERR_NOSUCHNICK, to + " :No such nick/channel")]) && OthersUnchanged(s)
      else
        var r := old(GetClientByNick(to));
        r.Received([Line(PrivmsgLine(old(s.nickname), old(s.username), to, msg.colon))]) &&
        OthersUnchanged(r) && (s != r ==> unchanged(s))
    }

    /** What the registration gate does with a message from a client that is not yet
        registered: without a nickname only NICK is acted on, without a username only
        USER; every other command gets 451 and changes nothing. */
    twostate predicate GateEffect(msg: Message)
      reads this, clients, msg.sender
    {
      var s := msg.sender;
      if old(s.nickname) == "" then
        if msg.cmd == "NICK" then NickEffect(msg)
        else clients == old(clients) && s.Received([NotRegistered]) && OthersUnchanged(s)
      else
        if msg.cmd == "USER" then UserEffect(msg)
        else clients == old(clients) && s.Received([NotRegistered]) && OthersUnchanged(s)
    }

    /** Nothing in the registry changed. */
    twostate predicate NoEffect(msg: Message)
      reads this, clients, msg.sender
    {
      clients == old(clients) && unchanged(msg.sender) && OthersUnchanged(msg.sender)
    }

    /** What running the handler `c` does. WHOIS, JOIN, INVITE, TOPIC, MODE, KICK and
        PART have empty bodies. */
    twostate predicate HandlerEffect(c: Command, msg: Message)
      reads this, clients, msg.sender
    {
      match c
      case NickCmd => NickEffect(msg)
      case UserCmd => UserEffect(msg)
      case PrivmsgCmd => PrivmsgEffect(msg)
      case _ => NoEffect(msg)
    }

    /** What dispatching does: nothing for an empty command, the one handler the table
        names for a known command, and a single 421 to the sender otherwise. */
    twostate predicate DispatchEffect(msg: Message)
      reads this, clients, msg.sender
    {
      if msg.cmd == "" then NoEffect(msg)
      else if msg.cmd in cmds then HandlerEffect(cmds[msg.cmd], msg)
      else
        clients == old(clients) && OthersUnchanged(msg.sender) &&
        msg.sender.Received([Numeric(ERR_UNKNOWNCOMMAND, msg.cmd + " :Unknown command")])
    }

    // -------------------------------------------------------------------------
    // Handlers, gate, dispatch
    // -------------------------------------------------------------------------

    method Nick(msg: Message)
      requires Valid()
      modifies msg.sender
      ensures Valid()
      ensures NickEffect(msg)
    {
      var sender := msg.sender;
      var oldNickname := sender.nickname;
      var newNickname := msg.Arg(0);
      if oldNickname == "" {
        oldNickname := newNickname;
      }
      if newNickname == "" {
        sender.Send(Numeric(ERR_NONICKNAMEGIVEN, ":No nickname given"));
      } else if !NameAvailable(clients, newNickname) {
        sender.Send(Numeric(ERR_NICKNAMEINUSE, newNickname + " :Nickname is already in use"));
      } else {
        sender.nickname := newNickname;
        sender.Send(Line(NickLine(oldNickname, sender.username, newNickname)));
      }
    }

    method User(msg: Message)
      requires Valid()
      modifies msg.sender
      ensures Valid()
      ensures UserEffect(msg)
    {
      var sender := msg.sender;
      if msg.Arg(0) != "" && msg.Arg(1) != "" && msg.Arg(2) != "" && msg.colon != "" {
        sender.username := msg.Arg(0);
        sender.fullname := msg.colon;
      } else {
        sender.Send(Numeric(ERR_NEEDMOREPARAMS, "USER :Not enough parameters"));
      }
    }

    method Privmsg(msg: Message)
      requires Valid()
      modifies msg.sender, clients
      ensures Valid()
      ensures PrivmsgEffect(msg)
    {
      var sender := msg.sender;
      var receiverNickname := msg.Arg(0);
      if receiverNickname == "" {
        sender.Send(Numeric(ERR_NORECIPIENT, ":No recipient given (PRIVMSG)"));
        return;
      }
      if msg.colon == "" {
        sender.Send(Numeric(ERR_NOTEXTTOSEND, ":No text to send"));
        return;
      }
      var receiver := GetClientByNick(receiverNickname);
      if receiver == null {
        sender.Send(Numeric(ERR_NOSUCHNICK, receiverNickname + " :No such nick/channel"));
        return;
      }
      receiver.Send(Line(PrivmsgLine(sender.nickname, sender.username, receiverNickname, msg.colon)));
    }

    /** The registration gate: true exactly when the sender already has a nickname and a
        username, in which case nothing happened. */
    method IsLoggedIn(msg: Message) returns (loggedIn: bool)
      requires Valid()
      modifies msg.sender
      ensures Valid()
      ensures loggedIn <==> old(msg.sender.Registered())
      ensures !loggedIn ==> GateEffect(msg)
      ensures loggedIn ==> unchanged(msg.sender)
    {
      if msg.sender.nickname == "" {
        if msg.cmd == "NICK" {
          Nick(msg);
        } else {
          msg.sender.Send(NotRegistered);
        }
        return false;
      }
      if msg.sender.username == "" {
        if msg.cmd == "USER" {
          User(msg);
        } else {
          msg.sender.Send(NotRegistered);
        }
        return false;
      }
      return true;
    }

    /** Dispatch by exact command name. */
    method ChooseCommand(msg: Message)
      requires Valid()
      modifies msg.sender, clients
      ensures Valid()
      ensures DispatchEffect(msg)
    {
      if msg.cmd == "" {
        return;
      }
      if msg.cmd in cmds {
        match cmds[msg.cmd]
        case NickCmd => Nick(msg);
        case UserCmd => User(msg);
        case PrivmsgCmd => Privmsg(msg);
        case _ =>
      } else {
        msg.sender.Send(Numeric(ERR_UNKNOWNCOMMAND, msg.cmd + " :Unknown command"));
      }
    }

    /** One parsed line from a client: the gate first, then the channel the line names
        is looked up, then dispatch. */
    method ProcessMessage(msg: Message)
      requires Valid()
      modifies msg.sender, clients
      ensures Valid()
      ensures !old(msg.sender.Registered()) ==> GateEffect(msg)
      ensures old(msg.sender.Registered()) ==>
                DispatchEffect(msg.(channel := old(GetChannelByName(msg.channelName))))
    {
      var loggedIn := IsLoggedIn(msg);
      if !loggedIn {
        return;
      }
      var resolved := msg.(channel := GetChannelByName(msg.channelName));
      ChooseCommand(resolved);
    }
  }
}

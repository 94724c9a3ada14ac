# ft_irc command core, modelled in Dafny

This project models the command-processing core of a small IRC-style chat server
written in C++. The model covers two parts of it.

- **The server** (`src/Server.cpp`) holds an ordered list of clients and an ordered list
  of channels. It also holds a table from command names to handlers. The model covers:
  - the start-up check on the port argument;
  - the registration gate, which lets NICK and then USER through before anything else;
  - the dispatcher;
  - the three handlers that have bodies: NICK, USER and PRIVMSG;
  - adding, removing and looking up clients and channels;
  - building the descriptor list for `poll`.
- **A channel** (`src/Channel.cpp`) holds an ordered member list, an operator list, a
  key, a member limit and two mode flags. The model covers:
  - creating a channel;
  - the join admission chain (already a member, then key, then invite-only, then limit);
  - the broadcast to all members;
  - the membership test and the "active" test;
  - teardown and channel equality.

Files:

- `wire.dfy` (module `Wire`): the reply lines and the numeric codes. The codes are
  those of section 5.2 of RFC 2812: 401, 411, 412, 421, 431, 433, 443, 451, 461, 471,
  473 and 475.
- `port.dfy` (module `PortRule`): how the port argument is read as an unsigned 16-bit
  number, the acceptance rule (194, or 1024..65535), and a round trip with printed
  numbers.
- `channel.dfy` (module `Channels`): `Client` (the collaborator, cut down to its
  fields), the `Message` record and the `Channel` class.
- `server.dfy` (module `Registry`): the `Server` class, the first-match searches and
  the command handlers.

The C++ changes objects in place, so the model does too. `Client`, `Channel` and
`Server` are classes. Their methods carry `modifies` clauses and state the whole new
state. A handler's effect is written once, as a two-state predicate (`NickEffect`,
`UserEffect`, `PrivmsgEffect`, `GateEffect`, `DispatchEffect`). The handler, the gate,
the dispatcher and `ProcessMessage` all promise the same predicate. The registry keeps
an invariant, `Server.Valid`: clients are listed once, nicknames that have been set are
unique, channel names other than "" are unique, and the command table is the one built
at construction. Every operation that changes the registry preserves it.

Assumptions about code that is not part of the model:

- **`Client`**:
  - `Client(fd)` starts with an empty nickname, username and full name, an empty
    outbox and an empty channel set. `Registry.Server.AddClient` and the registration
    gate rely on this.
  - `sendMessage` (both forms) appends the line to the client's outbox. A numeric reply
    is kept as its code and text; the client's framing is not modelled.
  - The client's channel list behaves as a set: `addChannel` adds an element and
    `removeChannel` removes one.
  - `Client::operator==` compares socket descriptors, so `std::list::remove` in
    `removeClient` drops every client on the same socket.
- **`Message`**: a record of the sender, the command word, the positional arguments,
  the trailing `:` text, the channel name and the resolved channel. `getArg(i)` is ""
  when there are fewer than `i + 1` arguments.
- **`isNameAvailable(clients, n)`** means that no client's nickname equals `n`. The
  sender counts, so `NICK` with one's own nickname gets 433.
- **`getInstanceByName(clients, n)`** returns the first client whose nickname is `n`.
  This is the same search as `getClientByNick`.
- **`iss >> u_int16_t`** behaves as libstdc++ (`_M_extract_int`) and libc++
  (`__num_get_unsigned_integral`) both implement it:
  - leading C white space is skipped;
  - one `+` or `-` sign may follow;
  - the longest run of decimal digits is read, leading zeros included, and anything
    after it is ignored;
  - the read fails if there are no digits or the digits denote more than 65535;
  - after a `-` the value is negated modulo 65536, so "-1" reads as 65535 and is
    accepted as a port. The C++ standard's wording for this case is disputed; the model
    follows the two libraries.

Behaviour of the code that differs from what RFC 2812 leads one to expect. The model
follows the code in each case:

- There is no PASS step. The password is stored and never compared.
- NICK must come before USER. A USER sent while the nickname is still empty gets 451
  and is not acted on. A NICK sent after the nickname is set but before USER gets 451
  too.
- Completing registration sends no welcome reply.
- After registration, NICK and USER go through the dispatcher again. A second USER
  overwrites the username and the full name; it does not get 462 (section 3.1.3 of RFC 2812).
- PRIVMSG delivers to nicknames only. A `#channel` target gets 401 unless some client
  has that nickname.
- A successful join sends the JOIN line to the joiner directly and again in the
  broadcast, so the joiner gets it twice. No topic or name list follows.
- The invite-only check refuses every joiner, because invitations are not tracked.
- `createNewChannel` builds the channel as a temporary and stores a member-wise copy.
  The temporary's constructor adds the temporary to the creator's channel set, and its
  destructor removes it again at the end of the statement. So the creator's channel
  set ends as it began and never holds the stored channel, although the stored channel
  lists the creator as its member and operator.
- `getChannelByName("")` is always null, so `createNewChannel` with an empty name
  always appends a new channel.
- Removing a client does not take it out of the channels it joined.

## Model

| member | source | states |
|---|---|---|
| `PortRule.ExtractUShort` | src/Server.cpp:41-45 | The value read never exceeds 65535. A string that has no digit after the skipped white space and optional sign fails to read. |
| `PortRule.ParsePort` | src/Server.cpp:44-53 | The port is accepted exactly when it reads and its value is 194 or lies in 1024..65535. An accepted port is the value read. The result is InvalidPortNumber exactly when the read fails; otherwise a rejection is PortOutOfRange. |
| `PortRule.DecimalRoundTrip` | src/Server.cpp:44 | The printed decimal numeral of n denotes n. |
| `PortRule.ExtractSignedDigits` | src/Server.cpp:44 | After the white space: an optional sign, a run of digits and any text not starting with a digit read as the digits' value. A `-` negates that value modulo 65536. The read fails exactly when the digits denote more than 65535. |
| `PortRule.ExtractDigits` | src/Server.cpp:44-45 | The same with any white space in front: white space, an optional sign, digits (leading zeros allowed) and a non-digit tail read as above. |
| `PortRule.ExtractDecimal` | src/Server.cpp:44-45 | White space, an optional sign, the numeral of n, then any text not starting with a digit, reads as n (or -n modulo 65536 after a `-`) when n is at most 65535. Otherwise the read fails. |
| `PortRule.ParsePortOfDecimal` | src/Server.cpp:44-53 | For such a string, the value read is accepted when it is 194 or in 1024..65535, and is PortOutOfRange otherwise. A magnitude above 65535 gives InvalidPortNumber, so the source's own `> 65535` test never fires. |
| `PortRule.MinusOneIsTopPort` | src/Server.cpp:44-53 | "-1" is accepted as port 65535. |
| `PortRule.MinusZeroOutOfRange` | src/Server.cpp:44-53 | "-0" reads as 0 and is rejected as out of range. |
| `PortRule.PlusSignAccepted` | src/Server.cpp:44-53 | " +6667x" is accepted as port 6667: white space, a `+` and trailing text do not stop the read. |
| `Registry.Start` | src/Server.cpp:18-57 | Construction fails exactly when the port is rejected, with that error. On success the server holds the accepted port, the password, an empty registry and the ten-entry command table, and satisfies the registry invariant. |
| `Registry.Server.constructor` | src/Server.cpp:18-31 | A new server has the given port and password, no clients, no channels, and the command table. |
| `Registry.FdIndex` | src/Server.cpp:497-505 | Returns the position of the first client on the socket; no earlier client is on it; the list's length means none is. |
| `Registry.NickIndex` | src/Server.cpp:507-515 | Returns the position of the first client with the nickname; no earlier client has it; the list's length means none does. |
| `Registry.NameIndex` | src/Server.cpp:539-544 | Returns the position of the first channel with the name; no earlier channel has it; the list's length means none does. |
| `Registry.Server.GetClientByFd` | src/Server.cpp:497-505 | Null exactly when no client is on the socket. Otherwise the result is a listed client on that socket with no earlier client on it. |
| `Registry.Server.GetClientByNick` | src/Server.cpp:507-515 | Null exactly when the name is available (no client has it). Otherwise the result is the first listed client with that nickname. |
| `Registry.Server.GetChannelByName` | src/Server.cpp:532-545 | Null for the empty name, and null exactly when the name is empty or unused. Otherwise the result is the first listed channel with that name. |
| `Registry.Server.LookupFindsOwner` | src/Server.cpp:382-387 | Under the registry invariant, looking up a set nickname finds the one client that has it. |
| `Registry.FdIndexAppend` | src/Server.cpp:482-505 | After a client is appended, a socket lookup still finds an earlier client on that socket first. Otherwise it finds the new client if it is on that socket. |
| `Registry.Server.AddClient` | src/Server.cpp:482-485 | A fresh client with empty identity and outbox is appended to the end of the list; channels are untouched. A socket lookup afterwards returns an earlier client on that socket if there was one, else the new client. The invariant is kept. |
| `Registry.WithoutFd` | src/Server.cpp:487-495 | The remaining list holds exactly the clients not on the socket. |
| `Registry.WithoutFdAppend` | src/Server.cpp:491 | Removal works element by element, so the kept clients stay in order. |
| `Registry.WithoutFdDistinct` | src/Server.cpp:491 | Removal keeps a duplicate-free list duplicate-free. |
| `Registry.Server.RemoveClient` | src/Server.cpp:487-495 | Null changes nothing. Otherwise every client on that socket is removed and the rest keep their order, after which a lookup by that socket finds nothing. The invariant is kept. |
| `Registry.Server.CreateNewChannel` | src/Server.cpp:547-554 | If a channel of that name exists: returns null and nothing changes. Otherwise exactly one fresh channel is appended, with the sender as its only member and operator and every mode off. The sender is sent the JOIN line once. Its channel set ends as it began and does not hold the stored channel: the temporary built first is copied, then destroyed. Clients are untouched and channel names stay unique. |
| `Registry.Server.GetFdsAsVector` | src/Server.cpp:211-228 | Returns one more entry than there are clients: the listening socket first, then each client's socket in list order, all waiting for POLLIN. |
| `Registry.Server.Nick` | src/Server.cpp:314-336 | An empty argument gets 431 and a taken name gets 433 `<new> :Nickname is already in use`; in both cases the identity is kept. Otherwise the nickname becomes the argument and the sender alone is sent `:<old>!<user>@localhost NICK :<new>`, where `<old>` is the new name if none was set. No other client changes and nicknames stay unique. |
| `Registry.Server.User` | src/Server.cpp:338-350 | If argument 0, argument 1, argument 2 and the trailing text are all non-empty: the username becomes argument 0, the full name becomes the text, and nothing is sent. Otherwise the sender gets 461 `USER :Not enough parameters` and nothing changes. |
| `Registry.Server.Privmsg` | src/Server.cpp:363-398 | Errors are checked in order: no recipient gets 411, then no text gets 412, then an unknown nickname gets 401. Each error goes to the sender only. On success the first client with that nickname, and no one else, is sent exactly one `:<nick>!<user>@localhost PRIVMSG <recv> :<text>`. |
| `Registry.Server.IsLoggedIn` | src/Server.cpp:271-293 | Returns true exactly when the sender had both a nickname and a username; then nothing changed. While the nickname is empty, only NICK runs its handler and every other command gets one 451. After that, while the username is empty, only USER does. |
| `Registry.Server.ChooseCommand` | src/Server.cpp:295-311 | An empty command does nothing. A command equal to a table key has exactly that handler's effect; the handlers without bodies change nothing. Any other command sends the sender one 421 `<cmd> :Unknown command`. |
| `Registry.Server.ProcessMessage` | src/Server.cpp:253-269 | For a sender not yet registered, the effect is the gate's. For a registered sender, it is the dispatcher's on the message with the channel it names looked up first. The registry invariant is kept. |
| `Registry.EqualsIsIdentity` | src/Channel.cpp:44-47 | In a channel list with unique names, comparing channels by name is the same as comparing them by identity. |
| `Channels.Channel.constructor` | src/Channel.cpp:16-28 | The creator is the only member and the only operator. Topic and key are empty, the limit is 0 and both flags are off. The channel is active. The creator records the channel and is sent one `:<nick>!<user>@localhost JOIN <name> * :realname`. |
| `Channels.Channel.IsClientInChannel` | src/Channel.cpp:214-226 | True exactly when that very client object is in the member list. |
| `Channels.Channel.SendMessageToClients` | src/Channel.cpp:49-60 | Every member receives the line exactly once, with nothing excluded, and nothing else about them changes. |
| `Channels.Channel.Admission` | src/Channel.cpp:72-106 | Admitted exactly when all of these hold: the sender is not a member; the key is unset or equals argument 0; the channel is not invite-only; the limit is 0 or the member count is below it. Otherwise the refusal is picked in order: 443 for a member, then 475 for a wrong key, then 473 for invite-only, then 471 for a full channel. |
| `Channels.Channel.AddClient` | src/Channel.cpp:70-125 | On refusal the sender gets only the refusal reply, and the member list and every other member are unchanged. On admission the sender is appended at the end and records the channel. The sender gets the JOIN line twice (direct, then broadcast), and every earlier member gets it once. The modes and operators never change. |
| `Channels.Channel.Destroy` | src/Channel.cpp:31-41 | Every former member's channel set loses this channel and nothing else about them changes. The member list is then empty, so the channel is inactive (the test of src/Channel.cpp:202-209). |

## Left out

- The event loop in `goOnline` is left out because it is socket I/O: `poll`, `accept`,
  `fcntl`, `read`, `close`, and erasing from the descriptor list. `initNetwork` is left
  out for the same reason. The listening socket's descriptor is a parameter of
  `Registry.Start`.
- `shutDown` and `broadcastMessage` are left out: they sleep and send a placeholder
  frame.
- The SIGINT handler and its `volatile sig_atomic_t` flag are left out: they run in an
  asynchronous context.
- Logging (`Logger::log`, `info`) is left out: it only writes output. `ServerException`
  is modelled only as the `Aborted` outcome of `Registry.Start`.
- Handlers and methods with empty bodies are left out: `whois`, `join`, `invite`,
  `topic`, `mode`, `kick`, `part`, `addChannel`, `removeChannel`,
  `Channel::addOperator`, `Channel::removeClient` and `Channel::manageMode`. The
  dispatcher still routes to the seven empty handlers, and the model says they change
  nothing.
- The server destructor is left out: its body is empty.
- The password is stored but never checked, so there is nothing about it to model.
- Line buffering (`appendBuffer`, `getFullMessage`) and the `Message` tokenizer are
  not part of this model: their sources are not available. A message arrives already
  parsed.
- The network framing of replies (server prefix, recipient nickname, CRLF) is done by
  `Client::sendMessage`, which is not part of this model. Outboxes hold the reply's code
  and text.
- `Registry.Server.GetFdsAsVector`: the source's exception for an empty list is not
  modelled, because the list always holds the listening socket.
- Registry.Server.CreateNewChannel: the source passes a `Client*` where the
  constructor at src/Channel.cpp:16 takes a `Client &`. The model takes the call to mean
  the pointed-to client. `Channel.hpp`, which might declare another constructor, is not
  part of this model.

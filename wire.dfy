/** The lines a client is sent: numeric replies of section 5.2 of RFC 2812 and the
    prefixed command lines the server composes itself. */
module Wire {

  /** One line in a client's outbox. A numeric reply keeps its code and text apart: the
      client adds the server prefix, its own nickname and the line terminator when it
      frames the line, and that framing belongs to the client, not to this model. */
  datatype Reply = Numeric(code: nat, text: string) | Line(text: string)

  // Error replies, with the values section 5.2 of RFC 2812 gives them.
  const ERR_NOSUCHNICK: nat := 401
  const ERR_NORECIPIENT: nat := 411
  const ERR_NOTEXTTOSEND: nat := 412
  const ERR_UNKNOWNCOMMAND: nat := 421
  const ERR_NONICKNAMEGIVEN: nat := 431
  const ERR_NICKNAMEINUSE: nat := 433
  const ERR_USERONCHANNEL: nat := 443
  const ERR_NOTREGISTERED: nat := 451
  const ERR_NEEDMOREPARAMS: nat := 461
  const ERR_CHANNELISFULL: nat := 471
  const ERR_INVITEONLYCHAN: nat := 473
  const ERR_BADCHANNELKEY: nat := 475

  /** The source tag `:<nick>!<user>@localhost` of a line a client originates. */
  function Source(nick: string, user: string): string
  {
    ":" + nick + "!" + user + "@localhost"
  }

  /** The JOIN notice sent when `nick` enters `channel` (section 3.2.1 of RFC 2812). */
  function JoinLine(nick: string, user: string, channel: string): string
  {
    Source(nick, user) + " JOIN " + channel + " * :realname"
  }

  /** The NICK notice for a change from `oldNick` to `newNick` (section 3.1.2 of RFC 2812). */
  function NickLine(oldNick: string, user: string, newNick: string): string
  {
    Source(oldNick, user) + " NICK :" + newNick
  }

  /** The PRIVMSG line delivered to `receiver` (section 3.3.1 of RFC 2812). */
  function PrivmsgLine(nick: string, user: string, receiver: string, text: string): string
  {
    Source(nick, user) + " PRIVMSG " + receiver + " :" + text
  }
}

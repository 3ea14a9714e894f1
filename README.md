# Ticket bot core, modelled in Dafny

This project models the decision logic of a small chat-platform "support ticket" bot
(`bot.js`). Administrators configure a guild with `!setup @staff #hexColor [imageURL]` and
publish a panel with `!panel`. Members press the panel's `create_ticket` button to open a
private `ticket-<username>` channel. `!status` counts open tickets. A ticket is closed with
the text command `!close` or the `close_ticket` button. In both cases the channel is deleted
five seconds later.

The model has no platform types. What the handlers learn about the caller becomes plain
input: whether the author is a bot, whether the message is in a guild, administrator
permission, view permission on the channel, the first mentioned role, the username, and the
random quote index. The state is two objects:

- `Bot.TicketBot` holds the per-guild configuration map (`config`). Only `!setup` replaces
  a record, and it replaces the whole record.
- `Tickets.Guild` holds one guild's channels as a map from channel id to channel (name and
  permission overwrites). It also holds the multiset of deletions scheduled by a close whose
  timer has not fired yet. Channels are keyed by id rather than kept as a set of names
  because the platform allows two channels with the same name, and `!status` counts
  channels, not distinct names.

Files:

- `wrappers.dfy`: `Option` and `Result` (a value, or the text of the error reply).
- `text.dfy`: JavaScript's `trim` (the full ECMAScript whitespace set), `split(/ +/)`
  (splits on runs of U+0020 only), `startsWith`/`endsWith`, ASCII lower-casing. Also the
  split/join round trip for any run of spaces between tokens, and the fact that splitting
  keeps every non-space character in order.
- `commands.dfy`: prefix parsing, the colour token `^#?[0-9A-Fa-f]{6}$` and the image-URL
  token `^https?:.*\.(?:gif|png|jpe?g)$` written as character-level predicates,
  `Array.prototype.find`, colour normalisation, and `!setup` argument resolution.
- `tickets.dfy`: channels, permission overwrites, ticket names, the ticket count, and the
  `Guild` class with the platform operations the handlers use (create a channel, schedule a
  deletion, a scheduled deletion fires).
- `bot.dfy`: the `messageCreate` and `interactionCreate` handlers as methods of
  `TicketBot`. Two client methods are scenarios proved from the handlers' contracts alone.
  `SetupThenPanel`: setup, panel, and a non-admin refused the panel. `OpenTwiceThenClose`:
  open, a second open refused, close, and removal only when the timer fires.

Details of `bot.js` that the model keeps:

- `bot.js` splits arguments on runs of spaces only. A tab or newline inside the text stays
  inside a token. Only `trim` removes other whitespace, and only at the ends.
- `!setup` uses the first role the message mentions, the first argument that is a colour
  token, and the first argument that is an image URL. The URL test is case-sensitive and
  its middle part may not contain a line terminator.
- `!status` has no administrator check. It counts every channel whose name starts with
  `ticket-`.
- The `close_ticket` button schedules the deletion of whatever channel it was pressed in,
  with no check of the name or of permissions.

## Model

| member | source | states |
|---|---|---|
| `Text.IsWhitespace` | bot.js:56 | The characters `trim` strips: ECMAScript WhiteSpace (tab, vertical tab, form feed, space, no-break space, byte order mark, the Zs category) and LineTerminator (line feed, carriage return, U+2028, U+2029) |
| `Text.TrimStart` | bot.js:56 | The result is a suffix of the input, every dropped character is whitespace, and the result does not start with whitespace |
| `Text.TrimEnd` | bot.js:56 | The result is a prefix of the input, every dropped character is whitespace, and the result does not end with whitespace |
| `Text.Trim` | bot.js:56 | The trimmed text is no longer than the input and neither starts nor ends with whitespace (what it keeps is stated by `Text.TrimKeepsMiddle`) |
| `Text.TrimKeepsMiddle` | bot.js:56 | The input is some whitespace, then exactly the trimmed text, then some whitespace: `trim` removes nothing else |
| `Text.TrimIdempotent` | bot.js:56 | Trimming twice is trimming once |
| `Text.TrimSkipsLeadingWhitespace` | bot.js:56 | Whitespace in front of a text does not change its trimmed form |
| `Text.TrimSkipsTrailingWhitespace` | bot.js:56 | Whitespace after a text does not change its trimmed form |
| `Text.TrimAround` | bot.js:56 | A text that neither starts nor ends with whitespace, with any whitespace around it, trims to exactly that text |
| `Text.Split` | bot.js:56 | `split(/ +/)` yields at least one piece and no piece contains a space |
| `Text.SplitJoin` | bot.js:56 | Splitting non-empty, space-free tokens joined by runs of one or more spaces, each run of any length, gives back exactly those tokens, in order |
| `Text.SplitCollapse` | bot.js:56 | A space in front of a space changes nothing: two spaces split like one (the `+` of `/ +/`) |
| `Text.SplitCollapsesRun` | bot.js:56 | A run of any positive number of spaces splits like a single space |
| `Text.SplitKeepsText` | bot.js:56 | The pieces, run together, are the input with its spaces removed: nothing else is lost or reordered |
| `Text.SplitPiecesNonEmpty` | bot.js:56 | For text not ending in a space, only the first piece can be empty, and it is empty exactly when the text is empty or starts with a space |
| `Text.ToLowerAscii` | bot.js:132 | Lower-casing keeps the length and lower-cases each character in place |
| `Text.LowerIdempotent` | bot.js:132 | Lower-casing twice is lower-casing once |
| `Commands.ParseCommand` | bot.js:54-56 | A message yields a command exactly when it starts with `!`; the command and arguments contain no spaces |
| `Commands.ParseRoundTrip` | bot.js:56 | `!`, any whitespace, words separated by runs of one or more spaces, and any whitespace again parse into the first word as the command and the other words, in order, as the arguments; a word may hold a tab or line break inside it |
| `Commands.ParseSkipsLeadingWhitespace` | bot.js:56 | Whitespace between `!` and the command is ignored |
| `Commands.ParseSkipsTrailingWhitespace` | bot.js:56 | Whitespace at the end of a message is ignored |
| `Commands.ParseKeepsWords` | bot.js:56 | With non-blank text after `!`, the command and every argument are non-empty, and together they are the trimmed text without its spaces |
| `Commands.IsColorToken` | bot.js:65 | The regular expression `^#?[0-9A-Fa-f]{6}$`: six hexadecimal digits, optionally after `#`, and nothing else |
| `Commands.NormaliseColor` | bot.js:71 | The stored colour starts with `#`; it is `#` plus six hex digits exactly when the argument was a colour token, and then it keeps the token's six digits |
| `Commands.NormaliseIdempotent` | bot.js:71 | Normalising a normalised colour changes nothing |
| `Commands.CanonicalIsToken` | bot.js:65-71 | A stored colour is itself a colour token and normalises to itself |
| `Commands.IsImageUrl` | bot.js:66 | The regular expression `^https?:.*\.(?:gif\|png\|jpe?g)$`: `http:` or `https:`, any characters but line terminators, then one of the four extensions, case-sensitive |
| `Commands.ImageUrlLength` | bot.js:66 | Every image URL is at least nine characters long, so never empty |
| `Commands.ColorTokenIsNotImageUrl` | bot.js:65-66 | No argument is both a colour token and an image URL |
| `Commands.FindIndex` | bot.js:65-66 | `find` picks the first element satisfying the test, and finds none exactly when no element satisfies it |
| `Commands.ResolveSetup` | bot.js:61-73 | A non-admin gets the permission error. Without a mentioned role or a colour token the caller gets the usage error. Otherwise the record is the role, the first colour token normalised, and the first image URL or the default banner, so the banner is never empty |
| `Tickets.IsTicketName` | bot.js:104-110 | A channel name is a ticket name when it starts with `ticket-` |
| `Tickets.TicketName` | bot.js:132 | A ticket name starts with `ticket-` and is seven characters longer than the username |
| `Tickets.TicketNameCollides` | bot.js:132 | Two users get the same ticket name exactly when their usernames agree up to ASCII case |
| `Tickets.TicketNameIgnoresCase` | bot.js:132 | A user's ticket name does not depend on the case of their username |
| `Tickets.TicketOverwrites` | bot.js:138-142 | A ticket denies view to everyone and denies nothing else to anyone; it allows view and send to the staff role and to the user, and to no one else |
| `Tickets.TicketCount` | bot.js:104-105 | The number `!status` reports: the channels whose name starts with `ticket-`. It never exceeds the number of channels, and it is zero exactly when no channel has a ticket name |
| `Tickets.TicketCountAfterAdd` | bot.js:104-136 | Adding a channel raises the count by one exactly when its name is a ticket name |
| `Tickets.TicketCountAfterDelete` | bot.js:104-119 | Deleting a channel lowers the count by one exactly when that channel existed and had a ticket name |
| `Tickets.NameTaken` | bot.js:133 | A name is taken when some channel of the guild has exactly that name |
| `Tickets.NameTakenAfterAdd` | bot.js:133-136 | After a channel is added, its name is taken, and every name taken before still is |
| `Tickets.Guild.CreateChannel` | bot.js:136-144 | Adds exactly one channel, under an id no channel had, and changes nothing else |
| `Tickets.Guild.ScheduleDeletion` | bot.js:119 | Scheduling a deletion records one pending timer and leaves the channels as they are |
| `Tickets.Guild.DeletionFires` | bot.js:168 | A firing timer removes its channel if it still exists. A timer for an already deleted channel is a no-op here (see "Left out") |
| `Bot.BannerOf` | bot.js:90 | The image shown is never empty: it is the configured banner when that is non-empty and the default banner when it is empty |
| `Bot.PanelEmbed` | bot.js:86-97 | The panel has the guild's colour, a non-empty image and the `create_ticket` button |
| `Bot.WelcomeEmbed` | bot.js:147-161 | The welcome message shows the drawn quote, the guild's colour, a non-empty image and the `close_ticket` button |
| `Bot.SelectCommand` | bot.js:53-56 | No command is selected exactly when the author is a bot, the message is outside a guild, or the text does not start with `!` |
| `Bot.TicketBot.constructor` | bot.js:27-34 | The configuration starts as the records read at start-up |
| `Bot.TicketBot.OnMessage` | bot.js:52-121 | No command, or an unknown one: silence and no state change. `setup`: replaces only this guild's record on success, otherwise replies with the error. `panel`: admin only, needs a record. `status`: reports the ticket count. `close`: only in a ticket channel, only for an admin or a viewer, and then schedules that channel's deletion. No message creates or deletes a channel |
| `Bot.TicketBot.OnInteraction` | bot.js:123-171 | `create_ticket` without a record, or with the user's ticket name already taken, replies with the error and changes nothing. Otherwise it adds exactly one channel with the ticket name and overwrites, and returns the welcome message. `close_ticket` schedules the current channel's deletion whatever its name. Other interactions are ignored |
| `Bot.SetupKeepsRecordsWellFormed` | bot.js:69-73 | After a successful setup every record still has a canonical colour and a non-empty banner, and other guilds' records are unchanged |
| `Bot.SetupExampleParses` | bot.js:56 | `! setup <@&42>  #1abc9c` with a trailing line feed parses into `setup` with the mention and the colour as arguments |
| `Bot.SetupExampleResolves` | bot.js:64-73 | With those arguments and role 42, the record is role 42, colour `#1abc9c`, and the default banner |
| `Bot.TicketNameExample` | bot.js:132 | `Alice` gets the channel `ticket-alice` |

## Left out

- The HTTP liveness endpoint (bot.js:9-18): network I/O.
- Reading and writing the configuration file and JSON (bot.js:29-34, 74): file I/O. The map the file held at start-up is the constructor's argument. The model assumes every loaded entry is a `{roleId, color, gif}` record; a `null` or malformed entry is not modelled.
- Client construction, intents, event registration and login (bot.js:20, 45-50, 174): the chat-platform library is not part of this model.
- Embed titles, button labels and styles, and the reply texts that interpolate a role or a channel (bot.js:75, 87, 95, 105, 149, 157, 162): these are presentation. The model keeps each embed's description, colour, image and button custom id, and it keeps the values those replies echo.
- Choosing the quote with `Math.random` (bot.js:147): the index is an input below 5.
- The five-second delay (bot.js:119, 168): the model records the pending deletion and removes the channel when the timer fires. It does not model time.
- Two concurrent `create_ticket` presses by the same user: handlers run one at a time in the model, so the duplicate-ticket race is not represented.
- `toLowerCase` beyond ASCII (bot.js:132): only `A`-`Z` are lower-cased.
- Renaming of channels by the platform: the model assumes a created channel keeps exactly the name it was given.
- Button presses outside a guild (bot.js:126 dereferences the guild): the model always passes a guild to `OnInteraction`.
- Transport failures of platform calls (send, create, delete, deferReply): no error path for them.
- Tickets.Guild.DeletionFires: in bot.js (lines 119 and 168) a second close within five seconds schedules a second `delete()` of the same channel; when it fires the channel is gone, the platform refuses the call, and the rejected promise is not caught anywhere in the file, so it surfaces as an unhandled rejection (which ends a Node process under its default settings). The model does not represent the process failing: it treats that firing as a no-op.
- Permission resolution: administrator permission and view permission are caller facts given as input. They are not computed from roles and overwrites.

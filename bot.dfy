/** The bot's two event handlers over its per-guild configuration store:
    text commands `!setup`, `!panel`, `!status`, `!close` (bot.js:52-121) and the
    `create_ticket` / `close_ticket` buttons (bot.js:123-171). */
module Bot {
  import opened Wrappers
  import opened Text
  import opened Commands
  import opened Tickets

  /** What the handler learns about a chat message: whether its author is a bot, its text,
      the channel it was posted in, whether the author holds the administrator permission,
      whether the author may view that channel, and the first role the message mentions. */
  datatype Message = Message(
    authorIsBot: bool,
    content: string,
    channel: ChannelId,
    authorIsAdmin: bool,
    authorCanView: bool,
    mentionedRole: Option<RoleId>)

  datatype User = User(id: UserId, username: string)

  /** An interaction: whether it is a button press, the button's custom id, who pressed it,
      and the channel it was pressed in. */
  datatype Interaction = Interaction(isButton: bool, customId: string, user: User, channel: ChannelId)

  /** The parts of an embed the bot fills from data: its description, colour, image,
      and the custom id of the one button attached to it. */
  datatype Embed = Embed(description: string, color: string, image: string, button: string)

  const CREATE_TICKET: string := "create_ticket"
  const CLOSE_TICKET: string := "close_ticket"

  const PANEL_TEXT: string := "Click below to open a support ticket!"

  /** The fixed pool a new ticket's welcome quote is drawn from. */
  const QUOTES: seq<string> := [
    "Believe in yourself. Not in the you who believes in me. Believe in the you who believes in yourself. \U{2013} Kamina",
    "A lesson without pain is meaningless. That\U{2019}s because no one can gain without sacrificing something. \U{2013} Edward Elric",
    "The moment you think of giving up, think of the reason why you held on so long. \U{2013} Natsu Dragneel",
    "If you don\U{2019}t take risks, you can\U{2019}t create a future! \U{2013} Monkey D. Luffy",
    "We each need to find our own inspiration. Sometimes, it\U{2019}s not easy. \U{2013} Kiky\U{014D}"
  ]

  const ADMINS_ONLY: string := "Admins only!"
  const RUN_SETUP_FIRST: string := "Run !setup first."
  const USE_IN_TICKET: string := "Use this inside a ticket channel!"
  const CANNOT_CLOSE: string := "Cannot close this ticket."
  const PANEL_NOT_SET_UP: string := "Panel not set up."
  const ALREADY_OPEN: string := "You already have an open ticket."

  /** What the bot sends in answer to one event. */
  datatype Response =
      /** Nothing: the event selects no command. */
    | Silent
      /** A reply carrying one of the fixed error texts. */
    | Reply(text: string)
      /** `!setup` succeeded; the confirmation echoes the stored record. */
    | SetupSaved(saved: GuildConfig)
      /** `!panel` posted the panel embed with its `create_ticket` button. */
    | PanelPosted(panel: Embed)
      /** `!status` reported this many open tickets. */
    | StatusReply(count: nat)
      /** `!close` posted "Closing in 5 seconds..." and scheduled the deletion. */
    | ClosingNotice
      /** A ticket channel was created; the welcome embed mentions the user there, and the
          presser is told privately which channel it is. */
    | TicketOpened(ticket: ChannelId, mention: UserId, welcome: Embed)
      /** The close button posted "Closing in 5 seconds...", scheduled the deletion and told
          the presser privately that the ticket will close soon. */
    | CloseAcknowledged

  /** `conf.gif || DEFAULT_GIF`: the configured banner unless it is empty. */
  function BannerOf(conf: GuildConfig): (r: string)
    ensures r != ""
    ensures conf.gif != "" ==> r == conf.gif
    ensures conf.gif == "" ==> r == DEFAULT_GIF
  {
    if conf.gif == "" then DEFAULT_GIF else conf.gif
  }

  /** The panel: fixed text, the guild's colour and banner, and the `create_ticket` button. */
  function PanelEmbed(conf: GuildConfig): (r: Embed)
    ensures r.button == CREATE_TICKET && r.color == conf.color && r.image != ""
  {
    Embed(PANEL_TEXT, conf.color, BannerOf(conf), CREATE_TICKET)
  }

  /** The welcome message of a new ticket: the quote drawn, the guild's colour and banner,
      and the `close_ticket` button. */
  function WelcomeEmbed(conf: GuildConfig, quote: string): (r: Embed)
    ensures r.button == CLOSE_TICKET && r.color == conf.color && r.image != "" && r.description == quote
  {
    Embed(quote, conf.color, BannerOf(conf), CLOSE_TICKET)
  }

  /** The command a message selects: none for a bot author, outside a guild, or without the
      prefix; otherwise the parsed command and arguments. */
  function SelectCommand(inGuild: bool, msg: Message): (r: Option<Parsed>)
    ensures r.None? <==> msg.authorIsBot || !inGuild || !StartsWith(msg.content, PREFIX)
    ensures r.Some? ==> r == ParseCommand(msg.content)
  {
    if msg.authorIsBot || !inGuild then None else ParseCommand(msg.content)
  }

  /** The bot: its per-guild configuration, loaded once at start-up and replaced
      record by record by `!setup`. */
  class TicketBot {
    var config: map<GuildId, GuildConfig>

    /** Start-up with the records read from the configuration file (none if it is absent). */
    constructor (loaded: map<GuildId, GuildConfig>)
      ensures config == loaded
    {
      config := loaded;
    }

    /** The `messageCreate` handler. Messages never create or delete channels. Only a
        successful `!setup` changes the configuration, and then only the record of the
        message's guild; only an allowed `!close` schedules a deletion, of the message's
        channel; every other command leaves all state unchanged. */
    method OnMessage(guild: Guild?, msg: Message) returns (resp: Response)
      requires guild != null ==> guild.Valid() && msg.channel in guild.channels
      modifies this, guild
      ensures guild != null ==> guild.Valid() && guild.channels == old(guild.channels) && guild.nextId == old(guild.nextId)
      ensures var sel := SelectCommand(guild != null, msg);
        sel.None? || sel.value.cmd !in ["setup", "panel", "status", "close"] ==>
          && resp == Silent
          && config == old(config)
          && (guild != null ==> guild.pending == old(guild.pending))
      ensures var sel := SelectCommand(guild != null, msg);
        sel.Some? && sel.value.cmd == "setup" ==>
          && guild != null
          && guild.pending == old(guild.pending)
          && match ResolveSetup(msg.authorIsAdmin, msg.mentionedRole, sel.value.args)
             case Ok(c) => config == old(config)[guild.id := c] && resp == SetupSaved(c)
             case Err(e) => config == old(config) && resp == Reply(e)
      ensures var sel := SelectCommand(guild != null, msg);
        sel.Some? && sel.value.cmd == "panel" ==>
          && guild != null
          && config == old(config)
          && guild.pending == old(guild.pending)
          && resp == (if !msg.authorIsAdmin then Reply(ADMINS_ONLY)
                      else if guild.id !in config then Reply(RUN_SETUP_FIRST)
                      else PanelPosted(PanelEmbed(config[guild.id])))
      ensures var sel := SelectCommand(guild != null, msg);
        sel.Some? && sel.value.cmd == "status" ==>
          && guild != null
          && config == old(config)
          && guild.pending == old(guild.pending)
          && resp == StatusReply(TicketCount(guild.channels))
      ensures var sel := SelectCommand(guild != null, msg);
        sel.Some? && sel.value.cmd == "close" ==>
          && guild != null
          && config == old(config)
          && var name := guild.channels[msg.channel].name;
          && (!IsTicketName(name) ==> resp == Reply(USE_IN_TICKET) && guild.pending == old(guild.pending))
          && (IsTicketName(name) && !msg.authorIsAdmin && !msg.authorCanView ==>
                resp == Reply(CANNOT_CLOSE) && guild.pending == old(guild.pending))
          && (IsTicketName(name) && (msg.authorIsAdmin || msg.authorCanView) ==>
                resp == ClosingNotice && guild.pending == old(guild.pending) + multiset{msg.channel})
    {
      resp := Silent;
      if msg.authorIsBot || guild == null {
        return;
      }
      if !StartsWith(msg.content, PREFIX) {
        return;
      }
      var parsed := ParseCommand(msg.content).value;
      var cmd, args := parsed.cmd, parsed.args;
      var gid := guild.id;

      if cmd == "setup" {
        var result := ResolveSetup(msg.authorIsAdmin, msg.mentionedRole, args);
        match result {
          case Err(e) =>
            resp := Reply(e);
          case Ok(c) =>
            config := config[gid := c];
            resp := SetupSaved(c);
        }
        return;
      }

      if cmd == "panel" {
        if !msg.authorIsAdmin {
          resp := Reply(ADMINS_ONLY);
          return;
        }
        if gid !in config {
          resp := Reply(RUN_SETUP_FIRST);
          return;
        }
        resp := PanelPosted(PanelEmbed(config[gid]));
        return;
      }

      if cmd == "status" {
        resp := StatusReply(TicketCount(guild.channels));
        return;
      }

      if cmd == "close" {
        if !IsTicketName(guild.channels[msg.channel].name) {
          resp := Reply(USE_IN_TICKET);
          return;
        }
        if !msg.authorIsAdmin && !msg.authorCanView {
          resp := Reply(CANNOT_CLOSE);
          return;
        }
        resp := ClosingNotice;
        guild.ScheduleDeletion(msg.channel);
      }
    }

    /** The `interactionCreate` handler, given the index of the quote drawn at random.
        `create_ticket` adds exactly one channel, named after the presser, when the guild is
        configured and no channel has that name yet, and otherwise changes nothing;
        `close_ticket` schedules the deletion of the channel it was pressed in, whatever
        its name; anything else is ignored. The configuration is only read. */
    method OnInteraction(guild: Guild, inter: Interaction, quoteIndex: nat) returns (resp: Response)
      requires guild.Valid() && quoteIndex < |QUOTES|
      modifies guild
      ensures guild.Valid()
      ensures !inter.isButton || inter.customId !in [CREATE_TICKET, CLOSE_TICKET] ==>
        resp == Silent && guild.channels == old(guild.channels) && guild.pending == old(guild.pending)
      ensures inter.isButton && inter.customId == CREATE_TICKET && guild.id !in config ==>
        resp == Reply(PANEL_NOT_SET_UP) && guild.channels == old(guild.channels) && guild.pending == old(guild.pending)
      ensures inter.isButton && inter.customId == CREATE_TICKET && guild.id in config
              && NameTaken(old(guild.channels), TicketName(inter.user.username)) ==>
        resp == Reply(ALREADY_OPEN) && guild.channels == old(guild.channels) && guild.pending == old(guild.pending)
      ensures inter.isButton && inter.customId == CREATE_TICKET && guild.id in config
              && !NameTaken(old(guild.channels), TicketName(inter.user.username)) ==>
        && resp.TicketOpened?
        && resp.ticket !in old(guild.channels)
        && guild.channels == old(guild.channels)[resp.ticket :=
             Channel(TicketName(inter.user.username), TicketOverwrites(config[guild.id].roleId, inter.user.id))]
        && resp.mention == inter.user.id
        && resp.welcome == WelcomeEmbed(config[guild.id], QUOTES[quoteIndex])
        && guild.pending == old(guild.pending)
      ensures inter.isButton && inter.customId == CLOSE_TICKET ==>
        && resp == CloseAcknowledged
        && guild.channels == old(guild.channels)
        && guild.pending == old(guild.pending) + multiset{inter.channel}
    {
      resp := Silent;
      if !inter.isButton {
        return;
      }
      var conf := if guild.id in config then Some(config[guild.id]) else None;

      if inter.customId == CREATE_TICKET {
        if conf.None? {
          resp := Reply(PANEL_NOT_SET_UP);
          return;
        }
        var name := TicketName(inter.user.username);
        if NameTaken(guild.channels, name) {
          resp := Reply(ALREADY_OPEN);
          return;
        }
        var ticket := guild.CreateChannel(name, TicketOverwrites(conf.value.roleId, inter.user.id));
        resp := TicketOpened(ticket, inter.user.id, WelcomeEmbed(conf.value, QUOTES[quoteIndex]));
        return;
      }

      if inter.customId == CLOSE_TICKET {
        guild.ScheduleDeletion(inter.channel);
        resp := CloseAcknowledged;
      }
    }
  }

  /** `!setup` keeps every stored record well formed: a configuration whose records all have
      a canonical colour and a non-empty banner still has only such records after a
      successful `!setup`, and the other guilds' records are untouched. */
  lemma SetupKeepsRecordsWellFormed(
    config: map<GuildId, GuildConfig>, gid: GuildId, isAdmin: bool, role: Option<RoleId>, args: seq<string>)
    requires forall g :: g in config ==> WellFormed(config[g])
    requires ResolveSetup(isAdmin, role, args).Ok?
    ensures var updated := config[gid := ResolveSetup(isAdmin, role, args).value];
      && (forall g :: g in updated ==> WellFormed(updated[g]))
      && (forall g :: g in config && g != gid ==> g in updated && updated[g] == config[g])
  {
  }

  /** The text `! setup <@&42>  #1abc9c` followed by a line feed (a space after the prefix,
      two spaces before the colour) parses into the `setup` command with the role mention
      and the colour as its arguments. */
  lemma SetupExampleParses()
    ensures ParseCommand(PREFIX + " " + Join(["setup", "<@&42>", "#1abc9c"], [1, 2]) + "\n")
         == Some(Parsed("setup", ["<@&42>", "#1abc9c"]))
  {
    var args := ["<@&42>", "#1abc9c"];
    assert ["setup"] + args == ["setup", "<@&42>", "#1abc9c"];
    assert AllWhitespace(" ") && AllWhitespace("\n") by {
      assert IsWhitespace('\n');
    }
    assert forall i :: 0 <= i < |args| ==> args[i] != "" && ' ' !in args[i] by {
      assert ' ' !in args[0] && ' ' !in args[1];
    }
    assert ' ' !in "setup" && !IsWhitespace("setup"[0]) && !IsWhitespace(args[1][|args[1]| - 1]);
    ParseRoundTrip(" ", "setup", args, [1, 2], "\n");
  }

  /** With those arguments, an administrator who mentions role 42 stores that role, the
      colour as given and the default banner: the mention is neither a colour nor an
      image URL. */
  lemma SetupExampleResolves()
    ensures ResolveSetup(true, Some("42"), ["<@&42>", "#1abc9c"])
         == Ok(GuildConfig("42", "#1abc9c", DEFAULT_GIF))
  {
    var args := ["<@&42>", "#1abc9c"];
    assert !IsHexDigit(args[0][0]) && !IsColorToken(args[0]);
    assert FirstWhere(args, 1, IsColorToken);
    assert !IsImageUrl(args[0]) && !IsImageUrl(args[1]);
  }

  /** An administrator configures a guild with a staff role and a colour but no image
      (`setupText` is, for one, the text `SetupExampleParses` reads), then posts the panel:
      the record holds the colour and the default banner, the panel carries them with the
      `create_ticket` button, and a member who is not an administrator is refused the panel. */
  method SetupThenPanel(setupText: string, panelText: string)
    requires ParseCommand(setupText) == Some(Parsed("setup", ["<@&42>", "#1abc9c"]))
    requires ParseCommand(panelText) == Some(Parsed("panel", []))
  {
    var bot := new TicketBot(map[]);
    var guild := new Guild("guild");
    var general := guild.CreateChannel("general", []);

    SetupExampleResolves();
    var r := bot.OnMessage(guild, Message(false, setupText, general, true, true, Some("42")));
    assert r == SetupSaved(GuildConfig("42", "#1abc9c", DEFAULT_GIF));
    assert bot.config == map["guild" := GuildConfig("42", "#1abc9c", DEFAULT_GIF)];

    r := bot.OnMessage(guild, Message(false, panelText, general, true, true, None));
    assert r == PanelPosted(Embed(PANEL_TEXT, "#1abc9c", DEFAULT_GIF, CREATE_TICKET));

    r := bot.OnMessage(guild, Message(false, panelText, general, false, true, None));
    assert r == Reply(ADMINS_ONLY);
  }

  /** `Alice` gets the ticket channel `ticket-alice`. */
  lemma TicketNameExample()
    ensures TicketName("Alice") == "ticket-alice"
  {
  }

  /** In a configured guild a member opens a ticket, a second press is refused, the close
      button schedules the deletion, and the channel goes only when the timer fires. */
  method OpenTwiceThenClose(conf: GuildConfig, user: User)
  {
    var bot := new TicketBot(map["guild" := conf]);
    var guild := new Guild("guild");
    var general := guild.CreateChannel("general", []);
    var name := TicketName(user.username);
    assert "general"[..|TICKET_PREFIX|][0] != TICKET_PREFIX[0];

    var channelsBefore := guild.channels;
    var r := bot.OnInteraction(guild, Interaction(true, CREATE_TICKET, user, general), 2);
    assert r.TicketOpened?;
    var ticket := r.ticket;
    assert guild.channels[ticket].name == name;
    TicketCountAfterAdd(channelsBefore, ticket, guild.channels[ticket]);
    NameTakenAfterAdd(channelsBefore, ticket, guild.channels[ticket], name);

    var channelsOpen := guild.channels;
    r := bot.OnInteraction(guild, Interaction(true, CREATE_TICKET, user, general), 0);
    assert r == Reply(ALREADY_OPEN) && guild.channels == channelsOpen;

    r := bot.OnInteraction(guild, Interaction(true, CLOSE_TICKET, user, ticket), 0);
    assert r == CloseAcknowledged && guild.channels == channelsOpen;

    guild.DeletionFires(ticket);
    assert guild.channels == channelsOpen - {ticket};
    TicketCountAfterDelete(channelsOpen, ticket);
    assert TicketCount(guild.channels) == TicketCount(channelsBefore);
  }
}

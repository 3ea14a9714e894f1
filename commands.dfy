/** Parsing a chat message into a prefix command and resolving the arguments of
    `!setup` into a guild's ticket-panel configuration (bot.js:53-75). */
module Commands {
  import opened Wrappers
  import opened Text

  type RoleId = string

  /** The command prefix. */
  const PREFIX: string := "!"

  /** The first token after the prefix and the remaining tokens, in order. */
  datatype Parsed = Parsed(cmd: string, args: seq<string>)

  /** `content.slice(PREFIX.length).trim().split(/ +/)` destructured into the command
      and its arguments, for a message that starts with the prefix. */
  function ParseCommand(content: string): (r: Option<Parsed>)
    ensures r.Some? <==> StartsWith(content, PREFIX)
    ensures r.Some? ==> ' ' !in r.value.cmd
    ensures r.Some? ==> forall i :: 0 <= i < |r.value.args| ==> ' ' !in r.value.args[i]
  {
    if !StartsWith(content, PREFIX) then None
    else
      var tokens := Split(Trim(content[|PREFIX|..]));
      Some(Parsed(tokens[0], tokens[1..]))
  }

  /** A message written as the prefix, any whitespace, words separated by runs of one or
      more spaces, and any whitespace again parses back into exactly the first word as the
      command and the others, in order, as the arguments. A word may hold other whitespace
      (a tab, say) inside it, but not at the very start or the very end of the text. */
  lemma ParseRoundTrip(lead: string, cmd: string, args: seq<string>, gaps: seq<nat>, trail: string)
    requires AllWhitespace(lead) && AllWhitespace(trail)
    requires cmd != "" && ' ' !in cmd && !IsWhitespace(cmd[0])
    requires forall i :: 0 <= i < |args| ==> args[i] != "" && ' ' !in args[i]
    requires var last := if args == [] then cmd else args[|args| - 1]; !IsWhitespace(last[|last| - 1])
    requires |gaps| == |args| && forall i :: 0 <= i < |gaps| ==> gaps[i] >= 1
    ensures ParseCommand(PREFIX + lead + Join([cmd] + args, gaps) + trail) == Some(Parsed(cmd, args))
  {
    var ts := [cmd] + args;
    var body := Join(ts, gaps);
    var content := PREFIX + lead + body + trail;
    assert content[..|PREFIX|] == PREFIX;
    assert content[|PREFIX|..] == lead + body + trail;
    forall i | 0 <= i < |ts|
      ensures ts[i] != "" && ' ' !in ts[i]
    {
      if i > 0 { assert ts[i] == args[i - 1]; }
    }
    JoinStartsWithHead(ts, gaps);
    JoinEndsWithLast(ts, gaps);
    assert ts[|ts| - 1] == if args == [] then cmd else args[|args| - 1];
    TrimAround(lead, body, trail);
    SplitJoin(ts, gaps);
    assert ts[1..] == args;
  }

  /** Whitespace between the prefix and the command is ignored: `! setup` is `!setup`. */
  lemma ParseSkipsLeadingWhitespace(w: string, rest: string)
    requires AllWhitespace(w)
    ensures ParseCommand(PREFIX + w + rest) == ParseCommand(PREFIX + rest)
  {
    assert (PREFIX + w + rest)[..|PREFIX|] == PREFIX;
    assert (PREFIX + w + rest)[|PREFIX|..] == w + rest;
    assert (PREFIX + rest)[..|PREFIX|] == PREFIX;
    assert (PREFIX + rest)[|PREFIX|..] == rest;
    TrimSkipsLeadingWhitespace(w, rest);
  }

  /** Whitespace at the end of a message is ignored: `!status \n` is `!status`. */
  lemma ParseSkipsTrailingWhitespace(rest: string, w: string)
    requires AllWhitespace(w)
    ensures ParseCommand(PREFIX + rest + w) == ParseCommand(PREFIX + rest)
  {
    assert (PREFIX + rest + w)[..|PREFIX|] == PREFIX;
    assert (PREFIX + rest + w)[|PREFIX|..] == rest + w;
    assert (PREFIX + rest)[..|PREFIX|] == PREFIX;
    assert (PREFIX + rest)[|PREFIX|..] == rest;
    TrimSkipsTrailingWhitespace(rest, w);
  }

  /** After the prefix, a message with any non-blank text yields a non-empty command and
      non-empty arguments which, run together, are that text trimmed with its spaces
      removed: splitting drops only spaces and keeps the order. */
  lemma ParseKeepsWords(content: string)
    requires StartsWith(content, PREFIX) && Trim(content[|PREFIX|..]) != ""
    ensures ParseCommand(content).Some?
    ensures ParseCommand(content).value.cmd != ""
    ensures forall i :: 0 <= i < |ParseCommand(content).value.args| ==> ParseCommand(content).value.args[i] != ""
    ensures Concat([ParseCommand(content).value.cmd] + ParseCommand(content).value.args)
         == RemoveSpaces(Trim(content[|PREFIX|..]))
  {
    var body := Trim(content[|PREFIX|..]);
    assert IsWhitespace(' ');
    SplitPiecesNonEmpty(body);
    SplitKeepsText(body);
    var ts := Split(body);
    assert [ts[0]] + ts[1..] == ts;
    forall i | 0 <= i < |ts[1..]| ensures ts[1..][i] != "" {
      assert ts[1..][i] == ts[i + 1];
    }
  }

  // ----- the colour argument of !setup -----

  predicate IsHexDigit(c: char)
  {
    ('0' <= c <= '9') || ('a' <= c <= 'f') || ('A' <= c <= 'F')
  }

  predicate AllHex(s: string)
  {
    forall i :: 0 <= i < |s| ==> IsHexDigit(s[i])
  }

  /** The colour token `^#?[0-9A-Fa-f]{6}$`: six hexadecimal digits, optionally after `#`. */
  predicate IsColorToken(a: string)
  {
    || (|a| == 7 && a[0] == '#' && AllHex(a[1..]))
    || (|a| == 6 && AllHex(a))
  }

  /** The stored form of a colour: `#` and exactly six hexadecimal digits. */
  predicate IsCanonicalColor(c: string)
  {
    |c| == 7 && c[0] == '#' && AllHex(c[1..])
  }

  /** `color.startsWith('#') ? color : '#' + color`. The result always starts with `#`;
      it is a canonical colour exactly when the input was a colour token, and then its
      six digits are the token's. */
  function NormaliseColor(c: string): (r: string)
    ensures |r| > 0 && r[0] == '#'
    ensures IsColorToken(c) <==> IsCanonicalColor(r)
    ensures IsColorToken(c) ==> r[1..] == c[|c| - 6..]
  {
    if StartsWith(c, "#") then c else "#" + c
  }

  /** Normalising a normalised colour changes nothing. */
  lemma NormaliseIdempotent(c: string)
    ensures NormaliseColor(NormaliseColor(c)) == NormaliseColor(c)
  {
  }

  /** A stored colour is itself accepted as a colour token, so it can be passed to `!setup` again. */
  lemma CanonicalIsToken(c: string)
    requires IsCanonicalColor(c)
    ensures IsColorToken(c) && NormaliseColor(c) == c
  {
  }

  // ----- the image argument of !setup -----

  /** The characters the regular-expression `.` does not match. */
  predicate IsLineTerminator(c: char)
  {
    c == '\n' || c == '\r' || c == '\U{2028}' || c == '\U{2029}'
  }

  predicate NoLineTerminator(s: string)
  {
    forall i :: 0 <= i < |s| ==> !IsLineTerminator(s[i])
  }

  /** The alternatives of `^https?:`. */
  const URL_SCHEMES: seq<string> := ["http:", "https:"]

  /** The alternatives of `\.(?:gif|png|jpe?g)$`, matched case-sensitively. */
  const IMAGE_EXTENSIONS: seq<string> := [".gif", ".png", ".jpg", ".jpeg"]

  /** The image-URL token `^https?:.*\.(?:gif|png|jpe?g)$`: a scheme, then any characters
      other than line terminators, then an image extension that ends the token. */
  predicate IsImageUrl(a: string)
  {
    exists scheme, ext | scheme in URL_SCHEMES && ext in IMAGE_EXTENSIONS ::
      && |scheme| + |ext| <= |a|
      && StartsWith(a, scheme)
      && EndsWith(a, ext)
      && NoLineTerminator(a[|scheme|..|a| - |ext|])
  }

  /** Every image URL is at least as long as `http:.gif`, so never empty. */
  lemma ImageUrlLength(a: string)
    requires IsImageUrl(a)
    ensures |a| >= 9
  {
    var scheme, ext :| scheme in URL_SCHEMES && ext in IMAGE_EXTENSIONS && |scheme| + |ext| <= |a|;
    assert |scheme| >= 5 && |ext| >= 4;
  }

  /** No argument is both a colour token and an image URL, so the two searches of `!setup`
      never pick the same argument. */
  lemma ColorTokenIsNotImageUrl(a: string)
    requires IsColorToken(a)
    ensures !IsImageUrl(a)
  {
  }

  // ----- Array.prototype.find -----

  /** `i` is the position of the first element of `s` that satisfies `p`. */
  predicate FirstWhere<T>(s: seq<T>, i: int, p: T -> bool)
  {
    0 <= i < |s| && p(s[i]) && forall j :: 0 <= j < i ==> !p(s[j])
  }

  /** The position of the element `Array.prototype.find` returns: the first one
      satisfying `p`, or none when no element does. */
  function FindIndex<T>(s: seq<T>, p: T -> bool): (r: Option<nat>)
    ensures r.None? <==> forall i :: 0 <= i < |s| ==> !p(s[i])
    ensures r.Some? ==> FirstWhere(s, r.value, p)
  {
    if s == [] then None
    else if p(s[0]) then Some(0)
    else match FindIndex(s[1..], p)
      case None => None
      case Some(i) => Some(i + 1)
  }

  // ----- !setup -----

  /** One guild's ticket-panel settings: the staff role, the embed colour, the banner image. */
  datatype GuildConfig = GuildConfig(roleId: RoleId, color: string, gif: string)

  /** The banner used when `!setup` is given no image URL. */
  const DEFAULT_GIF: string := "https://media.giphy.com/media/v1.Y2lkPTc5MGI3NjExbjRuaHNvN3hyY2tvaHJkN2E3enYxeG1uYWFnd3h6NnQyZnhidHc3ayZlcD12MV9naWZzX3NlYXJjaCZjdD1n/RlHpuVwtbvdIBXzm2z/giphy.gif"

  const ADMIN_NEEDED: string := "Administrator perms needed!"
  const SETUP_USAGE: string := "Usage: !setup @staff #hexColor [optional direct image URL]"

  /** A record `!setup` could have written: a canonical colour and a non-empty banner. */
  predicate WellFormed(conf: GuildConfig)
  {
    IsCanonicalColor(conf.color) && conf.gif != ""
  }

  /** The record `!setup` stores, or the reply it sends instead, from the caller's
      administrator flag, the first role mentioned in the message and the arguments.
      Refused for a non-administrator; refused with the usage text when no role is
      mentioned or no argument is a colour token; otherwise the role, the first colour
      token normalised, and the first image-URL argument or the default banner. */
  function ResolveSetup(isAdmin: bool, role: Option<RoleId>, args: seq<string>): (r: Result<GuildConfig>)
    ensures !isAdmin ==> r == Err(ADMIN_NEEDED)
    ensures isAdmin ==> (r.Ok? <==> role.Some? && exists i :: 0 <= i < |args| && IsColorToken(args[i]))
    ensures isAdmin && r.Err? ==> r == Err(SETUP_USAGE)
    ensures r.Ok? ==> r.value.roleId == role.value && WellFormed(r.value)
    ensures r.Ok? ==> exists i :: FirstWhere(args, i, IsColorToken) && r.value.color == NormaliseColor(args[i])
    ensures r.Ok? ==>
              || (r.value.gif == DEFAULT_GIF && forall i :: 0 <= i < |args| ==> !IsImageUrl(args[i]))
              || (exists i :: FirstWhere(args, i, IsImageUrl) && r.value.gif == args[i])
  {
    if !isAdmin then Err(ADMIN_NEEDED)
    else
      var color := FindIndex(args, IsColorToken);
      var gif := FindIndex(args, IsImageUrl);
      if role.None? || color.None? then Err(SETUP_USAGE)
      else
        var banner := if gif.Some? then args[gif.value] else DEFAULT_GIF;
        assert gif.Some? ==> |banner| >= 9 by {
          if gif.Some? { ImageUrlLength(args[gif.value]); }
        }
        Ok(GuildConfig(role.value, NormaliseColor(args[color.value]), banner))
  }
}

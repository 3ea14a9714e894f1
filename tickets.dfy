/** A guild's channels as the bot sees them, ticket channels among them, and the
    platform operations the handlers perform on them: creating a channel, scheduling
    a channel's deletion, and the scheduled deletion firing (bot.js:104, 119, 132-144, 168). */
module Tickets {
  import opened Text
  import opened Commands

  type GuildId = string
  type UserId = string

  /** The platform's channel identifiers, abstracted to numbers the guild hands out in order. */
  type ChannelId = nat

  datatype Permission = ViewChannel | SendMessages

  /** Who a permission overwrite applies to: the guild's everyone role, a role, or one member. */
  datatype Target = Everyone | Role(role: RoleId) | Member(user: UserId)

  datatype Overwrite = Overwrite(target: Target, allow: set<Permission>, deny: set<Permission>)

  datatype Channel = Channel(name: string, overwrites: seq<Overwrite>)

  /** Channel names with this prefix are tickets. */
  const TICKET_PREFIX: string := "ticket-"

  predicate IsTicketName(name: string)
  {
    StartsWith(name, TICKET_PREFIX)
  }

  /** `ticket-` followed by the username lower-cased (ASCII only). */
  function TicketName(username: string): (r: string)
    ensures IsTicketName(r)
    ensures |r| == |TICKET_PREFIX| + |username|
  {
    TICKET_PREFIX + ToLowerAscii(username)
  }

  /** Two users get the same ticket name exactly when their names agree up to case. */
  lemma TicketNameCollides(u: string, v: string)
    ensures TicketName(u) == TicketName(v) <==> ToLowerAscii(u) == ToLowerAscii(v)
  {
    if TicketName(u) == TicketName(v) {
      assert TicketName(u)[|TICKET_PREFIX|..] == ToLowerAscii(u);
      assert TicketName(v)[|TICKET_PREFIX|..] == ToLowerAscii(v);
    }
  }

  /** A user's ticket name does not depend on the case of their name. */
  lemma TicketNameIgnoresCase(u: string)
    ensures TicketName(ToLowerAscii(u)) == TicketName(u)
  {
    LowerIdempotent(u);
  }

  /** Some overwrite for `t` allows `p`. */
  predicate Allows(ows: seq<Overwrite>, t: Target, p: Permission)
  {
    exists i :: 0 <= i < |ows| && ows[i].target == t && p in ows[i].allow
  }

  /** Some overwrite for `t` denies `p`. */
  predicate Denies(ows: seq<Overwrite>, t: Target, p: Permission)
  {
    exists i :: 0 <= i < |ows| && ows[i].target == t && p in ows[i].deny
  }

  /** The overwrites a new ticket channel gets: the everyone role may not view it,
      the staff role and the requesting user may view it and send messages in it,
      and nothing else is granted. */
  function TicketOverwrites(staff: RoleId, user: UserId): (r: seq<Overwrite>)
    ensures Denies(r, Everyone, ViewChannel)
    ensures forall p :: !Allows(r, Everyone, p)
    ensures Allows(r, Role(staff), ViewChannel) && Allows(r, Role(staff), SendMessages)
    ensures Allows(r, Member(user), ViewChannel) && Allows(r, Member(user), SendMessages)
    ensures forall t, p :: Allows(r, t, p) ==> t == Role(staff) || t == Member(user)
    ensures forall t, p :: Denies(r, t, p) ==> t == Everyone && p == ViewChannel
  {
    var r := [ Overwrite(Everyone, {}, {ViewChannel}),
               Overwrite(Role(staff), {ViewChannel, SendMessages}, {}),
               Overwrite(Member(user), {ViewChannel, SendMessages}, {}) ];
    assert r[0].target == Everyone && ViewChannel in r[0].deny;
    assert r[1].target == Role(staff) && ViewChannel in r[1].allow && SendMessages in r[1].allow;
    assert r[2].target == Member(user) && ViewChannel in r[2].allow && SendMessages in r[2].allow;
    r
  }

  /** `guild.channels.cache.some(ch => ch.name === name)`. */
  predicate NameTaken(channels: map<ChannelId, Channel>, name: string)
  {
    exists c :: c in channels && channels[c].name == name
  }

  /** The channels `!status` counts: those whose name starts with `ticket-`. */
  function TicketChannels(channels: map<ChannelId, Channel>): set<ChannelId>
  {
    set c | c in channels && IsTicketName(channels[c].name)
  }

  /** The number `!status` reports. It never exceeds the number of channels, and it is
      zero exactly when no channel has a ticket name. */
  function TicketCount(channels: map<ChannelId, Channel>): (r: nat)
    ensures r <= |channels|
    ensures r == 0 <==> forall c :: c in channels ==> !IsTicketName(channels[c].name)
  {
    var tickets := TicketChannels(channels);
    assert forall c :: c in tickets <==> c in channels && IsTicketName(channels[c].name);
    SubsetCardinality(tickets, channels.Keys);
    assert |tickets| == 0 ==> tickets == {};
    |tickets|
  }

  /** Adding a channel under a new identifier raises the count by one exactly when
      the new channel's name is a ticket name. */
  lemma TicketCountAfterAdd(channels: map<ChannelId, Channel>, c: ChannelId, ch: Channel)
    requires c !in channels
    ensures TicketCount(channels[c := ch]) == TicketCount(channels) + (if IsTicketName(ch.name) then 1 else 0)
  {
    var before := TicketChannels(channels);
    var after := TicketChannels(channels[c := ch]);
    if IsTicketName(ch.name) {
      assert after == before + {c};
    } else {
      assert after == before;
    }
  }

  /** Deleting a channel lowers the count by one exactly when it existed and had a ticket name. */
  lemma TicketCountAfterDelete(channels: map<ChannelId, Channel>, c: ChannelId)
    ensures TicketCount(channels - {c})
         == TicketCount(channels) - (if c in channels && IsTicketName(channels[c].name) then 1 else 0)
  {
    var before := TicketChannels(channels);
    var after := TicketChannels(channels - {c});
    if c in channels && IsTicketName(channels[c].name) {
      assert after == before - {c};
    } else {
      assert after == before;
    }
  }

  lemma {:induction false} SubsetCardinality<T>(a: set<T>, b: set<T>)
    requires a <= b
    ensures |a| <= |b|
    decreases |b|
  {
    if a != {} {
      var x :| x in a;
      SubsetCardinality(a - {x}, b - {x});
    }
  }

  /** Once a channel is added under a new identifier its name is taken, and every name that
      was taken before still is. */
  lemma NameTakenAfterAdd(channels: map<ChannelId, Channel>, c: ChannelId, ch: Channel, name: string)
    requires c !in channels
    ensures NameTaken(channels[c := ch], name) <==> name == ch.name || NameTaken(channels, name)
  {
    var after := channels[c := ch];
    if name == ch.name {
      assert c in after && after[c].name == name;
    }
    if NameTaken(channels, name) {
      var d :| d in channels && channels[d].name == name;
      assert d in after && after[d].name == name;
    }
  }

  /** A guild's channel collection as the bot sees it. Channel identifiers are handed out
      from `nextId` upwards; `pending` holds the channels whose deletion a close has scheduled
      and whose timer has not fired yet, once per scheduled timer. */
  class Guild {
    const id: GuildId
    var channels: map<ChannelId, Channel>
    var nextId: ChannelId
    var pending: multiset<ChannelId>

    /** Every channel's identifier is below `nextId`, so `nextId` is unused. */
    ghost predicate Valid()
      reads this
    {
      forall c :: c in channels ==> c < nextId
    }

    /** A guild with no channels. */
    constructor (id: GuildId)
      ensures Valid()
      ensures this.id == id && channels == map[] && pending == multiset{}
    {
      this.id := id;
      channels := map[];
      nextId := 0;
      pending := multiset{};
    }

    /** `guild.channels.create`: adds exactly one channel under an unused identifier. */
    method CreateChannel(name: string, overwrites: seq<Overwrite>) returns (c: ChannelId)
      requires Valid()
      modifies this
      ensures Valid()
      ensures c !in old(channels)
      ensures channels == old(channels)[c := Channel(name, overwrites)]
      ensures pending == old(pending)
    {
      c := nextId;
      channels := channels[c := Channel(name, overwrites)];
      nextId := nextId + 1;
    }

    /** `setTimeout(() => channel.delete(), 5000)`: the deletion is scheduled; the channel stays. */
    method ScheduleDeletion(c: ChannelId)
      requires Valid()
      modifies this
      ensures Valid()
      ensures pending == old(pending) + multiset{c}
      ensures channels == old(channels) && nextId == old(nextId)
    {
      pending := pending + multiset{c};
    }

    /** One scheduled deletion of `c` fires: the channel is removed if it still exists.
        In bot.js a timer firing for a channel that is already gone (two closes within
        five seconds) calls `delete()` on it, the platform refuses, and nothing handles the
        rejected promise; the model treats that firing as a no-op instead. With no timer
        pending for `c`, nothing happens. */
    method DeletionFires(c: ChannelId)
      requires Valid()
      modifies this
      ensures Valid()
      ensures c in old(pending) ==> pending == old(pending) - multiset{c} && channels == old(channels) - {c}
      ensures c !in old(pending) ==> pending == old(pending) && channels == old(channels)
      ensures nextId == old(nextId)
    {
      if c in pending {
        pending := pending - multiset{c};
        channels := channels - {c};
      }
    }
  }
}

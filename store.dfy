/**
 * The query functions of `api/twitch/twitch.service.js` over the two tables
 * of the Schema module. The reads are functions of the table contents; the
 * writes are methods of `Database`, each of which keeps the schema's
 * constraints and changes nothing but what its statement names. The queries
 * have no ORDER BY, so PostgreSQL promises no row order; the model returns
 * rows in the order of the table sequence, one order among those allowed.
 */
module TwitchService {
  import opened Wrappers
  import opened Schema
  import opened Seqs

  /** The errors PostgreSQL raises for the constraints of the two migrations. */
  datatype DbError =
    | NotNullViolation(column: string)
    | UniqueViolation(column: string)
    | ForeignKeyViolation(column: string)

  /** `readAnnouncement(guild_id)`: the first `announcements` row for the guild, if any. */
  function ReadAnnouncement(anns: seq<AnnouncementRow>, guildId: string): (r: Option<AnnouncementRow>)
    ensures r.Some? <==> guildId in GuildIds(anns)
    ensures r.Some? ==> r.value in anns && r.value.guildId == guildId
  {
    if anns == [] then None
    else if anns[0].guildId == guildId then Some(anns[0])
    else ReadAnnouncement(anns[1..], guildId)
  }

  /** With `guild_id` the primary key, the row the lookup finds is the guild's only row. */
  lemma {:induction false} ReadFindsTheRow(anns: seq<AnnouncementRow>, row: AnnouncementRow)
    requires GuildKeyUnique(anns) && row in anns
    ensures ReadAnnouncement(anns, row.guildId) == Some(row)
  {
    if anns[0] != row {
      assert row in anns[1..];
      var k :| 0 <= k < |anns| && anns[k] == row;
      assert GuildOf(anns[0]) != GuildOf(anns[k]);
      assert GuildKeyUnique(anns[1..]) by {
        forall i, j | 0 <= i < j < |anns[1..]| ensures GuildOf(anns[1..][i]) != GuildOf(anns[1..][j]) {
          assert anns[1..][i] == anns[i + 1] && anns[1..][j] == anns[j + 1];
        }
      }
      ReadFindsTheRow(anns[1..], row);
    }
  }

  predicate IsPair(row: SubscriptionRow, guildId: string, broadcasterId: string) {
    row.guildId == guildId && row.broadcasterId == broadcasterId
  }

  /**
   * `getSubscriptionByGuildAndBroadcasterIDs` (`readSub`): the first row for
   * the pair, found exactly when some row matches both ids.
   */
  function ReadSub(subs: seq<SubscriptionRow>, guildId: string, broadcasterId: string): (r: Option<SubscriptionRow>)
    ensures r.Some? <==> exists row :: row in subs && IsPair(row, guildId, broadcasterId)
    ensures r.Some? ==> r.value in subs && IsPair(r.value, guildId, broadcasterId)
  {
    if subs == [] then None
    else if IsPair(subs[0], guildId, broadcasterId) then Some(subs[0])
    else ReadSub(subs[1..], guildId, broadcasterId)
  }

  /** `listSubscriptionsByGuildID`: the `broadcaster_id` of every row of the guild, duplicates kept. */
  function ListSubsByGuild(subs: seq<SubscriptionRow>, guildId: string): (ids: seq<string>)
    ensures |ids| == |Keep(subs, (row: SubscriptionRow) => row.guildId == guildId)|
    ensures forall b :: b in ids <==> exists row :: row in subs && IsPair(row, guildId, b)
    ensures forall b :: Count(ids, b) == |Keep(subs, (row: SubscriptionRow) => IsPair(row, guildId, b))|
  {
    if subs == [] then []
    else
      var head := if subs[0].guildId == guildId then [subs[0].broadcasterId] else [];
      var tail := ListSubsByGuild(subs[1..], guildId);
      assert forall b :: Count(head + tail, b) == Count(head, b) + Count(tail, b) by {
        forall b ensures Count(head + tail, b) == Count(head, b) + Count(tail, b) {
          CountAppend(head, tail, b);
        }
      }
      head + tail
  }

  /** The `channel_id` of every `announcements` row the join pairs with a subscription of this guild. */
  function Destinations(anns: seq<AnnouncementRow>, guildId: string): (chs: seq<string>)
    ensures forall ch :: ch in chs <==> exists a :: a in anns && a.guildId == guildId && a.channelId == ch
    ensures chs == [] <==> guildId !in GuildIds(anns)
  {
    if anns == [] then []
    else (if anns[0].guildId == guildId then [anns[0].channelId] else []) + Destinations(anns[1..], guildId)
  }

  /**
   * `listChannelsForGivenSubscription(broadcaster_id)`: the inner join of
   * `announcements` and `subscriptions` on `guild_id`, restricted to the
   * broadcaster, projected on `channel_id`. A subscription whose guild has
   * no announcement row contributes nothing.
   */
  function ListChannelsForGivenSubscription(anns: seq<AnnouncementRow>, subs: seq<SubscriptionRow>, broadcasterId: string): (chs: seq<string>)
    ensures forall ch :: ch in chs <==>
      exists s, a :: s in subs && a in anns && s.broadcasterId == broadcasterId && a.guildId == s.guildId && a.channelId == ch
  {
    if subs == [] then []
    else
      (if subs[0].broadcasterId == broadcasterId then Destinations(anns, subs[0].guildId) else [])
      + ListChannelsForGivenSubscription(anns, subs[1..], broadcasterId)
  }

  /** The subscriptions of one broadcaster, in the model's row order. */
  function SubsOf(subs: seq<SubscriptionRow>, broadcasterId: string): seq<SubscriptionRow> {
    Keep(subs, (row: SubscriptionRow) => row.broadcasterId == broadcasterId)
  }

  /** The channel the announcement row of a stored guild names. */
  function ChannelOf(anns: seq<AnnouncementRow>, guildId: string): string
    requires guildId in GuildIds(anns)
  {
    ReadAnnouncement(anns, guildId).value.channelId
  }

  /** A guild with an announcement row, under the primary key, joins with exactly that row. */
  lemma {:induction false} DestinationsOfStoredGuild(anns: seq<AnnouncementRow>, guildId: string)
    requires GuildKeyUnique(anns) && guildId in GuildIds(anns)
    ensures Destinations(anns, guildId) == [ChannelOf(anns, guildId)]
  {
    var row := ReadAnnouncement(anns, guildId).value;
    ReadFindsTheRow(anns, row);
    var k :| 0 <= k < |anns| && anns[k] == row;
    DestinationsOfOthers(anns, guildId, k);
  }

  /** Only the row at `k` has this guild, so the join picks that row alone. */
  lemma {:induction false} DestinationsOfOthers(anns: seq<AnnouncementRow>, guildId: string, k: nat)
    requires GuildKeyUnique(anns) && k < |anns| && anns[k].guildId == guildId
    ensures Destinations(anns, guildId) == [anns[k].channelId]
  {
    var tail := anns[1..];
    assert GuildKeyUnique(tail) by {
      forall i, j | 0 <= i < j < |tail| ensures GuildOf(tail[i]) != GuildOf(tail[j]) {
        assert tail[i] == anns[i + 1] && tail[j] == anns[j + 1];
      }
    }
    if k == 0 {
      assert guildId !in GuildIds(tail) by {
        forall a | a in tail ensures a.guildId != guildId {
          var j :| 0 <= j < |tail| && tail[j] == a;
          assert GuildOf(anns[0]) != GuildOf(anns[j + 1]);
        }
      }
    } else {
      assert GuildOf(anns[0]) != GuildOf(anns[k]);
      DestinationsOfOthers(tail, guildId, k - 1);
    }
  }

  /** The first subscription row contributes its guild's one channel when it is the broadcaster's, nothing otherwise. */
  lemma JoinFirstRow(anns: seq<AnnouncementRow>, subs: seq<SubscriptionRow>, broadcasterId: string)
    requires GuildKeyUnique(anns) && subs != [] && subs[0].guildId in GuildIds(anns)
    ensures subs[0].broadcasterId == broadcasterId ==>
      && ListChannelsForGivenSubscription(anns, subs, broadcasterId)
         == [ChannelOf(anns, subs[0].guildId)] + ListChannelsForGivenSubscription(anns, subs[1..], broadcasterId)
      && SubsOf(subs, broadcasterId) == [subs[0]] + SubsOf(subs[1..], broadcasterId)
    ensures subs[0].broadcasterId != broadcasterId ==>
      && ListChannelsForGivenSubscription(anns, subs, broadcasterId) == ListChannelsForGivenSubscription(anns, subs[1..], broadcasterId)
      && SubsOf(subs, broadcasterId) == SubsOf(subs[1..], broadcasterId)
  {
    if subs[0].broadcasterId == broadcasterId {
      DestinationsOfStoredGuild(anns, subs[0].guildId);
    }
  }

  /**
   * Under the schema's constraints the join yields, for each subscription of
   * the broadcaster in the model's row order, exactly one channel: that of its guild.
   */
  lemma {:induction false} OneChannelPerSubscription(anns: seq<AnnouncementRow>, subs: seq<SubscriptionRow>, broadcasterId: string)
    requires GuildKeyUnique(anns) && GuildsReferenced(anns, subs)
    ensures |ListChannelsForGivenSubscription(anns, subs, broadcasterId)| == |SubsOf(subs, broadcasterId)|
    ensures forall k :: 0 <= k < |SubsOf(subs, broadcasterId)| ==>
      SubsOf(subs, broadcasterId)[k].guildId in GuildIds(anns) &&
      ListChannelsForGivenSubscription(anns, subs, broadcasterId)[k] == ChannelOf(anns, SubsOf(subs, broadcasterId)[k].guildId)
  {
    if subs != [] {
      assert GuildsReferenced(anns, subs[1..]) by {
        forall k | 0 <= k < |subs[1..]| ensures subs[1..][k].guildId in GuildIds(anns) {
          assert subs[1..][k] == subs[k + 1];
        }
      }
      OneChannelPerSubscription(anns, subs[1..], broadcasterId);
      assert subs[0].guildId in GuildIds(anns);
      JoinFirstRow(anns, subs, broadcasterId);
      var chs := ListChannelsForGivenSubscription(anns, subs, broadcasterId);
      var mine := SubsOf(subs, broadcasterId);
      var restChs := ListChannelsForGivenSubscription(anns, subs[1..], broadcasterId);
      var rest := SubsOf(subs[1..], broadcasterId);
      if subs[0].broadcasterId == broadcasterId {
        forall k | 0 <= k < |mine|
          ensures mine[k].guildId in GuildIds(anns) && chs[k] == ChannelOf(anns, mine[k].guildId)
        {
          if k > 0 {
            assert mine[k] == rest[k - 1] && chs[k] == restChs[k - 1];
          }
        }
      }
    }
  }

  /** `updateAnnouncementChannel`'s new table: `channel_id` replaced on the guild's rows only. */
  function UpdateChannel(anns: seq<AnnouncementRow>, guildId: string, channelId: string): (r: seq<AnnouncementRow>)
    ensures |r| == |anns|
    ensures forall k :: 0 <= k < |anns| ==>
      r[k] == if anns[k].guildId == guildId then anns[k].(channelId := channelId) else anns[k]
  {
    seq(|anns|, k requires 0 <= k < |anns| => if anns[k].guildId == guildId then anns[k].(channelId := channelId) else anns[k])
  }

  /** After the update, reading the guild gives the new channel; the other guilds read as before. */
  lemma ReadAfterUpdate(anns: seq<AnnouncementRow>, guildId: string, channelId: string, other: string)
    requires GuildKeyUnique(anns) && guildId in GuildIds(anns) && other != guildId
    ensures ReadAnnouncement(UpdateChannel(anns, guildId, channelId), guildId).Some?
    ensures ReadAnnouncement(UpdateChannel(anns, guildId, channelId), guildId).value.channelId == channelId
    ensures ReadAnnouncement(UpdateChannel(anns, guildId, channelId), other) == ReadAnnouncement(anns, other)
  {
    var updated := UpdateChannel(anns, guildId, channelId);
    assert KeysDistinct(updated, GuildOf) by {
      forall i, j | 0 <= i < j < |updated| ensures GuildOf(updated[i]) != GuildOf(updated[j]) {
        assert GuildOf(anns[i]) != GuildOf(anns[j]);
      }
    }
    var k :| 0 <= k < |anns| && anns[k].guildId == guildId;
    assert updated[k] in updated;
    ReadFindsTheRow(updated, updated[k]);
    if other in GuildIds(anns) {
      var j :| 0 <= j < |anns| && anns[j].guildId == other;
      assert updated[j] == anns[j] && updated[j] in updated;
      ReadFindsTheRow(updated, anns[j]);
      ReadFindsTheRow(anns, anns[j]);
    } else {
      assert other !in GuildIds(updated) by {
        forall row | row in updated ensures row.guildId != other {
          var i :| 0 <= i < |updated| && updated[i] == row;
          assert anns[i] in anns;
        }
      }
    }
  }

  /** `unsubscribe`'s new table: every row for the pair is gone. */
  function RemovePair(subs: seq<SubscriptionRow>, guildId: string, broadcasterId: string): seq<SubscriptionRow> {
    Keep(subs, (row: SubscriptionRow) => !IsPair(row, guildId, broadcasterId))
  }

  /** The rows of a guild's announcement deleted; what ON DELETE CASCADE leaves of `subscriptions`. */
  function RemoveGuild(anns: seq<AnnouncementRow>, guildId: string): seq<AnnouncementRow> {
    Keep(anns, (row: AnnouncementRow) => row.guildId != guildId)
  }

  function RemoveGuildSubs(subs: seq<SubscriptionRow>, guildId: string): seq<SubscriptionRow> {
    Keep(subs, (row: SubscriptionRow) => row.guildId != guildId)
  }

  /** Deleting a guild's announcement row does not change the join for any other guild. */
  lemma {:induction false} DestinationsAfterRemoval(anns: seq<AnnouncementRow>, guildId: string, other: string)
    requires other != guildId
    ensures Destinations(RemoveGuild(anns, guildId), other) == Destinations(anns, other)
  {
    if anns != [] {
      DestinationsAfterRemoval(anns[1..], guildId, other);
      if anns[0].guildId != guildId {
        assert RemoveGuild(anns, guildId) == [anns[0]] + RemoveGuild(anns[1..], guildId);
        assert ([anns[0]] + RemoveGuild(anns[1..], guildId))[1..] == RemoveGuild(anns[1..], guildId);
      } else {
        assert RemoveGuild(anns, guildId) == RemoveGuild(anns[1..], guildId);
      }
    }
  }

  /**
   * After the cascade, the channels announced for a broadcaster are those of
   * the remaining subscriptions: nothing of the deleted guild is reached.
   */
  lemma {:induction false} JoinAfterCascade(anns: seq<AnnouncementRow>, subs: seq<SubscriptionRow>, guildId: string, broadcasterId: string)
    ensures ListChannelsForGivenSubscription(RemoveGuild(anns, guildId), RemoveGuildSubs(subs, guildId), broadcasterId)
         == ListChannelsForGivenSubscription(anns, RemoveGuildSubs(subs, guildId), broadcasterId)
  {
    if subs != [] {
      JoinAfterCascade(anns, subs[1..], guildId, broadcasterId);
      var rest := RemoveGuildSubs(subs[1..], guildId);
      if subs[0].guildId != guildId {
        assert RemoveGuildSubs(subs, guildId) == [subs[0]] + rest;
        assert ([subs[0]] + rest)[1..] == rest;
        DestinationsAfterRemoval(anns, guildId, subs[0].guildId);
      } else {
        assert RemoveGuildSubs(subs, guildId) == rest;
      }
    }
  }

  /** The two tables, and the next value of the `subscriptions.id` sequence. */
  class Database {
    var announcements: seq<AnnouncementRow>
    var subscriptions: seq<SubscriptionRow>
    var nextId: nat

    ghost predicate Valid()
      reads this
    {
      WellFormed(announcements, subscriptions, nextId)
    }

    /** Both tables freshly migrated: empty, the id sequence starting at 1. */
    constructor ()
      ensures Valid()
      ensures announcements == [] && subscriptions == [] && nextId == 1
    {
      announcements, subscriptions, nextId := [], [], 1;
    }

    /**
     * `createSubscription`: insert one row, which gets the next id. Fails,
     * changing no row, when a column is missing or the guild has no
     * announcement row. PostgreSQL draws the id before checking, so the
     * sequence advances either way.
     */
    method CreateSubscription(guildId: Option<string>, broadcasterId: Option<string>, now: int)
      returns (r: Result<SubscriptionRow, DbError>)
      requires Valid()
      modifies this
      ensures Valid()
      ensures announcements == old(announcements) && nextId == old(nextId) + 1
      ensures r.Ok? <==> guildId.Some? && broadcasterId.Some? && guildId.value in GuildIds(announcements)
      ensures r.Ok? ==>
        r.value == SubscriptionRow(old(nextId), guildId.value, broadcasterId.value, now, now) &&
        subscriptions == old(subscriptions) + [r.value]
      ensures r.Err? ==> subscriptions == old(subscriptions)
      ensures guildId.None? ==> r == Err(NotNullViolation("guild_id"))
      ensures guildId.Some? && broadcasterId.None? ==> r == Err(NotNullViolation("broadcaster_id"))
    {
      var id := nextId;
      nextId := nextId + 1;
      if guildId.None? {
        r := Err(NotNullViolation("guild_id"));
      } else if broadcasterId.None? {
        r := Err(NotNullViolation("broadcaster_id"));
      } else if guildId.value !in GuildIds(announcements) {
        r := Err(ForeignKeyViolation("guild_id"));
      } else {
        var row := SubscriptionRow(id, guildId.value, broadcasterId.value, now, now);
        subscriptions := subscriptions + [row];
        r := Ok(row);
      }
    }

    /**
     * `setAnnouncementChannel`: insert a new announcement row. It never
     * updates: a guild that already has a row makes it fail.
     */
    method SetAnnouncementChannel(guildId: Option<string>, channelId: Option<string>, now: int)
      returns (r: Result<AnnouncementRow, DbError>)
      requires Valid()
      modifies this
      ensures Valid()
      ensures subscriptions == old(subscriptions) && nextId == old(nextId)
      ensures r.Ok? <==> guildId.Some? && channelId.Some? && guildId.value !in GuildIds(old(announcements))
      ensures r.Ok? ==>
        r.value == AnnouncementRow(guildId.value, channelId.value, now, now) &&
        announcements == old(announcements) + [r.value]
      ensures r.Err? ==> announcements == old(announcements)
      ensures guildId.Some? && channelId.Some? && guildId.value in GuildIds(old(announcements)) ==>
        r == Err(UniqueViolation("guild_id"))
    {
      if guildId.None? {
        r := Err(NotNullViolation("guild_id"));
      } else if channelId.None? {
        r := Err(NotNullViolation("channel_id"));
      } else if guildId.value in GuildIds(announcements) {
        r := Err(UniqueViolation("guild_id"));
      } else {
        var row := AnnouncementRow(guildId.value, channelId.value, now, now);
        assert forall k :: 0 <= k < |announcements| ==> GuildOf(announcements[k]) != GuildOf(row) by {
          forall k | 0 <= k < |announcements| ensures GuildOf(announcements[k]) != GuildOf(row) {
            assert announcements[k] in announcements;
          }
        }
        announcements := announcements + [row];
        r := Ok(row);
      }
    }

    /**
     * `updateAnnouncementChannel`: set `channel_id` on the guild's rows and
     * return them (`returning("*")`); nothing else changes.
     */
    method UpdateAnnouncementChannel(guildId: string, channelId: string) returns (updated: seq<AnnouncementRow>)
      requires Valid()
      modifies this
      ensures Valid()
      ensures announcements == UpdateChannel(old(announcements), guildId, channelId)
      ensures subscriptions == old(subscriptions) && nextId == old(nextId)
      ensures updated == Keep(announcements, (row: AnnouncementRow) => row.guildId == guildId)
    {
      var before := announcements;
      announcements := UpdateChannel(announcements, guildId, channelId);
      assert GuildKeyUnique(announcements) by {
        forall i, j | 0 <= i < j < |announcements| ensures GuildOf(announcements[i]) != GuildOf(announcements[j]) {
          assert GuildOf(before[i]) != GuildOf(before[j]);
        }
      }
      assert GuildIds(announcements) == GuildIds(before) by {
        forall g | g in GuildIds(before) ensures g in GuildIds(announcements) {
          var k :| 0 <= k < |before| && before[k].guildId == g;
          assert announcements[k] in announcements;
        }
        forall g | g in GuildIds(announcements) ensures g in GuildIds(before) {
          var k :| 0 <= k < |announcements| && announcements[k].guildId == g;
          assert before[k] in before;
        }
      }
      updated := Keep(announcements, (row: AnnouncementRow) => row.guildId == guildId);
    }

    /**
     * `unsubscribe`: delete every row for the pair and return how many went.
     * Every other row stays, in order.
     */
    method Unsubscribe(guildId: string, broadcasterId: string) returns (deleted: nat)
      requires Valid()
      modifies this
      ensures Valid()
      ensures subscriptions == RemovePair(old(subscriptions), guildId, broadcasterId)
      ensures deleted == |Keep(old(subscriptions), (row: SubscriptionRow) => IsPair(row, guildId, broadcasterId))|
      ensures announcements == old(announcements) && nextId == old(nextId)
    {
      var before := subscriptions;
      var gone := Keep(before, (row: SubscriptionRow) => IsPair(row, guildId, broadcasterId));
      subscriptions := RemovePair(before, guildId, broadcasterId);
      KeepPartitions(before, (row: SubscriptionRow) => IsPair(row, guildId, broadcasterId),
                     (row: SubscriptionRow) => !IsPair(row, guildId, broadcasterId));
      KeepKeepsKeysDistinct(before, (row: SubscriptionRow) => !IsPair(row, guildId, broadcasterId), IdOf);
      forall k | 0 <= k < |subscriptions| ensures subscriptions[k].id < nextId && subscriptions[k].guildId in GuildIds(announcements) {
        assert subscriptions[k] in before;
      }
      deleted := |gone|;
    }

    /**
     * Deleting a guild's announcement row, which the foreign key's ON DELETE
     * CASCADE extends to every subscription of that guild.
     */
    method DeleteAnnouncement(guildId: string) returns (deleted: nat)
      requires Valid()
      modifies this
      ensures Valid()
      ensures announcements == RemoveGuild(old(announcements), guildId)
      ensures subscriptions == RemoveGuildSubs(old(subscriptions), guildId)
      ensures forall k :: 0 <= k < |subscriptions| ==> subscriptions[k].guildId != guildId
      ensures nextId == old(nextId)
      ensures deleted == |old(announcements)| - |announcements|
    {
      var anns, subs := announcements, subscriptions;
      announcements := RemoveGuild(anns, guildId);
      subscriptions := RemoveGuildSubs(subs, guildId);
      KeepKeepsKeysDistinct(anns, (row: AnnouncementRow) => row.guildId != guildId, GuildOf);
      KeepKeepsKeysDistinct(subs, (row: SubscriptionRow) => row.guildId != guildId, IdOf);
      forall k | 0 <= k < |subscriptions|
        ensures subscriptions[k].id < nextId && subscriptions[k].guildId != guildId
        ensures subscriptions[k].guildId in GuildIds(announcements)
      {
        var row := subscriptions[k];
        assert row in subs;
        var a :| a in anns && a.guildId == row.guildId;
        assert a in announcements;
      }
      deleted := |anns| - |announcements|;
    }
  }

  /** The seed data of `db/seeds`: two guilds, both subscribed to broadcaster 68047106. */
  const SeedAnnouncements := [
    AnnouncementRow("824006936613224459", "824006992368238662", 0, 0),
    AnnouncementRow("301606963513393153", "301608497387274240", 0, 0)]
  const SeedSubscriptions := [
    SubscriptionRow(1, "824006936613224459", "68047106", 0, 0),
    SubscriptionRow(2, "301606963513393153", "68047106", 0, 0)]

  /**
   * Two guilds with their own channels, each subscribed once to the same
   * broadcaster: the tables are well formed, the broadcaster's join names
   * both channels in the model's row order, and any other broadcaster's names none.
   */
  lemma TwoGuildsOneBroadcaster(g1: string, c1: string, g2: string, c2: string, b: string, other: string)
    requires g1 != g2 && other != b
    ensures var anns := [AnnouncementRow(g1, c1, 0, 0), AnnouncementRow(g2, c2, 0, 0)];
      var subs := [SubscriptionRow(1, g1, b, 0, 0), SubscriptionRow(2, g2, b, 0, 0)];
      && WellFormed(anns, subs, 3)
      && ListChannelsForGivenSubscription(anns, subs, b) == [c1, c2]
      && ListChannelsForGivenSubscription(anns, subs, other) == []
  {
    var anns := [AnnouncementRow(g1, c1, 0, 0), AnnouncementRow(g2, c2, 0, 0)];
    var subs := [SubscriptionRow(1, g1, b, 0, 0), SubscriptionRow(2, g2, b, 0, 0)];
    assert anns[1..] == [anns[1]] && anns[1..][1..] == [];
    assert subs[1..] == [subs[1]] && subs[1..][1..] == [];
    assert Destinations(anns, g1) == [c1];
    assert Destinations(anns, g2) == [c2];
    assert GuildIds(anns) == {g1, g2};
    assert ListChannelsForGivenSubscription(anns, subs[1..], b) == [c2] + ListChannelsForGivenSubscription(anns, [], b);
    assert ListChannelsForGivenSubscription(anns, subs, b) == [c1] + [c2];
    assert ListChannelsForGivenSubscription(anns, subs[1..], other) == ListChannelsForGivenSubscription(anns, [], other);
  }

  /** The seeded broadcaster is announced in both guilds' channels, once each. */
  lemma SeedJoin()
    ensures WellFormed(SeedAnnouncements, SeedSubscriptions, 3)
    ensures ListChannelsForGivenSubscription(SeedAnnouncements, SeedSubscriptions, "68047106")
         == ["824006992368238662", "301608497387274240"]
    ensures ListChannelsForGivenSubscription(SeedAnnouncements, SeedSubscriptions, "1") == []
  {
    TwoGuildsOneBroadcaster("824006936613224459", "824006992368238662",
      "301606963513393153", "301608497387274240", "68047106", "1");
  }

  /** Two subscriptions of one guild to one broadcaster name the guild's channel twice. */
  lemma SameGuildTwice(ann: AnnouncementRow, s1: SubscriptionRow, s2: SubscriptionRow, b: string)
    requires s1.guildId == ann.guildId && s2.guildId == ann.guildId
    requires s1.broadcasterId == b && s2.broadcasterId == b
    ensures ListChannelsForGivenSubscription([ann], [s1, s2], b) == [ann.channelId, ann.channelId]
  {
    assert Destinations([ann], ann.guildId) == [ann.channelId];
    assert [s1, s2][1..] == [s2] && [s2][1..] == [];
    assert ListChannelsForGivenSubscription([ann], [s2], b) == [ann.channelId] + ListChannelsForGivenSubscription([ann], [], b);
  }

  /**
   * Nothing in the schema stops the same guild subscribing to the same
   * broadcaster twice: both inserts succeed, and the join then names the
   * guild's channel twice.
   */
  method DuplicatePairAdmitted() returns (first: Result<SubscriptionRow, DbError>, second: Result<SubscriptionRow, DbError>, channels: seq<string>)
    ensures first.Ok? && second.Ok? && first.value.id != second.value.id
    ensures channels == ["c1", "c1"]
  {
    var db := new Database();
    var ann := db.SetAnnouncementChannel(Some("g1"), Some("c1"), 0);
    assert db.announcements == [AnnouncementRow("g1", "c1", 0, 0)];
    first := db.CreateSubscription(Some("g1"), Some("b1"), 0);
    second := db.CreateSubscription(Some("g1"), Some("b1"), 0);
    assert db.subscriptions == [first.value, second.value];
    SameGuildTwice(db.announcements[0], first.value, second.value, "b1");
    channels := ListChannelsForGivenSubscription(db.announcements, db.subscriptions, "b1");
  }
}

/**
 * The two tables created by the migrations
 * `db/migrations/20210626025207_createAnnouncementsTable.js` and
 * `db/migrations/20210627192508_createSubscriptionsTable.js`, their
 * constraints, and what the migrations' `up` and `down` do to the schema.
 * NOT NULL is carried by the types: a stored row's columns are strings,
 * never `undefined`.
 */
module Schema {
  import opened Wrappers
  import opened Seqs

  /** A row of `announcements`: primary key `guild_id`, `channel_id`, and the two timestamps. */
  datatype AnnouncementRow = AnnouncementRow(
    guildId: string,
    channelId: string,
    createdAt: int,
    updatedAt: int)

  /** A row of `subscriptions`: auto-increment `id`, `guild_id` (foreign key), `broadcaster_id`, timestamps. */
  datatype SubscriptionRow = SubscriptionRow(
    id: nat,
    guildId: string,
    broadcasterId: string,
    createdAt: int,
    updatedAt: int)

  function GuildOf(row: AnnouncementRow): string { row.guildId }
  function IdOf(row: SubscriptionRow): nat { row.id }

  /** The values of `announcements.guild_id`. */
  function GuildIds(anns: seq<AnnouncementRow>): set<string> {
    set row | row in anns :: row.guildId
  }

  /** `guild_id` is the unique primary key of `announcements` (line 3 of its migration). */
  predicate GuildKeyUnique(anns: seq<AnnouncementRow>) {
    KeysDistinct(anns, GuildOf)
  }

  /**
   * `id` is the auto-increment primary key of `subscriptions`: ids are
   * distinct and all drawn from the sequence, whose next value is `nextId`.
   */
  predicate IdsFromSequence(subs: seq<SubscriptionRow>, nextId: nat) {
    KeysDistinct(subs, IdOf) && forall k :: 0 <= k < |subs| ==> subs[k].id < nextId
  }

  /** Every `subscriptions.guild_id` references an existing `announcements.guild_id`. */
  predicate GuildsReferenced(anns: seq<AnnouncementRow>, subs: seq<SubscriptionRow>) {
    forall k :: 0 <= k < |subs| ==> subs[k].guildId in GuildIds(anns)
  }

  /**
   * The constraints of both migrations together. Nothing here makes the
   * pair (`guild_id`, `broadcaster_id`) unique.
   */
  predicate WellFormed(anns: seq<AnnouncementRow>, subs: seq<SubscriptionRow>, nextId: nat) {
    GuildKeyUnique(anns) && IdsFromSequence(subs, nextId) && GuildsReferenced(anns, subs)
  }

  /** Which of the two tables exist. */
  datatype SchemaState = SchemaState(announcements: bool, subscriptions: bool)

  datatype MigrationError =
    | TableExists(table: string)        // createTable on a table that is there
    | MissingTable(table: string)       // a foreign key into a table that is not there
    | DependentObjects(table: string)   // dropping a table another table's foreign key uses

  /** `up` of the announcements migration: `createTable("announcements", …)`. */
  function AnnouncementsUp(st: SchemaState): (r: Result<SchemaState, MigrationError>)
    ensures r.Ok? <==> !st.announcements
    ensures r.Ok? ==> r.value == st.(announcements := true)
  {
    if st.announcements then Err(TableExists("announcements"))
    else Ok(st.(announcements := true))
  }

  /**
   * `down` of the announcements migration: `dropTableIfExists`, a no-op
   * when the table is absent; the database refuses it while `subscriptions`
   * still has its foreign key into it.
   */
  function AnnouncementsDown(st: SchemaState): (r: Result<SchemaState, MigrationError>)
    ensures !st.announcements ==> r == Ok(st)
    ensures r.Ok? ==> !r.value.announcements && r.value.subscriptions == st.subscriptions
    ensures r.Err? <==> st.announcements && st.subscriptions
  {
    if !st.announcements then Ok(st)
    else if st.subscriptions then Err(DependentObjects("announcements"))
    else Ok(st.(announcements := false))
  }

  /** `up` of the subscriptions migration; its foreign key needs `announcements`. */
  function SubscriptionsUp(st: SchemaState): (r: Result<SchemaState, MigrationError>)
    ensures r.Ok? <==> st.announcements && !st.subscriptions
    ensures r.Ok? ==> r.value == st.(subscriptions := true)
  {
    if st.subscriptions then Err(TableExists("subscriptions"))
    else if !st.announcements then Err(MissingTable("announcements"))
    else Ok(st.(subscriptions := true))
  }

  /** `down` of the subscriptions migration: `dropTableIfExists`, always succeeds. */
  function SubscriptionsDown(st: SchemaState): (r: Result<SchemaState, MigrationError>)
    ensures r.Ok? && !r.value.subscriptions && r.value.announcements == st.announcements
  {
    Ok(st.(subscriptions := false))
  }

  /**
   * Running both migrations up in order from an empty database and rolling
   * them back in reverse order gives back the empty database; rolling back
   * once more changes nothing.
   */
  lemma MigrateThenRollback()
    ensures AnnouncementsUp(SchemaState(false, false)) == Ok(SchemaState(true, false))
    ensures SubscriptionsUp(SchemaState(true, false)) == Ok(SchemaState(true, true))
    ensures SubscriptionsDown(SchemaState(true, true)) == Ok(SchemaState(true, false))
    ensures AnnouncementsDown(SchemaState(true, false)) == Ok(SchemaState(false, false))
    ensures SubscriptionsDown(SchemaState(false, false)) == Ok(SchemaState(false, false))
    ensures AnnouncementsDown(SchemaState(false, false)) == Ok(SchemaState(false, false))
  {
  }
}

/**
 * The announcement gate of the API: `api/common/announcementExists.js`
 * looks the guild's announcement row up and leaves it (or `null`) in
 * `response.locals.announcement`; `api/common/verifyAnnouncementResult.js`
 * then rejects the request when that slot holds `null`.
 */
module AnnouncementGate {
  import opened Wrappers
  import opened Seqs
  import opened Schema
  import opened Express
  import TwitchService

  const NoChannelError := HttpError(400, "You must set an announcement channel first!")

  /** What `response.locals.announcement` holds: never assigned, `null`, or a row. */
  datatype Slot = Unset | Null | Row(row: AnnouncementRow)

  /** The `response.locals` object of one request. */
  class Locals {
    var announcement: Slot

    constructor ()
      ensures announcement == Unset
    {
      announcement := Unset;
    }

    /**
     * `announcementExists`: reads the row of `request.params.guild_id`,
     * stores it, or `null` when there is none, and calls `next()` once; it
     * never rejects.
     */
    method AnnouncementExists(db: TwitchService.Database, guildId: string) returns (actions: seq<Action>)
      modifies this
      ensures actions == [Next]
      ensures announcement.Null? <==> guildId !in GuildIds(db.announcements)
      ensures announcement.Row? ==>
        announcement.row in db.announcements && announcement.row.guildId == guildId
      ensures announcement != Unset
    {
      var found := TwitchService.ReadAnnouncement(db.announcements, guildId);
      if found.None? {
        announcement := Null;
      } else {
        announcement := Row(found.value);
      }
      actions := [Next];
    }
  }

  /**
   * `verifyAnnouncementResult`: a strict `=== null` test. `null` raises the
   * 400, and, since the handler does not return, `next()` follows; a slot
   * never assigned passes as if it held a row.
   */
  function VerifyAnnouncementResult(slot: Slot): (actions: seq<Action>)
    ensures |actions| >= 1 && actions[|actions| - 1] == Next
    ensures Count(actions, Next) == 1
    ensures Rejects(actions) <==> slot.Null?
    ensures NextError(NoChannelError) in actions <==> slot.Null?
    ensures !slot.Null? ==> actions == [Next]
  {
    if slot.Null? then
      var actions := [NextError(NoChannelError), Next];
      assert actions[0].NextError?;
      actions
    else [Next]
  }

  /**
   * The two middlewares in a row on a fresh request: rejected exactly when
   * the guild has no announcement row, and `next()` is called once by each.
   */
  method Gate(db: TwitchService.Database, guildId: string) returns (actions: seq<Action>)
    ensures Rejects(actions) <==> guildId !in GuildIds(db.announcements)
    ensures Count(actions, Next) == 2
    ensures actions[|actions| - 1] == Next
  {
    var locals := new Locals();
    var first := locals.AnnouncementExists(db, guildId);
    var second := VerifyAnnouncementResult(locals.announcement);
    actions := first + second;
    CountAppend(first, second, Next);
    assert Rejects(actions) <==> Rejects(second) by {
      if Rejects(second) {
        var k :| 0 <= k < |second| && second[k].NextError?;
        assert actions[|first| + k] == second[k];
      }
    }
  }
}

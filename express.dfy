/**
 * What an Express middleware or route handler does with a request, as the
 * ordered list of calls it makes: `next()`, `next(err)`, and the writes to
 * the response object. Handlers in this code base do not return after
 * `next(err)`, so the code of one handler issues several of these; what
 * Express makes of them is `Effective`.
 */
module Express {
  import opened Wrappers
  import opened Seqs

  /** The `{ status, message }` object handed to `next`. */
  datatype HttpError = HttpError(status: int, message: string)

  /** The `event` object of an EventSub `stream.online` notification. */
  datatype StreamEvent = StreamEvent(
    broadcasterUserId: string,
    broadcasterUserLogin: string,
    broadcasterUserName: string,
    startedAt: string)

  datatype Action =
    | Next                                  // next()
    | NextError(err: HttpError)             // next({ status, message })
    | Send(status: int, body: string)       // response.status(s).send(body)
    | SendStatus(status: int)               // response.sendStatus(s)
    | Json(status: int, data: string)       // response.status(s).json({ data })
    | NotifyDiscord(event: Option<StreamEvent>)  // NotifyDiscord.twitch(event)
    | TwitchLive(event: Option<StreamEvent>)     // twitchLive(event)

  /** `next(err)` was called with some error. */
  predicate Rejects(actions: seq<Action>) {
    exists k :: 0 <= k < |actions| && actions[k].NextError?
  }

  /** A response was written (by any of the response methods). */
  predicate Responds(actions: seq<Action>) {
    exists k :: 0 <= k < |actions| && (actions[k].Send? || actions[k].SendStatus? || actions[k].Json?)
  }

  /**
   * A middleware that runs two checks, calls `next(err)` for each one that
   * fails without returning, and then calls `next()`.
   */
  function TwoChecks(firstFails: bool, firstError: HttpError, secondFails: bool, secondError: HttpError): (actions: seq<Action>)
    requires firstError != secondError
    ensures |actions| >= 1 && actions[|actions| - 1] == Next
    ensures Count(actions, Next) == 1
    ensures NextError(firstError) in actions <==> firstFails
    ensures NextError(secondError) in actions <==> secondFails
    ensures actions == [Next] <==> !firstFails && !secondFails
    ensures forall k :: 0 <= k < |actions| ==> actions[k] in {Next, NextError(firstError), NextError(secondError)}
    ensures !Responds(actions)
  {
    if firstFails && secondFails then [NextError(firstError), NextError(secondError), Next]
    else if firstFails then [NextError(firstError), Next]
    else if secondFails then [NextError(secondError), Next]
    else [Next]
  }

  /**
   * What Express carries out of the calls a chain of handlers issues: the
   * first `next(err)` skips the rest of the chain and hands the request to
   * the error handler, which answers it at once, so the calls after it have
   * no effect (a later response write throws because the headers are sent).
   */
  function Effective(actions: seq<Action>): (r: seq<Action>)
    ensures |r| <= |actions| && r == actions[..|r|]
    ensures !Rejects(actions) ==> r == actions
    ensures Rejects(actions) ==> |r| >= 1 && r[|r| - 1].NextError? && !Rejects(r[..|r| - 1])
    ensures Rejects(r) <==> Rejects(actions)
  {
    if actions == [] then []
    else if actions[0].NextError? then [actions[0]]
    else
      var rest := Effective(actions[1..]);
      assert Rejects(actions) ==> Rejects(actions[1..]) by {
        if Rejects(actions) {
          var k :| 0 <= k < |actions| && actions[k].NextError?;
          assert actions[1..][k - 1] == actions[k];
        }
      }
      assert Rejects(rest) ==> Rejects([actions[0]] + rest) by {
        if Rejects(rest) {
          var k :| 0 <= k < |rest| && rest[k].NextError?;
          assert ([actions[0]] + rest)[k + 1] == rest[k];
        }
      }
      [actions[0]] + rest
  }

  /**
   * A chain whose first handler finished without `next(err)` continues with
   * the next handler; once one has called it, nothing after it counts.
   */
  lemma {:induction false} EffectiveAppend(first: seq<Action>, rest: seq<Action>)
    ensures !Rejects(first) ==> Effective(first + rest) == first + Effective(rest)
    ensures Rejects(first) ==> Effective(first + rest) == Effective(first)
  {
    if first != [] {
      assert (first + rest)[1..] == first[1..] + rest;
      if !first[0].NextError? {
        EffectiveAppend(first[1..], rest);
        assert Rejects(first) <==> Rejects(first[1..]) by {
          if Rejects(first) {
            var k :| 0 <= k < |first| && first[k].NextError?;
            assert first[1..][k - 1] == first[k];
          }
          if Rejects(first[1..]) {
            var k :| 0 <= k < |first[1..]| && first[1..][k].NextError?;
            assert first[k + 1] == first[1..][k];
          }
        }
      } else {
        assert Rejects(first) by { assert first[0].NextError?; }
      }
    } else {
      assert first + rest == rest;
    }
  }
}

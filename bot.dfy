/** bot.py's pairing state, `waiting_users` and `active_pairs`, as an object
    that its handlers update in place. Each handler is tied to its
    transition in BotSpec and keeps the invariant. Messages, keyboards and
    the FSM state are not modelled; a send whose failure changes the state
    is a `bool` parameter. */
module Bot {
  import opened Common
  import opened Lists
  import opened BotSpec

  class PairingEngine {
    var waitingUsers: seq<UserId>
    var activePairs: map<UserId, UserId>

    /** The whole state as a value. */
    function Snapshot(): Pool
      reads this
    {
      Pool(waitingUsers, activePairs)
    }

    ghost predicate Valid()
      reads this
    {
      BotSpec.Valid(Snapshot())
    }

    /** `waiting_users = []`, `active_pairs = {}`. */
    constructor ()
      ensures Snapshot() == Empty() && Valid()
    {
      waitingUsers := [];
      activePairs := map[];
      EmptyValid();
    }

    /** Drop the caller's pair on both sides (lines shared by
        `send_welcome`, `next_partner` and `end_chat`). */
    method DropPair(u: UserId)
      modifies this`activePairs
      ensures activePairs == Unpair(old(activePairs), u)
    {
      if u in activePairs {
        var partner := activePairs[u];
        activePairs := activePairs - {partner};
      }
      activePairs := activePairs - {u};
    }

    /** `send_welcome` (/start, /help): the user disconnects from any chat
        and leaves the waiting list. */
    method SendWelcome(u: UserId)
      modifies this
      ensures Snapshot() == Teardown(old(Snapshot()), u)
      ensures old(Valid()) ==> Valid()
    {
      TeardownPreservesValid(Snapshot(), u);
      DropPair(u);
      if u in waitingUsers {
        waitingUsers := RemoveFirst(waitingUsers, u);
      }
    }

    /** `start_search`; `notified` says whether both connection messages
        were sent. */
    method StartSearch(u: UserId, notified: bool) returns (outcome: SearchOutcome)
      modifies this
      ensures SearchStep(Snapshot(), outcome) == BotSpec.StartSearch(old(Snapshot()), u, notified)
      ensures old(Valid()) ==> Valid()
    {
      StartSearchPreservesValid(Snapshot(), u, notified);
      if u in activePairs {
        return AlreadyInChat;
      }
      if u !in waitingUsers {
        waitingUsers := waitingUsers + [u];
      }
      if |waitingUsers| >= 2 {
        var user1 := waitingUsers[0];
        waitingUsers := waitingUsers[1..];
        var user2 := waitingUsers[0];
        waitingUsers := waitingUsers[1..];
        activePairs := activePairs[user1 := user2];
        activePairs := activePairs[user2 := user1];
        if !notified {
          activePairs := activePairs - {user1};
          activePairs := activePairs - {user2};
          return ConnectFailed(user1, user2);
        }
        return Connected(user1, user2);
      }
      return Waiting;
    }

    /** `cancel_search`. */
    method CancelSearch(u: UserId)
      modifies this`waitingUsers
      ensures Snapshot() == BotSpec.CancelSearch(old(Snapshot()), u)
      ensures old(Valid()) ==> Valid()
    {
      CancelSearchPreservesValid(Snapshot(), u);
      if u in waitingUsers {
        waitingUsers := RemoveFirst(waitingUsers, u);
      }
    }

    /** `next_partner`: leave the current chat, then search again. */
    method NextPartner(u: UserId, notified: bool) returns (oldPartner: Option<UserId>, outcome: SearchOutcome)
      modifies this
      ensures NextStep(Snapshot(), oldPartner, outcome) == BotSpec.NextPartner(old(Snapshot()), u, notified)
      ensures old(Valid()) ==> Valid()
    {
      NextPartnerPreservesValid(Snapshot(), u, notified);
      oldPartner := PartnerOf(activePairs, u);
      DropPair(u);
      outcome := StartSearch(u, notified);
    }

    /** `end_chat`. */
    method EndChat(u: UserId)
      modifies this
      ensures Snapshot() == Teardown(old(Snapshot()), u)
      ensures old(Valid()) ==> Valid()
    {
      TeardownPreservesValid(Snapshot(), u);
      DropPair(u);
      if u in waitingUsers {
        waitingUsers := RemoveFirst(waitingUsers, u);
      }
    }

    /** `forward_message`; `delivered` says whether the relay was sent. */
    method ForwardMessage(u: UserId, delivered: bool) returns (outcome: ForwardOutcome)
      modifies this
      ensures ForwardStep(Snapshot(), outcome) == BotSpec.ForwardMessage(old(Snapshot()), u, delivered)
      ensures old(Valid()) ==> Valid()
    {
      if u !in activePairs {
        return NoPartner;
      }
      var partner := activePairs[u];
      if delivered {
        return Delivered(partner);
      }
      EndChat(u);
      return PartnerUnavailable(partner);
    }
  }

  /** Two users are paired through the handlers; when one of them skips
      to the next partner, the skipper waits and the other is left with
      nobody to write to. */
  method PairingScenario() {
    var engine := new PairingEngine();
    var a := engine.StartSearch(1, true);
    var b := engine.StartSearch(2, true);
    assert a == Waiting && b == Connected(1, 2);
    var left, next := engine.NextPartner(1, true);
    assert left == Some(2) && next == Waiting && engine.waitingUsers == [1];
    var f := engine.ForwardMessage(2, true);
    assert f == NoPartner;
  }
}

/** matchmaking.py's module-level state and functions as an object that
    updates its fields in place. Each method is tied to the transition of
    the same name in MatchmakingSpec. */
module Matchmaking {
  import opened Common
  import opened MatchmakingSpec

  class Matchmaker {
    var users: map<UserId, Record>
    var waitingMales: seq<UserId>
    var waitingFemales: seq<UserId>

    /** The whole state as a value. */
    function Snapshot(): Registry
      reads this
    {
      Registry(users, waitingMales, waitingFemales)
    }

    ghost predicate Valid()
      reads this
    {
      MatchmakingSpec.Valid(Snapshot())
    }

    /** `users = {}`, `waiting_males = []`, `waiting_females = []`. */
    constructor ()
      ensures Snapshot() == Empty() && Valid()
    {
      users := map[];
      waitingMales := [];
      waitingFemales := [];
      EmptyValid();
    }

    /** `set_gender(user_id, gender)`. */
    method SetGender(u: UserId, gender: string)
      modifies this
      ensures Snapshot() == MatchmakingSpec.SetGender(old(Snapshot()), u, gender)
      ensures old(Valid()) && (u !in old(users) || old(users[u].status) == Idle) ==> Valid()
    {
      if Valid() && (u !in users || users[u].status == Idle) {
        SetGenderPreservesValid(Snapshot(), u, gender);
      }
      users := users[u := Record(gender, Idle, None)];
    }

    /** `start_search(user_id)`: the caller's gender picks which queue it
        is matched against and which one it waits in. */
    method StartSearch(u: UserId) returns (partner: Option<UserId>)
      requires CanSearch(Snapshot(), u)
      modifies this
      ensures SearchStep(Snapshot(), partner) == MatchmakingSpec.StartSearch(old(Snapshot()), u)
      ensures old(Valid()) && old(users[u].status) == Idle ==> Valid()
    {
      if Valid() && users[u].status == Idle {
        StartSearchPreservesValid(Snapshot(), u);
      }
      var gender := users[u].gender;
      if gender == "male" {
        waitingFemales, waitingMales, partner := Match(u, waitingFemales, waitingMales);
      } else {
        waitingMales, waitingFemales, partner := Match(u, waitingMales, waitingFemales);
      }
    }

    /** `match(user_id, opposite_queue, same_queue)`: the queues come in as
        values and go back out as the lists `pop(0)` and `append` leave. */
    method Match(u: UserId, opposite: seq<UserId>, same: seq<UserId>)
      returns (opposite': seq<UserId>, same': seq<UserId>, partner: Option<UserId>)
      requires CanMatch(users, u, opposite)
      modifies this`users
      ensures MatchStep(users, opposite', same', partner) == MatchmakingSpec.Match(old(users), u, opposite, same)
    {
      if opposite != [] {
        var p := opposite[0];
        opposite' := opposite[1..];
        users := users[u := users[u].(status := Chatting)];
        users := users[p := users[p].(status := Chatting)];
        users := users[u := users[u].(partner := Some(p))];
        users := users[p := users[p].(partner := Some(u))];
        same', partner := same, Some(p);
      } else {
        same' := same + [u];
        users := users[u := users[u].(status := Searching)];
        opposite', partner := opposite, None;
      }
    }

    /** `end_chat(user_id)`: returns the former partner, if any. */
    method EndChat(u: UserId) returns (partner: Option<UserId>)
      requires CanEndChat(Snapshot(), u)
      modifies this`users
      ensures EndStep(Snapshot(), partner) == MatchmakingSpec.EndChat(old(Snapshot()), u)
      ensures old(Valid()) && old(users[u].status) != Searching ==> Valid()
    {
      if Valid() && users[u].status != Searching {
        EndChatPreservesValid(Snapshot(), u);
      }
      partner := users[u].partner;
      if partner.Some? {
        var p := partner.value;
        users := users[p := users[p].(partner := None)];
        users := users[p := users[p].(status := Idle)];
      }
      users := users[u := users[u].(partner := None)];
      users := users[u := users[u].(status := Idle)];
    }
  }

  /** Two users of opposite genders meet through the object's methods: the
      first waits, the second is paired with the first, and ending the
      chat frees both. */
  method MatchmakerScenario() {
    var mm := new Matchmaker();
    mm.SetGender(1, "female");
    mm.SetGender(2, "male");
    var p1 := mm.StartSearch(1);
    assert p1 == None && mm.waitingFemales == [1];
    var p2 := mm.StartSearch(2);
    assert p2 == Some(1) && mm.waitingFemales == [] && mm.waitingMales == [];
    assert mm.Valid();
    var ended := mm.EndChat(2);
    assert ended == Some(1) && mm.Valid();
    assert mm.users[1].status == Idle && mm.users[2].status == Idle;
    var again := mm.EndChat(2);
    assert again == None;
  }
}

# Pairing engine of an anonymous Telegram chat bot

This project models, in Dafny, the pairing core of a Telegram bot that
connects anonymous users for one-to-one text chats. The repository holds
two independent versions of that core, and both are modelled:

- `matchmaking.py` is a gendered matchmaker. It keeps a `users` map of
  records (`gender`, `state`, `partner`) and two FIFO queues,
  `waiting_males` and `waiting_females`. A male caller is matched against
  the female queue. Every other caller is matched against the male queue.
  A caller who finds nobody waits at the tail of their own queue.
  `end_chat` resets both partners to idle.
- `bot.py` keeps a single FIFO list `waiting_users` and a dict
  `active_pairs` that maps each chatting user to its partner. Its handlers
  are `send_welcome`, `start_search`, `cancel_search`, `next_partner`,
  `end_chat` and `forward_message`. `start_search` pairs the two
  earliest waiting users regardless of gender.

Each source file becomes two modules:

- A value-level module (`MatchmakingSpec`, `BotSpec`) gives each
  operation as a function on the whole state. It also states the
  invariants and proves them as lemmas.
- A class (`Matchmaking.Matchmaker`, `Bot.PairingEngine`) holds the
  module-level globals as fields. Its methods update them in place, step
  by step as the Python does. Each method's postcondition ties the new
  state to the matching function.
  - `Bot.PairingEngine`: every handler keeps the invariant.
  - `Matchmaking.Matchmaker`: a method keeps the invariant when the
    caller's state allows it (see below).

`Common` defines user ids and `Option`. `Lists` models Python's
`list.remove`.

User ids are Telegram ids, which are positive integers. The source's
truthiness tests (`if partner_id:`) are therefore presence tests. They
are modelled as `Option` or map membership.

## Invariants proved

- `bot.py` (`BotSpec.Valid`):
  - `active_pairs` is symmetric: a maps to b exactly when b maps to a.
  - No user is paired with itself.
  - No key of `active_pairs` is in `waiting_users`.
  - `waiting_users` has no duplicates.
  - `waiting_users` holds at most one id.
  - All six handlers keep these facts, whatever the outcomes of the
    sends they catch errors from (see "## Left out" for the sends they
    do not guard).
- `matchmaking.py` (`MatchmakingSpec.Valid`):
  - Every queued or partnered id is registered.
  - Each queued user sits in their own gender's queue.
  - Queues have no duplicates.
  - "searching" holds exactly when the user is queued.
  - "chatting" holds exactly when the user has a partner.
  - Partners are symmetric, and nobody is their own partner.
- `matchmaking.py` has no guards, so the invariant is kept only under
  conditions on the caller:
  - `set_gender` and `start_search` keep it when the caller is idle (or
    new, for `set_gender`).
  - `end_chat` keeps it when the caller is not searching.
  - `MatchmakingSpec.GenderChangeWhileQueuedSelfPairs` shows what breaks
    otherwise. A user queues as "male", then calls `set_gender` with
    another gender. `set_gender` does not dequeue them. Their next search
    pops their own id, and they are paired with themselves.

## Behaviour of the two files

The model follows the code as written:

- Neither file matches on preferences. `matchmaking.py` splits callers
  only into "male" and everything else. `bot.py` pairs the first two
  waiting users.
- Only `bot.py` refuses a caller who is already chatting
  (`start_search`, bot.py:103-105). `matchmaking.py` does not check the
  caller's state at all.
- `bot.py`'s `cancel_search` returns nothing, whether or not the caller
  was waiting.
- `matchmaking.py`'s `end_chat` changes only the two records. It never
  touches the queues.
- When `bot.py` cannot send the connection messages, both pair entries
  are dropped (bot.py:123-128). Neither user goes back to
  `waiting_users`, so both are left unpaired and not waiting.

## Model

| member | source | states |
|---|---|---|
| `MatchmakingSpec.SetGender` | matchmaking.py:5-6 | the caller's record becomes gender/idle/no partner (created if new); every other record and both queues are unchanged |
| `MatchmakingSpec.Match` | matchmaking.py:15-26 | with a non-empty opposite queue: its head is returned and popped, the own queue is unchanged, both users are chatting and point at each other and keep their genders; with an empty one: the caller is appended to the own queue, becomes searching, None is returned; no other record changes |
| `MatchmakingSpec.StartSearch` | matchmaking.py:8-13 | a "male" caller is matched against the female queue and waits in the male queue, any other gender the reverse; FIFO head taken, symmetric partners, both genders kept, or tail-append with state searching; other records unchanged |
| `MatchmakingSpec.EndChat` | matchmaking.py:28-35 | returns the former partner; caller and partner become idle with no partner; queues and all other records unchanged |
| `MatchmakingSpec.EmptyValid` | matchmaking.py:1-3 | the initial empty map and queues satisfy the invariant |
| `MatchmakingSpec.StartSearchPairsAcross` | matchmaking.py:8-17 | if every queued user is in their gender's queue, a match never pairs the caller with itself and always pairs "male" with non-"male" |
| `MatchmakingSpec.SetGenderPreservesValid` | matchmaking.py:5-6 | `set_gender` by a new or idle user keeps the invariant |
| `MatchmakingSpec.StartSearchPreservesValid` | matchmaking.py:8-26 | `start_search` by an idle user keeps the invariant |
| `MatchmakingSpec.MatchedValid` | matchmaking.py:16-22 | the pairing branch of `match` keeps the invariant (the popped partner was searching and unpartnered) |
| `MatchmakingSpec.QueuedValid` | matchmaking.py:23-26 | the queueing branch of `match` keeps the invariant |
| `MatchmakingSpec.EndChatPreservesValid` | matchmaking.py:28-35 | `end_chat` by a user who is not searching keeps the invariant |
| `MatchmakingSpec.EndChatTwice` | matchmaking.py:28-35 | a second `end_chat` returns None and changes nothing |
| `MatchmakingSpec.FirstComeFirstServed` | matchmaking.py:15-17 | with two women queued, a searching man is paired with the earlier one and the later one keeps waiting |
| `MatchmakingSpec.GenderChangeWhileQueuedSelfPairs` | matchmaking.py:5-17 | re-registering a queued "male" user under another gender and searching again pairs them with themselves |
| `Matchmaking.Matchmaker.constructor` | matchmaking.py:1-3 | empty users map and queues, satisfying the invariant |
| `Matchmaking.Matchmaker.SetGender` | matchmaking.py:5-6 | the in-place update equals `MatchmakingSpec.SetGender`; keeps the invariant for a new or idle caller |
| `Matchmaking.Matchmaker.StartSearch` | matchmaking.py:8-13 | the in-place update and the return value equal `MatchmakingSpec.StartSearch`; keeps the invariant for an idle caller |
| `Matchmaking.Matchmaker.Match` | matchmaking.py:15-26 | `pop(0)`/`append` and the four record writes give exactly `MatchmakingSpec.Match` |
| `Matchmaking.Matchmaker.EndChat` | matchmaking.py:28-35 | the in-place update and the return value equal `MatchmakingSpec.EndChat`; keeps the invariant for a caller not searching |
| `Lists.RemoveFirst` | bot.py:83-84 | `if x in list: list.remove(x)`: no change when absent, otherwise one element shorter and exactly one copy of `x` fewer |
| `Lists.RemoveFirstSplices` | bot.py:170-171 | the remaining elements keep their order: the result is the list spliced around the first occurrence |
| `Lists.RemoveFirstKeepsOrder` | bot.py:83-84 | for the index of the first occurrence, whatever it is, removal splices the list around it |
| `Lists.RemoveFirstNoDup` | bot.py:136-137 | on a list without duplicates, removal leaves no copy of the id and creates no duplicate |
| `BotSpec.Enqueue` | bot.py:107-108 | the caller is in the list afterwards, appended at the tail only if absent, so no duplicate is ever created |
| `BotSpec.Unpair` | bot.py:145-154 | the caller's key and its partner's key are gone, every other entry is kept unchanged, nothing is added |
| `BotSpec.Teardown` | bot.py:157-174 | caller and former partner are no longer keys; the caller is no longer waiting (one copy removed) and the users who stay keep their order; a caller who was not waiting leaves `waiting_users` exactly as it was; every other pair is kept |
| `BotSpec.StartSearch` | bot.py:99-131 | a paired caller changes nothing (AlreadyInChat); otherwise the caller is appended if absent; it is left waiting only when fewer than two are waiting; with two or more, the two earliest are removed in order and paired both ways, or, if notifying fails, neither is paired nor requeued |
| `BotSpec.CancelSearch` | bot.py:133-140 | the caller leaves `waiting_users` if present and the users who stay keep their order; otherwise the list is unchanged; `active_pairs` unchanged |
| `BotSpec.NextPartner` | bot.py:142-155 | reports the old partner, then searches; the search is never refused as AlreadyInChat |
| `BotSpec.ForwardMessage` | bot.py:176-191 | with no partner, nothing changes; a delivered relay changes nothing; a failed relay performs the `end_chat` teardown |
| `BotSpec.EmptyValid` | bot.py:30-31 | the initial empty list and dict satisfy the invariant |
| `BotSpec.UnpairSymmetric` | bot.py:160-169 | dropping both keys of a pair keeps `active_pairs` symmetric and free of self-pairs |
| `BotSpec.RemovePreservesUnpaired` | bot.py:170-171 | removing from `waiting_users` keeps it free of paired users |
| `BotSpec.TeardownPreservesValid` | bot.py:157-174 | `end_chat` and `send_welcome` keep symmetry, no self-pairs, no waiting-and-paired user, no duplicates, and at most one waiting |
| `BotSpec.TeardownTwice` | bot.py:157-174 | a repeated `end_chat` finds no partner and changes nothing further |
| `BotSpec.StartSearchPairsDistinct` | bot.py:113-118 | the two users paired are distinct, and each was waiting or is the caller |
| `BotSpec.ConnectFailedDropsBoth` | bot.py:120-128 | when notifying the new pair fails, both users end up neither in `active_pairs` nor in `waiting_users` |
| `BotSpec.StartSearchPreservesValid` | bot.py:99-131 | `start_search` keeps the invariants; from at most one waiting user, at most one waits afterwards |
| `BotSpec.CancelSearchPreservesValid` | bot.py:133-140 | `cancel_search` keeps the invariants |
| `BotSpec.NextPartnerPreservesValid` | bot.py:142-155 | `next_partner` keeps the invariants |
| `BotSpec.ForwardMessagePreservesValid` | bot.py:176-191 | `forward_message` keeps the invariants |
| `BotSpec.NextPartnerOutcome` | bot.py:142-155 | afterwards the caller is waiting, or is paired with someone other than the old partner, or (failed notification) is unpaired; the old partner is neither waiting nor paired |
| `BotSpec.ThreeArrivals` | bot.py:99-131 | three users arriving in turn: the first waits, the second is paired with the first, the third waits alone |
| `Bot.PairingEngine.constructor` | bot.py:30-31 | empty list and dict, satisfying the invariant |
| `Bot.PairingEngine.DropPair` | bot.py:160-169 | popping the partner's key and then the caller's leaves exactly `BotSpec.Unpair` of the old dict |
| `Bot.PairingEngine.SendWelcome` | bot.py:70-87 | the in-place update equals `BotSpec.Teardown`; keeps the invariant |
| `Bot.PairingEngine.StartSearch` | bot.py:99-131 | `append`, the two `pop(0)`s, the pair writes and the rollback give exactly `BotSpec.StartSearch`; keeps the invariant |
| `Bot.PairingEngine.CancelSearch` | bot.py:133-140 | the in-place update equals `BotSpec.CancelSearch` and touches only `waiting_users`; keeps the invariant |
| `Bot.PairingEngine.NextPartner` | bot.py:142-155 | the teardown followed by the `start_search` call equals `BotSpec.NextPartner`; keeps the invariant |
| `Bot.PairingEngine.EndChat` | bot.py:157-174 | the in-place update equals `BotSpec.Teardown`; keeps the invariant |
| `Bot.PairingEngine.ForwardMessage` | bot.py:176-191 | the lookup and the `end_chat` call on a failed relay equal `BotSpec.ForwardMessage`; keeps the invariant |

## Left out

- The Telegram transport is not modelled. This covers `Bot`,
  `Dispatcher`, polling, `send_message`, `answer` and `reply`.
  - Where a send's failure changes the pairing state, its outcome is a
    `bool` parameter: `notified` in `start_search` and `delivered` in
    `forward_message`.
  - The partner notices in `send_welcome`, `next_partner` and `end_chat`
    are left out. Their failures are only logged.
- Only the three caught exceptions are modelled: `BotBlocked`,
  `ChatNotFound` and `UserDeactivated`, and only where a `try` catches
  them. Any other exception raised by a send would abort a handler
  halfway. That is not modelled.
- An exception from a send outside any `try` aborts the handler partway.
  That is not modelled, so the invariants are proved only for handlers
  that run to the end. Two cases break them:
  - The "Searching" reply in `start_search` (bot.py:111) comes after the
    append (bot.py:107-108) and before the pairing (bot.py:113-118). If it
    raises, the caller stays queued unpaired, and two users can be left
    waiting.
  - The "Partner is unavailable" reply in `forward_message` (bot.py:190)
    comes before the call to `end_chat` (bot.py:191). If it raises, the
    teardown is skipped.
- The aiogram FSM is not modelled. This covers `ChatState`,
  `MemoryStorage` and `set_state`, which are library-managed state.
  - The handler filters (`state=`, `text=`, `content_types=`) are not
    preconditions. Every handler may be called in any state. That is
    more permissive than the filters, so the invariants hold for every
    call order.
- Keyboards, message texts, `show_help` and the handlers that reject
  non-text content are left out. They are presentation only.
- `load_dotenv`, environment variables and logging are left out. They
  are process bootstrapping.
- `async` scheduling and interleaving between handlers are left out.
  Each handler is one atomic step.
- `matchmaking.py`'s KeyErrors are not modelled as outcomes. These arise
  from an unregistered caller, or from a partner or queued id with no
  record. The source does not handle them; they abort the call. The
  model makes them preconditions instead (`CanSearch`, `CanMatch`,
  `CanEndChat`), which the invariant guarantees for queued and partnered
  ids.
- User ids are positive integers. A zero id would make Python's
  `if partner_id:` differ from a presence test. Telegram never issues
  non-positive user ids, so `UserId` is restricted to positive integers.
- The source's `users` records are duck-typed dicts. They are modelled
  as a closed record type with the three keys `set_gender` always
  writes.

/** Model of the per-user prompt gate of main.py: the module-level dictionary
    `user_states`, set by the button handler and checked-and-cleared by the
    text-message handler. */
module Session {

  /** Telegram user ids are integers. */
  type UserId = int

  /** The contents of `user_states`: user id to state string. */
  type Sessions = map<UserId, string>

  /** The only state value the bot ever stores. */
  const WaitingForPrompt: string := "waiting_for_prompt"

  /** The callback data of the "generate image" button. */
  const GenerateImageData: string := "generate_image"

  /** The gate's test: the entry is present and equals "waiting_for_prompt". */
  predicate IsAwaiting(m: Sessions, user: UserId) {
    user in m && m[user] == WaitingForPrompt
  }

  /** The dictionary after a button press from `user` with callback `data`. */
  function AfterPress(m: Sessions, user: UserId, data: string): (r: Sessions)
    ensures data == GenerateImageData ==> IsAwaiting(r, user) && r.Keys == m.Keys + {user}
    ensures data != GenerateImageData ==> r == m
    ensures forall u :: u != user ==> (u in r <==> u in m)
    ensures forall u :: u != user && u in r ==> r[u] == m[u]
  {
    if data == GenerateImageData then m[user := WaitingForPrompt] else m
  }

  /** What the gate decides on a text message, and the dictionary it leaves. */
  datatype Gate = Gate(accepted: bool, sessions: Sessions)

  /** The dictionary after a text message from `user`: accepted exactly when the
      user was awaiting a prompt, and then only that user's entry is removed. */
  function AfterMessage(m: Sessions, user: UserId): (g: Gate)
    ensures g.accepted <==> IsAwaiting(m, user)
    ensures g.accepted ==> g.sessions.Keys == m.Keys - {user}
    ensures !g.accepted ==> g.sessions == m
    ensures !IsAwaiting(g.sessions, user)
    ensures forall u :: u != user ==> (u in g.sessions <==> u in m)
    ensures forall u :: u != user && u in g.sessions ==> g.sessions[u] == m[u]
  {
    if IsAwaiting(m, user) then Gate(true, m - {user}) else Gate(false, m)
  }

  /** `user_states` as an object updated in place by the two handlers. */
  class SessionStore {
    var states: Sessions

    constructor ()
      ensures states == map[]
    {
      states := map[];
    }

    /** The state change of `button`. */
    method Press(user: UserId, data: string)
      modifies this
      ensures states == AfterPress(old(states), user, data)
    {
      if data == GenerateImageData {
        states := states[user := WaitingForPrompt];
      }
    }

    /** The gate of `handle_message`: check, then delete the entry. */
    method Message(user: UserId) returns (accepted: bool)
      modifies this
      ensures Gate(accepted, states) == AfterMessage(old(states), user)
    {
      if user in states && states[user] == WaitingForPrompt {
        states := states - {user};
        accepted := true;
      } else {
        accepted := false;
      }
    }
  }

  // ---------------------------------------------------------------------
  // Sequences of handler calls, one event handled to completion at a time

  datatype Event = ButtonPress(user: UserId, data: string) | TextMessage(user: UserId)

  function Step(m: Sessions, e: Event): Gate
  {
    match e
    case ButtonPress(user, data) => Gate(false, AfterPress(m, user, data))
    case TextMessage(user) => AfterMessage(m, user)
  }

  /** The dictionary after handling `events` in order. */
  function Replay(m: Sessions, events: seq<Event>): Sessions
    decreases events
  {
    if events == [] then m else Replay(Step(m, events[0]).sessions, events[1..])
  }

  /** How many of `user`'s text messages in `events` the gate accepts. */
  function Accepted(m: Sessions, events: seq<Event>, user: UserId): nat
    decreases events
  {
    if events == [] then 0
    else
      var g := Step(m, events[0]);
      (if events[0] == TextMessage(user) && g.accepted then 1 else 0)
        + Accepted(g.sessions, events[1..], user)
  }

  /** How many "generate image" presses by `user` `events` holds. */
  function Presses(events: seq<Event>, user: UserId): nat
  {
    if events == [] then 0
    else (if events[0] == ButtonPress(user, GenerateImageData) then 1 else 0) + Presses(events[1..], user)
  }

  function Indicator(b: bool): nat {
    if b then 1 else 0
  }

  /** No double consumption: every accepted prompt of a user uses up one press of
      the button by that user (or the waiting state the user started in), and a
      user still waiting at the end has one press not yet used up. */
  lemma {:induction false} NoDoubleConsumption(m: Sessions, events: seq<Event>, user: UserId)
    ensures Accepted(m, events, user) + Indicator(IsAwaiting(Replay(m, events), user))
         <= Presses(events, user) + Indicator(IsAwaiting(m, user))
    decreases events
  {
    if events != [] {
      NoDoubleConsumption(Step(m, events[0]).sessions, events[1..], user);
    }
  }

  /** From an empty dictionary, a user's accepted prompts never outnumber the
      user's presses; in particular a user who never pressed the button never
      gets a prompt accepted. */
  lemma AcceptedAtMostPresses(events: seq<Event>, user: UserId)
    ensures Accepted(map[], events, user) <= Presses(events, user)
    ensures Presses(events, user) == 0 ==> Accepted(map[], events, user) == 0
  {
    NoDoubleConsumption(map[], events, user);
  }

  /** After one press, of two consecutive messages from the same user only the
      first is accepted, and the user's entry is gone; other users keep theirs. */
  lemma PressThenTwoMessages(m: Sessions, user: UserId)
    ensures var g1 := AfterMessage(AfterPress(m, user, GenerateImageData), user);
      var g2 := AfterMessage(g1.sessions, user);
      g1.accepted && !g2.accepted && g2.sessions == m - {user}
  {
  }

  /** A user's entry changes only on that user's own events. */
  lemma {:induction false} OthersUntouched(m: Sessions, events: seq<Event>, user: UserId)
    requires forall k :: 0 <= k < |events| ==> events[k].user != user
    ensures user in Replay(m, events) <==> user in m
    ensures user in m ==> Replay(m, events)[user] == m[user]
    decreases events
  {
    if events != [] {
      OthersUntouched(Step(m, events[0]).sessions, events[1..], user);
    }
  }
}

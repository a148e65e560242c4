/**
 * The per-player finite-state-machine contexts the handlers work on (aiogram's
 * storage, keyed here by chat id: every chat is a private chat, so chat id and
 * user id coincide), and the chat messages the bot sends, as an appended log.
 */
module Fsm {
  import opened States

  /** A value stored in a context's data dictionary. */
  datatype Value = VInt(i: int) | VStr(s: string) | VBool(b: bool) | VNone

  type Data = map<string, Value>

  /** One player's context: the current state and the data dictionary. */
  datatype Context = Context(state: Phase, data: Data)

  /** A context that was never written, or was cleared. */
  const Blank: Context := Context(Default, map[])

  type Contexts = map<int, Context>

  /** The context of a chat; an unknown chat has the blank one. */
  function Ctx(cs: Contexts, id: int): Context
  {
    if id in cs then cs[id] else Blank
  }

  /** Python truthiness of a stored value. */
  predicate Truthy(v: Value)
  {
    match v
    case VInt(i) => i != 0
    case VStr(s) => s != ""
    case VBool(b) => b
    case VNone => false
  }

  /** `set_state` on one context. */
  function SetStateOf(cs: Contexts, id: int, p: Phase): (cs': Contexts)
    ensures Ctx(cs', id) == Ctx(cs, id).(state := p)
    ensures forall other | other != id :: Ctx(cs', other) == Ctx(cs, other)
  {
    cs[id := Ctx(cs, id).(state := p)]
  }

  /** `update_data` on one context: the given keys overwrite, the others stay. */
  function UpdateDataOf(cs: Contexts, id: int, d: Data): (cs': Contexts)
    ensures Ctx(cs', id) == Ctx(cs, id).(data := Ctx(cs, id).data + d)
    ensures forall other | other != id :: Ctx(cs', other) == Ctx(cs, other)
  {
    cs[id := Ctx(cs, id).(data := Ctx(cs, id).data + d)]
  }

  /** `clear` on one context: no state and empty data. */
  function ClearOf(cs: Contexts, id: int): (cs': Contexts)
    ensures Ctx(cs', id) == Blank
    ensures forall other | other != id :: Ctx(cs', other) == Ctx(cs, other)
  {
    cs[id := Blank]
  }

  /**
   * `update_data` applied to each listed context in turn. Every listed
   * context (listed once or more) gets the keys of `d`; the others are
   * untouched.
   */
  function UpdateEach(cs: Contexts, ids: seq<int>, d: Data): (cs': Contexts)
    ensures forall id | id in ids :: Ctx(cs', id) == Ctx(cs, id).(data := Ctx(cs, id).data + d)
    ensures forall id | id !in ids :: Ctx(cs', id) == Ctx(cs, id)
    decreases |ids|
  {
    if ids == [] then cs
    else
      var pre := UpdateEach(cs, ids[..|ids| - 1], d);
      var last := ids[|ids| - 1];
      assert forall id | id in ids :: id in ids[..|ids| - 1] || id == last;
      assert forall id | id in ids[..|ids| - 1] :: id in ids;
      assert forall m: Data :: m + d + d == m + d;
      UpdateDataOf(pre, last, d)
  }

  /** `set_state` applied to each listed context in turn. */
  function SetStateEach(cs: Contexts, ids: seq<int>, p: Phase): (cs': Contexts)
    ensures forall id | id in ids :: Ctx(cs', id) == Ctx(cs, id).(state := p)
    ensures forall id | id !in ids :: Ctx(cs', id) == Ctx(cs, id)
    decreases |ids|
  {
    if ids == [] then cs
    else
      var pre := SetStateEach(cs, ids[..|ids| - 1], p);
      var last := ids[|ids| - 1];
      assert forall id | id in ids :: id in ids[..|ids| - 1] || id == last;
      assert forall id | id in ids[..|ids| - 1] :: id in ids;
      SetStateOf(pre, last, p)
  }

  /** The contexts, shared by every handler and game manager. */
  class Storage {
    var contexts: Contexts

    constructor ()
      ensures contexts == map[]
    {
      contexts := map[];
    }
  }

  /** What the bot does in a chat: send a message (by its text key) or delete one. */
  datatype Event = Sent(chat: int, text: string) | Deleted(chat: int, messageId: int)

  /** The bot: the log of its chat actions. */
  class Bot {
    var log: seq<Event>

    constructor ()
      ensures log == []
    {
      log := [];
    }
  }

  /** One message with text key `text` to each listed chat, in order. */
  function Notices(ids: seq<int>, text: string): (events: seq<Event>)
    ensures |events| == |ids|
    ensures forall i | 0 <= i < |ids| :: events[i] == Sent(ids[i], text)
  {
    seq(|ids|, i requires 0 <= i < |ids| => Sent(ids[i], text))
  }

  /** The "you lose" message `announce_winner` sends to the loser when the winner's data names a (truthy) opponent. */
  function LoserNotice(winnerData: Data): (events: seq<Event>)
    ensures |events| <= 1
    ensures events != [] <==> "opponent_id" in winnerData && winnerData["opponent_id"].VInt? && winnerData["opponent_id"].i != 0
    ensures events != [] ==> events[0] == Sent(winnerData["opponent_id"].i, "you_lose")
  {
    if "opponent_id" in winnerData && winnerData["opponent_id"].VInt? && Truthy(winnerData["opponent_id"])
    then [Sent(winnerData["opponent_id"].i, "you_lose")]
    else []
  }
}

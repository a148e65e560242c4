/**
 * The worker's handler tables and dispatch (worker/src/handlers/generals.py):
 * a timer name selects a tick handler and a timeout handler. The handlers
 * themselves talk to the chat and the session store, so what a timeout handler
 * reports is an oracle, `TimeoutResult`.
 */
module Dispatch {
  import opened Wrappers

  const HANDS_COMPLETION: string := "hands_completion"

  datatype TickHandler = HandsCompletionTick
  datatype TimeoutHandler = HandsCompletionTimeout

  /** `handlers_tick` */
  const HandlersTick: map<string, TickHandler> := map[HANDS_COMPLETION := HandsCompletionTick]
  /** `handlers_timeout` */
  const HandlersTimeout: map<string, TimeoutHandler> := map[HANDS_COMPLETION := HandsCompletionTimeout]

  /** One call of a registered handler: which handler, and its (session_id, time_left) arguments. */
  datatype Invocation<H> = Invocation(handler: H, sessionId: string, timeLeft: int)

  /** What a timeout handler answers when called with (handler, session_id, time_left): done or not. */
  type TimeoutResult = (TimeoutHandler, string, int) -> bool

  /** `handle_tick`: the handler call it makes, if the name is registered. */
  function HandleTick(sessionId: string, timerName: string, timeLeft: int): (call: Option<Invocation<TickHandler>>)
    ensures call.None? <==> timerName !in HandlersTick
    ensures call.Some? ==> call.value == Invocation(HandlersTick[timerName], sessionId, timeLeft)
  {
    if timerName in HandlersTick then Some(Invocation(HandlersTick[timerName], sessionId, timeLeft)) else None
  }

  /**
   * `handle_timeout`: the registered handler's answer, or False ("not done, retry")
   * for an unknown name.
   */
  function HandleTimeout(sessionId: string, timerName: string, timeLeft: int, result: TimeoutResult): (done: bool)
    ensures timerName !in HandlersTimeout ==> !done
    ensures timerName in HandlersTimeout ==> done == result(HandlersTimeout[timerName], sessionId, timeLeft)
  {
    if timerName in HandlersTimeout then result(HandlersTimeout[timerName], sessionId, timeLeft) else false
  }

  /** Both tables register "hands_completion", and nothing else. */
  lemma TablesRegisterHandsCompletion()
    ensures HandlersTick.Keys == HandlersTimeout.Keys == {HANDS_COMPLETION}
    ensures HandleTick("", HANDS_COMPLETION, 0).Some?
  {
  }
}

/**
 * The completion check of worker/src/handlers/tick.py: the two players' states
 * classified by who has submitted both hands.
 */
module Completion {
  import opened Enums
  import opened States

  /** A player is complete once in `both_hands_ready`. */
  predicate Complete(p: Phase)
  {
    p == BothHandsReady
  }

  /** `hands_completion_tick`'s classification of (user state, opponent state). */
  function Classify(userState: Phase, oppState: Phase): (r: PlayerCode)
    ensures r == BOTH <==> Complete(userState) && Complete(oppState)
    ensures r == USER <==> Complete(userState) && !Complete(oppState)
    ensures r == OPPONENT <==> !Complete(userState) && Complete(oppState)
    ensures r == NOBODY <==> !Complete(userState) && !Complete(oppState)
  {
    var userComplete := Complete(userState);
    var oppComplete := Complete(oppState);
    if userComplete && oppComplete then BOTH
    else if userComplete && !oppComplete then USER
    else if oppComplete && !userComplete then OPPONENT
    else NOBODY
  }

  /** Exchanging the players exchanges USER and OPPONENT and keeps BOTH and NOBODY. */
  lemma ClassifySymmetric(a: Phase, b: Phase)
    ensures Classify(b, a) == Swap(Classify(a, b))
  {
  }
}

/** Option type used for Python's `X | None` results. */
module Wrappers {
  datatype Option<+T> = None | Some(value: T)
}

/** The four-valued target/outcome code shared by the bot and the worker. */
module Enums {
  datatype PlayerCode = NOBODY | USER | OPPONENT | BOTH

  /** Exchanges the roles of the two players. */
  function Swap(c: PlayerCode): (r: PlayerCode)
  {
    match c
    case USER => OPPONENT
    case OPPONENT => USER
    case _ => c
  }
}

/** The finite-state-machine states of one player's chat context. */
module States {
  /**
   * `Default` is aiogram's default_state (no state set). The menu states come from
   * FSMMenu, the play states from FSMPlay. `BothHandsReady` and `Winner` are used by
   * the game managers but are not declared in the FSMPlay group; they are added here.
   */
  datatype Phase =
    | Default
    | GameConsent | ChoiceGameMode | QuickGame | Matchmaking
    | WaitingGameStart | ChoiceActionForFirstHand | ChoiceActionForSecondHand | ChoiceHand
    | BothHandsReady | Winner
}

/** Decimal rendering of integers and the "a:b" join used for ids and index keys. */
module Strings {

  function DigitChar(d: nat): (c: char)
    requires d < 10
    ensures '0' <= c <= '9'
  {
    ('0' as int + d) as char
  }

  /** Python's `str(n)` for a natural number. */
  function NatToString(n: nat): (s: string)
    ensures |s| > 0
    ensures forall i :: 0 <= i < |s| ==> '0' <= s[i] <= '9'
  {
    if n < 10 then [DigitChar(n)] else NatToString(n / 10) + [DigitChar(n % 10)]
  }

  /** Python's `str(i)` for an integer: a leading '-' for negatives. */
  function IntToString(i: int): (s: string)
    ensures |s| > 0
    ensures ':' !in s
    ensures s[0] == '-' <==> i < 0
  {
    if i < 0 then "-" + NatToString(-i) else NatToString(i)
  }

  /** `f"{a}:{b}"` */
  function Join(a: string, b: string): string
  {
    a + ":" + b
  }

  lemma {:induction false} NatToStringInjective(a: nat, b: nat)
    requires NatToString(a) == NatToString(b)
    ensures a == b
  {
    var sa, sb := NatToString(a), NatToString(b);
    if a < 10 || b < 10 {
      assert sa[|sa| - 1] == sb[|sb| - 1];
    } else {
      assert sa[|sa| - 1] == DigitChar(a % 10);
      assert sb[|sb| - 1] == DigitChar(b % 10);
      assert sa[..|sa| - 1] == NatToString(a / 10);
      assert sb[..|sb| - 1] == NatToString(b / 10);
      NatToStringInjective(a / 10, b / 10);
    }
  }

  /** Different integers print differently. */
  lemma IntToStringInjective(a: int, b: int)
    requires IntToString(a) == IntToString(b)
    ensures a == b
  {
    var sa, sb := IntToString(a), IntToString(b);
    if a < 0 && b < 0 {
      assert sa[1..] == NatToString(-a) && sb[1..] == NatToString(-b);
      NatToStringInjective(-a, -b);
    } else if a >= 0 && b >= 0 {
      NatToStringInjective(a, b);
    }
  }

  /** A joined string determines its parts when the right part has no ':'. */
  lemma JoinInjective(a1: string, b1: string, a2: string, b2: string)
    requires ':' !in b1 && ':' !in b2
    requires Join(a1, b1) == Join(a2, b2)
    ensures a1 == a2 && b1 == b2
  {
    var s := Join(a1, b1);
    assert s == Join(a2, b2);
    var k1, k2 := |a1|, |a2|;
    assert s[k1] == ':' && s[k2] == ':';
    assert k1 == k2 by {
      assert forall j :: k1 < j < |s| ==> s[j] == b1[j - k1 - 1];
      assert forall j :: k2 < j < |s| ==> s[j] == b2[j - k2 - 1];
    }
    assert a1 == s[..|a1|] == a2;
    assert b1 == s[|a1| + 1..] == b2;
  }
}

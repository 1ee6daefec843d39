/** The one-shot "wait for realize" protocol that the position, activities,
    date, autohide and hot-corner workers share: `realize` is -1 before the
    panel box has been laid out, the positive id of the pending `realize`
    subscription while waiting for it, and 0 once setup may proceed. */
module Realize {

  /** The outcome of one realize check. */
  datatype Step = Step(realize: int, proceed: bool)

  /** A check with the current `realize` value: a negative value subscribes
      (the host hands out the positive `handlerId`) and stops; a positive one
      drops that subscription and continues; zero continues. */
  function Check(realize: int, handlerId: int): (r: Step)
    requires handlerId > 0
    ensures r.proceed <==> realize >= 0
    ensures r.proceed ==> r.realize == 0
    ensures !r.proceed ==> r.realize == handlerId > 0
  {
    if realize < 0 then Step(handlerId, false)
    else Step(0, true)
  }

  /** The first check after construction defers; the check that the realize
      signal triggers then proceeds, and any later check proceeds too. */
  lemma {:induction false} DefersExactlyOnce(first: int, second: int, third: int)
    requires first > 0 && second > 0 && third > 0
    ensures !Check(-1, first).proceed
    ensures Check(Check(-1, first).realize, second) == Step(0, true)
    ensures Check(Check(Check(-1, first).realize, second).realize, third) == Step(0, true)
  {
  }
}

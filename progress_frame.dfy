/**
 * The scanner's progress frame: a small frame coloured by scan state that, while processing,
 * draws an arc growing by 10 degrees per timer tick and starting over after a full turn.
 * Painting is left out; the timer is a flag.
 */
module ProgressFrameState {

  datatype State = Idle | Recognized | Validated | Processing

  /** Degrees added per tick. */
  const Step: int := 10
  const FullTurn: int := 360

  /** The angle after one tick: 10 degrees more, back to 0 on reaching a full turn. */
  function NextAngle(angle: int): (r: int)
    ensures 0 <= angle < FullTurn && angle % Step == 0 ==> 0 <= r < FullTurn && r % Step == 0
    ensures angle + Step < FullTurn ==> r == angle + Step
    ensures angle + Step >= FullTurn ==> r == 0
  {
    if angle + Step >= FullTurn then 0 else angle + Step
  }

  /** The angle after `n` ticks. */
  function Ticks(angle: int, n: nat): int
    decreases n
  {
    if n == 0 then angle else NextAngle(Ticks(angle, n - 1))
  }

  /** Within the first turn, the angle after `k` ticks from 0 is `10 k`. */
  lemma {:induction false} TicksWithinTurn(k: nat)
    requires k < 36
    ensures Ticks(0, k) == Step * k
    decreases k
  {
    if k > 0 {
      TicksWithinTurn(k - 1);
    }
  }

  /** Thirty-six ticks from 0 make a full turn and come back to 0. */
  lemma FullTurnReturns()
    ensures Ticks(0, 36) == 0
  {
    TicksWithinTurn(35);
  }

  /** The animation repeats every 36 ticks. */
  lemma {:induction false} TicksPeriodic(n: nat)
    ensures Ticks(0, n + 36) == Ticks(0, n)
    decreases n
  {
    if n == 0 {
      FullTurnReturns();
    } else {
      TicksPeriodic(n - 1);
      assert Ticks(0, n + 36) == NextAngle(Ticks(0, n - 1 + 36));
    }
  }

  class ProgressFrame {
    var state: State
    var angle: int
    /** Whether the 50 ms animation timer runs. */
    var timerActive: bool

    predicate Valid()
      reads this
    {
      0 <= angle < FullTurn && angle % Step == 0
    }

    constructor ()
      ensures state == Idle && angle == 0 && !timerActive && Valid()
    {
      state := Idle;
      angle := 0;
      timerActive := false;
    }

    /** Stores the state, restarts the arc, and runs the timer exactly while processing. */
    method SetState(s: State)
      modifies this
      ensures state == s && angle == 0 && Valid()
      ensures timerActive <==> s == Processing
    {
      state := s;
      angle := 0;
      match state {
        case Idle => timerActive := false;
        case Recognized => timerActive := false;
        case Validated => timerActive := false;
        case Processing => timerActive := true;
      }
    }

    /** One timer tick. */
    method UpdateProgress()
      requires Valid()
      modifies this
      ensures angle == NextAngle(old(angle)) && Valid()
      ensures state == old(state) && timerActive == old(timerActive)
    {
      angle := angle + 10;
      if angle >= 360 {
        angle := 0;
      }
    }
  }
}

/**
 * The game logic: the arrow-key parser, the heading the last arrow key selects,
 * and the frame timestamp. Headings are multiples of π/2 and are kept as a count
 * of quarter turns, so the source's `FRAC_PI_2` is 1 and `PI` is 2.
 */
module Logic {

  datatype Option<T> = None | Some(value: T)

  datatype Result<T, E> = Ok(value: T) | Err(error: E)

  datatype ControlKey = ArrowUp | ArrowDown | ArrowLeft | ArrowRight

  datatype ControlKeyError = NotAControlKey

  /** π/2 and π, in quarter turns. */
  const FracPi2: int := 1
  const Pi: int := 2

  /** The key name a `ControlKey` is spelled as in a keyboard event. */
  function Name(k: ControlKey): string
  {
    match k
    case ArrowUp => "ArrowUp"
    case ArrowDown => "ArrowDown"
    case ArrowLeft => "ArrowLeft"
    case ArrowRight => "ArrowRight"
  }

  /** `ControlKey::from_str`: accepts exactly the four arrow-key names. */
  function FromStr(s: string): (r: Result<ControlKey, ControlKeyError>)
    ensures r.Ok? <==> s == "ArrowUp" || s == "ArrowDown" || s == "ArrowLeft" || s == "ArrowRight"
    ensures r.Ok? ==> Name(r.value) == s
    ensures r.Err? ==> r.error == NotAControlKey
  {
    match s
    case "ArrowUp" => Ok(ArrowUp)
    case "ArrowDown" => Ok(ArrowDown)
    case "ArrowLeft" => Ok(ArrowLeft)
    case "ArrowRight" => Ok(ArrowRight)
    case _ => Err(NotAControlKey)
  }

  /** Parsing the name of a key gives the key back. */
  lemma FromStrName(k: ControlKey)
    ensures FromStr(Name(k)) == Ok(k)
  {
  }

  /** The heading `on_keydown` selects for a key, in quarter turns. */
  function Heading(k: ControlKey): int
  {
    match k
    case ArrowUp => FracPi2
    case ArrowDown => FracPi2 + Pi
    case ArrowLeft => Pi
    case ArrowRight => 0
  }

  /** The four headings are 0, π/2, π and 3π/2: all distinct and within one turn. */
  predicate IsHeading(d: int)
  {
    d == 0 || d == FracPi2 || d == Pi || d == FracPi2 + Pi
  }

  lemma HeadingsDistinct(k1: ControlKey, k2: ControlKey)
    ensures IsHeading(Heading(k1)) && 0 <= Heading(k1) < 4
    ensures Heading(k1) == Heading(k2) <==> k1 == k2
  {
  }

  /** The heading after one key-down event: a control key sets it, any other key keeps it. */
  function AfterKeydown(d: int, key: string): (r: int)
    ensures IsHeading(d) ==> IsHeading(r)
  {
    match FromStr(key)
    case Ok(k) => Heading(k)
    case Err(_) => d
  }

  /** The heading after a sequence of key-down events, in order. */
  function AfterKeydowns(d: int, keys: seq<string>): int
    decreases |keys|
  {
    if keys == [] then d else AfterKeydowns(AfterKeydown(d, keys[0]), keys[1..])
  }

  /** The last control key in a sequence of key names, if any. */
  function LastControlKey(keys: seq<string>): Option<ControlKey>
    decreases |keys|
  {
    if keys == [] then None
    else match FromStr(keys[|keys| - 1])
      case Ok(k) => Some(k)
      case Err(_) => LastControlKey(keys[..|keys| - 1])
  }

  /** Feeding one more key to a sequence of key-down events. */
  lemma {:induction false} AfterKeydownsSnoc(d: int, keys: seq<string>, key: string)
    ensures AfterKeydowns(d, keys + [key]) == AfterKeydown(AfterKeydowns(d, keys), key)
    decreases |keys|
  {
    if keys == [] {
      assert [key][1..] == [];
    } else {
      assert (keys + [key])[1..] == keys[1..] + [key];
      AfterKeydownsSnoc(AfterKeydown(d, keys[0]), keys[1..], key);
    }
  }

  /**
   * After any sequence of key-down events the heading is that of the last arrow key
   * pressed, or the starting heading if no arrow key was pressed.
   */
  lemma {:induction false} LastControlKeyWins(d: int, keys: seq<string>)
    ensures AfterKeydowns(d, keys) == match LastControlKey(keys)
      case Some(k) => Heading(k)
      case None => d
    decreases |keys|
  {
    if keys != [] {
      var init, last := keys[..|keys| - 1], keys[|keys| - 1];
      assert keys == init + [last];
      AfterKeydownsSnoc(d, init, last);
      LastControlKeyWins(d, init);
    }
  }

  /** `GameLogic`: the heading the arrow keys select and the last frame's timestamp. */
  class GameLogic {
    var lastFrameTime: real
    /** In quarter turns of π/2. */
    var direction: int

    ghost predicate Valid()
      reads this
    {
      IsHeading(direction)
    }

    /** `GameLogic::default()`: both fields 0. */
    constructor ()
      ensures Valid()
      ensures lastFrameTime == 0.0 && direction == 0
    {
      lastFrameTime := 0.0;
      direction := 0;
    }

    /**
     * `on_keydown`: an arrow key sets the heading and suppresses the default action;
     * any other key changes nothing and lets the default action happen.
     */
    method OnKeydown(key: string) returns (preventDefault: bool)
      requires Valid()
      modifies this`direction
      ensures Valid()
      ensures preventDefault <==> FromStr(key).Ok?
      ensures direction == AfterKeydown(old(direction), key)
    {
      var parsed := FromStr(key);
      preventDefault := false;
      if parsed.Ok? {
        preventDefault := true;
        match parsed.value {
          case ArrowUp => direction := FracPi2;
          case ArrowDown => direction := FracPi2 + Pi;
          case ArrowLeft => direction := Pi;
          case ArrowRight => direction := 0;
        }
      }
    }

    /** `on_keyup`: changes nothing; suppresses the default action exactly for arrow keys. */
    method OnKeyup(key: string) returns (preventDefault: bool)
      ensures preventDefault <==> key == "ArrowUp" || key == "ArrowDown" || key == "ArrowLeft" || key == "ArrowRight"
    {
      preventDefault := false;
      if FromStr(key).Ok? {
        preventDefault := true;
      }
    }

    /** `setup`: records the current time, `Date::now()`, passed in as `now`. */
    method Setup(now: real)
      modifies this`lastFrameTime
      ensures lastFrameTime == now
    {
      lastFrameTime := now;
    }

    /** `update`: computes the frame delta and discards it. */
    method Update(now: real)
      modifies this`lastFrameTime
      ensures lastFrameTime == now
    {
      var _ := ComputeDelta(now);
    }

    /** `is_running`: the logic never asks the loop to stop. */
    function IsRunning(): (r: bool)
      ensures r
    {
      true
    }

    /** `compute_delta`: the time since the last frame, which becomes `now`. */
    method ComputeDelta(now: real) returns (delta: real)
      modifies this`lastFrameTime
      ensures delta == now - old(lastFrameTime)
      ensures lastFrameTime == now
    {
      var frameTime := now;
      delta := frameTime - lastFrameTime;
      lastFrameTime := frameTime;
    }
  }
}

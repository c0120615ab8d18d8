/// src/core/main/Game/Status.tsx: the lives left shown as a row of three
/// hearts, full ones first.
module Status {

  const MaxLives: int := 3

  datatype Heart = Full | Empty

  /** A rendered row, or the RangeError `Array(n)` throws for a length that is not a valid array length. */
  datatype Rendered<T> = Ok(value: T) | InvalidArrayLength

  /** Array lengths are unsigned 32-bit integers: `Array(n)` accepts exactly `0 <= n < 2^32`. */
  const ArrayLengthLimit: int := 0x1_0000_0000

  /** `Array.apply(null, Array(length)).map(() => heart)`. */
  function Repeat(length: int, h: Heart): (r: Rendered<seq<Heart>>)
    ensures r.Ok? <==> 0 <= length < ArrayLengthLimit
    ensures r.Ok? ==> |r.value| == length && forall i :: 0 <= i < length ==> r.value[i] == h
  {
    if length < 0 || length >= ArrayLengthLimit then InvalidArrayLength else Ok(seq(length, _ => h))
  }

  /** `heartsEmpty` (built first), then `heartsFull`, rendered as `{heartsFull}{heartsEmpty}`. */
  function Hearts(lives: int): (r: Rendered<seq<Heart>>)
    ensures r.Ok? <==> 0 <= lives <= MaxLives
    ensures r.Ok? ==> |r.value| == MaxLives
    ensures r.Ok? ==> forall i :: 0 <= i < MaxLives ==> (r.value[i] == Full <==> i < lives)
  {
    match Repeat(MaxLives - lives, Empty)
    case InvalidArrayLength => InvalidArrayLength
    case Ok(heartsEmpty) =>
      match Repeat(lives, Full)
      case InvalidArrayLength => InvalidArrayLength
      case Ok(heartsFull) => Ok(heartsFull + heartsEmpty)
  }

  function CountOf(hearts: seq<Heart>, h: Heart): nat
  {
    if hearts == [] then 0 else CountOf(hearts[..|hearts| - 1], h) + (if hearts[|hearts| - 1] == h then 1 else 0)
  }

  /** For 0 to 3 lives: `lives` full hearts and `3 - lives` empty ones, three in all. */
  lemma HeartCounts(lives: int)
    requires 0 <= lives <= MaxLives
    ensures Hearts(lives).Ok?
    ensures CountOf(Hearts(lives).value, Full) == lives
    ensures CountOf(Hearts(lives).value, Empty) == MaxLives - lives
  {
    var row := Hearts(lives).value;
    CountPrefix(row, lives);
  }

  lemma {:induction false} CountPrefix(row: seq<Heart>, k: int)
    requires 0 <= k <= |row|
    requires forall i :: 0 <= i < |row| ==> (row[i] == Full <==> i < k)
    ensures CountOf(row, Full) == k && CountOf(row, Empty) == |row| - k
  {
    if row != [] {
      var init := row[..|row| - 1];
      if k == |row| {
        CountPrefix(init, k - 1);
      } else {
        CountPrefix(init, k);
      }
    }
  }
}

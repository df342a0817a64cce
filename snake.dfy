/** The password-security snake (frontend/src/pages/password_security_game.jsx):
    a snake on a 20 by 20 board that moves one cell per tick, dies on walls
    and on itself, grows by one cell and one point per apple, and ignores a
    key that would reverse it. */
module SnakeGame {
  import opened Js

  const BoardSize := 20
  const WinScore := 25

  datatype Cell = Cell(x: int, y: int)

  const Start := Cell(10, 10)
  const Up := Cell(0, -1)
  const Down := Cell(0, 1)
  const Left := Cell(-1, 0)
  const Right := Cell(1, 0)

  predicate OnBoard(c: Cell)
  {
    0 <= c.x < BoardSize && 0 <= c.y < BoardSize
  }

  predicate IsUnit(d: Cell)
  {
    d == Up || d == Down || d == Left || d == Right
  }

  function Opposite(d: Cell): Cell
  {
    Cell(-d.x, -d.y)
  }

  /** No two segments share a cell. */
  predicate Distinct(s: seq<Cell>)
  {
    forall i, j :: 0 <= i < j < |s| ==> s[i] != s[j]
  }

  /** The direction a key asks for, if it is one of the steering keys. */
  function KeyDirection(key: string): Option<Cell>
  {
    if key == "ArrowUp" || key == "w" then Some(Up)
    else if key == "ArrowDown" || key == "s" then Some(Down)
    else if key == "ArrowLeft" || key == "a" then Some(Left)
    else if key == "ArrowRight" || key == "d" then Some(Right)
    else None
  }

  /** The reversal guard of each branch of the key handler: Up is refused
      while moving down, Down while moving up, Left while moving right,
      Right while moving left. */
  predicate Blocked(want: Cell, dir: Cell)
  {
    || (want == Up && dir.y == 1)
    || (want == Down && dir.y == -1)
    || (want == Left && dir.x == 1)
    || (want == Right && dir.x == -1)
  }

  /** The key handler while the game is running: a steering key turns the
      snake unless it points straight back; any other key is ignored. */
  function NextDirection(dir: Cell, key: string): (d: Cell)
    ensures d == dir || KeyDirection(key) == Some(d)
    ensures KeyDirection(key).None? ==> d == dir
    ensures IsUnit(dir) ==> IsUnit(d) && d != Opposite(dir)
    ensures IsUnit(dir) && KeyDirection(key).Some? && KeyDirection(key).value != Opposite(dir) ==>
              d == KeyDirection(key).value
  {
    match KeyDirection(key)
    case None => dir
    case Some(want) => if Blocked(want, dir) then dir else want
  }

  /** A cell where `getRandomFood` may put the apple: on the board, off the snake. */
  predicate FreeCell(snake: seq<Cell>, c: Cell)
  {
    OnBoard(c) && c !in snake
  }

  /** `getRandomFood` retries random cells until one is off the snake. The
      random cells are given as `draws`; the result is the first free one, and
      None means every draw was on the snake (the page would keep drawing). */
  method GetRandomFood(snake: seq<Cell>, draws: seq<Cell>) returns (food: Option<Cell>)
    requires forall k :: 0 <= k < |draws| ==> OnBoard(draws[k])
    ensures food.Some? ==> FreeCell(snake, food.value)
    ensures food.Some? ==> exists k :: 0 <= k < |draws| && draws[k] == food.value
                                      && forall j :: 0 <= j < k ==> draws[j] in snake
    ensures food.None? <==> forall k :: 0 <= k < |draws| ==> draws[k] in snake
  {
    var i := 0;
    while i < |draws|
      invariant 0 <= i <= |draws|
      invariant forall j :: 0 <= j < i ==> draws[j] in snake
    {
      var onSnake := draws[i] in snake;
      if !onSnake {
        return Some(draws[i]);
      }
      i := i + 1;
    }
    return None;
  }

  class Game {
    var snake: seq<Cell>
    var direction: Cell
    var food: Cell
    var gameOver: bool
    var score: int

    /** The invariant every step keeps: one point per segment beyond the
        first, every segment on the board and in its own cell, a unit
        direction, and the apple on a free cell. */
    ghost predicate Valid()
      reads this
    {
      && |snake| >= 1
      && (forall k :: 0 <= k < |snake| ==> OnBoard(snake[k]))
      && Distinct(snake)
      && score == |snake| - 1
      && IsUnit(direction)
      && FreeCell(snake, food)
    }

    /** The page's initial state; `firstFood` is the first random pick. */
    constructor (firstFood: Cell)
      requires FreeCell([Start], firstFood)
      ensures Valid()
      ensures snake == [Start] && direction == Right && food == firstFood
      ensures !gameOver && score == 0
    {
      snake := [Start];
      direction := Right;
      food := firstFood;
      gameOver := false;
      score := 0;
    }

    function NextHead(): Cell
      reads this
      requires |snake| >= 1
    {
      Cell(snake[0].x + direction.x, snake[0].y + direction.y)
    }

    /** The game counts as won once 25 apples are eaten. */
    predicate Won()
      reads this
      ensures Valid() ==> (Won() <==> |snake| > WinScore)
    {
      score >= WinScore
    }

    /** The keydown handler: all keys are ignored after game over. */
    method HandleKey(key: string)
      requires Valid()
      modifies this
      ensures Valid()
      ensures direction == if old(gameOver) then old(direction) else NextDirection(old(direction), key)
      ensures snake == old(snake) && food == old(food) && gameOver == old(gameOver) && score == old(score)
    {
      if gameOver {
        return;
      }
      direction := NextDirection(direction, key);
    }

    /** One interval tick. `nextFood` is the cell the random retry loop
        returns when the apple is eaten; it is off the grown snake. */
    method Tick(nextFood: Cell)
      requires Valid()
      requires NextHead() == food ==> FreeCell([NextHead()] + snake, nextFood)
      modifies this
      ensures Valid()
      ensures direction == old(direction)
      ensures old(gameOver) ==> snake == old(snake) && food == old(food) && gameOver && score == old(score)
      ensures !old(gameOver) && !FreeCell(old(snake), old(NextHead())) ==>
                gameOver && snake == old(snake) && food == old(food) && score == old(score)
      ensures !old(gameOver) && FreeCell(old(snake), old(NextHead())) && old(NextHead()) == old(food) ==>
                !gameOver && snake == [old(NextHead())] + old(snake) && score == old(score) + 1 && food == nextFood
      ensures !old(gameOver) && FreeCell(old(snake), old(NextHead())) && old(NextHead()) != old(food) ==>
                !gameOver && snake == [old(NextHead())] + old(snake)[..|old(snake)| - 1]
                && |snake| == |old(snake)| && score == old(score) && food == old(food)
    {
      if gameOver {
        return;
      }
      var head := NextHead();
      if head.x < 0 || head.x >= BoardSize || head.y < 0 || head.y >= BoardSize {
        gameOver := true;
        return;
      }
      var hitSelf := head in snake;
      if hitSelf {
        gameOver := true;
        return;
      }
      var grown := [head] + snake;
      if head == food {
        score := score + 1;
        food := nextFood;
        snake := grown;
      } else {
        snake := grown[..|grown| - 1];
        assert snake == [head] + old(snake)[..|old(snake)| - 1];
        assert forall k :: 1 <= k < |snake| ==> snake[k] == old(snake)[k - 1];
      }
    }

    /** The Restart button; `firstFood` is the new random pick. */
    method Restart(firstFood: Cell)
      requires FreeCell([Start], firstFood)
      modifies this
      ensures Valid()
      ensures snake == [Start] && direction == Right && food == firstFood
      ensures !gameOver && score == 0
    {
      snake := [Start];
      direction := Right;
      food := firstFood;
      gameOver := false;
      score := 0;
    }
  }
}

/**
 * The pygame snake of autoplay/sound/snake.py: one pass of game_loop's outer
 * loop (key events, the boundary test, the move, the body update, the
 * self-collision test and the food), and one pass of its game-over screen.
 * Coordinates are whole pixels; the random food positions are parameters.
 */
module Snake {

  const WindowWidth: int := 600
  const WindowHeight: int := 400
  /** snake_block: the size of a cell and of one move. */
  const Block: int := 10

  datatype Key = Left | Right | Up | Down | KeyQ | KeyC | OtherKey
  datatype Event = Quit | KeyDown(key: Key) | OtherEvent

  /** Python's round() on a value r / 10 that is exact: half-way values go to the even neighbour. */
  function RoundTenths(r: nat): (q: nat)
    ensures r / 10 <= q <= r / 10 + 1
    ensures r % 10 < 5 ==> q == r / 10
    ensures r % 10 > 5 ==> q == r / 10 + 1
    ensures r % 10 == 5 ==> q % 2 == 0
  {
    var q, rem := r / 10, r % 10;
    if rem < 5 then q
    else if rem > 5 then q + 1
    else if q % 2 == 0 then q else q + 1
  }

  /** round(randrange(0, limit) / 10.0) * 10.0 for the drawn number r. */
  function FoodCoord(r: nat): (c: int)
    ensures c >= 0 && c % Block == 0
  {
    RoundTenths(r) * Block
  }

  /** A food coordinate lies on the grid of cells and inside the playing field. */
  lemma FoodOnGrid(r: nat, limit: nat)
    requires r < limit && limit % Block == 0
    ensures FoodCoord(r) % Block == 0
    ensures 0 <= FoodCoord(r) <= limit
  {
    assert RoundTenths(r) <= r / 10 + 1;
    assert r / 10 < limit / 10;
  }

  /** A velocity the key handler can leave: standing still, or one cell along one axis. */
  predicate IsStep(d: (int, int)) {
    d in {(0, 0), (-Block, 0), (Block, 0), (0, -Block), (0, Block)}
  }

  /** What one event does to (x1_change, y1_change); keys other than the arrows leave it. */
  function Steer(e: Event, d: (int, int)): (d': (int, int))
    ensures IsStep(d) ==> IsStep(d')
  {
    match e
    case KeyDown(Left) => (-Block, 0)
    case KeyDown(Right) => (Block, 0)
    case KeyDown(Up) => (0, -Block)
    case KeyDown(Down) => (0, Block)
    case _ => d
  }

  /** The velocity after a batch of events, handled in order. */
  function SteerAll(events: seq<Event>, d: (int, int)): (d': (int, int))
    ensures d' == d || exists i :: 0 <= i < |events| && IsArrow(events[i]) && d' == Steer(events[i], d)
    decreases |events|
  {
    if events == [] then d else Steer(events[|events| - 1], SteerAll(events[..|events| - 1], d))
  }

  predicate IsArrow(e: Event) {
    e.KeyDown? && e.key in {Left, Right, Up, Down}
  }

  /** A batch without arrow keys leaves the velocity. */
  lemma {:induction false} SteerAllNoArrow(events: seq<Event>, d: (int, int))
    requires forall i :: 0 <= i < |events| ==> !IsArrow(events[i])
    ensures SteerAll(events, d) == d
    decreases |events|
  {
    if events != [] {
      var init := events[..|events| - 1];
      assert forall i :: 0 <= i < |init| ==> init[i] == events[i];
      SteerAllNoArrow(init, d);
    }
  }

  /** The last arrow key of a batch decides the velocity, whatever came before it. */
  lemma {:induction false} SteerAllLastArrow(events: seq<Event>, d: (int, int), k: nat)
    requires k < |events| && IsArrow(events[k])
    requires forall i :: k < i < |events| ==> !IsArrow(events[i])
    ensures SteerAll(events, d) == Steer(events[k], d)
    decreases |events|
  {
    var n := |events| - 1;
    var init := events[..n];
    if k < n {
      assert forall i :: k < i < |init| ==> init[i] == events[i];
      SteerAllLastArrow(init, d, k);
    }
  }

  /** Steering keeps a valid velocity. */
  lemma {:induction false} SteerAllIsStep(events: seq<Event>, d: (int, int))
    requires IsStep(d)
    ensures IsStep(SteerAll(events, d))
    decreases |events|
  {
    if events != [] {
      SteerAllIsStep(events[..|events| - 1], d);
    }
  }

  predicate OutOfBounds(x: int, y: int) {
    x >= WindowWidth || x < 0 || y >= WindowHeight || y < 0
  }

  class Game {
    var x: int
    var y: int
    var dx: int
    var dy: int
    /** snake_list: the body, tail first, head last. */
    var snake: seq<(int, int)>
    /** length_of_snake */
    var length: nat
    var foodX: int
    var foodY: int
    var gameOver: bool
    var gameClose: bool
    /** How many times the snake has eaten. */
    ghost var eaten: nat

    /**
     * The body never outgrows the length, ends at the head, the head and the
     * food sit on the grid of cells, the food inside the field, and the
     * length is one more than the food eaten.
     */
    ghost predicate Valid()
      reads this
    {
      && length == eaten + 1
      && |snake| <= length
      && (snake != [] ==> snake[|snake| - 1] == (x, y))
      && x % Block == 0 && y % Block == 0
      && foodX % Block == 0 && foodY % Block == 0
      && 0 <= foodX <= WindowWidth - Block && 0 <= foodY <= WindowHeight - Block
      && IsStep((dx, dy))
    }

    /** The score shown: length_of_snake - 1, the number of food eaten. */
    function Score(): (s: int)
      requires Valid()
      reads this
      ensures s == eaten && s >= 0
    {
      length - 1
    }

    /** The start of game_loop, given the two numbers drawn for the first food. */
    constructor (rx: nat, ry: nat)
      requires rx < WindowWidth - Block && ry < WindowHeight - Block
      ensures Valid()
      ensures (x, y) == (WindowWidth / 2, WindowHeight / 2) && (dx, dy) == (0, 0)
      ensures snake == [] && length == 1 && !gameOver && !gameClose
      ensures (foodX, foodY) == (FoodCoord(rx), FoodCoord(ry))
    {
      x, y := WindowWidth / 2, WindowHeight / 2;
      dx, dy := 0, 0;
      snake := [];
      length := 1;
      eaten := 0;
      FoodOnGrid(rx, WindowWidth - Block);
      FoodOnGrid(ry, WindowHeight - Block);
      foodX, foodY := FoodCoord(rx), FoodCoord(ry);
      gameOver, gameClose := false, false;
    }

    /** The play-time event loop: a quit event ends the game, arrow keys steer. */
    method HandleEvents(events: seq<Event>)
      requires Valid()
      modifies this
      ensures Valid()
      ensures (dx, dy) == SteerAll(events, old((dx, dy)))
      ensures gameOver <==> old(gameOver) || Quit in events
      ensures x == old(x) && y == old(y) && snake == old(snake) && length == old(length)
      ensures foodX == old(foodX) && foodY == old(foodY) && gameClose == old(gameClose) && eaten == old(eaten)
    {
      var i := 0;
      while i < |events|
        invariant 0 <= i <= |events|
        invariant (dx, dy) == SteerAll(events[..i], old((dx, dy)))
        invariant IsStep((dx, dy))
        invariant gameOver <==> old(gameOver) || Quit in events[..i]
        invariant x == old(x) && y == old(y) && snake == old(snake) && length == old(length)
        invariant foodX == old(foodX) && foodY == old(foodY) && gameClose == old(gameClose) && eaten == old(eaten)
      {
        assert events[..i + 1] == events[..i] + [events[i]];
        HandleEvent(events[i]);
        i := i + 1;
      }
      assert events[..i] == events;
    }

    /** One event of the play-time loop: a quit event ends the game, an arrow key sets the velocity. */
    method HandleEvent(e: Event)
      modifies this
      ensures (dx, dy) == Steer(e, old((dx, dy)))
      ensures gameOver <==> old(gameOver) || e == Quit
      ensures x == old(x) && y == old(y) && snake == old(snake) && length == old(length)
      ensures foodX == old(foodX) && foodY == old(foodY) && gameClose == old(gameClose) && eaten == old(eaten)
    {
      if e == Quit {
        gameOver := true;
      }
      if e.KeyDown? {
        if e.key == Left {
          dx, dy := -Block, 0;
        } else if e.key == Right {
          dx, dy := Block, 0;
        } else if e.key == Up {
          dx, dy := 0, -Block;
        } else if e.key == Down {
          dx, dy := 0, Block;
        }
      }
    }

    /** Whether the head has run into the rest of the body (the loop over snake_list[:-1]). */
    method HitsItself() returns (hit: bool)
      requires snake != []
      ensures hit <==> snake[|snake| - 1] in snake[..|snake| - 1]
    {
      var head := snake[|snake| - 1];
      hit := false;
      var i := 0;
      while i < |snake| - 1
        invariant 0 <= i <= |snake| - 1
        invariant hit <==> head in snake[..i]
      {
        assert snake[..i + 1] == snake[..i] + [snake[i]];
        if snake[i] == head {
          hit := true;
        }
        i := i + 1;
      }
    }

    /**
     * The boundary test and the move: a head found outside the field before
     * moving closes the game, then the head moves one step and the body gains
     * it, losing its tail once it is longer than the length.
     */
    method MoveHead()
      requires Valid()
      modifies this
      ensures Valid() && snake != []
      ensures (x, y) == (old(x) + old(dx), old(y) + old(dy)) && dx == old(dx) && dy == old(dy)
      ensures var grown := old(snake) + [(x, y)];
        snake == if |grown| > old(length) then grown[1..] else grown
      ensures gameClose <==> old(gameClose) || OutOfBounds(old(x), old(y))
      ensures length == old(length) && foodX == old(foodX) && foodY == old(foodY)
      ensures gameOver == old(gameOver) && eaten == old(eaten)
    {
      if OutOfBounds(x, y) {
        gameClose := true;
      }
      x := x + dx;
      y := y + dy;
      snake := snake + [(x, y)];
      if |snake| > length {
        snake := snake[1..];
      }
    }

    /** Reaching the food grows the length and redraws the food from rx and ry. */
    method EatFood(rx: nat, ry: nat)
      requires Valid()
      requires rx < WindowWidth - Block && ry < WindowHeight - Block
      modifies this
      ensures Valid()
      ensures var ate := (x, y) == old((foodX, foodY));
        && (ate ==> length == old(length) + 1 && (foodX, foodY) == (FoodCoord(rx), FoodCoord(ry)))
        && (!ate ==> length == old(length) && foodX == old(foodX) && foodY == old(foodY))
      ensures x == old(x) && y == old(y) && dx == old(dx) && dy == old(dy) && snake == old(snake)
      ensures gameOver == old(gameOver) && gameClose == old(gameClose)
    {
      if x == foodX && y == foodY {
        FoodOnGrid(rx, WindowWidth - Block);
        FoodOnGrid(ry, WindowHeight - Block);
        foodX, foodY := FoodCoord(rx), FoodCoord(ry);
        length := length + 1;
        eaten := eaten + 1;
      }
    }

    /**
     * The rest of one pass of game_loop after the event loop: the move, then
     * running into the body closes the game, then the food.
     */
    method Advance(rx: nat, ry: nat)
      requires Valid() && !gameClose
      requires rx < WindowWidth - Block && ry < WindowHeight - Block
      modifies this
      ensures Valid() && snake != []
      ensures (x, y) == (old(x) + old(dx), old(y) + old(dy)) && dx == old(dx) && dy == old(dy)
      ensures var grown := old(snake) + [(x, y)];
        snake == if |grown| > old(length) then grown[1..] else grown
      ensures gameClose <==> OutOfBounds(old(x), old(y)) || (x, y) in snake[..|snake| - 1]
      ensures var ate := (x, y) == old((foodX, foodY));
        && (ate ==> length == old(length) + 1 && (foodX, foodY) == (FoodCoord(rx), FoodCoord(ry)))
        && (!ate ==> length == old(length) && foodX == old(foodX) && foodY == old(foodY))
      ensures gameOver == old(gameOver)
    {
      MoveHead();
      var hit := HitsItself();
      if hit {
        gameClose := true;
      }
      EatFood(rx, ry);
    }

    /** One pass of game_loop's outer loop while the game is not closed. */
    method Tick(events: seq<Event>, rx: nat, ry: nat)
      requires Valid() && !gameClose
      requires rx < WindowWidth - Block && ry < WindowHeight - Block
      modifies this
      ensures Valid()
      ensures (dx, dy) == SteerAll(events, old((dx, dy)))
      ensures (x, y) == (old(x) + dx, old(y) + dy)
      ensures gameOver <==> old(gameOver) || Quit in events
      ensures var grown := old(snake) + [(x, y)];
        snake == if |grown| > old(length) then grown[1..] else grown
      ensures snake != []
      ensures gameClose <==> OutOfBounds(old(x), old(y)) || (x, y) in snake[..|snake| - 1]
      ensures var ate := (x, y) == old((foodX, foodY));
        && (ate ==> length == old(length) + 1 && (foodX, foodY) == (FoodCoord(rx), FoodCoord(ry)))
        && (!ate ==> length == old(length) && foodX == old(foodX) && foodY == old(foodY))
    {
      HandleEvents(events);
      Advance(rx, ry);
    }

    /**
     * One pass of the game-over screen's event loop: Q or closing the window
     * ends the game; C starts a new game_loop, which replaces this one (the
     * call never returns, so the rest of the batch is not handled here).
     */
    method CloseScreen(events: seq<Event>, rx: nat, ry: nat) returns (restarted: bool)
      requires Valid() && gameClose
      requires rx < WindowWidth - Block && ry < WindowHeight - Block
      modifies this
      ensures Valid()
      ensures restarted ==>
        && (x, y) == (WindowWidth / 2, WindowHeight / 2) && snake == [] && length == 1
        && !gameOver && !gameClose
      ensures restarted <==> exists k :: 0 <= k < |events| && events[k] == KeyDown(KeyC)
      ensures !restarted ==>
        && (gameOver <==> old(gameOver) || Quit in events || KeyDown(KeyQ) in events)
        && (gameClose <==> !(Quit in events || KeyDown(KeyQ) in events))
        && snake == old(snake) && length == old(length)
    {
      var i := 0;
      restarted := false;
      while i < |events|
        invariant 0 <= i <= |events|
        invariant Valid()
        invariant forall k :: 0 <= k < i ==> events[k] != KeyDown(KeyC)
        invariant gameOver <==> old(gameOver) || Quit in events[..i] || KeyDown(KeyQ) in events[..i]
        invariant gameClose <==> !(Quit in events[..i] || KeyDown(KeyQ) in events[..i])
        invariant snake == old(snake) && length == old(length)
      {
        var e := events[i];
        assert events[..i + 1] == events[..i] + [e];
        if e == KeyDown(KeyQ) {
          gameOver, gameClose := true, false;
        }
        if e == KeyDown(KeyC) {
          Restart(rx, ry);
          return true;
        }
        if e == Quit {
          gameOver, gameClose := true, false;
        }
        i := i + 1;
      }
      assert events[..i] == events;
    }

    /** The fresh state of a new game_loop call. */
    method Restart(rx: nat, ry: nat)
      requires rx < WindowWidth - Block && ry < WindowHeight - Block
      modifies this
      ensures Valid()
      ensures (x, y) == (WindowWidth / 2, WindowHeight / 2) && (dx, dy) == (0, 0)
      ensures snake == [] && length == 1 && !gameOver && !gameClose
      ensures (foodX, foodY) == (FoodCoord(rx), FoodCoord(ry))
    {
      FoodOnGrid(rx, WindowWidth - Block);
      FoodOnGrid(ry, WindowHeight - Block);
      x, y, dx, dy := 300, 200, 0, 0;
      snake, length := [], 1;
      foodX, foodY := FoodCoord(rx), FoodCoord(ry);
      gameOver, gameClose := false, false;
      eaten := 0;
    }
  }
}

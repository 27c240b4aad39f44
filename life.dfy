/** The Game of Life of the clock's Stuff menu (`papirus_gol`): a
    dictionary from cell coordinates to 0 (dead) or 1 (alive), created for
    every cell of the display's grid, seeded with a pattern, and stepped one
    generation per pass of its loop until SW4 ("Back") reads low. */
module Life {

  /** A cell's `(x, y)` key. */
  type Cell = (int, int)

  /** A cell's value: 0 (dead) or 1 (alive), the only values any seeding
      or tick writes. */
  type Bit = v: int | v == 0 || v == 1

  /** The `lifeDict` dictionary. */
  type Board = map<Cell, Bit>

  /** `CELLSIZE`: every cell is 5 pixels square. */
  const CellSize := 5

  /** The grid test of `getNeighbours`: both coordinates non-negative and
      below `width / CELLSIZE` and `height / CELLSIZE`. */
  predicate InGrid(c: Cell, cols: int, rows: int)
  {
    0 <= c.0 < cols && 0 <= c.1 < rows
  }

  /** Every in-grid cell has an entry, so no lookup of `getNeighbours`
      raises. */
  ghost predicate Complete(d: Board, cols: int, rows: int)
  {
    forall c: Cell {:trigger c in d} :: InGrid(c, cols, rows) ==> c in d
  }

  /** The cells of a `cols` x `rows` grid. */
  function Cells(cols: int, rows: int): set<Cell>
  {
    set x, y | 0 <= x < cols && 0 <= y < rows :: (x, y)
  }

  /** The all-dead board over a grid. */
  function Blank(cols: int, rows: int): Board
  {
    map c | c in Cells(cols, rows) :: 0
  }

  lemma BlankSpec(cols: int, rows: int)
    ensures forall c: Cell :: c in Blank(cols, rows) <==> InGrid(c, cols, rows)
    ensures Complete(Blank(cols, rows), cols, rows)
  {
    forall c: Cell | InGrid(c, cols, rows)
      ensures c in Cells(cols, rows)
    {
      var (x, y) := c;
      assert (x, y) in Cells(cols, rows);
    }
  }

  /** `generateGrid(height, width)`: an entry 0 for every `(x, y)` with
      `x < width / 5` and `y < height / 5` (Python 2 integer division) and
      for nothing else. */
  method GenerateGrid(height: nat, width: nat) returns (grid: Board)
    ensures forall c: Cell :: c in grid <==> InGrid(c, width / CellSize, height / CellSize)
    ensures forall c :: c in grid ==> grid[c] == 0
    ensures grid == Blank(width / CellSize, height / CellSize)
  {
    var cols, rows := width / CellSize, height / CellSize;
    grid := map[];
    for y := 0 to rows
      invariant forall c: Cell :: c in grid <==> 0 <= c.0 < cols && 0 <= c.1 < y
      invariant forall c :: c in grid ==> grid[c] == 0
    {
      for x := 0 to cols
        invariant forall c: Cell :: c in grid <==> (0 <= c.0 < cols && 0 <= c.1 < y) || (c.1 == y && 0 <= c.0 < x)
        invariant forall c :: c in grid ==> grid[c] == 0
      {
        grid := grid[(x, y) := 0];
      }
    }
    BlankSpec(cols, rows);
  }

  /** Cells set alive on top of a board; every other entry is kept. */
  function Place(d: Board, cells: seq<Cell>): (r: Board)
    ensures forall c :: c in r <==> c in d || c in cells
    ensures forall c :: c in r ==> r[c] == if c in cells then 1 else d[c]
    decreases |cells|
  {
    if cells == [] then d else Place(d[cells[0] := 1], cells[1..])
  }

  /** `startingRpentomino`'s five cells. */
  const RPentomino: seq<Cell> := [(28, 12), (29, 12), (27, 13), (28, 13), (28, 14)]

  /** `startingGosperGliderGun`'s cells: two squares and the two halves of
      the gun. */
  const GosperGun: seq<Cell> :=
    [(5, 5), (5, 6), (6, 5), (6, 6),
     (15, 5), (15, 6), (15, 7), (16, 4), (16, 8), (17, 3), (18, 3), (17, 9), (18, 9),
     (19, 6), (20, 4), (20, 8), (21, 5), (21, 6), (21, 7), (22, 6),
     (25, 3), (25, 4), (25, 5), (26, 3), (26, 4), (26, 5), (27, 2), (27, 6),
     (29, 1), (29, 2), (29, 6), (29, 7),
     (39, 3), (39, 4), (40, 3), (40, 4)]

  /** The pattern each start name places; "random" and unknown names place
      none. */
  function Pattern(start: string): seq<Cell>
  {
    if start == "R-pentomino" then RPentomino
    else if start == "Gosper" then GosperGun
    else []
  }

  /** The seeding `papirus_gol` picks by name. For "random" the cells that
      `randint(0, 1)` makes alive are given as `coins`; an unknown name
      leaves the grid dead. */
  function Seeded(start: string, grid: Board, coins: set<Cell>): (r: Board)
    ensures forall c :: c in r <==> c in grid || c in Pattern(start)
    ensures start == "random" ==> forall c :: c in r ==> r[c] == if c in coins then 1 else 0
    ensures start != "random" ==> forall c :: c in r ==> r[c] == if c in Pattern(start) then 1 else grid[c]
  {
    if start == "random" then map c | c in grid :: if c in coins then 1 else 0
    else Place(grid, Pattern(start))
  }

  /** Seeding only adds entries, so a complete board stays complete. */
  lemma SeededKeeps(start: string, grid: Board, coins: set<Cell>, cols: int, rows: int)
    requires Complete(grid, cols, rows)
    ensures Complete(Seeded(start, grid, coins), cols, rows)
  {
  }

  /** The board `papirus_gol` starts from: the blank grid, seeded. */
  function Initial(start: string, cols: int, rows: int, coins: set<Cell>): (r: Board)
    ensures Complete(r, cols, rows)
  {
    BlankSpec(cols, rows);
    SeededKeeps(start, Blank(cols, rows), coins, cols, rows);
    Seeded(start, Blank(cols, rows), coins)
  }

  /** The cells the displays' grid holds: on a 264 x 176 panel (a grid of
      52 x 35) both patterns lie inside it, while on a 128 x 96 panel (25 x
      19) the R-pentomino's cells fall outside and are entries no cell's
      neighbour count reads. */
  lemma PatternsFit()
    ensures forall k :: 0 <= k < |RPentomino| ==> InGrid(RPentomino[k], 264 / CellSize, 176 / CellSize)
    ensures forall k :: 0 <= k < |GosperGun| ==> InGrid(GosperGun[k], 264 / CellSize, 176 / CellSize)
    ensures forall k :: 0 <= k < |RPentomino| ==> !InGrid(RPentomino[k], 128 / CellSize, 96 / CellSize)
  {
  }

  /** The `j`-th offset `getNeighbours` visits, `x` in the outer loop and
      `y` in the inner one, each from -1 to 1; the fifth is the cell itself. */
  function Offset(j: nat): Cell
  {
    if j < 3 then (-1, j - 1) else if j < 6 then (0, j - 4) else (1, j - 7)
  }

  const Visits := 9

  /** Offsets are visited once each: the index can be read back. */
  lemma OffsetIndex(j: nat)
    requires j < Visits
    ensures 3 * (Offset(j).0 + 1) + (Offset(j).1 + 1) == j
    ensures -1 <= Offset(j).0 <= 1 && -1 <= Offset(j).1 <= 1
  {
  }

  /** A cell that counts as a live neighbour: in the grid and set to 1 (on
      a complete board every in-grid cell has an entry). */
  predicate LiveAt(d: Board, c: Cell, cols: int, rows: int)
  {
    InGrid(c, cols, rows) && c in d && d[c] == 1
  }

  /** The live neighbours among the first `k` offsets; the centre offset
      never counts. */
  function CountUpTo(d: Board, item: Cell, cols: int, rows: int, k: nat): nat
    requires k <= Visits
  {
    if k == 0 then 0
    else
      var o := Offset(k - 1);
      CountUpTo(d, item, cols, rows, k - 1)
        + if !(o.0 == 0 && o.1 == 0) && LiveAt(d, (item.0 + o.0, item.1 + o.1), cols, rows) then 1 else 0
  }

  /** The number `getNeighbours` returns. */
  function Neighbours(d: Board, item: Cell, cols: int, rows: int): nat
  {
    CountUpTo(d, item, cols, rows, Visits)
  }

  /** `getNeighbours`: the two nested loops over the offsets. */
  method GetNeighbours(d: Board, item: Cell, cols: int, rows: int) returns (n: nat)
    requires Complete(d, cols, rows)
    ensures n == Neighbours(d, item, cols, rows)
  {
    n := 0;
    for x := -1 to 2
      invariant n == CountUpTo(d, item, cols, rows, 3 * (x + 1))
    {
      n := Column(d, item, cols, rows, x, n);
    }
  }

  /** The inner loop of `getNeighbours`, over `y` for one `x`. */
  method Column(d: Board, item: Cell, cols: int, rows: int, x: int, n0: nat) returns (n: nat)
    requires Complete(d, cols, rows) && -1 <= x <= 1
    requires n0 == CountUpTo(d, item, cols, rows, 3 * (x + 1))
    ensures n == CountUpTo(d, item, cols, rows, 3 * (x + 1) + 3)
  {
    n := n0;
    for y := -1 to 2
      invariant n == CountUpTo(d, item, cols, rows, 3 * (x + 1) + (y + 1))
    {
      OffsetAt(x, y);
      CountNext(d, item, cols, rows, 3 * (x + 1) + (y + 1));
      ghost var before := n;
      var check := (item.0 + x, item.1 + y);
      if check.0 < cols && check.0 >= 0 {
        if check.1 < rows && check.1 >= 0 {
          if d[check] == 1 {
            if x == 0 && y == 0 {
              n := n + 0;
            } else {
              n := n + 1;
            }
          }
        }
      }
      assert n == before + if !(x == 0 && y == 0) && LiveAt(d, check, cols, rows) then 1 else 0;
    }
  }

  /** One more offset adds one iff that neighbour is live. */
  lemma CountNext(d: Board, item: Cell, cols: int, rows: int, k: nat)
    requires k < Visits
    ensures CountUpTo(d, item, cols, rows, k + 1)
      == CountUpTo(d, item, cols, rows, k)
         + if !(Offset(k).0 == 0 && Offset(k).1 == 0) && LiveAt(d, (item.0 + Offset(k).0, item.1 + Offset(k).1), cols, rows) then 1 else 0
  {
  }

  /** The offset visited at step `(x, y)` of the loops. */
  lemma OffsetAt(x: int, y: int)
    requires -1 <= x <= 1 && -1 <= y <= 1
    ensures 0 <= 3 * (x + 1) + (y + 1) < Visits && Offset(3 * (x + 1) + (y + 1)) == (x, y)
  {
    if x == -1 {
      if y == -1 { assert Offset(0) == (-1, -1); } else if y == 0 { assert Offset(1) == (-1, 0); } else { assert Offset(2) == (-1, 1); }
    } else if x == 0 {
      if y == -1 { assert Offset(3) == (0, -1); } else if y == 0 { assert Offset(4) == (0, 0); } else { assert Offset(5) == (0, 1); }
    } else {
      if y == -1 { assert Offset(6) == (1, -1); } else if y == 0 { assert Offset(7) == (1, 0); } else { assert Offset(8) == (1, 1); }
    }
  }

  /** At most one per offset other than the centre: the count is in 0..8. */
  lemma {:induction false} CountBound(d: Board, item: Cell, cols: int, rows: int, k: nat)
    requires k <= Visits
    ensures CountUpTo(d, item, cols, rows, k) <= if k <= 4 then k else k - 1
  {
    if k > 0 {
      CountBound(d, item, cols, rows, k - 1);
    }
  }

  lemma NeighboursBound(d: Board, item: Cell, cols: int, rows: int)
    ensures 0 <= Neighbours(d, item, cols, rows) <= 8
  {
    CountBound(d, item, cols, rows, Visits);
  }

  /** Changing one entry changes no count that does not read it: the cell's
      own entry, any entry off the grid and any entry outside the 3 x 3
      block around the cell leave its count as it was. */
  lemma {:induction false} CountIgnores(d: Board, item: Cell, cols: int, rows: int, k: nat, c: Cell, v: Bit)
    requires k <= Visits
    requires c == item || !InGrid(c, cols, rows) || !(item.0 - 1 <= c.0 <= item.0 + 1 && item.1 - 1 <= c.1 <= item.1 + 1)
    ensures CountUpTo(d[c := v], item, cols, rows, k) == CountUpTo(d, item, cols, rows, k)
  {
    if k > 0 {
      CountIgnores(d, item, cols, rows, k - 1, c, v);
      var o := Offset(k - 1);
      if o != (0, 0) {
        assert (item.0 + o.0, item.1 + o.1) != c || !InGrid(c, cols, rows);
      }
    }
  }

  lemma NeighboursIgnore(d: Board, item: Cell, cols: int, rows: int, c: Cell, v: Bit)
    requires c == item || !InGrid(c, cols, rows) || !(item.0 - 1 <= c.0 <= item.0 + 1 && item.1 - 1 <= c.1 <= item.1 + 1)
    ensures Neighbours(d[c := v], item, cols, rows) == Neighbours(d, item, cols, rows)
  {
    CountIgnores(d, item, cols, rows, Visits, c, v);
  }

  /** A live in-grid entry next to the cell counts: setting it to 1 from a
      value other than 1 adds exactly one to the count. */
  lemma {:induction false} CountSees(d: Board, item: Cell, cols: int, rows: int, k: nat, j: nat)
    requires j < k <= Visits && Offset(j) != (0, 0)
    requires var c := (item.0 + Offset(j).0, item.1 + Offset(j).1); InGrid(c, cols, rows) && (c !in d || d[c] != 1)
    ensures var c := (item.0 + Offset(j).0, item.1 + Offset(j).1);
            CountUpTo(d[c := 1], item, cols, rows, k) == CountUpTo(d, item, cols, rows, k) + 1
  {
    var c := (item.0 + Offset(j).0, item.1 + Offset(j).1);
    if k - 1 == j {
      if k - 1 > 0 {
        CountIgnoresBelow(d, item, cols, rows, k - 1, j);
      }
    } else {
      CountSees(d, item, cols, rows, k - 1, j);
      var o := Offset(k - 1);
      assert (item.0 + o.0, item.1 + o.1) != c;
    }
  }

  /** Each of the eight cells around `item` is counted once: making a dead
      or missing in-grid neighbour alive raises the count by exactly one. */
  lemma NeighboursSees(d: Board, item: Cell, cols: int, rows: int, c: Cell)
    requires c != item && item.0 - 1 <= c.0 <= item.0 + 1 && item.1 - 1 <= c.1 <= item.1 + 1
    requires InGrid(c, cols, rows) && (c !in d || d[c] != 1)
    ensures Neighbours(d[c := 1], item, cols, rows) == Neighbours(d, item, cols, rows) + 1
  {
    var x, y := c.0 - item.0, c.1 - item.1;
    OffsetAt(x, y);
    CountSees(d, item, cols, rows, Visits, 3 * (x + 1) + (y + 1));
  }

  /** The offsets before `j` do not reach the cell at offset `j`. */
  lemma {:induction false} CountIgnoresBelow(d: Board, item: Cell, cols: int, rows: int, k: nat, j: nat)
    requires k <= j < Visits
    ensures var c := (item.0 + Offset(j).0, item.1 + Offset(j).1);
            CountUpTo(d[c := 1], item, cols, rows, k) == CountUpTo(d, item, cols, rows, k)
  {
    if k > 0 {
      CountIgnoresBelow(d, item, cols, rows, k - 1, j);
      OffsetIndex(k - 1);
      OffsetIndex(j);
    }
  }

  /** The rule `tick` applies to an entry: a live cell survives with two or
      three live neighbours, a dead one comes alive with exactly three. */
  function Rule(v: Bit, n: nat): Bit
  {
    if v == 1 then (if n < 2 then 0 else if n > 3 then 0 else 1)
    else (if n == 3 then 1 else 0)
  }

  /** What an entry becomes. */
  function Fate(d: Board, c: Cell, cols: int, rows: int): Bit
    requires c in d
  {
    Rule(d[c], Neighbours(d, c, cols, rows))
  }

  /** The next generation. */
  function Next(d: Board, cols: int, rows: int): Board
  {
    map c | c in d :: Fate(d, c, cols, rows)
  }

  /** A tick keeps exactly the same keys, and a cell is alive afterwards iff
      it was alive with 2 or 3 live neighbours or dead with exactly 3. */
  lemma NextSpec(d: Board, cols: int, rows: int)
    ensures Next(d, cols, rows).Keys == d.Keys
    ensures Complete(d, cols, rows) ==> Complete(Next(d, cols, rows), cols, rows)
    ensures forall c :: c in d ==>
              (Next(d, cols, rows)[c] == 1 <==>
                 (d[c] == 1 && 2 <= Neighbours(d, c, cols, rows) <= 3)
                 || (d[c] == 0 && Neighbours(d, c, cols, rows) == 3))
  {
  }

  /** `tick`: a new dictionary filled entry by entry, in whatever order the
      old one yields its keys. */
  method Tick(d: Board, cols: int, rows: int) returns (next: Board)
    requires Complete(d, cols, rows)
    ensures next == Next(d, cols, rows)
  {
    next := map[];
    var todo := d.Keys;
    while todo != {}
      invariant todo <= d.Keys
      invariant forall c :: c in next <==> c in d && c !in todo
      invariant forall c :: c in next ==> next[c] == Fate(d, c, cols, rows)
      decreases |todo|
    {
      var item :| item in todo;
      var n := GetNeighbours(d, item, cols, rows);
      if d[item] == 1 {
        if n < 2 {
          next := next[item := 0];
        } else if n > 3 {
          next := next[item := 0];
        } else {
          next := next[item := 1];
        }
      } else if d[item] == 0 {
        if n == 3 {
          next := next[item := 1];
        } else {
          next := next[item := 0];
        }
      }
      todo := todo - {item};
    }
  }

  /** `n` generations. */
  function Generations(d: Board, cols: int, rows: int, n: nat): Board
    decreases n
  {
    if n == 0 then d else Next(Generations(d, cols, rows, n - 1), cols, rows)
  }

  /** Every generation has the first one's keys, so a complete board stays
      complete however long the game runs. */
  lemma {:induction false} GenerationsKeep(d: Board, cols: int, rows: int, n: nat)
    ensures Generations(d, cols, rows, n).Keys == d.Keys
    ensures Complete(d, cols, rows) ==> Complete(Generations(d, cols, rows, n), cols, rows)
  {
    if n > 0 {
      GenerationsKeep(d, cols, rows, n - 1);
      NextSpec(Generations(d, cols, rows, n - 1), cols, rows);
    }
  }

  /** `papirus_gol(start)`: the grid for a `width` x `height` panel, the
      seeding, then one generation per pass until SW4 reads low (`back[i]`
      is the reading of pass `i`). Returns the last board and how many
      generations ran. */
  method Play(start: string, height: nat, width: nat, coins: set<Cell>, back: seq<bool>)
    returns (board: Board, generations: nat)
    ensures generations <= |back| && (forall k :: 0 <= k < generations ==> !back[k])
    ensures generations < |back| ==> back[generations]
    ensures Complete(board, width / CellSize, height / CellSize)
    ensures board == Generations(Initial(start, width / CellSize, height / CellSize, coins),
                                 width / CellSize, height / CellSize, generations)
  {
    var cols, rows := width / CellSize, height / CellSize;
    var grid := GenerateGrid(height, width);
    var seeded := Seeded(start, grid, coins);
    assert seeded == Initial(start, cols, rows, coins);
    board, generations := Evolve(seeded, cols, rows, back);
  }

  /** The loop of `papirus_gol`: a generation per pass until SW4 reads low. */
  method Evolve(seeded: Board, cols: int, rows: int, back: seq<bool>)
    returns (board: Board, generations: nat)
    requires Complete(seeded, cols, rows)
    ensures generations <= |back| && (forall k :: 0 <= k < generations ==> !back[k])
    ensures generations < |back| ==> back[generations]
    ensures Complete(board, cols, rows)
    ensures board == Generations(seeded, cols, rows, generations)
  {
    board := seeded;
    generations := 0;
    while generations < |back| && !back[generations]
      invariant generations <= |back| && forall k :: 0 <= k < generations ==> !back[k]
      invariant board == Generations(seeded, cols, rows, generations)
      decreases |back| - generations
    {
      board := Advance(seeded, cols, rows, generations, board);
      generations := generations + 1;
    }
    GenerationsKeep(seeded, cols, rows, generations);
  }

  /** One pass: the tick of the `n`-th generation is the next one. */
  method Advance(seeded: Board, cols: int, rows: int, n: nat, board: Board) returns (next: Board)
    requires Complete(seeded, cols, rows) && board == Generations(seeded, cols, rows, n)
    ensures next == Generations(seeded, cols, rows, n + 1)
  {
    GenerationsKeep(seeded, cols, rows, n);
    next := Tick(board, cols, rows);
  }
}

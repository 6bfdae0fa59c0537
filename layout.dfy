/** `proc_list_to_schem`: lays the processors out on a square grid around a
    switch at the origin, each linked back to the switch. */
module Layout {
  import opened Emission
  import opened Scheduler

  datatype Block =
    | WorldProcessor(x: int, y: int, code: string, linkX: int, linkY: int, linkName: string)
    | Switch(x: int, y: int, enabled: bool)

  datatype Schematic = Schematic(name: string, description: string, blocks: seq<Block>)

  const Description: string := "An auto generated midi schematic\nOnly works in BE\n\nBy SkyeTheFoxyFox"
  const SwitchName: string := "switch1"

  /** What follows the last '/' of a path, or the whole path when it has none. */
  function BaseName(path: string): (name: string)
    ensures |name| <= |path| && name == path[|path| - |name|..]
    ensures '/' !in name
    ensures |name| < |path| ==> path[|path| - |name| - 1] == '/'
  {
    if |path| == 0 then path
    else if path[|path| - 1] == '/' then []
    else BaseName(path[..|path| - 1]) + [path[|path| - 1]]
  }

  /** The smallest side s >= start whose square holds m cells. */
  function SquareSizeFrom(m: nat, start: nat): (s: nat)
    requires 1 <= start && (start - 1) * (start - 1) < m
    ensures s >= start && s * s >= m && (s - 1) * (s - 1) < m
    decreases m - start
  {
    if start * start >= m then start
    else
      assert start <= start * start;
      SquareSizeFrom(m, start + 1)
  }

  /** The side of the grid: the smallest s with s * s >= count + 1, the
      ceiling of the square root of count + 1. */
  function SquareSize(count: nat): (s: nat)
    ensures s >= 1 && s * s >= count + 1 && (s - 1) * (s - 1) < count + 1
  {
    SquareSizeFrom(count + 1, 1)
  }

  /** Cell i + 1 of the grid in row-major order, rows going down: cell 0 is the switch's. */
  function GridPosition(i: nat, s: nat): (int, int)
    requires s >= 1
  {
    ((i + 1) % s, -((i + 1) / s))
  }

  /** Processor i, linked to the switch by its offset from the processor. */
  function ProcessorBlock(code: string, pos: (int, int)): (b: Block)
    ensures b.WorldProcessor? && b.x + b.linkX == 0 && b.y + b.linkY == 0
  {
    WorldProcessor(pos.0, pos.1, code, -pos.0, -pos.1, SwitchName)
  }

  /** Builds the schematic: one processor block per processor, then the switch. */
  method ProcListToSchem(path: string, procs: seq<Proc>, fmt: Format) returns (schem: Schematic)
    ensures schem.name == BaseName(path) && schem.description == Description
    ensures |schem.blocks| == |procs| + 1
    ensures forall i :: 0 <= i < |procs| ==>
      schem.blocks[i] == ProcessorBlock(Render(procs[i].code, fmt), GridPosition(i, SquareSize(|procs|)))
    ensures schem.blocks[|procs|] == Switch(0, 0, false)
  {
    var name := BaseName(path);
    var blocks: seq<Block> := [];
    for i := 0 to |procs|
      invariant |blocks| == i
      invariant forall k :: 0 <= k < i ==>
        blocks[k] == ProcessorBlock(Render(procs[k].code, fmt), GridPosition(k, SquareSize(|procs|)))
    {
      var squareSize := SquareSize(|procs|);
      var x := (i + 1) % squareSize;
      var y := -((i + 1) / squareSize);
      var block := WorldProcessor(x, y, Render(procs[i].code, fmt), -x, -y, SwitchName);
      assert block == ProcessorBlock(Render(procs[i].code, fmt), GridPosition(i, squareSize));
      blocks := blocks + [block];
    }
    blocks := blocks + [Switch(0, 0, false)];
    schem := Schematic(name, Description, blocks);
  }

  lemma DivModUnique(a: nat, b: nat, s: nat)
    requires s >= 1 && a % s == b % s && a / s == b / s
    ensures a == b
  {
  }

  /** Cell i + 1 of an s-by-s grid holding more than i + 1 cells lies inside
      the square, below and to the right of the switch, off the switch's cell. */
  lemma CellInSquare(i: nat, s: nat)
    requires s >= 1 && i + 1 < s * s
    ensures var p := GridPosition(i, s);
      && 0 <= p.0 < s && -(s as int) < p.1 <= 0
      && p != (0, 0)
  {
  }

  /** Different processors get different cells. */
  lemma CellsDistinct(i: nat, j: nat, s: nat)
    requires s >= 1 && i != j
    ensures GridPosition(i, s) != GridPosition(j, s)
  {
    if GridPosition(i, s) == GridPosition(j, s) {
      DivModUnique(i + 1, j + 1, s);
    }
  }

  /** With count processors, every one lies inside the s-by-s square below
      and to the right of the switch, off the switch's cell, and no two share
      a cell. */
  lemma GridPositionsSound(count: nat)
    ensures var s := SquareSize(count);
      && (forall i :: 0 <= i < count ==>
            var p := GridPosition(i, s);
            && 0 <= p.0 < s && -(s as int) < p.1 <= 0
            && p != (0, 0))
      && (forall i, j :: 0 <= i < j < count ==> GridPosition(i, s) != GridPosition(j, s))
  {
    var s := SquareSize(count);
    forall i | 0 <= i < count
      ensures var p := GridPosition(i, s); 0 <= p.0 < s && -(s as int) < p.1 <= 0 && p != (0, 0)
    {
      CellInSquare(i, s);
    }
    forall i, j | 0 <= i < j < count
      ensures GridPosition(i, s) != GridPosition(j, s)
    {
      CellsDistinct(i, j, s);
    }
  }
}

/**
 * The paged-volume test fixture and its cases: a volume of side 64 over the
 * pattern pager, the sampler reads each case makes, and the values each case
 * expects. Each case returns what it read (or how many of its expectations
 * failed) and its contract states the expectation.
 */
module PolyVoxTest {
  import opened Voxel
  import opened PagedVolume

  const SIDE: nat := 64

  /**
   * Near the first chunk (every coordinate in [-1, 63]) the volume holds the
   * pager's pattern at non-negative coordinates; a coordinate of -1 lies in
   * a neighbouring chunk at local 63, where the pattern is Air.
   */
  lemma ContentNearOrigin(p: Pos)
    requires -1 <= p.x < 64 && -1 <= p.y < 64 && -1 <= p.z < 64
    ensures Content(SIDE, p) == if p.x >= 0 && p.y >= 0 && p.z >= 0 then PagerFill(p) else Air
  {
    AxisNearOrigin(p.x);
    AxisNearOrigin(p.y);
    AxisNearOrigin(p.z);
  }

  lemma AxisNearOrigin(c: int)
    requires -1 <= c < 64
    ensures LocalAxis(c, SIDE) == if c >= 0 then c else 63
  {
    if c >= 0 {
      SplitIsUnique(c, SIDE, 0, c);
    } else {
      SplitIsUnique(c, SIDE, -1, 63);
    }
  }

  /** The content at (x, y, z) and directly above and below it, when all three lie in the first chunk. */
  lemma Column(x: int, y: int, z: int)
    requires 0 <= x < 64 && 1 <= y < 63 && 0 <= z < 64
    ensures Content(SIDE, Pos(x, y + 1, z)) == PagerFill(Pos(x, y + 1, z))
    ensures Content(SIDE, Pos(x, y, z)) == PagerFill(Pos(x, y, z))
    ensures Content(SIDE, Pos(x, y - 1, z)) == PagerFill(Pos(x, y - 1, z))
  {
    ContentNearOrigin(Pos(x, y + 1, z));
    ContentNearOrigin(Pos(x, y, z));
    ContentNearOrigin(Pos(x, y - 1, z));
  }

  /** What the full loop expects of the origin's neighbours on layer 0, reading into the neighbouring chunks at -1. */
  lemma OriginMiddleLayer()
    ensures Content(SIDE, Pos(-1, 0, 0)).material == 0
    ensures Content(SIDE, Pos(1, 0, 0)).material == 2
    ensures Content(SIDE, Pos(0, 0, 1)).material == 4
    ensures Content(SIDE, Pos(0, 0, -1)).material == 0
    ensures Content(SIDE, Pos(-1, 0, -1)).material == 0
    ensures Content(SIDE, Pos(1, 0, -1)).material == 0
    ensures Content(SIDE, Pos(-1, 0, 1)).material == 0
    ensures Content(SIDE, Pos(1, 0, 1)).material == 5
  {
    ContentNearOrigin(Pos(-1, 0, 0));
    ContentNearOrigin(Pos(1, 0, 0));
    ContentNearOrigin(Pos(0, 0, 1));
    ContentNearOrigin(Pos(0, 0, -1));
    ContentNearOrigin(Pos(-1, 0, -1));
    ContentNearOrigin(Pos(1, 0, -1));
    ContentNearOrigin(Pos(-1, 0, 1));
    ContentNearOrigin(Pos(1, 0, 1));
  }

  /** What the full loop expects of the nine voxels above the origin, reading into the neighbouring chunks at -1. */
  lemma OriginAboveLayer()
    ensures Content(SIDE, Pos(0, 1, 0)).material == 11
    ensures Content(SIDE, Pos(-1, 1, 0)).material == 0
    ensures Content(SIDE, Pos(1, 1, 0)).material == 12
    ensures Content(SIDE, Pos(0, 1, -1)).material == 0
    ensures Content(SIDE, Pos(0, 1, 1)).material == 14
    ensures Content(SIDE, Pos(-1, 1, -1)).material == 0
    ensures Content(SIDE, Pos(1, 1, -1)).material == 0
    ensures Content(SIDE, Pos(-1, 1, 1)).material == 0
    ensures Content(SIDE, Pos(1, 1, 1)).material == 15
  {
    ContentNearOrigin(Pos(0, 1, 0));
    ContentNearOrigin(Pos(-1, 1, 0));
    ContentNearOrigin(Pos(1, 1, 0));
    ContentNearOrigin(Pos(0, 1, -1));
    ContentNearOrigin(Pos(0, 1, 1));
    ContentNearOrigin(Pos(-1, 1, -1));
    ContentNearOrigin(Pos(1, 1, -1));
    ContentNearOrigin(Pos(-1, 1, 1));
    ContentNearOrigin(Pos(1, 1, 1));
  }

  /** Below the origin lies the neighbouring chunk, at local 63, where the pattern is Air. */
  lemma OriginBelow()
    ensures Content(SIDE, Pos(0, -1, 0)).material == 0
  {
    ContentNearOrigin(Pos(0, -1, 0));
  }

  /** SetUp: flush the volume and page in the chunk at the centre of the region 0..63. */
  method SetUp() returns (volume: Volume)
    ensures fresh(volume) && fresh(volume.Repr)
    ensures volume.Valid() && volume.side == SIDE
    ensures volume.chunks.Keys == {Pos(0, 0, 0)}
  {
    volume := new Volume(SIDE);
    volume.FlushAll();
    var region := Region(Pos(0, 0, 0), Pos(63, 63, 63));
    SplitIsUnique(31, SIDE, 0, 31);
    var _ := volume.GetChunk(region.Centre());
  }

  /** testSamplerPeek: the chunk at the origin and the sampler at (1, 1, 1) agree. */
  method SamplerPeek() returns (chunkTop: nat, chunkMiddle: nat, chunkBottom: nat, above: nat, current: nat, below: nat)
    ensures chunkTop == 25 && chunkMiddle == 15 && chunkBottom == 5
    ensures above == 25 && current == 15 && below == 5
  {
    var volume := SetUp();
    var chunk := volume.GetChunk(Pos(0, 0, 0));
    chunkTop := chunk.GetVoxel(1, 2, 1).material;
    chunkMiddle := chunk.GetVoxel(1, 1, 1).material;
    chunkBottom := chunk.GetVoxel(1, 0, 1).material;

    var sampler := new Sampler(volume);
    sampler.SetPosition(1, 1, 1);
    above, current, below := ReadColumn(sampler);
    Column(1, 1, 1);
  }

  /** testSamplerPeekWithMovingX: moving from (0, 1, 1) one step along x reads like (1, 1, 1). */
  method SamplerPeekWithMovingX() returns (above: nat, current: nat, below: nat)
    ensures above == 25 && current == 15 && below == 5
  {
    var volume := SetUp();
    var sampler := new Sampler(volume);
    sampler.SetPosition(0, 1, 1);
    sampler.MovePositiveX();
    above, current, below := ReadColumn(sampler);
    Column(1, 1, 1);
  }

  /** testSamplerPeekWithAir: above the pattern everything is Air. */
  method SamplerPeekWithAir() returns (above: nat, current: nat, below: nat)
    ensures above == 0 && current == 0 && below == 25
  {
    var volume := SetUp();
    var sampler := new Sampler(volume);
    sampler.SetPosition(1, 3, 1);
    above, current, below := ReadColumn(sampler);
    Column(1, 3, 1);
  }

  /** testSamplerPeekWithTipOfTheGeom: at the single voxel of layer 2. */
  method SamplerPeekWithTipOfTheGeom() returns (above: nat, current: nat, below: nat)
    ensures above == 0 && current == 25 && below == 15
  {
    var volume := SetUp();
    var sampler := new Sampler(volume);
    sampler.SetPosition(1, 2, 1);
    above, current, below := ReadColumn(sampler);
    Column(1, 2, 1);
  }

  /** The three reads every peek case makes: above the cursor, at it, and below it. */
  method ReadColumn(sampler: Sampler) returns (above: nat, current: nat, below: nat)
    requires sampler.volume.Valid()
    modifies sampler.volume
    ensures sampler.volume.Valid() && fresh(sampler.volume.Repr - old(sampler.volume.Repr))
    ensures above == Content(sampler.volume.side, sampler.pos.Add(Pos(0, 1, 0))).material
    ensures current == Content(sampler.volume.side, sampler.pos).material
    ensures below == Content(sampler.volume.side, sampler.pos.Add(Pos(0, -1, 0))).material
  {
    var v := sampler.PeekVoxel0px1py0pz();
    above := v.material;
    v := sampler.GetVoxel();
    current := v.material;
    v := sampler.PeekVoxel0px1ny0pz();
    below := v.material;
  }

  /** ASSERT_EQ(expected, actual) as a count: 1 when they differ. */
  function Mismatch(expected: nat, actual: nat): (m: nat)
    ensures m == 0 <==> expected == actual
  {
    if expected == actual then 0 else 1
  }

  /**
   * testFullSamplerLoop: walk every voxel of the region 0..63 row by row,
   * placing the sampler at the start of each row and stepping it along x.
   * Returns how many of the loop's expectations failed.
   */
  method FullSamplerLoop() returns (failures: nat)
    ensures failures == 0
  {
    var volume := SetUp();
    var region := Region(Pos(0, 0, 0), Pos(63, 63, 63));
    var sampler := new Sampler(volume);
    failures := Mismatch(0, region.lower.x) + Mismatch(0, region.lower.y) + Mismatch(0, region.lower.z);
    var z := region.lower.z;
    while z <= region.upper.z
      invariant 0 <= z <= 64 && failures == 0
      invariant volume.Valid() && volume.side == SIDE && sampler.volume == volume
      invariant fresh(volume.Repr)
    {
      var y := region.lower.y;
      while y <= region.upper.y
        invariant 0 <= y <= 64 && failures == 0
        invariant volume.Valid() && volume.side == SIDE && sampler.volume == volume
        invariant fresh(volume.Repr)
      {
        sampler.SetPosition(region.lower.x, y, z);
        var x := region.lower.x;
        while x <= region.upper.x
          invariant 0 <= x <= 64 && failures == 0
          invariant sampler.pos == Pos(x, y, z)
          invariant volume.Valid() && volume.side == SIDE && sampler.volume == volume
          invariant fresh(volume.Repr)
        {
          var f := CheckCell(sampler);
          failures := failures + f;
          sampler.MovePositiveX();
          x := x + 1;
        }
        y := y + 1;
      }
      z := z + 1;
    }
  }

  /**
   * One iteration of the full loop: the 27 reads around the cursor and the
   * expectations on them, layer by layer (the reads only page chunks in, so
   * checking each layer as soon as it is read reads the same values).
   */
  method CheckCell(sampler: Sampler) returns (failures: nat)
    requires sampler.volume.Valid() && sampler.volume.side == SIDE
    requires 0 <= sampler.pos.x < 64 && 0 <= sampler.pos.y < 64 && 0 <= sampler.pos.z < 64
    modifies sampler.volume
    ensures sampler.volume.Valid() && fresh(sampler.volume.Repr - old(sampler.volume.Repr))
    ensures failures == 0
  {
    var middle := CheckMiddleLayer(sampler);
    var above := CheckAboveLayer(sampler);
    var below := CheckBelowLayer(sampler);
    failures := middle + above + below;
  }

  /** The reads of the cursor's own layer and the expectations on them. */
  method CheckMiddleLayer(sampler: Sampler) returns (failures: nat)
    requires sampler.volume.Valid() && sampler.volume.side == SIDE
    requires 0 <= sampler.pos.x < 64 && 0 <= sampler.pos.y < 64 && 0 <= sampler.pos.z < 64
    modifies sampler.volume
    ensures sampler.volume.Valid() && fresh(sampler.volume.Repr - old(sampler.volume.Repr))
    ensures failures == 0
  {
    var p := sampler.pos;
    var voxelCurrent, voxelLeft, voxelRight, voxelBefore, voxelBehind, voxelLeftBefore, voxelRightBefore, voxelLeftBehind, voxelRightBehind := ReadMiddleLayer(sampler);
    failures := ExpectCurrent(p, voxelCurrent) + ExpectMiddleLayer(p, voxelLeft, voxelRight, voxelBefore, voxelBehind, voxelLeftBefore, voxelRightBefore, voxelLeftBehind, voxelRightBehind);
  }

  /** The reads of the layer above the cursor and the expectations on them. */
  method CheckAboveLayer(sampler: Sampler) returns (failures: nat)
    requires sampler.volume.Valid() && sampler.volume.side == SIDE
    requires 0 <= sampler.pos.x < 64 && 0 <= sampler.pos.y < 64 && 0 <= sampler.pos.z < 64
    modifies sampler.volume
    ensures sampler.volume.Valid() && fresh(sampler.volume.Repr - old(sampler.volume.Repr))
    ensures failures == 0
  {
    var p := sampler.pos;
    var voxelAbove, voxelAboveLeft, voxelAboveRight, voxelAboveBefore, voxelAboveBehind, voxelAboveLeftBefore, voxelAboveRightBefore, voxelAboveLeftBehind, voxelAboveRightBehind := ReadAboveLayer(sampler);
    failures := ExpectAboveLayer(p, voxelAbove, voxelAboveLeft, voxelAboveRight, voxelAboveBefore, voxelAboveBehind, voxelAboveLeftBefore, voxelAboveRightBefore, voxelAboveLeftBehind, voxelAboveRightBehind);
  }

  /** The reads of the layer below the cursor and the expectation on them. */
  method CheckBelowLayer(sampler: Sampler) returns (failures: nat)
    requires sampler.volume.Valid() && sampler.volume.side == SIDE
    requires 0 <= sampler.pos.x < 64 && 0 <= sampler.pos.y < 64 && 0 <= sampler.pos.z < 64
    modifies sampler.volume
    ensures sampler.volume.Valid() && fresh(sampler.volume.Repr - old(sampler.volume.Repr))
    ensures failures == 0
  {
    var p := sampler.pos;
    var voxelBelow, voxelBelowLeft, voxelBelowRight, voxelBelowBefore, voxelBelowBehind, voxelBelowLeftBefore, voxelBelowRightBefore, voxelBelowLeftBehind, voxelBelowRightBehind := ReadBelowLayer(sampler);
    failures := ExpectBelowLayer(p, voxelBelow);
  }

  /** The loop's expectations on the voxel under the cursor at (x, y, z). */
  function ExpectCurrent(p: Pos, voxelCurrent: Voxel): (failures: nat)
    requires 0 <= p.x < 64 && 0 <= p.y < 64 && 0 <= p.z < 64
    requires voxelCurrent == Content(SIDE, p)
    ensures failures == 0
  {
    var x, y, z := p.x, p.y, p.z;
    ContentNearOrigin(p);
    if y == 0 then
      if x < 3 && z < 3 then Mismatch(1 + x + z * 3, voxelCurrent.material) else 0
    else if y == 1 then
      if x < 3 && z < 3 then Mismatch(11 + x + z * 3, voxelCurrent.material) else 0
    else if y == 2 then
      if x == 1 && z == 1 then Mismatch(25, voxelCurrent.material) else 0
    else
      0
  }

  /**
   * One expectation the loop checks only at the origin: the voxel read at
   * offset d from the cursor has the expected material.
   */
  function ExpectAtOrigin(p: Pos, d: Pos, expected: nat, v: Voxel): (failures: nat)
    requires v == Content(SIDE, p.Add(d))
    requires Content(SIDE, d).material == expected
    ensures failures == 0
  {
    if p.x == 0 && p.y == 0 && p.z == 0 then Mismatch(expected, v.material) else 0
  }

  /** The reads of the cursor and its eight neighbours on the same layer. */
  method ReadMiddleLayer(sampler: Sampler) returns (voxelCurrent: Voxel, voxelLeft: Voxel, voxelRight: Voxel, voxelBefore: Voxel, voxelBehind: Voxel, voxelLeftBefore: Voxel, voxelRightBefore: Voxel, voxelLeftBehind: Voxel, voxelRightBehind: Voxel)
    requires sampler.volume.Valid()
    modifies sampler.volume
    ensures sampler.volume.Valid() && fresh(sampler.volume.Repr - old(sampler.volume.Repr))
    ensures voxelCurrent == Content(sampler.volume.side, sampler.pos)
    ensures voxelLeft == Content(sampler.volume.side, sampler.pos.Add(Pos(-1, 0, 0)))
    ensures voxelRight == Content(sampler.volume.side, sampler.pos.Add(Pos(1, 0, 0)))
    ensures voxelBefore == Content(sampler.volume.side, sampler.pos.Add(Pos(0, 0, -1)))
    ensures voxelBehind == Content(sampler.volume.side, sampler.pos.Add(Pos(0, 0, 1)))
    ensures voxelLeftBefore == Content(sampler.volume.side, sampler.pos.Add(Pos(-1, 0, -1)))
    ensures voxelRightBefore == Content(sampler.volume.side, sampler.pos.Add(Pos(1, 0, -1)))
    ensures voxelLeftBehind == Content(sampler.volume.side, sampler.pos.Add(Pos(-1, 0, 1)))
    ensures voxelRightBehind == Content(sampler.volume.side, sampler.pos.Add(Pos(1, 0, 1)))
  {
    voxelCurrent := sampler.GetVoxel();
    voxelLeft := sampler.PeekVoxel1nx0py0pz();
    voxelRight := sampler.PeekVoxel1px0py0pz();
    voxelBefore := sampler.PeekVoxel0px0py1nz();
    voxelBehind := sampler.PeekVoxel0px0py1pz();
    voxelLeftBefore := sampler.PeekVoxel1nx0py1nz();
    voxelRightBefore := sampler.PeekVoxel1px0py1nz();
    voxelLeftBehind := sampler.PeekVoxel1nx0py1pz();
    voxelRightBehind := sampler.PeekVoxel1px0py1pz();
  }

  /** The loop's expectations on the cursor's neighbours on its own layer, as a count of failures. */
  function ExpectMiddleLayer(p: Pos, voxelLeft: Voxel, voxelRight: Voxel, voxelBefore: Voxel, voxelBehind: Voxel, voxelLeftBefore: Voxel, voxelRightBefore: Voxel, voxelLeftBehind: Voxel, voxelRightBehind: Voxel): (failures: nat)
    requires 0 <= p.x < 64 && 0 <= p.y < 64 && 0 <= p.z < 64
    requires voxelLeft == Content(SIDE, p.Add(Pos(-1, 0, 0)))
    requires voxelRight == Content(SIDE, p.Add(Pos(1, 0, 0)))
    requires voxelBefore == Content(SIDE, p.Add(Pos(0, 0, -1)))
    requires voxelBehind == Content(SIDE, p.Add(Pos(0, 0, 1)))
    requires voxelLeftBefore == Content(SIDE, p.Add(Pos(-1, 0, -1)))
    requires voxelRightBefore == Content(SIDE, p.Add(Pos(1, 0, -1)))
    requires voxelLeftBehind == Content(SIDE, p.Add(Pos(-1, 0, 1)))
    requires voxelRightBehind == Content(SIDE, p.Add(Pos(1, 0, 1)))
    ensures failures == 0
  {
    OriginMiddleLayer();
    ExpectAtOrigin(p, Pos(-1, 0, 0), 0, voxelLeft) +
    ExpectAtOrigin(p, Pos(1, 0, 0), 2, voxelRight) +
    ExpectAtOrigin(p, Pos(0, 0, -1), 0, voxelBefore) +
    ExpectAtOrigin(p, Pos(0, 0, 1), 4, voxelBehind) +
    ExpectAtOrigin(p, Pos(-1, 0, -1), 0, voxelLeftBefore) +
    ExpectAtOrigin(p, Pos(1, 0, -1), 0, voxelRightBefore) +
    ExpectAtOrigin(p, Pos(-1, 0, 1), 0, voxelLeftBehind) +
    ExpectAtOrigin(p, Pos(1, 0, 1), 5, voxelRightBehind)
  }

  /** The reads of the nine voxels on the layer above the cursor. */
  method ReadAboveLayer(sampler: Sampler) returns (voxelAbove: Voxel, voxelAboveLeft: Voxel, voxelAboveRight: Voxel, voxelAboveBefore: Voxel, voxelAboveBehind: Voxel, voxelAboveLeftBefore: Voxel, voxelAboveRightBefore: Voxel, voxelAboveLeftBehind: Voxel, voxelAboveRightBehind: Voxel)
    requires sampler.volume.Valid()
    modifies sampler.volume
    ensures sampler.volume.Valid() && fresh(sampler.volume.Repr - old(sampler.volume.Repr))
    ensures voxelAbove == Content(sampler.volume.side, sampler.pos.Add(Pos(0, 1, 0)))
    ensures voxelAboveLeft == Content(sampler.volume.side, sampler.pos.Add(Pos(-1, 1, 0)))
    ensures voxelAboveRight == Content(sampler.volume.side, sampler.pos.Add(Pos(1, 1, 0)))
    ensures voxelAboveBefore == Content(sampler.volume.side, sampler.pos.Add(Pos(0, 1, -1)))
    ensures voxelAboveBehind == Content(sampler.volume.side, sampler.pos.Add(Pos(0, 1, 1)))
    ensures voxelAboveLeftBefore == Content(sampler.volume.side, sampler.pos.Add(Pos(-1, 1, -1)))
    ensures voxelAboveRightBefore == Content(sampler.volume.side, sampler.pos.Add(Pos(1, 1, -1)))
    ensures voxelAboveLeftBehind == Content(sampler.volume.side, sampler.pos.Add(Pos(-1, 1, 1)))
    ensures voxelAboveRightBehind == Content(sampler.volume.side, sampler.pos.Add(Pos(1, 1, 1)))
  {
    voxelAbove := sampler.PeekVoxel0px1py0pz();
    voxelAboveLeft := sampler.PeekVoxel1nx1py0pz();
    voxelAboveRight := sampler.PeekVoxel1px1py0pz();
    voxelAboveBefore := sampler.PeekVoxel0px1py1nz();
    voxelAboveBehind := sampler.PeekVoxel0px1py1pz();
    voxelAboveLeftBefore := sampler.PeekVoxel1nx1py1nz();
    voxelAboveRightBefore := sampler.PeekVoxel1px1py1nz();
    voxelAboveLeftBehind := sampler.PeekVoxel1nx1py1pz();
    voxelAboveRightBehind := sampler.PeekVoxel1px1py1pz();
  }

  /** The loop's expectations on the layer above, as a count of failures. */
  function ExpectAboveLayer(p: Pos, voxelAbove: Voxel, voxelAboveLeft: Voxel, voxelAboveRight: Voxel, voxelAboveBefore: Voxel, voxelAboveBehind: Voxel, voxelAboveLeftBefore: Voxel, voxelAboveRightBefore: Voxel, voxelAboveLeftBehind: Voxel, voxelAboveRightBehind: Voxel): (failures: nat)
    requires 0 <= p.x < 64 && 0 <= p.y < 64 && 0 <= p.z < 64
    requires voxelAbove == Content(SIDE, p.Add(Pos(0, 1, 0)))
    requires voxelAboveLeft == Content(SIDE, p.Add(Pos(-1, 1, 0)))
    requires voxelAboveRight == Content(SIDE, p.Add(Pos(1, 1, 0)))
    requires voxelAboveBefore == Content(SIDE, p.Add(Pos(0, 1, -1)))
    requires voxelAboveBehind == Content(SIDE, p.Add(Pos(0, 1, 1)))
    requires voxelAboveLeftBefore == Content(SIDE, p.Add(Pos(-1, 1, -1)))
    requires voxelAboveRightBefore == Content(SIDE, p.Add(Pos(1, 1, -1)))
    requires voxelAboveLeftBehind == Content(SIDE, p.Add(Pos(-1, 1, 1)))
    requires voxelAboveRightBehind == Content(SIDE, p.Add(Pos(1, 1, 1)))
    ensures failures == 0
  {
    OriginAboveLayer();
    ExpectAtOrigin(p, Pos(0, 1, 0), 11, voxelAbove) +
    ExpectAtOrigin(p, Pos(-1, 1, 0), 0, voxelAboveLeft) +
    ExpectAtOrigin(p, Pos(1, 1, 0), 12, voxelAboveRight) +
    ExpectAtOrigin(p, Pos(0, 1, -1), 0, voxelAboveBefore) +
    ExpectAtOrigin(p, Pos(0, 1, 1), 14, voxelAboveBehind) +
    ExpectAtOrigin(p, Pos(-1, 1, -1), 0, voxelAboveLeftBefore) +
    ExpectAtOrigin(p, Pos(1, 1, -1), 0, voxelAboveRightBefore) +
    ExpectAtOrigin(p, Pos(-1, 1, 1), 0, voxelAboveLeftBehind) +
    ExpectAtOrigin(p, Pos(1, 1, 1), 15, voxelAboveRightBehind)
  }

  /** The reads of the nine voxels on the layer below the cursor. */
  method ReadBelowLayer(sampler: Sampler) returns (voxelBelow: Voxel, voxelBelowLeft: Voxel, voxelBelowRight: Voxel, voxelBelowBefore: Voxel, voxelBelowBehind: Voxel, voxelBelowLeftBefore: Voxel, voxelBelowRightBefore: Voxel, voxelBelowLeftBehind: Voxel, voxelBelowRightBehind: Voxel)
    requires sampler.volume.Valid()
    modifies sampler.volume
    ensures sampler.volume.Valid() && fresh(sampler.volume.Repr - old(sampler.volume.Repr))
    ensures voxelBelow == Content(sampler.volume.side, sampler.pos.Add(Pos(0, -1, 0)))
    ensures voxelBelowLeft == Content(sampler.volume.side, sampler.pos.Add(Pos(-1, -1, 0)))
    ensures voxelBelowRight == Content(sampler.volume.side, sampler.pos.Add(Pos(1, -1, 0)))
    ensures voxelBelowBefore == Content(sampler.volume.side, sampler.pos.Add(Pos(0, -1, -1)))
    ensures voxelBelowBehind == Content(sampler.volume.side, sampler.pos.Add(Pos(0, -1, 1)))
    ensures voxelBelowLeftBefore == Content(sampler.volume.side, sampler.pos.Add(Pos(-1, -1, -1)))
    ensures voxelBelowRightBefore == Content(sampler.volume.side, sampler.pos.Add(Pos(1, -1, -1)))
    ensures voxelBelowLeftBehind == Content(sampler.volume.side, sampler.pos.Add(Pos(-1, -1, 1)))
    ensures voxelBelowRightBehind == Content(sampler.volume.side, sampler.pos.Add(Pos(1, -1, 1)))
  {
    voxelBelow := sampler.PeekVoxel0px1ny0pz();
    voxelBelowLeft := sampler.PeekVoxel1nx1ny0pz();
    voxelBelowRight := sampler.PeekVoxel1px1ny0pz();
    voxelBelowBefore := sampler.PeekVoxel0px1ny1nz();
    voxelBelowBehind := sampler.PeekVoxel0px1ny1pz();
    voxelBelowLeftBefore := sampler.PeekVoxel1nx1ny1nz();
    voxelBelowRightBefore := sampler.PeekVoxel1px1ny1nz();
    voxelBelowLeftBehind := sampler.PeekVoxel1nx1ny1pz();
    voxelBelowRightBehind := sampler.PeekVoxel1px1ny1pz();
  }

  /** The loop's expectations on the layer below, as a count of failures. */
  function ExpectBelowLayer(p: Pos, voxelBelow: Voxel): (failures: nat)
    requires 0 <= p.x < 64 && 0 <= p.y < 64 && 0 <= p.z < 64
    requires voxelBelow == Content(SIDE, p.Add(Pos(0, -1, 0)))
    ensures failures == 0
  {
    OriginBelow();
    ExpectAtOrigin(p, Pos(0, -1, 0), 0, voxelBelow)
  }
}

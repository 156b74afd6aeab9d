/**
 * The paged voxel volume: a sparse, unbounded 3D grid split into cubic
 * chunks of side S, each chunk filled by the pager the first time any voxel
 * in it is touched, and the Sampler cursor that reads the volume at and
 * around its current position.
 *
 * The one pager the code defines fills every chunk with the same small
 * pattern at fixed local coordinates (materials 1..9 on layer y = 0,
 * 11..19 on layer y = 1 and 25 at (1, 2, 1)); the volume is modelled with
 * that pager. Resident chunks are a map from chunk-grid coordinate to chunk
 * object; each chunk owns a three-dimensional voxel array that page-in writes
 * in place.
 */
module PagedVolume {
  import opened Voxel

  // ---------------------------------------------------------------------------
  // Coordinates

  /** The chunk-grid coordinate of one axis: floor division by the side. */
  function ChunkAxis(c: int, side: nat): int
    requires side > 0
  {
    c / side
  }

  /** The local coordinate of one axis inside its chunk: the floor remainder. */
  function LocalAxis(c: int, side: nat): nat
    requires side > 0
  {
    c % side
  }

  function ChunkOf(p: Pos, side: nat): Pos
    requires side > 0
  {
    Pos(ChunkAxis(p.x, side), ChunkAxis(p.y, side), ChunkAxis(p.z, side))
  }

  function LocalOf(p: Pos, side: nat): Pos
    requires side > 0
  {
    Pos(LocalAxis(p.x, side), LocalAxis(p.y, side), LocalAxis(p.z, side))
  }

  /**
   * The split of a coordinate into (chunk, local) is the unique one with a
   * local part in [0, side): it is floor division, not truncation toward zero.
   */
  lemma SplitIsUnique(c: int, side: nat, q: int, l: int)
    requires side > 0 && 0 <= l < side && c == q * side + l
    ensures ChunkAxis(c, side) == q && LocalAxis(c, side) == l
  {
    var q' := ChunkAxis(c, side);
    assert q' * side + LocalAxis(c, side) == c && LocalAxis(c, side) < side;
    if q' < q {
      MulStep(q', q, side);
    } else if q' > q {
      MulStep(q, q', side);
    }
  }

  /** Consecutive multiples of `side` are at least `side` apart. */
  lemma MulStep(a: int, b: int, side: nat)
    requires a < b
    ensures a * side + side <= b * side
  {
    var d := b - a - 1;
    assert b * side == a * side + side + d * side;
  }

  /** x = -1 lies in chunk -1 at local 63 when the side is 64; x = 0 in chunk 0 at local 0. */
  lemma NegativeCoordinates()
    ensures ChunkOf(Pos(-1, -1, -1), 64) == Pos(-1, -1, -1)
    ensures LocalOf(Pos(-1, 0, -1), 64) == Pos(63, 0, 63)
    ensures ChunkOf(Pos(0, 0, 0), 64) == Pos(0, 0, 0) && LocalOf(Pos(0, 0, 0), 64) == Pos(0, 0, 0)
  {
    SplitIsUnique(-1, 64, -1, 63);
    SplitIsUnique(0, 64, 0, 0);
  }

  /** The region of voxel space that the chunk at chunk-grid coordinate `c` covers. */
  function ChunkRegion(c: Pos, side: nat): (r: Region)
    requires side > 0
    ensures r.Valid()
    ensures forall p :: r.Contains(p) <==> ChunkOf(p, side) == c
  {
    var region := Region(Pos(c.x * side, c.y * side, c.z * side),
                         Pos(c.x * side + side - 1, c.y * side + side - 1, c.z * side + side - 1));
    assert forall p :: region.Contains(p) ==> ChunkOf(p, side) == c by {
      forall p | region.Contains(p)
        ensures ChunkOf(p, side) == c
      {
        SplitIsUnique(p.x, side, c.x, p.x - c.x * side);
        SplitIsUnique(p.y, side, c.y, p.y - c.y * side);
        SplitIsUnique(p.z, side, c.z, p.z - c.z * side);
      }
    }
    region
  }

  // ---------------------------------------------------------------------------
  // Chunk

  /** A cube of side `side` voxels, indexed by local coordinates. */
  class Chunk {
    const side: nat
    const data: array3<Voxel>

    ghost predicate Valid() {
      data.Length0 == side && data.Length1 == side && data.Length2 == side
    }

    predicate InBounds(x: int, y: int, z: int) {
      0 <= x < side && 0 <= y < side && 0 <= z < side
    }

    /** A chunk is created empty: every voxel is Air. */
    constructor (side: nat)
      ensures this.side == side && Valid() && fresh(data)
      ensures forall x, y, z :: InBounds(x, y, z) ==> data[x, y, z] == Air
    {
      this.side := side;
      data := new Voxel[side, side, side]((x, y, z) => Air);
    }

    /** The voxel at a local coordinate; in a paged-in chunk, what the pager wrote there. */
    function GetVoxel(x: int, y: int, z: int): (v: Voxel)
      requires Valid() && InBounds(x, y, z)
      reads data
      ensures HoldsFill(this) ==> v == PagerFill(Pos(x, y, z))
    {
      data[x, y, z]
    }

    /** Replaces one voxel; every other voxel of the chunk keeps its value. */
    method SetVoxel(x: int, y: int, z: int, v: Voxel)
      requires Valid() && InBounds(x, y, z)
      modifies data
      ensures data[x, y, z] == v
      ensures forall i, j, k :: InBounds(i, j, k) && (i, j, k) != (x, y, z) ==> data[i, j, k] == old(data[i, j, k])
    {
      data[x, y, z] := v;
    }
  }

  // ---------------------------------------------------------------------------
  // The pager

  /**
   * What the pager's pageIn leaves at local coordinate `l` of a fresh chunk:
   * material 1 + x + 3z on layer 0 and 11 + x + 3z on layer 1 for x, z < 3,
   * material 25 at (1, 2, 1), and Air everywhere else.
   */
  function PagerFill(l: Pos): (v: Voxel)
    ensures IsAir(v.material) <==> !(0 <= l.x < 3 && 0 <= l.z < 3 && 0 <= l.y < 2) && !(l.x == 1 && l.y == 2 && l.z == 1)
  {
    if l.x == 1 && l.y == 2 && l.z == 1 then CreateVoxel(25)
    else if 0 <= l.x < 3 && 0 <= l.z < 3 && l.y == 1 then CreateVoxel(11 + l.x + 3 * l.z)
    else if 0 <= l.x < 3 && 0 <= l.z < 3 && l.y == 0 then CreateVoxel(1 + l.x + 3 * l.z)
    else Air
  }

  /** The chunk holds exactly what the pager fills in. */
  ghost predicate HoldsFill(chunk: Chunk)
    reads chunk.data
    requires chunk.Valid()
  {
    forall x, y, z :: chunk.InBounds(x, y, z) ==> chunk.data[x, y, z] == PagerFill(Pos(x, y, z))
  }

  /** Pager::pageIn: writes the fixed pattern into the chunk and reports success. */
  method PageIn(region: Region, chunk: Chunk) returns (filled: bool)
    requires chunk.Valid() && chunk.side >= 3
    requires forall x, y, z :: chunk.InBounds(x, y, z) ==> chunk.data[x, y, z] == Air
    modifies chunk.data
    ensures filled
    ensures HoldsFill(chunk)
  {
    chunk.SetVoxel(1, 2, 1, CreateVoxel(25));
    WriteLayer(chunk, 1, 11);
    WriteLayer(chunk, 0, 1);
    filled := true;
  }

  /** The nine setVoxel calls pageIn makes on layer `y`: material base + x + 3z at (x, y, z) for x, z < 3. */
  method WriteLayer(chunk: Chunk, y: nat, base: nat)
    requires chunk.Valid() && chunk.side >= 3 && y < chunk.side
    modifies chunk.data
    ensures forall x, z :: 0 <= x < 3 && 0 <= z < 3 ==> chunk.data[x, y, z] == CreateVoxel(base + x + 3 * z)
    ensures forall i, j, k :: chunk.InBounds(i, j, k) && !(j == y && i < 3 && k < 3) ==> chunk.data[i, j, k] == old(chunk.data[i, j, k])
  {
    chunk.data[0, y, 0] := CreateVoxel(base);
    chunk.data[1, y, 0] := CreateVoxel(base + 1);
    chunk.data[2, y, 0] := CreateVoxel(base + 2);
    chunk.data[0, y, 1] := CreateVoxel(base + 3);
    chunk.data[1, y, 1] := CreateVoxel(base + 4);
    chunk.data[2, y, 1] := CreateVoxel(base + 5);
    chunk.data[0, y, 2] := CreateVoxel(base + 6);
    chunk.data[1, y, 2] := CreateVoxel(base + 7);
    chunk.data[2, y, 2] := CreateVoxel(base + 8);
  }

  /** Pager::pageOut: this pager neither persists nor changes anything. */
  method PageOut(region: Region, chunk: Chunk)
    ensures chunk.Valid() ==> forall x, y, z :: chunk.InBounds(x, y, z) ==> chunk.data[x, y, z] == old(chunk.data[x, y, z])
  {
  }

  // ---------------------------------------------------------------------------
  // The volume

  /** The voxel any read at `p` returns from a volume with chunks of side `side`. */
  function Content(side: nat, p: Pos): Voxel
    requires side > 0
  {
    PagerFill(LocalOf(p, side))
  }

  /**
   * PagedVolume: the chunks paged in so far, keyed by chunk-grid coordinate.
   * Every resident chunk holds exactly what the pager filled in, so what any
   * read returns depends on the coordinate alone (Content).
   */
  class Volume {
    const side: nat
    var chunks: map<Pos, Chunk>
    ghost var Repr: set<object>

    ghost predicate Valid()
      reads this, Repr
    {
      this in Repr && side >= 3 &&
      forall c | c in chunks ::
        chunks[c].data in Repr && chunks[c].side == side && chunks[c].Valid() && HoldsFill(chunks[c])
    }

    /** A volume over the pager with chunks of side `side`; no chunk is resident yet. */
    constructor (side: nat)
      requires side >= 3
      ensures Valid() && fresh(Repr)
      ensures this.side == side && chunks == map[]
    {
      this.side := side;
      chunks := map[];
      Repr := {this};
    }

    /**
     * getChunk: the chunk that contains voxel position `p`: the resident one,
     * or a new chunk that the pager fills in and that becomes resident.
     */
    method GetChunk(p: Pos) returns (chunk: Chunk)
      requires Valid()
      modifies this
      ensures Valid() && fresh(Repr - old(Repr))
      ensures chunks == old(chunks)[ChunkOf(p, side) := chunk]
      ensures ChunkOf(p, side) in old(chunks) ==> chunk == old(chunks)[ChunkOf(p, side)]
      ensures ChunkOf(p, side) !in old(chunks) ==> fresh(chunk)
      ensures chunk.side == side && chunk.Valid() && HoldsFill(chunk)
    {
      var c := ChunkOf(p, side);
      if c in chunks {
        chunk := chunks[c];
      } else {
        chunk := new Chunk(side);
        var _ := PageIn(ChunkRegion(c, side), chunk);
        chunks := chunks[c := chunk];
        Repr := Repr + {chunk.data};
      }
    }

    /** getVoxel: the voxel at `p`, read from the chunk that contains it. */
    method GetVoxel(p: Pos) returns (v: Voxel)
      requires Valid()
      modifies this
      ensures Valid() && fresh(Repr - old(Repr))
      ensures v == Content(side, p)
      ensures chunks.Keys == old(chunks.Keys) + {ChunkOf(p, side)}
      ensures forall c :: c in old(chunks) ==> chunks[c] == old(chunks)[c]
    {
      var chunk := GetChunk(p);
      var l := LocalOf(p, side);
      v := chunk.GetVoxel(l.x, l.y, l.z);
    }

    /** flushAll: hands every resident chunk to the pager's pageOut, then drops them all. */
    method FlushAll()
      requires Valid()
      modifies this
      ensures Valid() && Repr == old(Repr)
      ensures chunks == map[]
    {
      var resident := chunks.Keys;
      while resident != {}
        invariant resident <= chunks.Keys
        invariant Valid() && chunks == old(chunks) && Repr == old(Repr)
        decreases resident
      {
        var c :| c in resident;
        PageOut(ChunkRegion(c, side), chunks[c]);
        resident := resident - {c};
      }
      chunks := map[];
    }
  }

  // ---------------------------------------------------------------------------
  // The sampler

  /**
   * PagedVolume::Sampler: a cursor over one volume. Reads at and around the
   * cursor go through the volume (paging chunks in as needed) and never move
   * the cursor.
   */
  class Sampler {
    const volume: Volume
    var pos: Pos

    /** The cursor starts at the origin until setPosition places it. */
    constructor (volume: Volume)
      ensures this.volume == volume && pos == Pos(0, 0, 0)
    {
      this.volume := volume;
      pos := Pos(0, 0, 0);
    }

    method SetPosition(x: int, y: int, z: int)
      modifies this
      ensures pos == Pos(x, y, z)
    {
      pos := Pos(x, y, z);
    }

    method MovePositiveX()
      modifies this
      ensures pos == old(pos).Add(Pos(1, 0, 0))
    {
      pos := pos.Add(Pos(1, 0, 0));
    }

    method MovePositiveY()
      modifies this
      ensures pos == old(pos).Add(Pos(0, 1, 0))
    {
      pos := pos.Add(Pos(0, 1, 0));
    }

    method MovePositiveZ()
      modifies this
      ensures pos == old(pos).Add(Pos(0, 0, 1))
    {
      pos := pos.Add(Pos(0, 0, 1));
    }

    method MoveNegativeX()
      modifies this
      ensures pos == old(pos).Add(Pos(-1, 0, 0))
    {
      pos := pos.Add(Pos(-1, 0, 0));
    }

    method MoveNegativeY()
      modifies this
      ensures pos == old(pos).Add(Pos(0, -1, 0))
    {
      pos := pos.Add(Pos(0, -1, 0));
    }

    method MoveNegativeZ()
      modifies this
      ensures pos == old(pos).Add(Pos(0, 0, -1))
    {
      pos := pos.Add(Pos(0, 0, -1));
    }

    /** getVoxel: the voxel under the cursor. */
    method GetVoxel() returns (v: Voxel)
      requires volume.Valid()
      modifies volume
      ensures volume.Valid() && fresh(volume.Repr - old(volume.Repr))
      ensures v == Content(volume.side, pos)
      ensures forall c :: c in volume.chunks <==> c in old(volume.chunks) || c == ChunkOf(pos, volume.side)
    {
      v := volume.GetVoxel(pos);
    }

    /** The voxel at offset (dx, dy, dz) from the cursor, each offset in {-1, 0, 1}. */
    method PeekVoxel(dx: int, dy: int, dz: int) returns (v: Voxel)
      requires -1 <= dx <= 1 && -1 <= dy <= 1 && -1 <= dz <= 1
      requires volume.Valid()
      modifies volume
      ensures volume.Valid() && fresh(volume.Repr - old(volume.Repr))
      ensures v == Content(volume.side, pos.Add(Pos(dx, dy, dz)))
      ensures forall c :: c in volume.chunks <==> c in old(volume.chunks) || c == ChunkOf(pos.Add(Pos(dx, dy, dz)), volume.side)
    {
      v := volume.GetVoxel(pos.Add(Pos(dx, dy, dz)));
    }

    // The 26 named neighbour reads: <n>p / <n>n is a step of n in the positive /
    // negative direction of that axis.

    method PeekVoxel1nx1ny1nz() returns (v: Voxel)
      requires volume.Valid()
      modifies volume
      ensures volume.Valid() && fresh(volume.Repr - old(volume.Repr))
      ensures v == Content(volume.side, pos.Add(Pos(-1, -1, -1)))
      ensures forall c :: c in volume.chunks <==> c in old(volume.chunks) || c == ChunkOf(pos.Add(Pos(-1, -1, -1)), volume.side)
    {
      v := PeekVoxel(-1, -1, -1);
    }

    method PeekVoxel1nx1ny0pz() returns (v: Voxel)
      requires volume.Valid()
      modifies volume
      ensures volume.Valid() && fresh(volume.Repr - old(volume.Repr))
      ensures v == Content(volume.side, pos.Add(Pos(-1, -1, 0)))
      ensures forall c :: c in volume.chunks <==> c in old(volume.chunks) || c == ChunkOf(pos.Add(Pos(-1, -1, 0)), volume.side)
    {
      v := PeekVoxel(-1, -1, 0);
    }

    method PeekVoxel1nx1ny1pz() returns (v: Voxel)
      requires volume.Valid()
      modifies volume
      ensures volume.Valid() && fresh(volume.Repr - old(volume.Repr))
      ensures v == Content(volume.side, pos.Add(Pos(-1, -1, 1)))
      ensures forall c :: c in volume.chunks <==> c in old(volume.chunks) || c == ChunkOf(pos.Add(Pos(-1, -1, 1)), volume.side)
    {
      v := PeekVoxel(-1, -1, 1);
    }

    method PeekVoxel1nx0py1nz() returns (v: Voxel)
      requires volume.Valid()
      modifies volume
      ensures volume.Valid() && fresh(volume.Repr - old(volume.Repr))
      ensures v == Content(volume.side, pos.Add(Pos(-1, 0, -1)))
      ensures forall c :: c in volume.chunks <==> c in old(volume.chunks) || c == ChunkOf(pos.Add(Pos(-1, 0, -1)), volume.side)
    {
      v := PeekVoxel(-1, 0, -1);
    }

    method PeekVoxel1nx0py0pz() returns (v: Voxel)
      requires volume.Valid()
      modifies volume
      ensures volume.Valid() && fresh(volume.Repr - old(volume.Repr))
      ensures v == Content(volume.side, pos.Add(Pos(-1, 0, 0)))
      ensures forall c :: c in volume.chunks <==> c in old(volume.chunks) || c == ChunkOf(pos.Add(Pos(-1, 0, 0)), volume.side)
    {
      v := PeekVoxel(-1, 0, 0);
    }

    method PeekVoxel1nx0py1pz() returns (v: Voxel)
      requires volume.Valid()
      modifies volume
      ensures volume.Valid() && fresh(volume.Repr - old(volume.Repr))
      ensures v == Content(volume.side, pos.Add(Pos(-1, 0, 1)))
      ensures forall c :: c in volume.chunks <==> c in old(volume.chunks) || c == ChunkOf(pos.Add(Pos(-1, 0, 1)), volume.side)
    {
      v := PeekVoxel(-1, 0, 1);
    }

    method PeekVoxel1nx1py1nz() returns (v: Voxel)
      requires volume.Valid()
      modifies volume
      ensures volume.Valid() && fresh(volume.Repr - old(volume.Repr))
      ensures v == Content(volume.side, pos.Add(Pos(-1, 1, -1)))
      ensures forall c :: c in volume.chunks <==> c in old(volume.chunks) || c == ChunkOf(pos.Add(Pos(-1, 1, -1)), volume.side)
    {
      v := PeekVoxel(-1, 1, -1);
    }

    method PeekVoxel1nx1py0pz() returns (v: Voxel)
      requires volume.Valid()
      modifies volume
      ensures volume.Valid() && fresh(volume.Repr - old(volume.Repr))
      ensures v == Content(volume.side, pos.Add(Pos(-1, 1, 0)))
      ensures forall c :: c in volume.chunks <==> c in old(volume.chunks) || c == ChunkOf(pos.Add(Pos(-1, 1, 0)), volume.side)
    {
      v := PeekVoxel(-1, 1, 0);
    }

    method PeekVoxel1nx1py1pz() returns (v: Voxel)
      requires volume.Valid()
      modifies volume
      ensures volume.Valid() && fresh(volume.Repr - old(volume.Repr))
      ensures v == Content(volume.side, pos.Add(Pos(-1, 1, 1)))
      ensures forall c :: c in volume.chunks <==> c in old(volume.chunks) || c == ChunkOf(pos.Add(Pos(-1, 1, 1)), volume.side)
    {
      v := PeekVoxel(-1, 1, 1);
    }

    method PeekVoxel0px1ny1nz() returns (v: Voxel)
      requires volume.Valid()
      modifies volume
      ensures volume.Valid() && fresh(volume.Repr - old(volume.Repr))
      ensures v == Content(volume.side, pos.Add(Pos(0, -1, -1)))
      ensures forall c :: c in volume.chunks <==> c in old(volume.chunks) || c == ChunkOf(pos.Add(Pos(0, -1, -1)), volume.side)
    {
      v := PeekVoxel(0, -1, -1);
    }

    method PeekVoxel0px1ny0pz() returns (v: Voxel)
      requires volume.Valid()
      modifies volume
      ensures volume.Valid() && fresh(volume.Repr - old(volume.Repr))
      ensures v == Content(volume.side, pos.Add(Pos(0, -1, 0)))
      ensures forall c :: c in volume.chunks <==> c in old(volume.chunks) || c == ChunkOf(pos.Add(Pos(0, -1, 0)), volume.side)
    {
      v := PeekVoxel(0, -1, 0);
    }

    method PeekVoxel0px1ny1pz() returns (v: Voxel)
      requires volume.Valid()
      modifies volume
      ensures volume.Valid() && fresh(volume.Repr - old(volume.Repr))
      ensures v == Content(volume.side, pos.Add(Pos(0, -1, 1)))
      ensures forall c :: c in volume.chunks <==> c in old(volume.chunks) || c == ChunkOf(pos.Add(Pos(0, -1, 1)), volume.side)
    {
      v := PeekVoxel(0, -1, 1);
    }

    method PeekVoxel0px0py1nz() returns (v: Voxel)
      requires volume.Valid()
      modifies volume
      ensures volume.Valid() && fresh(volume.Repr - old(volume.Repr))
      ensures v == Content(volume.side, pos.Add(Pos(0, 0, -1)))
      ensures forall c :: c in volume.chunks <==> c in old(volume.chunks) || c == ChunkOf(pos.Add(Pos(0, 0, -1)), volume.side)
    {
      v := PeekVoxel(0, 0, -1);
    }

    method PeekVoxel0px0py1pz() returns (v: Voxel)
      requires volume.Valid()
      modifies volume
      ensures volume.Valid() && fresh(volume.Repr - old(volume.Repr))
      ensures v == Content(volume.side, pos.Add(Pos(0, 0, 1)))
      ensures forall c :: c in volume.chunks <==> c in old(volume.chunks) || c == ChunkOf(pos.Add(Pos(0, 0, 1)), volume.side)
    {
      v := PeekVoxel(0, 0, 1);
    }

    method PeekVoxel0px1py1nz() returns (v: Voxel)
      requires volume.Valid()
      modifies volume
      ensures volume.Valid() && fresh(volume.Repr - old(volume.Repr))
      ensures v == Content(volume.side, pos.Add(Pos(0, 1, -1)))
      ensures forall c :: c in volume.chunks <==> c in old(volume.chunks) || c == ChunkOf(pos.Add(Pos(0, 1, -1)), volume.side)
    {
      v := PeekVoxel(0, 1, -1);
    }

    method PeekVoxel0px1py0pz() returns (v: Voxel)
      requires volume.Valid()
      modifies volume
      ensures volume.Valid() && fresh(volume.Repr - old(volume.Repr))
      ensures v == Content(volume.side, pos.Add(Pos(0, 1, 0)))
      ensures forall c :: c in volume.chunks <==> c in old(volume.chunks) || c == ChunkOf(pos.Add(Pos(0, 1, 0)), volume.side)
    {
      v := PeekVoxel(0, 1, 0);
    }

    method PeekVoxel0px1py1pz() returns (v: Voxel)
      requires volume.Valid()
      modifies volume
      ensures volume.Valid() && fresh(volume.Repr - old(volume.Repr))
      ensures v == Content(volume.side, pos.Add(Pos(0, 1, 1)))
      ensures forall c :: c in volume.chunks <==> c in old(volume.chunks) || c == ChunkOf(pos.Add(Pos(0, 1, 1)), volume.side)
    {
      v := PeekVoxel(0, 1, 1);
    }

    method PeekVoxel1px1ny1nz() returns (v: Voxel)
      requires volume.Valid()
      modifies volume
      ensures volume.Valid() && fresh(volume.Repr - old(volume.Repr))
      ensures v == Content(volume.side, pos.Add(Pos(1, -1, -1)))
      ensures forall c :: c in volume.chunks <==> c in old(volume.chunks) || c == ChunkOf(pos.Add(Pos(1, -1, -1)), volume.side)
    {
      v := PeekVoxel(1, -1, -1);
    }

    method PeekVoxel1px1ny0pz() returns (v: Voxel)
      requires volume.Valid()
      modifies volume
      ensures volume.Valid() && fresh(volume.Repr - old(volume.Repr))
      ensures v == Content(volume.side, pos.Add(Pos(1, -1, 0)))
      ensures forall c :: c in volume.chunks <==> c in old(volume.chunks) || c == ChunkOf(pos.Add(Pos(1, -1, 0)), volume.side)
    {
      v := PeekVoxel(1, -1, 0);
    }

    method PeekVoxel1px1ny1pz() returns (v: Voxel)
      requires volume.Valid()
      modifies volume
      ensures volume.Valid() && fresh(volume.Repr - old(volume.Repr))
      ensures v == Content(volume.side, pos.Add(Pos(1, -1, 1)))
      ensures forall c :: c in volume.chunks <==> c in old(volume.chunks) || c == ChunkOf(pos.Add(Pos(1, -1, 1)), volume.side)
    {
      v := PeekVoxel(1, -1, 1);
    }

    method PeekVoxel1px0py1nz() returns (v: Voxel)
      requires volume.Valid()
      modifies volume
      ensures volume.Valid() && fresh(volume.Repr - old(volume.Repr))
      ensures v == Content(volume.side, pos.Add(Pos(1, 0, -1)))
      ensures forall c :: c in volume.chunks <==> c in old(volume.chunks) || c == ChunkOf(pos.Add(Pos(1, 0, -1)), volume.side)
    {
      v := PeekVoxel(1, 0, -1);
    }

    method PeekVoxel1px0py0pz() returns (v: Voxel)
      requires volume.Valid()
      modifies volume
      ensures volume.Valid() && fresh(volume.Repr - old(volume.Repr))
      ensures v == Content(volume.side, pos.Add(Pos(1, 0, 0)))
      ensures forall c :: c in volume.chunks <==> c in old(volume.chunks) || c == ChunkOf(pos.Add(Pos(1, 0, 0)), volume.side)
    {
      v := PeekVoxel(1, 0, 0);
    }

    method PeekVoxel1px0py1pz() returns (v: Voxel)
      requires volume.Valid()
      modifies volume
      ensures volume.Valid() && fresh(volume.Repr - old(volume.Repr))
      ensures v == Content(volume.side, pos.Add(Pos(1, 0, 1)))
      ensures forall c :: c in volume.chunks <==> c in old(volume.chunks) || c == ChunkOf(pos.Add(Pos(1, 0, 1)), volume.side)
    {
      v := PeekVoxel(1, 0, 1);
    }

    method PeekVoxel1px1py1nz() returns (v: Voxel)
      requires volume.Valid()
      modifies volume
      ensures volume.Valid() && fresh(volume.Repr - old(volume.Repr))
      ensures v == Content(volume.side, pos.Add(Pos(1, 1, -1)))
      ensures forall c :: c in volume.chunks <==> c in old(volume.chunks) || c == ChunkOf(pos.Add(Pos(1, 1, -1)), volume.side)
    {
      v := PeekVoxel(1, 1, -1);
    }

    method PeekVoxel1px1py0pz() returns (v: Voxel)
      requires volume.Valid()
      modifies volume
      ensures volume.Valid() && fresh(volume.Repr - old(volume.Repr))
      ensures v == Content(volume.side, pos.Add(Pos(1, 1, 0)))
      ensures forall c :: c in volume.chunks <==> c in old(volume.chunks) || c == ChunkOf(pos.Add(Pos(1, 1, 0)), volume.side)
    {
      v := PeekVoxel(1, 1, 0);
    }

    method PeekVoxel1px1py1pz() returns (v: Voxel)
      requires volume.Valid()
      modifies volume
      ensures volume.Valid() && fresh(volume.Repr - old(volume.Repr))
      ensures v == Content(volume.side, pos.Add(Pos(1, 1, 1)))
      ensures forall c :: c in volume.chunks <==> c in old(volume.chunks) || c == ChunkOf(pos.Add(Pos(1, 1, 1)), volume.side)
    {
      v := PeekVoxel(1, 1, 1);
    }
  }
}

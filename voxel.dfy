/** The voxel cell value and the axis-aligned region box shared by the voxel modules. */
module Voxel {

  /** Material (voxel type) 0 is Air, the canonical empty cell. */
  const AIR_MATERIAL: nat := 0

  /** A voxel: its material (voxel type) and its colour index into the palette. */
  datatype Voxel = Voxel(material: nat, color: nat)

  /** The voxel a chunk holds where nothing was ever written. */
  const Air: Voxel := Voxel(AIR_MATERIAL, 0)

  predicate IsAir(material: nat) {
    material == AIR_MATERIAL
  }

  /** createVoxel(type): a voxel of the given material with colour index 0. */
  function CreateVoxel(material: nat): (v: Voxel)
    ensures v.material == material
    ensures IsAir(v.material) <==> material == AIR_MATERIAL
  {
    Voxel(material, 0)
  }

  /** An integer lattice point. */
  datatype Pos = Pos(x: int, y: int, z: int) {
    function Add(o: Pos): Pos {
      Pos(x + o.x, y + o.y, z + o.z)
    }
  }

  /** Adding the zero offset leaves a point where it is. */
  lemma AddZero(p: Pos)
    ensures p.Add(Pos(0, 0, 0)) == p
  {
  }

  /** An axis-aligned box with inclusive corners. */
  datatype Region = Region(lower: Pos, upper: Pos) {

    predicate Valid() {
      lower.x <= upper.x && lower.y <= upper.y && lower.z <= upper.z
    }

    predicate Contains(p: Pos) {
      lower.x <= p.x <= upper.x && lower.y <= p.y <= upper.y && lower.z <= p.z <= upper.z
    }

    /** The centre voxel: half the extent (rounded down) above the lower corner. */
    function Centre(): (c: Pos)
      ensures Valid() ==> Contains(c)
    {
      Pos(lower.x + (upper.x - lower.x) / 2, lower.y + (upper.y - lower.y) / 2, lower.z + (upper.z - lower.z) / 2)
    }
  }
}

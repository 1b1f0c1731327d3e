/** The voxel: a world position and a kind. */
module VoxelTypes {

  datatype VoxelKind = Air | Grass

  datatype Voxel = Voxel(position: (int, int, int), kind: VoxelKind)
}

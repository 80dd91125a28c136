/** Values shared by every part of the magnifier model: the host's layers,
    extents and canvas, which the plugin only borrows and never builds. */
module Common {

  datatype Option<+T> = None | Some(value: T)

  /** A map layer of the host project. `id` is its identity (the host compares
      layer objects by identity); `spatial` says whether it has geometry or
      raster content. */
  datatype Layer = Layer(id: nat, name: string, spatial: bool)

  /** A geographic rectangle in map units. The model only carries it from the
      canvas to a render request. */
  datatype Extent = Extent(xMin: real, yMin: real, xMax: real, yMax: real)

  /** What the magnifier reads from the host map canvas at one moment: its
      widget size in pixels and the extent it currently shows. */
  datatype Canvas = Canvas(width: int, height: int, extent: Extent)
}

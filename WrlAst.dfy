/** The syntax tree the WRL grammar produces (tools_misc/wrl_to_obj.py:23-92). */
module WrlAst {
  import opened Text

  /** `point = x:float y:float z:float`: the three components are kept as the
      float tokens they were written as; they are only compared and echoed. */
  datatype Point = Point(x: string, y: string, z: string)

  /** `binding_type = 'PER_VERTEX' | 'PER_FACE'`. */
  datatype Binding = PerVertex | PerFace

  /** The `Material` block: `mtl_diffuse_colors` and `mtl_transparencies`. The two
      lists are parsed independently and their lengths are never compared. */
  datatype Material = Material(diffuseColors: seq<Point>, transparencies: seq<string>)

  /** One `Separator { ... }` block. Every field is `None` when its block is absent.
      An index group is the list of indices before one `-1` terminator. */
  datatype Separator = Separator(
    coords: Option<seq<Point>>,
    binding: Option<Binding>,
    material: Option<Material>,
    indexedLines: Option<seq<seq<nat>>>,
    indexedFaces: Option<seq<seq<nat>>>)

  /** A parsed file: its separators in document order. */
  type Document = seq<Separator>

  /** `mtl_diffuse_colors` as the converter reads it: `None` without a Material block. */
  function DiffuseColors(sep: Separator): Option<seq<Point>> {
    if sep.material.Some? then Some(sep.material.value.diffuseColors) else None
  }
}

/**
 * Visual geometry per die kind (app/composables/dice/useDiceGeometry.ts): the
 * shape descriptor and dimensions handed to the renderer, the material colour,
 * and the face count. Only the descriptors are modelled, not the meshes.
 */
module DiceGeometry {
  import opened Wrappers
  import opened DiceTypes

  /** The renderer's geometry constructors with the arguments the dice pass to them. */
  datatype Geometry =
    | Tetrahedron(radius: real)
    | Box(width: real, height: real, depth: real, widthSegments: nat, heightSegments: nat, depthSegments: nat)
    | Octahedron(radius: real)
    | Cylinder(radiusTop: real, radiusBottom: real, height: real, radialSegments: nat)
    | Dodecahedron(radius: real)
    | Icosahedron(radius: real)

  /** The standard material every die gets. */
  datatype Material = Material(color: int, roughness: real, metalness: real, flatShading: bool)

  datatype DiceGeometry = DiceGeometry(geometry: Geometry, material: Material)

  /** The colour used when a tag has no colour entry. */
  const FallbackColor: int := 0xffffff

  /** Every length of a geometry is positive. */
  predicate DimensionsPositive(g: Geometry)
  {
    match g
    case Tetrahedron(r) => r > 0.0
    case Box(w, h, d, _, _, _) => w > 0.0 && h > 0.0 && d > 0.0
    case Octahedron(r) => r > 0.0
    case Cylinder(rt, rb, h, _) => rt > 0.0 && rb > 0.0 && h > 0.0
    case Dodecahedron(r) => r > 0.0
    case Icosahedron(r) => r > 0.0
  }

  /** The same shape with every length multiplied by `k` (segment counts are not lengths). */
  function Scaled(g: Geometry, k: real): Geometry
  {
    match g
    case Tetrahedron(r) => Tetrahedron(r * k)
    case Box(w, h, d, ws, hs, ds) => Box(w * k, h * k, d * k, ws, hs, ds)
    case Octahedron(r) => Octahedron(r * k)
    case Cylinder(rt, rb, h, n) => Cylinder(rt * k, rb * k, h * k, n)
    case Dodecahedron(r) => Dodecahedron(r * k)
    case Icosahedron(r) => Icosahedron(r * k)
  }

  /** The `switch` of `createDiceGeometry`, including its fallback to a plain unit box. */
  function ShapeFor(tag: DiceTag, scale: real): Geometry
  {
    match Classify(tag)
    case Known(D4) => Tetrahedron(0.8 * scale)
    case Known(D6) => Box(1.0 * scale, 1.0 * scale, 1.0 * scale, 2, 2, 2)
    case Known(D8) => Octahedron(0.9 * scale)
    case Known(D10) => Cylinder(0.7 * scale, 0.7 * scale, 1.2 * scale, 10)
    case Known(D12) => Dodecahedron(0.85 * scale)
    case Known(D20) => Icosahedron(0.95 * scale)
    case Known(D100) => Cylinder(0.7 * scale, 0.7 * scale, 1.2 * scale, 10)
    case Unrecognised(_) => Box(1.0 * scale, 1.0 * scale, 1.0 * scale, 1, 1, 1)
  }

  /** The `colors` record; an unrecognised tag has no entry. */
  function ColorEntry(tag: DiceTag): Option<int>
  {
    match Classify(tag)
    case Known(D4) => Some(0x4a9eff)
    case Known(D6) => Some(0xff4a4a)
    case Known(D8) => Some(0x4aff4a)
    case Known(D10) => Some(0xffaa4a)
    case Known(D12) => Some(0xff4aff)
    case Known(D20) => Some(0xffff4a)
    case Known(D100) => Some(0x4affff)
    case Unrecognised(_) => None
  }

  /**
   * `getDiceColor`: `colors[type] || 0xffffff`. Every kind has its own
   * non-zero colour, so the fallback serves the unrecognised tags. For an
   * inherited property name the source yields the inherited value instead;
   * the contract says nothing about those names.
   */
  function DiceColor(tag: DiceTag): (c: int)
    ensures Classify(tag).Known? ==> c != FallbackColor && c != 0
    ensures FallsBack(tag) ==> c == FallbackColor
  {
    match ColorEntry(tag)
    case Some(v) => if v != 0 then v else FallbackColor
    case None => FallbackColor
  }

  /** The seven kinds have pairwise distinct colours. */
  lemma ColorsDistinct(t: DiceType, u: DiceType)
    requires t != u
    ensures DiceColor(Known(t)) != DiceColor(Known(u))
  {
  }

  /** `createDiceGeometry(type, scale = 1.0)`. */
  function CreateDiceGeometry(tag: DiceTag, scale: real := 1.0): (g: DiceGeometry)
    ensures g.material == Material(DiceColor(tag), 0.4, 0.1, false)
    ensures scale > 0.0 ==> DimensionsPositive(g.geometry)
  {
    DiceGeometry(ShapeFor(tag, scale), Material(DiceColor(tag), 0.4, 0.1, false))
  }

  /** Every length is the kind's length at the default scale times `scale`. */
  lemma GeometryScales(tag: DiceTag, scale: real)
    ensures CreateDiceGeometry(tag, scale).geometry == Scaled(CreateDiceGeometry(tag).geometry, scale)
  {
  }

  /** d10 and d100 share one ten-segment cylinder and differ only in colour. */
  lemma D10AndD100ShareGeometry(scale: real)
    ensures CreateDiceGeometry(Known(D10), scale).geometry == CreateDiceGeometry(Known(D100), scale).geometry
    ensures CreateDiceGeometry(Known(D10), scale).geometry == Cylinder(0.7 * scale, 0.7 * scale, 1.2 * scale, 10)
    ensures CreateDiceGeometry(Known(D10), scale).material != CreateDiceGeometry(Known(D100), scale).material
  {
    ColorsDistinct(D10, D100);
  }

  /**
   * An unrecognised tag gets a box of the d6's size, but without the d6's
   * two segments per side, and, unless the name is an inherited property name,
   * the fallback colour.
   */
  lemma UnrecognisedFallsBackToBox(name: string, scale: real)
    requires !IsKindName(name)
    ensures var g := CreateDiceGeometry(Unrecognised(name), scale).geometry;
            var d6 := CreateDiceGeometry(Known(D6), scale).geometry;
            g.Box? && d6.Box? && g.width == d6.width && g.height == d6.height && g.depth == d6.depth &&
            g.widthSegments == 1 && d6.widthSegments == 2
    ensures FallsBack(Unrecognised(name)) ==> CreateDiceGeometry(Unrecognised(name), scale).material.color == FallbackColor
  {
  }

  /** `getDiceFaceCount`: the number in the kind's name. */
  function DiceFaceCount(t: DiceType): (n: nat)
    ensures n >= 4
  {
    match t
    case D4 => 4
    case D6 => 6
    case D8 => 8
    case D10 => 10
    case D12 => 12
    case D20 => 20
    case D100 => 100
  }

  /** Distinct kinds have distinct face counts. */
  lemma FaceCountInjective(t: DiceType, u: DiceType)
    requires t != u
    ensures DiceFaceCount(t) != DiceFaceCount(u)
  {
  }
}

/** The scheduler's tags and tagged element, as the kernel generator's
    dispatch layer sees them: a coarse family tag, a fine type tag, and an
    element record with one payload slot per type tag. */
module Scheduler {

  /** statement_node_type_family. The seven families the dispatch layer
      names; every other value of the enumeration (such as the family of
      composite operations) is an OtherFamily. */
  datatype Family =
    | HostScalarTypeFamily
    | ScalarTypeFamily
    | VectorTypeFamily
    | SymbolicVectorTypeFamily
    | MatrixRowTypeFamily
    | MatrixColTypeFamily
    | SymbolicMatrixTypeFamily
    | OtherFamily(code: int)

  /** statement_node_type. The fourteen types the dispatch layer names;
      every other value of the enumeration is an OtherType. */
  datatype ElementType =
    | HostScalarFloatType
    | HostScalarDoubleType
    | ScalarFloatType
    | ScalarDoubleType
    | VectorFloatType
    | VectorDoubleType
    | SymbolicVectorFloatType
    | SymbolicVectorDoubleType
    | MatrixRowFloatType
    | MatrixRowDoubleType
    | MatrixColFloatType
    | MatrixColDoubleType
    | SymbolicMatrixFloatType
    | SymbolicMatrixDoubleType
    | OtherType(code: int)

  /** Non-owning references to device objects and placeholders. Only the
      size queries the generator uses are visible; everything else about the
      referenced object is an opaque handle. */
  datatype ScalarRef = ScalarRef(handle: nat)
  datatype VectorRef = VectorRef(handle: nat, size: nat)
  datatype SymbolicVectorRef = SymbolicVectorRef(index: nat)
  datatype MatrixRef = MatrixRef(handle: nat, rows: nat, cols: nat)
  datatype SymbolicMatrixRef = SymbolicMatrixRef(index: nat)

  /** lhs_rhs_element: one slot per type tag. Host scalars are held by value
      as the bit patterns of an IEEE single or double. */
  datatype Element = Element(
    hostFloat: bv32,
    hostDouble: bv64,
    scalarFloat: ScalarRef,
    scalarDouble: ScalarRef,
    vectorFloat: VectorRef,
    vectorDouble: VectorRef,
    symbolicVectorFloat: SymbolicVectorRef,
    symbolicVectorDouble: SymbolicVectorRef,
    matrixRowFloat: MatrixRef,
    matrixRowDouble: MatrixRef,
    matrixColFloat: MatrixRef,
    matrixColDouble: MatrixRef,
    symbolicMatrixFloat: SymbolicMatrixRef,
    symbolicMatrixDouble: SymbolicMatrixRef)

  /** The concrete value a functor is called with: one variant per payload
      type, so that a functor can tell a float vector from a double one. */
  datatype Payload =
    | HostScalarFloat(hostFloat: bv32)
    | HostScalarDouble(hostDouble: bv64)
    | ScalarFloat(scalar: ScalarRef)
    | ScalarDouble(scalar: ScalarRef)
    | VectorFloat(vector: VectorRef)
    | VectorDouble(vector: VectorRef)
    | SymbolicVectorFloat(symbolicVector: SymbolicVectorRef)
    | SymbolicVectorDouble(symbolicVector: SymbolicVectorRef)
    | MatrixRowFloat(matrix: MatrixRef)
    | MatrixRowDouble(matrix: MatrixRef)
    | MatrixColFloat(matrix: MatrixRef)
    | MatrixColDouble(matrix: MatrixRef)
    | SymbolicMatrixFloat(symbolicMatrix: SymbolicMatrixRef)
    | SymbolicMatrixDouble(symbolicMatrix: SymbolicMatrixRef)

  /** A type tag the dispatch layer names. */
  predicate IsKnown(t: ElementType) {
    !t.OtherType?
  }

  /** The family each known type belongs to. */
  function FamilyOf(t: ElementType): (f: Family)
    requires IsKnown(t)
    ensures !f.OtherFamily?
  {
    match t
    case HostScalarFloatType | HostScalarDoubleType => HostScalarTypeFamily
    case ScalarFloatType | ScalarDoubleType => ScalarTypeFamily
    case VectorFloatType | VectorDoubleType => VectorTypeFamily
    case SymbolicVectorFloatType | SymbolicVectorDoubleType => SymbolicVectorTypeFamily
    case MatrixRowFloatType | MatrixRowDoubleType => MatrixRowTypeFamily
    case MatrixColFloatType | MatrixColDoubleType => MatrixColTypeFamily
    case SymbolicMatrixFloatType | SymbolicMatrixDoubleType => SymbolicMatrixTypeFamily
  }

  /** The type tag that describes a payload. */
  function TagOf(p: Payload): (t: ElementType)
    ensures IsKnown(t)
  {
    match p
    case HostScalarFloat(_) => HostScalarFloatType
    case HostScalarDouble(_) => HostScalarDoubleType
    case ScalarFloat(_) => ScalarFloatType
    case ScalarDouble(_) => ScalarDoubleType
    case VectorFloat(_) => VectorFloatType
    case VectorDouble(_) => VectorDoubleType
    case SymbolicVectorFloat(_) => SymbolicVectorFloatType
    case SymbolicVectorDouble(_) => SymbolicVectorDoubleType
    case MatrixRowFloat(_) => MatrixRowFloatType
    case MatrixRowDouble(_) => MatrixRowDoubleType
    case MatrixColFloat(_) => MatrixColFloatType
    case MatrixColDouble(_) => MatrixColDoubleType
    case SymbolicMatrixFloat(_) => SymbolicMatrixFloatType
    case SymbolicMatrixDouble(_) => SymbolicMatrixDoubleType
  }

  /** Reference table: the slot of `e` that type tag `t` designates. */
  function Field(t: ElementType, e: Element): (p: Payload)
    requires IsKnown(t)
    ensures TagOf(p) == t
  {
    match t
    case HostScalarFloatType => HostScalarFloat(e.hostFloat)
    case HostScalarDoubleType => HostScalarDouble(e.hostDouble)
    case ScalarFloatType => ScalarFloat(e.scalarFloat)
    case ScalarDoubleType => ScalarDouble(e.scalarDouble)
    case VectorFloatType => VectorFloat(e.vectorFloat)
    case VectorDoubleType => VectorDouble(e.vectorDouble)
    case SymbolicVectorFloatType => SymbolicVectorFloat(e.symbolicVectorFloat)
    case SymbolicVectorDoubleType => SymbolicVectorDouble(e.symbolicVectorDouble)
    case MatrixRowFloatType => MatrixRowFloat(e.matrixRowFloat)
    case MatrixRowDoubleType => MatrixRowDouble(e.matrixRowDouble)
    case MatrixColFloatType => MatrixColFloat(e.matrixColFloat)
    case MatrixColDoubleType => MatrixColDouble(e.matrixColDouble)
    case SymbolicMatrixFloatType => SymbolicMatrixFloat(e.symbolicMatrixFloat)
    case SymbolicMatrixDoubleType => SymbolicMatrixDouble(e.symbolicMatrixDouble)
  }

  /** How a caller fills an element: the payload goes into the slot of its
      own type tag, and every other slot keeps its value. */
  function Store(p: Payload, e: Element): (e': Element)
    ensures Field(TagOf(p), e') == p
  {
    match p
    case HostScalarFloat(x) => e.(hostFloat := x)
    case HostScalarDouble(x) => e.(hostDouble := x)
    case ScalarFloat(x) => e.(scalarFloat := x)
    case ScalarDouble(x) => e.(scalarDouble := x)
    case VectorFloat(x) => e.(vectorFloat := x)
    case VectorDouble(x) => e.(vectorDouble := x)
    case SymbolicVectorFloat(x) => e.(symbolicVectorFloat := x)
    case SymbolicVectorDouble(x) => e.(symbolicVectorDouble := x)
    case MatrixRowFloat(x) => e.(matrixRowFloat := x)
    case MatrixRowDouble(x) => e.(matrixRowDouble := x)
    case MatrixColFloat(x) => e.(matrixColFloat := x)
    case MatrixColDouble(x) => e.(matrixColDouble := x)
    case SymbolicMatrixFloat(x) => e.(symbolicMatrixFloat := x)
    case SymbolicMatrixDouble(x) => e.(symbolicMatrixDouble := x)
  }

  /** Storing a payload leaves the slots of all other type tags as they were. */
  lemma StoreKeepsOtherSlots(p: Payload, e: Element, t: ElementType)
    requires IsKnown(t) && t != TagOf(p)
    ensures Field(t, Store(p, e)) == Field(t, e)
  {
  }
}

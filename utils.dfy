/** The kernel generator's internal utilities: tag-driven dispatch of a
    functor over a tagged element, the size wrappers built on it, the
    compile-time name tables, and the indentation-tracking stream that
    collects generated kernel source. */
module GeneratorUtils {
  import opened Scheduler

  // ---------------------------------------------------------------------
  // Dispatch
  // ---------------------------------------------------------------------

  /** The one exception the routers throw (the string "not implemented"). */
  datatype Exception = NotImplemented

  datatype Result<T> = Ok(value: T) | Err(error: Exception)

  /** A functor can be called on every payload whose type belongs to one of
      `families`: the set of payload types a router hands it. */
  ghost predicate AppliesTo<R>(fun: Payload --> R, families: set<Family>) {
    forall p: Payload :: FamilyOf(TagOf(p)) in families ==> fun.requires(p)
  }

  /** A functor can be called on every payload. */
  ghost predicate AppliesToAll<R>(fun: Payload --> R) {
    forall p: Payload :: fun.requires(p)
  }

  predicate IsMatrixFamily(f: Family) {
    f == MatrixRowTypeFamily || f == MatrixColTypeFamily
  }

  /** Families whose routing goes through the same router: equal families,
      or the two matrix layouts, which share one router. */
  predicate SameRouter(f: Family, g: Family) {
    f == g || (IsMatrixFamily(f) && IsMatrixFamily(g))
  }

  function CallOnHostScalar<R>(t: ElementType, e: Element, fun: Payload --> R): (r: Result<R>)
    requires AppliesTo(fun, {HostScalarTypeFamily})
    ensures r.Ok? <==> IsKnown(t) && FamilyOf(t) == HostScalarTypeFamily
    ensures r.Ok? ==> r.value == fun(Field(t, e))
  {
    match t
    case HostScalarFloatType => Ok(fun(HostScalarFloat(e.hostFloat)))
    case HostScalarDoubleType => Ok(fun(HostScalarDouble(e.hostDouble)))
    case _ => Err(NotImplemented)
  }

  function CallOnScalar<R>(t: ElementType, e: Element, fun: Payload --> R): (r: Result<R>)
    requires AppliesTo(fun, {ScalarTypeFamily})
    ensures r.Ok? <==> IsKnown(t) && FamilyOf(t) == ScalarTypeFamily
    ensures r.Ok? ==> r.value == fun(Field(t, e))
  {
    match t
    case ScalarFloatType => Ok(fun(ScalarFloat(e.scalarFloat)))
    case ScalarDoubleType => Ok(fun(ScalarDouble(e.scalarDouble)))
    case _ => Err(NotImplemented)
  }

  function CallOnVector<R>(t: ElementType, e: Element, fun: Payload --> R): (r: Result<R>)
    requires AppliesTo(fun, {VectorTypeFamily})
    ensures r.Ok? <==> IsKnown(t) && FamilyOf(t) == VectorTypeFamily
    ensures r.Ok? ==> r.value == fun(Field(t, e))
  {
    match t
    case VectorFloatType => Ok(fun(VectorFloat(e.vectorFloat)))
    case VectorDoubleType => Ok(fun(VectorDouble(e.vectorDouble)))
    case _ => Err(NotImplemented)
  }

  function CallOnSymbolicVector<R>(t: ElementType, e: Element, fun: Payload --> R): (r: Result<R>)
    requires AppliesTo(fun, {SymbolicVectorTypeFamily})
    ensures r.Ok? <==> IsKnown(t) && FamilyOf(t) == SymbolicVectorTypeFamily
    ensures r.Ok? ==> r.value == fun(Field(t, e))
  {
    match t
    case SymbolicVectorFloatType => Ok(fun(SymbolicVectorFloat(e.symbolicVectorFloat)))
    case SymbolicVectorDoubleType => Ok(fun(SymbolicVectorDouble(e.symbolicVectorDouble)))
    case _ => Err(NotImplemented)
  }

  /** One router for both layouts: it accepts all four matrix types. */
  function CallOnMatrix<R>(t: ElementType, e: Element, fun: Payload --> R): (r: Result<R>)
    requires AppliesTo(fun, {MatrixRowTypeFamily, MatrixColTypeFamily})
    ensures r.Ok? <==> IsKnown(t) && IsMatrixFamily(FamilyOf(t))
    ensures r.Ok? ==> r.value == fun(Field(t, e))
  {
    match t
    case MatrixRowFloatType => Ok(fun(MatrixRowFloat(e.matrixRowFloat)))
    case MatrixRowDoubleType => Ok(fun(MatrixRowDouble(e.matrixRowDouble)))
    case MatrixColFloatType => Ok(fun(MatrixColFloat(e.matrixColFloat)))
    case MatrixColDoubleType => Ok(fun(MatrixColDouble(e.matrixColDouble)))
    case _ => Err(NotImplemented)
  }

  function CallOnSymbolicMatrix<R>(t: ElementType, e: Element, fun: Payload --> R): (r: Result<R>)
    requires AppliesTo(fun, {SymbolicMatrixTypeFamily})
    ensures r.Ok? <==> IsKnown(t) && FamilyOf(t) == SymbolicMatrixTypeFamily
    ensures r.Ok? ==> r.value == fun(Field(t, e))
  {
    match t
    case SymbolicMatrixFloatType => Ok(fun(SymbolicMatrixFloat(e.symbolicMatrixFloat)))
    case SymbolicMatrixDoubleType => Ok(fun(SymbolicMatrixDouble(e.symbolicMatrixDouble)))
    case _ => Err(NotImplemented)
  }

  /** Top-level router. Every router is instantiated with `fun`, so `fun`
      must apply to every payload. */
  function CallOnElement<R>(family: Family, t: ElementType, e: Element, fun: Payload --> R): (r: Result<R>)
    requires AppliesToAll(fun)
    ensures r.Ok? <==> IsKnown(t) && SameRouter(family, FamilyOf(t))
    ensures r.Ok? ==> r.value == fun(Field(t, e))
  {
    match family
    case HostScalarTypeFamily => CallOnHostScalar(t, e, fun)
    case ScalarTypeFamily => CallOnScalar(t, e, fun)
    case VectorTypeFamily => CallOnVector(t, e, fun)
    case SymbolicVectorTypeFamily => CallOnSymbolicVector(t, e, fun)
    case MatrixRowTypeFamily => CallOnMatrix(t, e, fun)
    case MatrixColTypeFamily => CallOnMatrix(t, e, fun)
    case SymbolicMatrixTypeFamily => CallOnSymbolicMatrix(t, e, fun)
    case OtherFamily(_) => Err(NotImplemented)
  }

  /** Each case of each router calls the functor on the slot named like the
      case: float types read the float slot, double types the double slot. */
  lemma ScalarRoutersSelectMatchingSlot<R>(e: Element, fun: Payload --> R)
    requires AppliesToAll(fun)
    ensures CallOnHostScalar(HostScalarFloatType, e, fun) == Ok(fun(HostScalarFloat(e.hostFloat)))
    ensures CallOnHostScalar(HostScalarDoubleType, e, fun) == Ok(fun(HostScalarDouble(e.hostDouble)))
    ensures CallOnScalar(ScalarFloatType, e, fun) == Ok(fun(ScalarFloat(e.scalarFloat)))
    ensures CallOnScalar(ScalarDoubleType, e, fun) == Ok(fun(ScalarDouble(e.scalarDouble)))
  {
  }

  lemma VectorRoutersSelectMatchingSlot<R>(e: Element, fun: Payload --> R)
    requires AppliesToAll(fun)
    ensures CallOnVector(VectorFloatType, e, fun) == Ok(fun(VectorFloat(e.vectorFloat)))
    ensures CallOnVector(VectorDoubleType, e, fun) == Ok(fun(VectorDouble(e.vectorDouble)))
  {
  }

  lemma MatrixRoutersSelectMatchingSlot<R>(e: Element, fun: Payload --> R)
    requires AppliesToAll(fun)
    ensures CallOnMatrix(MatrixRowFloatType, e, fun) == Ok(fun(MatrixRowFloat(e.matrixRowFloat)))
    ensures CallOnMatrix(MatrixRowDoubleType, e, fun) == Ok(fun(MatrixRowDouble(e.matrixRowDouble)))
    ensures CallOnMatrix(MatrixColFloatType, e, fun) == Ok(fun(MatrixColFloat(e.matrixColFloat)))
    ensures CallOnMatrix(MatrixColDoubleType, e, fun) == Ok(fun(MatrixColDouble(e.matrixColDouble)))
  {
  }

  lemma SymbolicRoutersSelectMatchingSlot<R>(e: Element, fun: Payload --> R)
    requires AppliesToAll(fun)
    ensures CallOnSymbolicVector(SymbolicVectorFloatType, e, fun) == Ok(fun(SymbolicVectorFloat(e.symbolicVectorFloat)))
    ensures CallOnSymbolicVector(SymbolicVectorDoubleType, e, fun) == Ok(fun(SymbolicVectorDouble(e.symbolicVectorDouble)))
    ensures CallOnSymbolicMatrix(SymbolicMatrixFloatType, e, fun) == Ok(fun(SymbolicMatrixFloat(e.symbolicMatrixFloat)))
    ensures CallOnSymbolicMatrix(SymbolicMatrixDoubleType, e, fun) == Ok(fun(SymbolicMatrixDouble(e.symbolicMatrixDouble)))
  {
  }

  /** call_on_element hands its arguments on to the router of its family. */
  lemma CallOnElementDelegates<R>(family: Family, t: ElementType, e: Element, fun: Payload --> R)
    requires AppliesToAll(fun)
    ensures family == HostScalarTypeFamily ==> CallOnElement(family, t, e, fun) == CallOnHostScalar(t, e, fun)
    ensures family == ScalarTypeFamily ==> CallOnElement(family, t, e, fun) == CallOnScalar(t, e, fun)
    ensures family == VectorTypeFamily ==> CallOnElement(family, t, e, fun) == CallOnVector(t, e, fun)
    ensures family == SymbolicVectorTypeFamily ==> CallOnElement(family, t, e, fun) == CallOnSymbolicVector(t, e, fun)
    ensures IsMatrixFamily(family) ==> CallOnElement(family, t, e, fun) == CallOnMatrix(t, e, fun)
    ensures family == SymbolicMatrixTypeFamily ==> CallOnElement(family, t, e, fun) == CallOnSymbolicMatrix(t, e, fun)
    ensures family.OtherFamily? ==> CallOnElement(family, t, e, fun) == Err(NotImplemented)
  {
  }

  /** Storing a payload, tagging the element with the payload's own type and
      family, and dispatching an identity functor gives the payload back. */
  lemma EchoRoundTrip(p: Payload, e: Element)
    ensures CallOnElement(FamilyOf(TagOf(p)), TagOf(p), Store(p, e), (q: Payload) => q) == Ok(p)
  {
  }

  /** The routers read only the slot their type tag designates. */
  lemma DispatchReadsOnlyItsSlot<R>(family: Family, t: ElementType, p: Payload, e: Element, fun: Payload --> R)
    requires AppliesToAll(fun)
    requires IsKnown(t) && t != TagOf(p)
    ensures CallOnElement(family, t, Store(p, e), fun) == CallOnElement(family, t, e, fun)
  {
  }

  /** A type dispatched under a family whose router does not list it fails,
      also when the type is legal for another family. */
  lemma CrossFamilyRejected<R>(family: Family, t: ElementType, e: Element, fun: Payload --> R)
    requires AppliesToAll(fun)
    requires IsKnown(t) && !SameRouter(family, FamilyOf(t))
    ensures CallOnElement(family, t, e, fun) == Err(NotImplemented)
  {
  }

  /** The matrix router does not check the layout in the family tag against
      the layout in the type tag. */
  lemma MatrixLayoutNotCrossChecked<R>(e: Element, fun: Payload --> R)
    requires AppliesToAll(fun)
    ensures CallOnElement(MatrixRowTypeFamily, MatrixColFloatType, e, fun) == Ok(fun(MatrixColFloat(e.matrixColFloat)))
    ensures CallOnElement(MatrixColTypeFamily, MatrixRowDoubleType, e, fun) == Ok(fun(MatrixRowDouble(e.matrixRowDouble)))
  {
  }

  // ---------------------------------------------------------------------
  // Size wrappers
  // ---------------------------------------------------------------------

  /** size_fun, size1_fun, size2_fun: each compiles only for the payload
      types its wrapper routes to, and asks the payload for its own size. */
  function SizeFun(p: Payload): (r: nat)
    requires p.VectorFloat? || p.VectorDouble?
    ensures r == p.vector.size
  {
    p.vector.size
  }

  function Size1Fun(p: Payload): (r: nat)
    requires p.MatrixRowFloat? || p.MatrixRowDouble? || p.MatrixColFloat? || p.MatrixColDouble?
    ensures r == p.matrix.rows
  {
    p.matrix.rows
  }

  function Size2Fun(p: Payload): (r: nat)
    requires p.MatrixRowFloat? || p.MatrixRowDouble? || p.MatrixColFloat? || p.MatrixColDouble?
    ensures r == p.matrix.cols
  {
    p.matrix.cols
  }

  function Size(t: ElementType, e: Element): (r: Result<nat>)
    ensures r.Ok? <==> t == VectorFloatType || t == VectorDoubleType
    ensures t == VectorFloatType ==> r == Ok(e.vectorFloat.size)
    ensures t == VectorDoubleType ==> r == Ok(e.vectorDouble.size)
  {
    CallOnVector(t, e, SizeFun)
  }

  function Size1(t: ElementType, e: Element): (r: Result<nat>)
    ensures r.Ok? <==> IsKnown(t) && IsMatrixFamily(FamilyOf(t))
    ensures r.Ok? ==> r.value == Field(t, e).matrix.rows
  {
    CallOnMatrix(t, e, Size1Fun)
  }

  function Size2(t: ElementType, e: Element): (r: Result<nat>)
    ensures r.Ok? <==> IsKnown(t) && IsMatrixFamily(FamilyOf(t))
    ensures r.Ok? ==> r.value == Field(t, e).matrix.cols
  {
    CallOnMatrix(t, e, Size2Fun)
  }

  /** A float vector of four elements has size 4 and no row count; a 3 by 5
      matrix has 3 rows and 5 columns in either layout. */
  lemma SizeWrappersOnExamples(e: Element)
    requires e.vectorFloat.size == 4
    requires e.matrixRowDouble.rows == 3 && e.matrixRowDouble.cols == 5
    requires e.matrixColFloat.rows == 3 && e.matrixColFloat.cols == 5
    ensures Size(VectorFloatType, e) == Ok(4) && Size1(VectorFloatType, e).Err?
    ensures Size(MatrixRowDoubleType, e).Err?
    ensures Size1(MatrixRowDoubleType, e) == Ok(3) && Size2(MatrixRowDoubleType, e) == Ok(5)
    ensures Size1(MatrixColFloatType, e) == Ok(3) && Size2(MatrixColFloatType, e) == Ok(5)
  {
  }

  // ---------------------------------------------------------------------
  // Name tables
  // ---------------------------------------------------------------------

  datatype NumericType = Float | Double
  datatype LayoutType = RowMajor | ColumnMajor

  /** The types first_letter_of_type is specialised for. */
  datatype TypeKey = Numeric(numeric: NumericType) | Layout(layout: LayoutType)

  /** type_to_string: a distinct, non-empty name per numeric type. */
  function TypeToString(n: NumericType): (s: string)
    ensures s == "float" <==> n == Float
    ensures s == "double" <==> n == Double
  {
    match n
    case Float => "float"
    case Double => "double"
  }

  /** first_letter_of_type: one letter per type, no two alike. */
  function FirstLetterOfType(k: TypeKey): (c: char)
    ensures c == 'f' <==> k == Numeric(Float)
    ensures c == 'd' <==> k == Numeric(Double)
    ensures c == 'r' <==> k == Layout(RowMajor)
    ensures c == 'c' <==> k == Layout(ColumnMajor)
  {
    match k
    case Numeric(Float) => 'f'
    case Numeric(Double) => 'd'
    case Layout(RowMajor) => 'r'
    case Layout(ColumnMajor) => 'c'
  }

  lemma NameTables()
    ensures TypeToString(Float) == "float" && TypeToString(Double) == "double"
    ensures FirstLetterOfType(Numeric(Float)) == 'f' && FirstLetterOfType(Numeric(Double)) == 'd'
    ensures FirstLetterOfType(Layout(RowMajor)) == 'r' && FirstLetterOfType(Layout(ColumnMajor)) == 'c'
  {
  }

  /** A numeric type's letter is the first letter of its name. */
  lemma FirstLetterIsNameInitial(n: NumericType)
    ensures |TypeToString(n)| > 0 && FirstLetterOfType(Numeric(n)) == TypeToString(n)[0]
  {
  }

  /** Distinct types get distinct letters and distinct names, so names
      built from them do not collide. */
  lemma NameTablesInjective(a: TypeKey, b: TypeKey, m: NumericType, n: NumericType)
    ensures FirstLetterOfType(a) == FirstLetterOfType(b) ==> a == b
    ensures TypeToString(m) == TypeToString(n) ==> m == n
  {
  }

  // ---------------------------------------------------------------------
  // Kernel generation stream
  // ---------------------------------------------------------------------

  /** unsigned int, assuming it is 32 bits wide. */
  type UInt32 = x: int | 0 <= x < 0x1_0000_0000

  /** One indentation unit. */
  const Tab: string := "    "

  /** The indentation written for `n` units: four spaces per unit. */
  function Indent(n: nat): (s: string)
    ensures |s| == 4 * n
    ensures forall i | 0 <= i < |s| :: s[i] == ' '
  {
    if n == 0 then "" else Indent(n - 1) + Tab
  }

  /** An output stream whose buffer, when synced, is copied into the
      collected output behind the current indentation. */
  class KernelGenerationStream {
    /** The text synced so far (oss). */
    var output: string
    /** Text written but not yet synced (the kgenstream's own buffer). */
    var pending: string
    /** tab_count_; the buffer refers to it, so a sync sees its current value. */
    var tabCount: UInt32

    constructor ()
      ensures output == "" && pending == "" && tabCount == 0
    {
      output, pending, tabCount := "", "", 0;
    }

    /** Inserting text into the stream puts it into the buffer only. */
    method Write(s: string)
      modifies this
      ensures pending == old(pending) + s
      ensures output == old(output) && tabCount == old(tabCount)
    {
      pending := pending + s;
    }

    /** kgenstream::sync */
    method Sync()
      modifies this
      ensures output == old(output) + Indent(old(tabCount)) + old(pending)
      ensures old(output) <= output
      ensures pending == "" && tabCount == old(tabCount)
    {
      for i := 0 to tabCount
        invariant output == old(output) + Indent(i)
        invariant pending == old(pending) && tabCount == old(tabCount)
      {
        output := output + Tab;
      }
      output := output + pending;
      pending := "";
    }

    /** The synced text; text still in the buffer is not part of it. */
    method Str() returns (s: string)
      ensures s == output
    {
      s := output;
    }

    /** ++tab_count_ on an unsigned int. */
    method IncTab()
      modifies this
      ensures tabCount == (old(tabCount) + 1) % 0x1_0000_0000
      ensures output == old(output) && pending == old(pending)
    {
      tabCount := if tabCount == 0xFFFF_FFFF then 0 else tabCount + 1;
    }

    /** --tab_count_; callers keep increments and decrements balanced. */
    method DecTab()
      requires tabCount > 0
      modifies this
      ensures tabCount == old(tabCount) - 1
      ensures output == old(output) && pending == old(pending)
    {
      tabCount := tabCount - 1;
    }
  }

  /** A generation session: indentation is applied when the buffer is
      synced, a sync of an empty buffer still writes the indentation, and
      unsynced text is not part of the collected output. */
  method GenerationSession() returns (s: string)
    ensures s == "x\n" + Indent(1) + "y\n" + Indent(2)
  {
    var k := new KernelGenerationStream();
    k.Write("x\n");
    k.Sync();
    assert k.output == "x\n";
    k.Write("y");
    k.IncTab();
    k.Write("\n");
    assert k.pending == "y\n" && k.tabCount == 1;
    k.Sync();
    assert k.output == "x\n" + Indent(1) + "y\n" && k.pending == "";
    k.DecTab();
    k.Sync();
    assert k.output == "x\n" + Indent(1) + "y\n" && k.tabCount == 0;
    k.IncTab();
    k.IncTab();
    assert k.tabCount == 2 && k.pending == "";
    k.Sync();
    k.Write("pending");
    s := k.Str();
  }
}

# ViennaCL kernel generator utilities, in Dafny

This project models `viennacl/generator/utils.hpp`, the internal utilities of
ViennaCL's OpenCL kernel generator. The file has two independent parts.

- **Tag-driven dispatch.** A scheduler element (`lhs_rhs_element`) holds one
  payload per element type. It comes with a coarse family tag
  (`statement_node_type_family`) and a fine type tag (`statement_node_type`).
  - `call_on_element` switches on the family and hands off to one of six
    per-family routers. Both matrix layouts share one router.
  - Each router switches on the type, reads the matching payload slot and
    calls a generic functor on it.
  - Any tag a router does not list throws `"not implemented"`.
  - `size_fun`, `size1_fun` and `size2_fun` are such functors. The wrappers
    `size`, `size1` and `size2` run them through `call_on_vector` and
    `call_on_matrix`.
  - Two compile-time tables give each numeric type its name and each
    numeric or layout type a letter.
- **`kernel_generation_stream`.** An output stream that collects generated
  kernel source. Text written to it waits in a buffer. A sync copies the
  buffer into the output behind four spaces per indentation level.
  `inc_tab`/`dec_tab` move the level by one, and `str()` returns the synced
  output.

Files:

- `scheduler.dfy` (module `Scheduler`): the tags, the element, and the
  payload sum type the functor receives. It also holds a reference table:
  - `Field(t, e)` is the slot that type `t` designates;
  - `Store(p, e)` writes payload `p` into its own slot;
  - `TagOf` gives a payload's type tag and `FamilyOf` a type's family.

  Enumerators that `utils.hpp` does not name are `OtherFamily(code)` and
  `OtherType(code)`.
- `utils.dfy` (module `GeneratorUtils`): the routers, the size wrappers,
  the name tables and the stream class.

The functor is a partial function `Payload --> R`. A C++ functor only has to
compile for the payload types that the routers it is used with can hand it.
The model states this as a precondition:
- `AppliesTo(fun, families)` for a per-family router;
- `AppliesToAll(fun)` for `call_on_element`, which instantiates every router.

So `size_fun` is defined on vectors only, while `size1_fun` and `size2_fun`
are defined on matrices only.

The routers' contracts are stated against the reference table.
- A router succeeds exactly when the type's family is one the router
  serves.
- When it succeeds, the result is the functor applied to `Field(t, e)`.
- `Field` is pinned down by two facts: `Store` round-trips through it, and
  storing into one slot leaves every other slot's `Field` unchanged.

Two facts about the code shape the model:
- For an unknown family, and for a type its router does not list, the code
  throws the same string literal `"not implemented"` (utils.hpp lines 46,
  58, 70, 82, 99, 112 and 134). So the model has one error value,
  `NotImplemented`.
- `tab_count_` is an `unsigned int`, assumed here to be 32 bits wide. So `++`
  wraps at 2^32, and `IncTab` models that wrap. `DecTab` requires a level
  above zero (see Left out).

## Model

| member | source | states |
|---|---|---|
| GeneratorUtils.CallOnHostScalar | viennacl/generator/utils.hpp:38-48 | succeeds exactly for the two host-scalar types, with the functor applied to the slot of that type; every other type, including ones legal for other families, fails with NotImplemented |
| GeneratorUtils.CallOnScalar | viennacl/generator/utils.hpp:50-60 | succeeds exactly for the two device-scalar types, with the functor applied to that type's slot; fails otherwise |
| GeneratorUtils.CallOnVector | viennacl/generator/utils.hpp:62-72 | succeeds exactly for the two vector types, with the functor applied to that type's slot; fails otherwise |
| GeneratorUtils.CallOnSymbolicVector | viennacl/generator/utils.hpp:74-84 | succeeds exactly for the two symbolic-vector types, with the functor applied to that type's slot; fails otherwise |
| GeneratorUtils.CallOnMatrix | viennacl/generator/utils.hpp:86-101 | succeeds exactly for the four matrix types of either layout, with the functor applied to that type's slot; fails otherwise |
| GeneratorUtils.CallOnSymbolicMatrix | viennacl/generator/utils.hpp:104-114 | succeeds exactly for the two symbolic-matrix types, with the functor applied to that type's slot; fails otherwise |
| GeneratorUtils.CallOnElement | viennacl/generator/utils.hpp:116-136 | succeeds if and only if the type is known and its family goes through the same router as the given family; on success the result is the functor on the type's slot; unknown families fail |
| GeneratorUtils.ScalarRoutersSelectMatchingSlot | viennacl/generator/utils.hpp:39-60 | float types read the `*_float_` slot and double types the `*_double_` slot in the host-scalar and scalar routers |
| GeneratorUtils.VectorRoutersSelectMatchingSlot | viennacl/generator/utils.hpp:63-72 | the same slot selection for the vector router |
| GeneratorUtils.MatrixRoutersSelectMatchingSlot | viennacl/generator/utils.hpp:87-101 | the same slot selection for the four matrix types: row or column layout and float or double precision |
| GeneratorUtils.SymbolicRoutersSelectMatchingSlot | viennacl/generator/utils.hpp:75-114 | the same slot selection for the symbolic-vector and symbolic-matrix routers |
| GeneratorUtils.CallOnElementDelegates | viennacl/generator/utils.hpp:117-136 | for each of the seven families the result equals that family's router's result, success or failure; both matrix families use the matrix router; any other family fails |
| GeneratorUtils.EchoRoundTrip | viennacl/generator/utils.hpp:116-136 | a payload stored in an element and dispatched under its own type and family through an identity functor comes back unchanged |
| GeneratorUtils.DispatchReadsOnlyItsSlot | viennacl/generator/utils.hpp:39-114 | changing any slot other than the one the type designates does not change the dispatch result |
| GeneratorUtils.CrossFamilyRejected | viennacl/generator/utils.hpp:133-134 | a known type passed with a family whose router does not list it fails with NotImplemented |
| GeneratorUtils.MatrixLayoutNotCrossChecked | viennacl/generator/utils.hpp:127-130 | row family with a column-major type, and column family with a row-major type, both succeed on the type's slot |
| GeneratorUtils.Size | viennacl/generator/utils.hpp:156-158 | defined exactly for the two vector types, where it is the size of the float or double vector slot; fails for every other type |
| GeneratorUtils.Size1 | viennacl/generator/utils.hpp:160-162 | defined exactly for the four matrix types, where it is the row count of that type's matrix slot; fails otherwise |
| GeneratorUtils.Size2 | viennacl/generator/utils.hpp:164-166 | defined exactly for the four matrix types, where it is the column count of that type's matrix slot; fails otherwise |
| GeneratorUtils.SizeWrappersOnExamples | viennacl/generator/utils.hpp:156-166 | a float vector of 4 elements has size 4 and no row count; a 3 by 5 matrix gives 3 and 5 in both layouts; a matrix type has no vector size |
| GeneratorUtils.SizeFun | viennacl/generator/utils.hpp:138-142 | applied to a vector payload, gives that vector's own size; defined only on the two vector payloads |
| GeneratorUtils.Size1Fun | viennacl/generator/utils.hpp:144-148 | applied to a matrix payload of either layout, gives its own row count; defined only on the four matrix payloads |
| GeneratorUtils.Size2Fun | viennacl/generator/utils.hpp:150-154 | applied to a matrix payload of either layout, gives its own column count; defined only on the four matrix payloads |
| GeneratorUtils.TypeToString | viennacl/generator/utils.hpp:182-185 | the name is "float" exactly for float and "double" exactly for double |
| GeneratorUtils.FirstLetterOfType | viennacl/generator/utils.hpp:188-193 | the letter is 'f' exactly for float, 'd' exactly for double, 'r' exactly for row-major and 'c' exactly for column-major |
| GeneratorUtils.NameTables | viennacl/generator/utils.hpp:182-193 | float is named "float" and double "double"; the letters are 'f', 'd', 'r' for row-major and 'c' for column-major |
| GeneratorUtils.FirstLetterIsNameInitial | viennacl/generator/utils.hpp:184-191 | a numeric type's letter is the first character of its name |
| GeneratorUtils.NameTablesInjective | viennacl/generator/utils.hpp:188-193 | distinct types have distinct letters and distinct names |
| GeneratorUtils.Indent | viennacl/generator/utils.hpp:202-203 | the indentation for n levels is 4n characters, all spaces |
| GeneratorUtils.KernelGenerationStream.constructor | viennacl/generator/utils.hpp:215 | a new stream has empty output, an empty buffer and indentation level 0 |
| GeneratorUtils.KernelGenerationStream.Write | viennacl/generator/utils.hpp:198-200 | written text is appended to the buffer only; output and level are unchanged |
| GeneratorUtils.KernelGenerationStream.Sync | viennacl/generator/utils.hpp:201-207 | new output is the old output, then 4 spaces per current level, then the buffer; the old output is a prefix of the new; the buffer becomes empty; the level is unchanged |
| GeneratorUtils.KernelGenerationStream.Str | viennacl/generator/utils.hpp:217 | returns the synced output, which excludes text still in the buffer |
| GeneratorUtils.KernelGenerationStream.IncTab | viennacl/generator/utils.hpp:219 | the level goes up by one, modulo 2^32 (a 32-bit `unsigned int`); output and buffer are unchanged |
| GeneratorUtils.KernelGenerationStream.DecTab | viennacl/generator/utils.hpp:221 | the level goes down by exactly one; output and buffer are unchanged |
| GeneratorUtils.GenerationSession | viennacl/generator/utils.hpp:195-228 | a session leaves "x\n", one indentation level, "y\n" and two levels in `str()`. This shows three things: indentation is taken at sync time, not write time; a sync of an empty buffer still writes its indentation; unsynced text is not in `str()` |

## Left out

- The size queries of the C++ containers (`viennacl::traits::size`, `size1`, `size2`) are not part of this model. Each payload handle carries its size, or its row and column counts, as fields.
- Host scalar payloads are kept as raw 32-bit and 64-bit patterns. Floating-point values are not interpreted.
- Device references are plain handle values. Null or dangling pointers, and the dereference `*element.x_`, are not modelled.
- In C++, reading an inactive member of the element is undefined. The model instead gives the element a slot for every type.
- `to_string` is left out because it is generic `std::stringstream` formatting.
- `is_same_type` is left out because it is a compile-time type trait with no runtime behaviour.
- Formatting of non-string values written to the stream is left out. So is the choice of when the standard library flushes, for example on `std::endl`. Writes are string appends and `Sync` is called explicitly.
- `sync`'s return value `!oss_` (stream failure) is left out.
- The destructors are left out: the final `pubsync` in `~kgenstream` and the `delete rdbuf()`.
- `DecTab`: requires a level above zero instead of modelling the unsigned wrap-around of `--tab_count_` at zero, since callers are expected to balance increments and decrements.

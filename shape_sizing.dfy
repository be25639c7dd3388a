/**
 * How a run turns the requested shape name and the caller's optional OCPU and
 * memory figures into the sizing it probes with (oci_runner.py, lines 75-93).
 *
 * The capacity module's tables are not visible, so they are a `Catalog`
 * value: the dense-I/O flexible shape names and three lookups from a shape
 * name. Every statement below holds for every catalog.
 */
module ShapeSizing {
  import opened Wrappers
  import opened Text

  /**
   * The capacity module's tables: `denseio_flex_shapes`,
   * `set_denseio_shape_ocpus`, `set_user_shape_ocpus` and
   * `set_user_shape_memory`.
   */
  datatype Catalog = Catalog(
    denseIoFlexShapes: set<string>,
    denseIoOcpus: string -> int,
    defaultOcpus: string -> int,
    defaultMemory: string -> int)

  /** The three branches of the classification, in the order they are tried. */
  datatype Category = DenseIoFlex | FixedOrBareMetal | Flexible

  /** The resolved figures handed to every region probe. */
  datatype Sizing = Sizing(ocpus: int, memory: Option<int>)

  const FLEX_MARKER: string := ".Flex"
  const BARE_METAL_PREFIX: string := "BM."

  /** Python truthiness of an optional number: present and non-zero. */
  predicate Truthy(v: Option<int>)
  {
    v.Some? && v.value != 0
  }

  /** Python truthiness of the optional shape name: present and non-empty. */
  predicate ShapeGiven(name: Option<string>)
  {
    name.Some? && name.value != ""
  }

  /** The if / elif / else of lines 84-91: dense-I/O membership is tried first. */
  function Classify(name: string, catalog: Catalog): (c: Category)
    ensures c == DenseIoFlex <==> name in catalog.denseIoFlexShapes
    ensures c == FixedOrBareMetal ==> !Contains(name, FLEX_MARKER) || StartsWith(name, BARE_METAL_PREFIX)
  {
    if name in catalog.denseIoFlexShapes then DenseIoFlex
    else if !Contains(name, FLEX_MARKER) || StartsWith(name, BARE_METAL_PREFIX) then FixedOrBareMetal
    else Flexible
  }

  /**
   * The sizing a run probes with. Memory is absent only when the caller gave
   * none and the shape is a dense-I/O one: every other branch sets it.
   */
  function ResolveSizing(name: string, callerOcpus: Option<int>, callerMemory: Option<int>, catalog: Catalog): (s: Sizing)
    ensures s.memory.None? ==> name in catalog.denseIoFlexShapes && callerMemory.None?
    ensures s.ocpus == 0 && s.memory == Some(0) <== Classify(name, catalog) == FixedOrBareMetal
  {
    match Classify(name, catalog)
    case DenseIoFlex =>
      Sizing(catalog.denseIoOcpus(name), callerMemory)
    case FixedOrBareMetal =>
      Sizing(0, Some(0))
    case Flexible =>
      Sizing(
        if Truthy(callerOcpus) then callerOcpus.value else catalog.defaultOcpus(name),
        if Truthy(callerMemory) then callerMemory else Some(catalog.defaultMemory(name)))
  }

  /** A dense-I/O shape takes its OCPUs from the table whatever the caller asked for, and keeps the caller's memory (even none). */
  lemma DenseIoOverridesCaller(name: string, callerOcpus: Option<int>, callerMemory: Option<int>, catalog: Catalog)
    requires name in catalog.denseIoFlexShapes
    ensures ResolveSizing(name, callerOcpus, callerMemory, catalog) == Sizing(catalog.denseIoOcpus(name), callerMemory)
  {
  }

  /** Dense-I/O membership is checked first: a bare-metal or non-".Flex" name in the table is never zeroed. */
  lemma DenseIoTakesPriority(name: string, callerOcpus: Option<int>, callerMemory: Option<int>, catalog: Catalog)
    requires name in catalog.denseIoFlexShapes
    requires StartsWith(name, BARE_METAL_PREFIX) || !Contains(name, FLEX_MARKER)
    ensures Classify(name, catalog) == DenseIoFlex
    ensures ResolveSizing(name, callerOcpus, callerMemory, catalog).ocpus == catalog.denseIoOcpus(name)
    ensures ResolveSizing(name, callerOcpus, callerMemory, catalog).memory == callerMemory
  {
  }

  /** Outside the table, a name without ".Flex" or starting with "BM." gets zero OCPUs and zero memory, whatever the caller gave. */
  lemma FixedShapesZeroed(name: string, callerOcpus: Option<int>, callerMemory: Option<int>, catalog: Catalog)
    requires name !in catalog.denseIoFlexShapes
    requires !Contains(name, FLEX_MARKER) || StartsWith(name, BARE_METAL_PREFIX)
    ensures ResolveSizing(name, callerOcpus, callerMemory, catalog) == Sizing(0, Some(0))
  {
  }

  /** A flexible shape keeps each figure the caller gave (non-zero) and fills each one it did not with the shape's default. */
  lemma FlexibleSizing(name: string, callerOcpus: Option<int>, callerMemory: Option<int>, catalog: Catalog)
    requires Classify(name, catalog) == Flexible
    ensures var s := ResolveSizing(name, callerOcpus, callerMemory, catalog);
      && (Truthy(callerOcpus) ==> s.ocpus == callerOcpus.value)
      && (!Truthy(callerOcpus) ==> s.ocpus == catalog.defaultOcpus(name))
      && (Truthy(callerMemory) ==> s.memory == callerMemory)
      && (!Truthy(callerMemory) ==> s.memory == Some(catalog.defaultMemory(name)))
  {
  }

  /**
   * In every branch the resolved OCPUs do not depend on the caller's memory
   * and the resolved memory does not depend on the caller's OCPUs.
   */
  lemma FieldsIndependent(name: string, ocpus1: Option<int>, ocpus2: Option<int>, memory1: Option<int>, memory2: Option<int>, catalog: Catalog)
    ensures ResolveSizing(name, ocpus1, memory1, catalog).ocpus == ResolveSizing(name, ocpus1, memory2, catalog).ocpus
    ensures ResolveSizing(name, ocpus1, memory1, catalog).memory == ResolveSizing(name, ocpus2, memory1, catalog).memory
  {
  }

  /** Submitting a resolved sizing again as the caller's figures resolves to the same sizing. */
  lemma ResolveIdempotent(name: string, callerOcpus: Option<int>, callerMemory: Option<int>, catalog: Catalog)
    ensures var s := ResolveSizing(name, callerOcpus, callerMemory, catalog);
      ResolveSizing(name, Some(s.ocpus), s.memory, catalog) == s
  {
  }

  /**
   * A shape is probed as flexible exactly when it is not a dense-I/O one,
   * does not start with "BM." and has ".Flex" somewhere in its name.
   */
  lemma FlexibleIff(name: string, catalog: Catalog)
    ensures Classify(name, catalog) == Flexible <==>
      && name !in catalog.denseIoFlexShapes
      && !StartsWith(name, BARE_METAL_PREFIX)
      && exists i :: OccursAt(name, FLEX_MARKER, i)
  {
    ContainsIff(name, FLEX_MARKER);
  }

  /** A bare-metal standard shape outside the table is zero-sized. */
  lemma BareMetalExample(callerOcpus: Option<int>, callerMemory: Option<int>, catalog: Catalog)
    requires "BM.Standard2.52" !in catalog.denseIoFlexShapes
    ensures ResolveSizing("BM.Standard2.52", callerOcpus, callerMemory, catalog) == Sizing(0, Some(0))
  {
  }

  /** A flexible VM shape with no caller figures gets both defaults. */
  lemma FlexibleExample(catalog: Catalog)
    requires "VM.Standard.E4.Flex" !in catalog.denseIoFlexShapes
    ensures ResolveSizing("VM.Standard.E4.Flex", None, Some(0), catalog) ==
      Sizing(catalog.defaultOcpus("VM.Standard.E4.Flex"), Some(catalog.defaultMemory("VM.Standard.E4.Flex")))
  {
    assert OccursAt("VM.Standard.E4.Flex", FLEX_MARKER, 14);
    ContainsIff("VM.Standard.E4.Flex", FLEX_MARKER);
    assert !StartsWith("VM.Standard.E4.Flex", BARE_METAL_PREFIX) by {
      assert "VM.Standard.E4.Flex"[0] != BARE_METAL_PREFIX[0];
    }
  }
}

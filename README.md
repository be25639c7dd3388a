# OCI capacity check: request resolution, verified in Dafny

This project models the decision layer of `run_capacity_check` in the OCI
capacity report tool (`oci_runner.py`). After authentication and region
validation, a run does four things:

- It refuses a request without a shape name. It prints
  "Error: Shape name is a required field for the web UI." and probes no region.
- It resolves the shape's sizing (OCPUs and memory) with three branches, tried in order:
  - A dense-I/O flexible shape takes its OCPU count from the dense-I/O table and keeps
    the caller's memory.
  - A shape without ".Flex" in its name, or starting with "BM.", is sized 0/0.
  - Any other shape is flexible. The caller's OCPUs and memory are kept when given
    (Python truthiness: present and non-zero). Otherwise each is filled with the shape's default.
- It prints the fixed-width column header. The header has an AVAILABLE_COUNT column only
  with the `drcc` flag set.
- For each validated region, in order, it sets `config['region']` to the region's name.
  Then it calls `process_region` with the resolved shape arguments.

Files:

- `wrappers.dfy`: `Option`, standing for Python's `None` or a value.
- `text.dfy`: the string operations the run uses:
  - substring test (`in`);
  - `startswith`;
  - `ljust` (the `:<width` format);
  - `split()`, used as a reference reading of the header line.
- `shape_sizing.dfy`: the shape guard's truthiness test and the sizing classification.
  The capacity module's tables (`denseio_flex_shapes`, `set_denseio_shape_ocpus`,
  `set_user_shape_ocpus`, `set_user_shape_memory`) are a `Catalog` value. It holds a set and
  three lookups. Every property holds for every catalog, so no table values are assumed.
- `report_header.dfy`: the header text, proved against its list of labels.
- `capacity_runner.dfy`: the run itself, as a class:
  - a `config` field, the client configuration dictionary updated in place;
  - a ghost log of `process_region` calls.

  `process_region` is an abstract step that records its arguments.

Three details of the code the model keeps:

- The flexible-shape marker is the substring ".Flex".
- A dense-I/O shape keeps the caller's memory as given: an absent memory stays absent,
  and 0 stays 0.
- Caller figures are not checked for positivity. A negative OCPU count is truthy, so a
  flexible shape keeps it.

## Model

| member | source | states |
|---|---|---|
| `Text.ContainsIff` | oci_runner.py:87 | `Text.Contains`, the `in` of line 87, holds exactly when the marker occurs at some index of the name. |
| `Text.LeftJustify` | oci_runner.py:95-97 | A `:<width` field is `max(width, len(label))` long, starts with the label and is blank after it. |
| `ShapeSizing.Classify` | oci_runner.py:84-91 | The if / elif / else of lines 84-91. A shape is dense-I/O if and only if it is in the table. A shape classified fixed or bare-metal lacks ".Flex" or starts with "BM." (`Text.StartsWith`, the `startswith` of line 87). |
| `ShapeSizing.ResolveSizing` | oci_runner.py:84-93 | Resolved memory is absent only when the shape is a dense-I/O one and the caller gave no memory. A fixed or bare-metal shape resolves to 0 OCPUs and 0 memory. |
| `ShapeSizing.DenseIoOverridesCaller` | oci_runner.py:84-85 | A dense-I/O shape gets the table's OCPU count whatever the caller supplied, and keeps the caller's memory unchanged, absent included. |
| `ShapeSizing.DenseIoTakesPriority` | oci_runner.py:84-89 | A name in the dense-I/O table is classified dense-I/O and never zeroed, even when it starts with "BM." or lacks ".Flex". |
| `ShapeSizing.FixedShapesZeroed` | oci_runner.py:87-89 | A name outside the table that lacks ".Flex" or starts with "BM." resolves to 0 OCPUs and 0 memory, whatever the caller supplied. |
| `ShapeSizing.FlexibleSizing` | oci_runner.py:91-93 | `ShapeSizing.Truthy` is the `not` test of lines 92-93. For a flexible shape, a non-zero caller figure is kept exactly, and an absent or zero one is replaced by the shape's default. OCPUs and memory are treated the same way. |
| `ShapeSizing.FieldsIndependent` | oci_runner.py:84-93 | In every branch, resolved OCPUs do not depend on the caller's memory, and resolved memory does not depend on the caller's OCPUs. |
| `ShapeSizing.ResolveIdempotent` | oci_runner.py:84-93 | Resubmitting a resolved sizing as the caller's figures resolves to the same sizing. |
| `ShapeSizing.FlexibleIff` | oci_runner.py:84-91 | A shape is resolved as flexible if and only if it is not in the dense-I/O table, does not start with "BM." and contains ".Flex" at some index. |
| `ShapeSizing.BareMetalExample` | oci_runner.py:87-89 | "BM.Standard2.52" outside the dense-I/O table resolves to 0/0 whatever the caller supplied. |
| `ShapeSizing.FlexibleExample` | oci_runner.py:91-93 | "VM.Standard.E4.Flex" with no OCPUs and zero memory gets both of the shape's defaults. |
| `ReportHeader.BaseHeader` | oci_runner.py:95 | The header text of line 95 is 121 characters long and starts with a line break. |
| `ReportHeader.Header` | oci_runner.py:95-98 | The header text of lines 95-98. It starts with the line-95 text and ends with " AVAILABILITY" and a line break. |
| `ReportHeader.BaseHeaderTokens` | oci_runner.py:95 | The first part of the header reads, split on whitespace, as REGION, AVAILABILITY_DOMAIN, FAULT_DOMAIN, SHAPE, OCPU, MEMORY. |
| `ReportHeader.HeaderTokens` | oci_runner.py:95-98 | Split on whitespace, the whole header is exactly its labels in order. AVAILABLE_COUNT is present only in DRCC mode, and AVAILABILITY comes last. |
| `ReportHeader.AvailableCountIffDrcc` | oci_runner.py:96-98 | AVAILABLE_COUNT is a header column if and only if DRCC mode is on. When present it sits between MEMORY and AVAILABILITY. |
| `ReportHeader.HeaderLength` | oci_runner.py:95-98 | The padded labels fill their widths 20, 30, 20, 25, 10 and 10 exactly. The header is 135 characters long, or 152 in DRCC mode. |
| `ReportHeader.DrccInsertsColumn` | oci_runner.py:95-98 | DRCC mode inserts a blank and the 16-wide AVAILABLE_COUNT field before " AVAILABILITY". Every earlier column keeps its position. |
| `CapacityRunner.DispatchLogLength` | oci_runner.py:102-104 | For every region list, empty included, `CapacityRunner.DispatchLog` has exactly one call per region. |
| `CapacityRunner.DispatchLogAt` | oci_runner.py:102-104 | `CapacityRunner.DispatchLog` is the list of calls the loop makes. The loop makes exactly one call per validated region, in list order. At call `i` the configuration is the original one with only `region` set to region `i`'s name. Every call receives the same compartment, shape, OCPUs, memory and DRCC flag. |
| `CapacityRunner.ConfigAfterLast` | oci_runner.py:102-103 | `CapacityRunner.ConfigAfter` is the configuration the loop leaves. After the loop, `config['region']` names the last region, or the configuration is unchanged when there were no regions. No other key changes. |
| `CapacityRunner.ReportRun.ProcessRegion` | oci_runner.py:104 | The abstract probe records its region, the configuration at the call, the compartment and the shape arguments, and changes nothing else. |
| `CapacityRunner.ReportRun.DispatchRegions` | oci_runner.py:102-104 | The loop leaves the configuration as `ConfigAfter` describes and appends exactly the calls `DispatchLog` describes. |
| `CapacityRunner.ReportRun.Run` | oci_runner.py:75-104 | `ShapeGiven` is the `not user_shape_name` test of line 80. With no shape name (absent or empty) the run prints only the required-field error and makes no call and no configuration change. Otherwise it prints the header for the DRCC flag and probes every validated region with the resolved sizing. |

## Left out

- Authentication, client construction, region subscription listing, connectivity validation and `set_user_compartment` (oci_runner.py:21-53, 74). These are network calls into the identity module, which is not part of this model. The validated region list and the compartment are parameters of `Run`.
- The internals of `process_region` and the dense-I/O and default-size tables. They belong to the capacity module, which is not part of this model. The tables are the abstract `Catalog`, and `process_region` only records its arguments. It is assumed not to modify `config` and not to raise.
- The signer argument of `process_region` is not recorded in the call log. It is the same object for every call.
- The captured standard output, the banner lines (oci_runner.py:30-33, 58-65) and the catch-all exception handler (oci_runner.py:106-108). `Run` returns only the text that lines 80-100 print. The report lines that `process_region` prints between and after them are not modelled.
- The `float(...)` conversion at oci_runner.py:85. OCPU and memory figures are unbounded integers, and the table lookups return integers.
- The Flask front end (app.py). Its form fields are the `ReportRequest` value.
- `Text.Tokens` separates on the ASCII characters `str.split()` separates on, not on Python's non-ASCII whitespace. The header contains none of those.

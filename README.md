# Builtin aggregate function catalog

A Dafny model of the planner-side catalog of builtin aggregate and analytic
functions from the Palo (Doris) frontend, `BuiltinAggregateFunction.java`:

- the `Operator` registry, a closed enumeration in which every operator
  (COUNT, MIN, MAX, SUM, AVG, NDV, LAG, RANK, …, FIRST_VALUE_REWRITE)
  carries a display name, a backend opcode of the Thrift enumeration
  `TAggregationOp` (or none), and a fixed intermediate (accumulator) type
  (or none, when analysis determines it);
- the `BuiltinAggregateFunction` descriptor, a small object created for
  one resolved call. It stores the operator, the argument, return and
  intermediate types, and the analytic flag. It derives the flag
  `reqIntermediateTuple`. One setter rebinds the intermediate type.
- the projection of a descriptor into the backend's `TFunction` message.
  The function id is 0 for the planner-only marker FIRST_VALUE_REWRITE and
  otherwise the ordinal of the operator's opcode. The payload is the
  current intermediate type.

Files:

- `wrappers.dfy`: `Option` (a Java `null` is `None`) and `Result`.
- `catalog_types.dfy`: module `CatalogTypes` holds the catalog `Type`.
  It is a structural value: `BigInt`, `Varchar(len)` or any other named
  type. Module `Thrift` holds the wire structures: the `TAggregationOp`
  tags named by the table, `TFunction`, `TAggregateFunction` and
  `FunctionSignature`.
- `aggregate_operator.dfy`: module `AggregateOperator`, the registry, its
  inverse `OperatorFor`, and the facts about the table.
- `builtin_aggregate_function.dfy`: module `BuiltinAggregate`, the wire id
  `WireId`, the class `BuiltinAggregateFunction`, and two client methods
  that build descriptors and observe them.

A `null` opcode, a `null` fixed intermediate type in the table, and a `null`
intermediate type held by a descriptor are `Option.None`. The return and
argument types are plain `Type`s, which cannot be null. An `Operator` value can
never be null, so the constructor's null check on the operator is enforced
by typing. The null check on the intermediate type is a `requires`. The
setter performs no null check, so it accepts `None`. A later projection
then dereferences null, which the model returns as
`Failure(NullIntermediateType)`.

The derived flag is reproduced as the code has it. It is computed once in
the constructor from the construction-time intermediate type. The setter
does not recompute it. The ghost field `constructionIntermediate` and the
invariant `Valid()` record which type the flag describes.
`RebindScenario` exhibits a descriptor whose flag is false while the flag's
definition, applied to its current types, gives true.

The wire id of the marker is the literal 0, and nothing in the source keeps
it apart from opcode ordinals. Ordinals of a Java enumeration start at 0.
If the constant of ordinal 0 in `TAggregationOp` is one of the opcodes in
the table, the operator carrying it, and only that one, also gets id 0
(`ReservedIdShared`). The concrete order of `TAggregationOp` is not part of
this model, so no concrete collision is claimed.

## Model

| member | source | states |
|---|---|---|
| `AggregateOperator.Operator.ToThrift` | fe/src/com/baidu/palo/analysis/BuiltinAggregateFunction.java:101-124 | the opcode is null exactly for FIRST_VALUE_REWRITE; every other operator, AVG included, has one |
| `AggregateOperator.NotableOpcodes` | fe/src/com/baidu/palo/analysis/BuiltinAggregateFunction.java:107-124 | AVG carries INVALID (not null), NDV carries HLL, HLL_UNION_AGG carries HLL_C, FIRST_VALUE_REWRITE carries none |
| `AggregateOperator.OperatorFor` | fe/src/com/baidu/palo/analysis/BuiltinAggregateFunction.java:101-123 | for every opcode tag, the operator it returns carries exactly that tag |
| `AggregateOperator.OpcodeRoundTrip` | fe/src/com/baidu/palo/analysis/BuiltinAggregateFunction.java:101-123 | looking up the opcode of any operator but the marker and inverting it gives the operator back |
| `AggregateOperator.OpcodesDistinct` | fe/src/com/baidu/palo/analysis/BuiltinAggregateFunction.java:101-123 | two distinct operators never carry the same non-null opcode |
| `AggregateOperator.FixedIntermediateTypes` | fe/src/com/baidu/palo/analysis/BuiltinAggregateFunction.java:101-131 | `IntermediateType` is BIGINT exactly for COUNT and COUNT_DISTINCT, varchar(64) exactly for DISTINCT_PC, DISTINCT_PCSA, NDV and HLL_UNION_AGG, varchar(16) exactly for GROUP_CONCAT, and null for all others; each operator with a fixed type has a real opcode |
| `AggregateOperator.DescriptionIsName` | fe/src/com/baidu/palo/analysis/BuiltinAggregateFunction.java:101-142 | `ToString` returns the description, which equals the constant's name exactly when the operator is not COUNT_DISTINCT; COUNT_DISTINCT's is "COUNT_DISITNCT" |
| `AggregateOperator.DescriptionsDistinct` | fe/src/com/baidu/palo/analysis/BuiltinAggregateFunction.java:101-124 | distinct operators have distinct descriptions; the builtin names built from them are distinct too only if `FunctionName.CreateBuiltinName`, which is not part of this model, is injective |
| `BuiltinAggregate.WireId` | fe/src/com/baidu/palo/analysis/BuiltinAggregateFunction.java:76-80 | the id is 0 for FIRST_VALUE_REWRITE; otherwise the opcode exists (no null dereference) and the id is its ordinal |
| `BuiltinAggregate.WireIdsDistinct` | fe/src/com/baidu/palo/analysis/BuiltinAggregateFunction.java:76-80 | for injective ordinals, distinct operators other than the marker get distinct ids |
| `BuiltinAggregate.MarkerIdCollision` | fe/src/com/baidu/palo/analysis/BuiltinAggregateFunction.java:76-80 | an operator other than the marker shares the marker's id exactly when its opcode has ordinal 0 |
| `BuiltinAggregate.ReservedIdShared` | fe/src/com/baidu/palo/analysis/BuiltinAggregateFunction.java:76-80 | if some opcode has ordinal 0, some operator other than the marker gets id 0, and for injective ordinals only the one carrying that opcode |
| `BuiltinAggregate.BuiltinAggregateFunction.constructor` | fe/src/com/baidu/palo/analysis/BuiltinAggregateFunction.java:54-70 | requires a non-null intermediate type; afterwards `Op`, `GetIntermediateType` and `IsAnalyticFn` return the arguments. `IsReqIntermediateTuple` holds iff the function is analytic and the intermediate type structurally differs from the return type. The signature has name `op.ToString()`, no varargs and binary type BUILTIN |
| `BuiltinAggregate.BuiltinAggregateFunction.SetIntermediateType` | fe/src/com/baidu/palo/analysis/BuiltinAggregateFunction.java:93-95 | `GetIntermediateType` returns the new value, which may be null; the flag and everything else are unchanged, so the flag keeps describing the construction-time type |
| `BuiltinAggregate.BuiltinAggregateFunction.ToThrift` | fe/src/com/baidu/palo/analysis/BuiltinAggregateFunction.java:72-83 | succeeds iff the current intermediate type is non-null; the message carries the signature, the id `WireId(op)` and the current intermediate type as the aggregate payload |
| `BuiltinAggregate.RebindScenario` | fe/src/com/baidu/palo/analysis/BuiltinAggregateFunction.java:64-95 | an analytic FIRST_VALUE built over BIGINT and rebound to varchar(64) keeps the flag false although its current types differ. Its projection then carries varchar(64); after rebinding to null the projection faults |
| `BuiltinAggregate.DescriptorExamples` | fe/src/com/baidu/palo/analysis/BuiltinAggregateFunction.java:54-81 | plain COUNT BIGINT/BIGINT: flag false and id = ordinal of COUNT. Analytic FIRST_VALUE with equal types: flag false. Analytic NDV varchar(64)/BIGINT: flag true. FIRST_VALUE_REWRITE: id 0 |
| `AggregateOperator.Operator.Name` | fe/src/com/baidu/palo/analysis/BuiltinAggregateFunction.java:100-124 | the identifier each constant is declared under (Java's implicit `name()`), the reference `DescriptionIsName` compares descriptions with; no contract of its own |
| `AggregateOperator.Operator.ToString` | fe/src/com/baidu/palo/analysis/BuiltinAggregateFunction.java:139-142 | returns the description of lines 101-124; its properties are stated by `DescriptionIsName` and `DescriptionsDistinct` |
| `AggregateOperator.Operator.IntermediateType` | fe/src/com/baidu/palo/analysis/BuiltinAggregateFunction.java:148-150 | returns the fixed intermediate type of lines 101-124, or null when analysis determines it; its properties are stated by `FixedIntermediateTypes` |
| `BuiltinAggregate.RequiresIntermediateTuple` | fe/src/com/baidu/palo/analysis/BuiltinAggregateFunction.java:65 | the flag's condition: analytic and intermediate type structurally unequal to the return type; used by the constructor's contract and `Valid()` |
| `BuiltinAggregate.BuiltinAggregateFunction.Op` | fe/src/com/baidu/palo/analysis/BuiltinAggregateFunction.java:85-87 | returns the stored operator; fixed by the constructor contract |
| `BuiltinAggregate.BuiltinAggregateFunction.IsAnalyticFn` | fe/src/com/baidu/palo/analysis/BuiltinAggregateFunction.java:43-45 | returns the stored analytic flag; fixed by the constructor contract |
| `BuiltinAggregate.BuiltinAggregateFunction.GetIntermediateType` | fe/src/com/baidu/palo/analysis/BuiltinAggregateFunction.java:89-91 | returns the stored intermediate type; fixed by the constructor and `SetIntermediateType` contracts |
| `BuiltinAggregate.BuiltinAggregateFunction.IsReqIntermediateTuple` | fe/src/com/baidu/palo/analysis/BuiltinAggregateFunction.java:50-52 | returns the stored derived flag; fixed by the constructor and `SetIntermediateType` contracts |

## Left out

- The generic `Function` base class: `FunctionName.CreateBuiltinName` and
  the contents of `super.toThrift()` are not part of this model. The
  descriptor keeps the base's data as a `FunctionSignature` record: the
  operator's description as the name, the argument and return types, no
  varargs, and binary type BUILTIN. The projection passes that record
  through unchanged.
- The concrete ordinals of `TAggregationOp`, which come from generated
  Thrift code. Every id-related member takes the ordinal as a parameter,
  and the distinctness lemmas require it to be injective. `TAggregationOp`
  is modelled with only the tags the table names.
- `Type.toThrift()` serialisation: the aggregate payload is the current
  intermediate type itself.
- `Preconditions`/`AnalysisException` mechanics: the null check on the
  intermediate type is a precondition of the constructor.
- BuiltinAggregate.BuiltinAggregateFunction.constructor: does not model a
  null operator, because a datatype value cannot be null. The fault at
  `op.toString()` that would precede the explicit check is left out too.
- A null return type or null argument types: Java passes them to the base
  class unchecked, and with a null return type the flag would equal the
  analytic flag, since `equals(null)` is false. Here those types cannot be
  null, so that case is not modelled.
- The commented-out analysis of the intermediate type, and concurrency
  (the code has none).

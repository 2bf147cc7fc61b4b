/** The part of the catalog type model that the aggregate-function catalog refers to. */
module CatalogTypes {

  /**
   * A catalog type, compared structurally: two varchar types are equal
   * exactly when their lengths are.
   */
  datatype Type =
    | BigInt
    | Varchar(len: int)
    | Other(name: string)
}

/**
 * The Thrift wire structures that a builtin aggregate function is projected
 * into, reduced to the fields this catalog fills in.
 */
module Thrift {
  import opened CatalogTypes

  /**
   * The backend aggregation opcodes that the operator table names. The
   * position of each tag in the generated Thrift enumeration is not part of
   * the model; it is passed around as an `ordinal` function instead.
   */
  datatype TAggregationOp =
    | INVALID | COUNT | MIN | MAX | DISTINCT_PC | DISTINCT_PCSA | SUM
    | GROUP_CONCAT | HLL | HLL_C | COUNT_DISTINCT | SUM_DISTINCT | LAG
    | FIRST_VALUE | LAST_VALUE | RANK | DENSE_RANK | ROW_NUMBER | LEAD

  /** Enumeration ordinals are distinct positions: no two tags share one. */
  ghost predicate Injective(ordinal: TAggregationOp -> nat)
  {
    forall a, b :: ordinal(a) == ordinal(b) ==> a == b
  }

  /** How a function is implemented; builtin aggregates are always BUILTIN. */
  datatype TFunctionBinaryType = BUILTIN

  /**
   * The generic part of a function's wire form: its name, argument and
   * return types, whether it takes variable arguments, and its binary type.
   */
  datatype FunctionSignature = FunctionSignature(
    name: string,
    argTypes: seq<Type>,
    retType: Type,
    hasVarArgs: bool,
    binaryType: TFunctionBinaryType)

  /** The aggregate-specific payload: the intermediate type. */
  datatype TAggregateFunction = TAggregateFunction(intermediateType: Type)

  /** A function as sent to the backend. */
  datatype TFunction = TFunction(
    signature: FunctionSignature,
    id: nat,
    aggregateFn: TAggregateFunction)
}

/**
 * The registry of builtin aggregate and analytic operators: a closed
 * enumeration in which every operator carries a display name, a backend
 * opcode (or none) and a fixed intermediate type (or none, when the
 * accumulator type is only known after analysis).
 */
module AggregateOperator {
  import opened Wrappers
  import opened CatalogTypes
  import Thrift

  datatype Operator =
    | COUNT | MIN | MAX | DISTINCT_PC | DISTINCT_PCSA | SUM | AVG | GROUP_CONCAT
    | NDV | HLL_UNION_AGG | COUNT_DISTINCT | SUM_DISTINCT | LAG | FIRST_VALUE
    | LAST_VALUE | RANK | DENSE_RANK | ROW_NUMBER | LEAD | FIRST_VALUE_REWRITE
  {
    /** The identifier the enumeration constant is declared under. */
    function Name(): string
    {
      match this
      case COUNT => "COUNT"
      case MIN => "MIN"
      case MAX => "MAX"
      case DISTINCT_PC => "DISTINCT_PC"
      case DISTINCT_PCSA => "DISTINCT_PCSA"
      case SUM => "SUM"
      case AVG => "AVG"
      case GROUP_CONCAT => "GROUP_CONCAT"
      case NDV => "NDV"
      case HLL_UNION_AGG => "HLL_UNION_AGG"
      case COUNT_DISTINCT => "COUNT_DISTINCT"
      case SUM_DISTINCT => "SUM_DISTINCT"
      case LAG => "LAG"
      case FIRST_VALUE => "FIRST_VALUE"
      case LAST_VALUE => "LAST_VALUE"
      case RANK => "RANK"
      case DENSE_RANK => "DENSE_RANK"
      case ROW_NUMBER => "ROW_NUMBER"
      case LEAD => "LEAD"
      case FIRST_VALUE_REWRITE => "FIRST_VALUE_REWRITE"
    }

    /**
     * The display name (the enumeration's description field), from which the
     * builtin function name is built.
     */
    function ToString(): string
    {
      match this
      case COUNT => "COUNT"
      case MIN => "MIN"
      case MAX => "MAX"
      case DISTINCT_PC => "DISTINCT_PC"
      case DISTINCT_PCSA => "DISTINCT_PCSA"
      case SUM => "SUM"
      case AVG => "AVG"
      case GROUP_CONCAT => "GROUP_CONCAT"
      case NDV => "NDV"
      case HLL_UNION_AGG => "HLL_UNION_AGG"
      case COUNT_DISTINCT => "COUNT_DISITNCT"
      case SUM_DISTINCT => "SUM_DISTINCT"
      case LAG => "LAG"
      case FIRST_VALUE => "FIRST_VALUE"
      case LAST_VALUE => "LAST_VALUE"
      case RANK => "RANK"
      case DENSE_RANK => "DENSE_RANK"
      case ROW_NUMBER => "ROW_NUMBER"
      case LEAD => "LEAD"
      case FIRST_VALUE_REWRITE => "FIRST_VALUE_REWRITE"
    }

    /**
     * The backend opcode. Only the planner-only rewrite marker has none; AVG,
     * which the backend evaluates by decomposition, carries the INVALID tag.
     */
    function ToThrift(): (r: Option<Thrift.TAggregationOp>)
      ensures r.None? <==> this == FIRST_VALUE_REWRITE
    {
      match this
      case COUNT => Some(Thrift.COUNT)
      case MIN => Some(Thrift.MIN)
      case MAX => Some(Thrift.MAX)
      case DISTINCT_PC => Some(Thrift.DISTINCT_PC)
      case DISTINCT_PCSA => Some(Thrift.DISTINCT_PCSA)
      case SUM => Some(Thrift.SUM)
      case AVG => Some(Thrift.INVALID)
      case GROUP_CONCAT => Some(Thrift.GROUP_CONCAT)
      case NDV => Some(Thrift.HLL)
      case HLL_UNION_AGG => Some(Thrift.HLL_C)
      case COUNT_DISTINCT => Some(Thrift.COUNT_DISTINCT)
      case SUM_DISTINCT => Some(Thrift.SUM_DISTINCT)
      case LAG => Some(Thrift.LAG)
      case FIRST_VALUE => Some(Thrift.FIRST_VALUE)
      case LAST_VALUE => Some(Thrift.LAST_VALUE)
      case RANK => Some(Thrift.RANK)
      case DENSE_RANK => Some(Thrift.DENSE_RANK)
      case ROW_NUMBER => Some(Thrift.ROW_NUMBER)
      case LEAD => Some(Thrift.LEAD)
      case FIRST_VALUE_REWRITE => None
    }

    /**
     * The intermediate type when it does not depend on the input type;
     * `None` when it can only be determined during analysis.
     */
    function IntermediateType(): Option<Type>
    {
      match this
      case COUNT => Some(BigInt)
      case DISTINCT_PC => Some(Varchar(64))
      case DISTINCT_PCSA => Some(Varchar(64))
      case GROUP_CONCAT => Some(Varchar(16))
      case NDV => Some(Varchar(64))
      case HLL_UNION_AGG => Some(Varchar(64))
      case COUNT_DISTINCT => Some(BigInt)
      case _ => None
    }
  }

  /** The operator that carries a given opcode: the inverse of the opcode table. */
  function OperatorFor(t: Thrift.TAggregationOp): (op: Operator)
    ensures op.ToThrift() == Some(t)
  {
    match t
    case INVALID => AVG
    case COUNT => COUNT
    case MIN => MIN
    case MAX => MAX
    case DISTINCT_PC => DISTINCT_PC
    case DISTINCT_PCSA => DISTINCT_PCSA
    case SUM => SUM
    case GROUP_CONCAT => GROUP_CONCAT
    case HLL => NDV
    case HLL_C => HLL_UNION_AGG
    case COUNT_DISTINCT => COUNT_DISTINCT
    case SUM_DISTINCT => SUM_DISTINCT
    case LAG => LAG
    case FIRST_VALUE => FIRST_VALUE
    case LAST_VALUE => LAST_VALUE
    case RANK => RANK
    case DENSE_RANK => DENSE_RANK
    case ROW_NUMBER => ROW_NUMBER
    case LEAD => LEAD
  }

  /** Every opcode in the table is recovered by `OperatorFor`. */
  lemma OpcodeRoundTrip(op: Operator)
    requires op != FIRST_VALUE_REWRITE
    ensures OperatorFor(op.ToThrift().value) == op
  {
  }

  /** No two operators share a (non-null) opcode. */
  lemma OpcodesDistinct(a: Operator, b: Operator)
    requires a != b
    ensures a.ToThrift().None? || a.ToThrift() != b.ToThrift()
  {
    if a != FIRST_VALUE_REWRITE && b != FIRST_VALUE_REWRITE {
      OpcodeRoundTrip(a);
      OpcodeRoundTrip(b);
    }
  }

  /** Which opcodes the notable operators carry: AVG is INVALID, not null. */
  lemma NotableOpcodes()
    ensures AVG.ToThrift() == Some(Thrift.INVALID)
    ensures NDV.ToThrift() == Some(Thrift.HLL)
    ensures HLL_UNION_AGG.ToThrift() == Some(Thrift.HLL_C)
    ensures FIRST_VALUE_REWRITE.ToThrift() == None
  {
  }

  /**
   * The fixed intermediate types, grouped by type: 64-bit integer for the
   * counting operators, varchar(64) for the distinct-count estimators,
   * varchar(16) for GROUP_CONCAT, and none for every other operator. Every
   * operator with a fixed intermediate type has a real backend opcode.
   */
  lemma FixedIntermediateTypes(op: Operator)
    ensures op.IntermediateType() == Some(BigInt) <==> op in {COUNT, COUNT_DISTINCT}
    ensures (op.IntermediateType() == Some(Varchar(64))) ==
            (op in {DISTINCT_PC, DISTINCT_PCSA, NDV, HLL_UNION_AGG})
    ensures op.IntermediateType() == Some(Varchar(16)) <==> op == GROUP_CONCAT
    ensures op.IntermediateType().None? ==
            (op !in {COUNT, COUNT_DISTINCT, DISTINCT_PC, DISTINCT_PCSA, NDV, HLL_UNION_AGG, GROUP_CONCAT})
    ensures op.IntermediateType().Some? ==> op.ToThrift().Some? && op.ToThrift() != Some(Thrift.INVALID)
  {
  }

  /**
   * The display name is the constant's own identifier for every operator
   * except COUNT_DISTINCT, whose description is spelled "COUNT_DISITNCT".
   */
  lemma DescriptionIsName(op: Operator)
    ensures op.ToString() == op.Name() <==> op != COUNT_DISTINCT
    ensures COUNT_DISTINCT.ToString() == "COUNT_DISITNCT"
  {
  }

  /** Distinct operators have distinct display names. */
  lemma DescriptionsDistinct(a: Operator, b: Operator)
    requires a != b
    ensures a.ToString() != b.ToString()
  {
  }
}

/**
 * The descriptor of one resolved use of a builtin aggregate or analytic
 * operator, and its projection into the backend's wire form.
 */
module BuiltinAggregate {
  import opened Wrappers
  import opened CatalogTypes
  import opened Thrift
  import AggregateOperator

  type Operator = AggregateOperator.Operator

  /**
   * The backend function id of an operator: 0 for the planner-only rewrite
   * marker, which has no opcode, and otherwise the ordinal of its opcode.
   * The opcode is only looked up when it exists.
   */
  function WireId(op: Operator, ordinal: TAggregationOp -> nat): (id: nat)
    ensures op == AggregateOperator.FIRST_VALUE_REWRITE ==> id == 0
    ensures op != AggregateOperator.FIRST_VALUE_REWRITE ==> op.ToThrift().Some?
    ensures op != AggregateOperator.FIRST_VALUE_REWRITE ==> id == ordinal(op.ToThrift().value)
  {
    if op == AggregateOperator.FIRST_VALUE_REWRITE then 0 else ordinal(op.ToThrift().value)
  }

  /** Two distinct operators other than the rewrite marker never share a wire id. */
  lemma WireIdsDistinct(a: Operator, b: Operator, ordinal: TAggregationOp -> nat)
    requires Injective(ordinal)
    requires a != b
    requires a != AggregateOperator.FIRST_VALUE_REWRITE && b != AggregateOperator.FIRST_VALUE_REWRITE
    ensures WireId(a, ordinal) != WireId(b, ordinal)
  {
    AggregateOperator.OpcodesDistinct(a, b);
  }

  /**
   * The reserved id 0 of the rewrite marker is shared by another operator
   * exactly when that operator's opcode is the first constant of the
   * opcode enumeration.
   */
  lemma MarkerIdCollision(op: Operator, ordinal: TAggregationOp -> nat)
    requires op != AggregateOperator.FIRST_VALUE_REWRITE
    ensures WireId(op, ordinal) == WireId(AggregateOperator.FIRST_VALUE_REWRITE, ordinal)
            <==> ordinal(op.ToThrift().value) == 0
  {
  }

  /**
   * Every Java enumeration has a constant of ordinal 0. If that constant is
   * one of the opcodes in the table, the operator carrying it, and no other,
   * shares the literal id 0 of the rewrite marker.
   */
  lemma ReservedIdShared(ordinal: TAggregationOp -> nat, first: TAggregationOp)
    requires Injective(ordinal)
    requires ordinal(first) == 0
    ensures exists op: Operator :: op != AggregateOperator.FIRST_VALUE_REWRITE
              && WireId(op, ordinal) == WireId(AggregateOperator.FIRST_VALUE_REWRITE, ordinal)
    ensures forall op: Operator ::
              (op != AggregateOperator.FIRST_VALUE_REWRITE && WireId(op, ordinal) == 0)
              ==> op == AggregateOperator.OperatorFor(first)
  {
    var sharer := AggregateOperator.OperatorFor(first);
    assert sharer != AggregateOperator.FIRST_VALUE_REWRITE && WireId(sharer, ordinal) == 0;
    forall op: Operator | op != AggregateOperator.FIRST_VALUE_REWRITE && WireId(op, ordinal) == 0
      ensures op == sharer
    {
      AggregateOperator.OpcodeRoundTrip(op);
    }
  }

  /** The definition of the flag saying that analytic evaluation needs its own intermediate tuple. */
  function RequiresIntermediateTuple(isAnalyticFn: bool, intermediateType: Type, retType: Type): bool
  {
    isAnalyticFn && intermediateType != retType
  }

  /** Raised when the wire projection meets a null intermediate type. */
  datatype ThriftFault = NullIntermediateType

  class BuiltinAggregateFunction {
    /** What the generic function base holds: name, argument and return types, binary type. */
    const signature: FunctionSignature
    const fnOp: Operator
    const analytic: bool
    var intermediate: Option<Type>
    var reqIntermediateTuple: bool
    /** The intermediate type the descriptor was constructed with. */
    ghost const constructionIntermediate: Type

    /** The derived flag describes the construction-time intermediate type. */
    ghost predicate Valid()
      reads this
    {
      reqIntermediateTuple
        == RequiresIntermediateTuple(analytic, constructionIntermediate, signature.retType)
    }

    constructor (op: Operator, argTypes: seq<Type>, retType: Type,
                 intermediateType: Option<Type>, isAnalyticFn: bool)
      requires intermediateType.Some?
      ensures Valid()
      ensures signature == FunctionSignature(op.ToString(), argTypes, retType, false, BUILTIN)
      ensures Op() == op && GetIntermediateType() == intermediateType
      ensures IsAnalyticFn() == isAnalyticFn
      ensures constructionIntermediate == intermediateType.value
      ensures IsReqIntermediateTuple() <==> isAnalyticFn && intermediateType.value != retType
    {
      signature := FunctionSignature(op.ToString(), argTypes, retType, false, BUILTIN);
      fnOp := op;
      intermediate := intermediateType;
      constructionIntermediate := intermediateType.value;
      reqIntermediateTuple := false;
      if isAnalyticFn && intermediateType.value != retType {
        reqIntermediateTuple := true;
      }
      analytic := isAnalyticFn;
    }

    function Op(): Operator
    {
      fnOp
    }

    function IsAnalyticFn(): bool
    {
      analytic
    }

    function GetIntermediateType(): Option<Type>
      reads this
    {
      intermediate
    }

    function IsReqIntermediateTuple(): bool
      reads this
    {
      reqIntermediateTuple
    }

    /**
     * Rebinds the intermediate type, without a null check and without
     * recomputing the derived flag, which keeps describing the
     * construction-time type.
     */
    method SetIntermediateType(t: Option<Type>)
      requires Valid()
      modifies this
      ensures Valid()
      ensures GetIntermediateType() == t
      ensures IsReqIntermediateTuple() == old(IsReqIntermediateTuple())
    {
      intermediate := t;
    }

    /**
     * The wire form: the generic signature, the operator's wire id, and the
     * current intermediate type as the aggregate payload. A null
     * intermediate type, which only the setter can introduce, faults.
     */
    function ToThrift(ordinal: TAggregationOp -> nat): (r: Result<TFunction, ThriftFault>)
      reads this
      ensures r.Success? <==> GetIntermediateType().Some?
      ensures r.Success? ==> r.value.signature == signature
      ensures r.Success? ==> r.value.id == WireId(Op(), ordinal)
      ensures r.Success? ==> r.value.aggregateFn.intermediateType == GetIntermediateType().value
    {
      match intermediate
      case None => Failure(NullIntermediateType)
      case Some(t) => Success(TFunction(signature, WireId(fnOp, ordinal), TAggregateFunction(t)))
    }
  }

  /**
   * A descriptor built as an analytic FIRST_VALUE over BIGINT and then
   * rebound to varchar(64): the flag stays false although the current types
   * differ, and the projection carries the new type; rebinding to null makes
   * the projection fault.
   */
  method RebindScenario(ordinal: TAggregationOp -> nat)
    returns (flagAfter: bool, recomputed: bool, payload: Type, faultAfterNull: bool)
    ensures !flagAfter && recomputed
    ensures payload == Varchar(64)
    ensures faultAfterNull
  {
    var d := new BuiltinAggregateFunction(AggregateOperator.FIRST_VALUE, [BigInt], BigInt,
                                          Some(BigInt), true);
    d.SetIntermediateType(Some(Varchar(64)));
    flagAfter := d.IsReqIntermediateTuple();
    recomputed := RequiresIntermediateTuple(d.IsAnalyticFn(), d.GetIntermediateType().value,
                                            d.signature.retType);
    var wire := d.ToThrift(ordinal);
    payload := wire.value.aggregateFn.intermediateType;
    d.SetIntermediateType(None);
    faultAfterNull := d.ToThrift(ordinal).Failure?;
  }

  /**
   * The descriptors of three typical calls: a plain COUNT over BIGINT, an
   * analytic FIRST_VALUE whose intermediate and return types agree, and an
   * analytic NDV with a varchar(64) accumulator and a BIGINT result.
   */
  method DescriptorExamples(ordinal: TAggregationOp -> nat)
    returns (countFlag: bool, countId: nat, firstValueFlag: bool, ndvFlag: bool, rewriteId: nat)
    ensures !countFlag && countId == ordinal(Thrift.COUNT)
    ensures !firstValueFlag
    ensures ndvFlag
    ensures rewriteId == 0
  {
    var count := new BuiltinAggregateFunction(AggregateOperator.COUNT, [], BigInt, Some(BigInt), false);
    countFlag := count.IsReqIntermediateTuple();
    countId := count.ToThrift(ordinal).value.id;
    var first := new BuiltinAggregateFunction(AggregateOperator.FIRST_VALUE, [Varchar(10)],
                                              Varchar(10), Some(Varchar(10)), true);
    firstValueFlag := first.IsReqIntermediateTuple();
    var ndv := new BuiltinAggregateFunction(AggregateOperator.NDV, [Varchar(10)], BigInt,
                                            Some(Varchar(64)), true);
    ndvFlag := ndv.IsReqIntermediateTuple();
    var rewrite := new BuiltinAggregateFunction(AggregateOperator.FIRST_VALUE_REWRITE, [BigInt],
                                                BigInt, Some(BigInt), true);
    rewriteId := rewrite.ToThrift(ordinal).value.id;
  }
}

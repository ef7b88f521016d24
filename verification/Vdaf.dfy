/** The parameters of a training session and their translation to a Janus VDAF instance. */
module Vdaf {
  import opened Wrappers
  import opened FixedPoint

  /** The zCDP budget, an opaque rational. */
  datatype Budget = Budget(numerator: nat, denominator: nat)

  datatype VdafParameter = VdafParameter(gradientLen: nat, privacy: Budget, submissionType: FixedTypeTag)

  datatype BitSize = BitSize16 | BitSize32

  datatype DpStrategy = ZCdpDiscreteGaussian(deviation: real)

  datatype VdafInstance =
    Prio3FixedPointBoundedL2VecSum(length: nat, bitsize: BitSize, dpStrategy: DpStrategy)

  datatype TokenHash = TokenHash(digest: Bytes)

  /** The library functions the handlers call, with nothing assumed about them: the budget
      translation, token hashing, the bearer token syntax check, the bytes of a string, and the
      checks made when an aggregator task is built. */
  datatype Lib = Lib(
    fromBudget: Budget -> DpStrategy,
    hash: Bytes -> TokenHash,
    bearerOk: Bytes -> bool,
    utf8: string -> Bytes,
    taskOk: (VdafInstance, Bytes) -> bool)

  function ToVdafInstance(lib: Lib, p: VdafParameter): (v: VdafInstance)
  {
    var bitsize := match p.submissionType
      case FixedType16Bit => BitSize16
      case FixedType32Bit => BitSize32;
    Prio3FixedPointBoundedL2VecSum(p.gradientLen, bitsize, lib.fromBudget(p.privacy))
  }

  /** `v` is the instance for parameter `p`: its length, its width, and the noise that spends its budget. */
  predicate InstanceFor(lib: Lib, v: VdafInstance, p: VdafParameter)
  {
    && v.length == p.gradientLen
    && v.bitsize == (if p.submissionType == FixedType16Bit then BitSize16 else BitSize32)
    && v.dpStrategy == lib.fromBudget(p.privacy)
  }

  /** The translation yields that instance and no other. */
  lemma InstanceMeans(lib: Lib, p: VdafParameter, v: VdafInstance)
    ensures v == ToVdafInstance(lib, p) <==> InstanceFor(lib, v, p)
  {
  }

  ghost predicate BudgetInjective(lib: Lib)
  {
    forall a, b :: lib.fromBudget(a) == lib.fromBudget(b) ==> a == b
  }

  /** The VDAF instance determines the whole parameter exactly as far as the library's budget
      translation does. */
  lemma InstanceDeterminesParameter(lib: Lib, p: VdafParameter, q: VdafParameter)
    ensures ToVdafInstance(lib, p) == ToVdafInstance(lib, q)
       <==> p.gradientLen == q.gradientLen && p.submissionType == q.submissionType
            && lib.fromBudget(p.privacy) == lib.fromBudget(q.privacy)
    ensures BudgetInjective(lib) && ToVdafInstance(lib, p) == ToVdafInstance(lib, q) ==> p == q
  {
  }

  /** What a measurement must look like to be aggregated under `v`. */
  predicate FitsInstance(data: VecFixedAny, v: VdafInstance)
  {
    && data.Length() == v.length
    && (data.Tag() == FixedType16Bit <==> v.bitsize == BitSize16)
  }

  /** Exactly the vectors of the instance's length, in the element type of its width, fit. */
  lemma FitsExactly(v: VdafInstance, v16: seq<Bits16>, v32: seq<Bits32>)
    ensures FitsInstance(VecFixed16(v16), v) <==> |v16| == v.length && v.bitsize == BitSize16
    ensures FitsInstance(VecFixed32(v32), v) <==> |v32| == v.length && v.bitsize == BitSize32
  {
  }
}

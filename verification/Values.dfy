/** HUGR types and values, the LLVM values that represent them, and the encoding between the two. */
module Values {

  datatype Option<+T> = None | Some(value: T)

  type NodeId = nat

  /** HUGR types.  `Var` stands for everything that no mapping can lower (type variables, aliases). */
  datatype Ty =
    | Custom(extension: string, name: string, arg: nat)
    | Arr(size: nat, elem: Ty)
    | Sum(rows: seq<Row>)
    | Func(ins: seq<Ty>, outs: seq<Ty>)
    | Var(index: nat)

  datatype Row = Row(tys: seq<Ty>)

  const Usize := Custom("prelude", "usize", 0)

  /** HUGR values.  Values of custom types carry their type; a sum value carries its sum type, as constants do in the
      HUGR. */
  datatype Val =
    | Prim(ty: Ty, n: int)
    | ArrV(elems: seq<Val>)
    | SumV(tag: nat, vals: seq<Val>, rows: seq<Row>)
    | FunV(f: NodeId)

  /** LLVM first-class values.  `Poison` and `Undef` inhabit every LLVM type.  A pointer is an offset into one of the
      arrays its function has allocated. */
  datatype LVal =
    | LPrim(ty: Ty, n: int)
    | LInt(n: int)
    | LBit(b: bool)
    | LStruct(fields: seq<LVal>)
    | LArr(elems: seq<LVal>)
    | LPtr(arr: nat, off: nat)
    | LFn(f: NodeId)
    | Poison
    | Undef

  // ----- layout of sums -----

  predicate HasTagField(rows: seq<Row>) {
    |rows| >= 2
  }

  function VariantFieldIndex(rows: seq<Row>, tag: nat): nat {
    tag + if HasTagField(rows) then 1 else 0
  }

  /** `poison` of the struct type of a sum: one field per variant, after the tag field if there is one. */
  function PoisonSum(rows: seq<Row>): LVal {
    LStruct(seq(VariantFieldIndex(rows, |rows|), _ => Poison))
  }

  /** The struct an encoded sum is, once the fields of the active variant are known. */
  function SumStruct(rows: seq<Row>, tag: nat, fields: seq<LVal>): LVal
    requires tag < |rows|
  {
    LStruct((if HasTagField(rows) then [LInt(tag)] else [])
            + seq(|rows|, i => if i == tag then LStruct(fields) else Poison))
  }

  /** A sum with one variant is a struct of the struct of its fields; with more, the tag comes first, and all
      variants but the active one are poison. */
  ghost predicate LaidOut(n: nat, tag: nat, fields: seq<LVal>, v: LVal) {
    && (n == 1 ==> v == LStruct([LStruct(fields)]))
    && (n >= 2 ==>
          && v.LStruct? && |v.fields| == n + 1 && v.fields[0] == LInt(tag)
          && forall i :: 1 <= i <= n ==> v.fields[i] == if i == tag + 1 then LStruct(fields) else Poison)
  }

  lemma SumIsLaidOut(rows: seq<Row>, tag: nat, fields: seq<LVal>)
    requires tag < |rows|
    ensures LaidOut(|rows|, tag, fields, SumStruct(rows, tag, fields))
  {
  }

  // ----- encoding -----

  /** The LLVM representation of a HUGR value. */
  function Enc(v: Val): LVal
    decreases v, 1
  {
    match v
    case Prim(ty, n) => LPrim(ty, n)
    case ArrV(elems) => LArr(EncAll(elems))
    case FunV(f) => LFn(f)
    case SumV(tag, vals, rows) =>
      if tag < |rows| then SumStruct(rows, tag, EncAll(vals)) else Undef
  }

  function EncAll(vs: seq<Val>): (ls: seq<LVal>)
    ensures |ls| == |vs|
    ensures forall i :: 0 <= i < |vs| ==> ls[i] == Enc(vs[i])
    decreases vs, 0
  {
    if vs == [] then [] else [Enc(vs[0])] + EncAll(vs[1..])
  }

  lemma EncAllConcat(a: seq<Val>, b: seq<Val>)
    ensures EncAll(a + b) == EncAll(a) + EncAll(b)
  {
  }

  /** How the value of a sum is represented; the tag field is left out exactly when there is one variant. */
  lemma EncodedSum(tag: nat, vals: seq<Val>, rows: seq<Row>)
    requires tag < |rows|
    ensures LaidOut(|rows|, tag, EncAll(vals), Enc(SumV(tag, vals, rows)))
    ensures |rows| == 1 ==> Enc(SumV(0, vals, rows)) == LStruct([LStruct(EncAll(vals))])
  {
    SumIsLaidOut(rows, tag, EncAll(vals));
  }
}

/** The translation of HUGR types to LLVM types, by registered callbacks and the layout of sums and functions. */
module Types {
  import opened Values
  import opened Hugr
  import opened Typing

  datatype LTy =
    | I32
    | StructTy(fields: seq<LTy>)
    | ArrayTy(size: nat, elem: LTy)
    | FnPtr(f: FnTy)
    | CustomTy(id: nat)

  /** A function returns nothing, one value, or a struct. */
  datatype FnTy = FnTy(params: seq<LTy>, ret: Option<LTy>)

  type Key = (string, string)
  type Hook = Ty -> Option<LTy>
  type Hooks = map<Key, Hook>

  /** The prelude registers a callback for arrays, which maps the type of the elements. */
  const ArrayKey := ("prelude", "array")

  // ----- the translation -----

  function MapType(hooks: Hooks, ty: Ty): Option<LTy>
    decreases ty, 1
  {
    match ty
    case Custom(ext, name, _) => if (ext, name) in hooks then hooks[(ext, name)](ty) else None
    case Arr(size, elem) =>
      if ArrayKey !in hooks then None else
      (match MapType(hooks, elem) case Some(t) => Some(ArrayTy(size, t)) case None => None)
    case Sum(rows) => MapSumType(hooks, rows)
    case Func(ins, outs) => (match MapFunctionType(hooks, ins, outs) case Some(f) => Some(FnPtr(f)) case None => None)
    case Var(_) => None
  }

  function MapTypes(hooks: Hooks, tys: seq<Ty>): (r: Option<seq<LTy>>)
    ensures r.Some? ==> |r.value| == |tys|
    decreases tys, 0
  {
    if tys == [] then Some([]) else
    match (MapType(hooks, tys[0]), MapTypes(hooks, tys[1..]))
    case (Some(t), Some(ts)) => Some([t] + ts)
    case _ => None
  }

  function MapRows(hooks: Hooks, rows: seq<Row>): (r: Option<seq<seq<LTy>>>)
    ensures r.Some? ==> |r.value| == |rows|
    decreases rows, 0
  {
    if rows == [] then Some([]) else
    match (MapTypes(hooks, rows[0].tys), MapRows(hooks, rows[1..]))
    case (Some(ts), Some(rs)) => Some([ts] + rs)
    case _ => None
  }

  /** The struct of a sum, from the types of the fields of each variant. */
  function TryNew2(variants: seq<seq<LTy>>, rows: seq<Row>): LTy {
    StructTy((if HasTagField(rows) then [I32] else [])
             + seq(|variants|, i requires 0 <= i < |variants| => StructTy(variants[i])))
  }

  function MapSumType(hooks: Hooks, rows: seq<Row>): Option<LTy>
    decreases rows, 1
  {
    match MapRows(hooks, rows) case Some(vs) => Some(TryNew2(vs, rows)) case None => None
  }

  function FunctionType(ins: seq<LTy>, outs: seq<LTy>): FnTy {
    FnTy(ins, if |outs| == 0 then None else if |outs| == 1 then Some(outs[0]) else Some(StructTy(outs)))
  }

  function MapFunctionType(hooks: Hooks, ins: seq<Ty>, outs: seq<Ty>): Option<FnTy>
    decreases Func(ins, outs), 0
  {
    match (MapTypes(hooks, ins), MapTypes(hooks, outs))
    case (Some(a), Some(b)) => Some(FunctionType(a, b))
    case _ => None
  }

  // ----- callbacks -----

  class TypeMap {
    var customHooks: Hooks

    constructor ()
      ensures customHooks == map[]
    {
      customHooks := map[];
    }

    /** Returns whether no callback was replaced. */
    method SetCallback(key: Key, hook: Hook) returns (added: bool)
      modifies this
      ensures customHooks == old(customHooks)[key := hook] && (added <==> key !in old(customHooks))
    {
      added := key !in customHooks;
      customHooks := customHooks[key := hook];
    }
  }

  // ----- what emission asks for -----

  /** What the emission of a function may need: the LLVM type of a HUGR type, or the handler of an extension op or of
      constants of a custom type. */
  datatype Need = NeedType(ty: Ty) | NeedOp(op: nat) | NeedConst(ty: Ty)

  /** All that is registered for code generation. */
  datatype Codegen = Codegen(types: Hooks, ops: set<nat>, consts: set<Ty>)

  predicate Met(cg: Codegen, n: Need) {
    match n
    case NeedType(ty) => MapType(cg.types, ty).Some?
    case NeedOp(op) => op in cg.ops
    case NeedConst(ty) => ty in cg.consts
  }

  predicate AllMet(cg: Codegen, needs: set<Need>) {
    forall n :: n in needs ==> Met(cg, n)
  }

  // ----- the other way to a sum type -----

  /** The variants of a sum from `i` on, each fetched by its index. */
  function VariantTypes(hooks: Hooks, rows: seq<Row>, i: nat): Option<seq<seq<LTy>>>
    requires i <= |rows|
    decreases |rows| - i
  {
    if i == |rows| then Some([]) else
    match (MapTypes(hooks, rows[i].tys), VariantTypes(hooks, rows, i + 1))
    case (Some(ts), Some(rs)) => Some([ts] + rs)
    case _ => None
  }

  function TryNew(hooks: Hooks, rows: seq<Row>): Option<LTy> {
    match VariantTypes(hooks, rows, 0) case Some(vs) => Some(TryNew2(vs, rows)) case None => None
  }

  lemma {:induction false} VariantsAreRows(hooks: Hooks, rows: seq<Row>, i: nat)
    requires i <= |rows|
    ensures VariantTypes(hooks, rows, i) == MapRows(hooks, rows[i..])
    decreases |rows| - i
  {
    if i < |rows| {
      assert rows[i..][0] == rows[i] && rows[i..][1..] == rows[i + 1..];
      VariantsAreRows(hooks, rows, i + 1);
    }
  }

  /** The two ways to build the type of a sum agree, also on failing. */
  lemma SumTypesAgree(hooks: Hooks, rows: seq<Row>)
    ensures TryNew(hooks, rows) == MapSumType(hooks, rows) == MapType(hooks, Sum(rows))
  {
    VariantsAreRows(hooks, rows, 0);
    assert rows[0..] == rows;
  }

  /** The struct type of a sum: a struct of field types per variant, and in front of them a 32-bit tag if, and only if,
      there are two variants or more. */
  lemma SumLayout(hooks: Hooks, rows: seq<Row>)
    requires MapType(hooks, Sum(rows)).Some?
    ensures var t := MapType(hooks, Sum(rows)).value;
      && t.StructTy? && |t.fields| == |rows| + (if |rows| <= 1 then 0 else 1)
      && (|rows| >= 2 ==> t.fields[0] == I32)
      && forall i :: 0 <= i < |rows| ==>
           && MapTypes(hooks, rows[i].tys).Some?
           && t.fields[if |rows| <= 1 then i else i + 1] == StructTy(MapTypes(hooks, rows[i].tys).value)
  {
    hide MapRows, MapTypes;
    var t, vs := MapType(hooks, Sum(rows)).value, MapRows(hooks, rows).value;
    assert t == TryNew2(vs, rows);
    forall i | 0 <= i < |rows| ensures MapTypes(hooks, rows[i].tys) == Some(vs[i]) {
      MapRowsAt(hooks, rows, i);
    }
  }

  // ----- what can be translated -----

  /** A type can be translated when all its parts are sums, functions, arrays, or custom types whose callbacks accept
      them. */
  predicate Lowers(hooks: Hooks, ty: Ty)
    decreases ty, 1
  {
    match ty
    case Custom(ext, name, _) => (ext, name) in hooks && hooks[(ext, name)](ty).Some?
    case Arr(_, elem) => ArrayKey in hooks && Lowers(hooks, elem)
    case Sum(rows) => forall i :: 0 <= i < |rows| ==> AllLower(hooks, rows[i].tys)
    case Func(ins, outs) => AllLower(hooks, ins) && AllLower(hooks, outs)
    case Var(_) => false
  }

  predicate AllLower(hooks: Hooks, tys: seq<Ty>)
    decreases tys, 0
  {
    forall i :: 0 <= i < |tys| ==> Lowers(hooks, tys[i])
  }

  lemma {:induction false} MapsIffLowers(hooks: Hooks, ty: Ty)
    ensures MapType(hooks, ty).Some? <==> Lowers(hooks, ty)
    decreases ty, 1
  {
    match ty {
      case Custom(_, _, _) =>
      case Arr(_, elem) => MapsIffLowers(hooks, elem);
      case Sum(rows) => RowsMapIffLower(hooks, rows);
      case Func(ins, outs) =>
        TypesMapIffLower(hooks, ins);
        TypesMapIffLower(hooks, outs);
      case Var(_) =>
    }
  }

  lemma {:induction false} TypesMapIffLower(hooks: Hooks, tys: seq<Ty>)
    ensures MapTypes(hooks, tys).Some? <==> AllLower(hooks, tys)
    decreases tys, 0
  {
    if tys != [] {
      MapsIffLowers(hooks, tys[0]);
      TypesMapIffLower(hooks, tys[1..]);
      forall i | 0 <= i < |tys[1..]| ensures tys[1..][i] == tys[i + 1] {}
      assert AllLower(hooks, tys) <==> Lowers(hooks, tys[0]) && AllLower(hooks, tys[1..]) by {
        if Lowers(hooks, tys[0]) && AllLower(hooks, tys[1..]) {
          forall i | 0 <= i < |tys| ensures Lowers(hooks, tys[i]) {
            if i > 0 { assert tys[i] == tys[1..][i - 1]; }
          }
        }
      }
    }
  }

  lemma {:induction false} RowsMapIffLower(hooks: Hooks, rows: seq<Row>)
    ensures MapRows(hooks, rows).Some? <==> forall i :: 0 <= i < |rows| ==> AllLower(hooks, rows[i].tys)
    decreases rows, 0
  {
    if rows != [] {
      TypesMapIffLower(hooks, rows[0].tys);
      RowsMapIffLower(hooks, rows[1..]);
      forall i | 0 <= i < |rows[1..]| ensures rows[1..][i] == rows[i + 1] {}
      if AllLower(hooks, rows[0].tys) && forall i :: 0 <= i < |rows[1..]| ==> AllLower(hooks, rows[1..][i].tys) {
        forall i | 0 <= i < |rows| ensures AllLower(hooks, rows[i].tys) {
          if i > 0 { assert rows[i] == rows[1..][i - 1]; }
        }
      }
    }
  }

  // ----- registering callbacks -----

  /** Translating a type involves the callback of `key`. */
  predicate Mentions(ty: Ty, key: Key)
    decreases ty, 1
  {
    match ty
    case Custom(ext, name, _) => (ext, name) == key
    case Arr(_, elem) => key == ArrayKey || Mentions(elem, key)
    case Sum(rows) => exists i :: 0 <= i < |rows| && AnyMentions(rows[i].tys, key)
    case Func(ins, outs) => AnyMentions(ins, key) || AnyMentions(outs, key)
    case Var(_) => false
  }

  predicate AnyMentions(tys: seq<Ty>, key: Key)
    decreases tys, 0
  {
    exists i :: 0 <= i < |tys| && Mentions(tys[i], key)
  }

  /** A custom type is what its own callback makes of it, and nothing if there is none; a type that does not mention a
      callback does not change when that callback is registered. */
  lemma {:induction false} CallbackDecides(hooks: Hooks, key: Key, hook: Hook, ty: Ty)
    ensures ty.Custom? && (ty.extension, ty.name) == key ==>
              && MapType(hooks[key := hook], ty) == hook(ty)
              && (key !in hooks ==> MapType(hooks, ty) == None)
    ensures !Mentions(ty, key) ==> MapType(hooks[key := hook], ty) == MapType(hooks, ty)
    decreases ty, 1
  {
    if !Mentions(ty, key) {
      match ty {
        case Custom(_, _, _) =>
        case Arr(_, elem) => CallbackDecides(hooks, key, hook, elem);
        case Sum(rows) => RowsUnchanged(hooks, key, hook, rows);
        case Func(ins, outs) =>
          TypesUnchanged(hooks, key, hook, ins);
          TypesUnchanged(hooks, key, hook, outs);
        case Var(_) =>
      }
    }
  }

  lemma {:induction false} TypesUnchanged(hooks: Hooks, key: Key, hook: Hook, tys: seq<Ty>)
    requires !AnyMentions(tys, key)
    ensures MapTypes(hooks[key := hook], tys) == MapTypes(hooks, tys)
    decreases tys, 0
  {
    if tys != [] {
      CallbackDecides(hooks, key, hook, tys[0]);
      forall i | 0 <= i < |tys[1..]| ensures !Mentions(tys[1..][i], key) { assert tys[1..][i] == tys[i + 1]; }
      TypesUnchanged(hooks, key, hook, tys[1..]);
    }
  }

  lemma {:induction false} RowsUnchanged(hooks: Hooks, key: Key, hook: Hook, rows: seq<Row>)
    requires forall i :: 0 <= i < |rows| ==> !AnyMentions(rows[i].tys, key)
    ensures MapRows(hooks[key := hook], rows) == MapRows(hooks, rows)
    decreases rows, 0
  {
    if rows != [] {
      TypesUnchanged(hooks, key, hook, rows[0].tys);
      forall i | 0 <= i < |rows[1..]| ensures !AnyMentions(rows[1..][i].tys, key) {
        assert rows[1..][i] == rows[i + 1];
      }
      RowsUnchanged(hooks, key, hook, rows[1..]);
    }
  }

  // ----- signatures -----

  /** A function type takes one parameter per input, of its type and in order, and returns nothing, the one output,
      or the struct of all outputs. */
  ghost predicate SignedAs(hooks: Hooks, t: FnTy, ins: seq<Ty>, outs: seq<Ty>) {
    && |t.params| == |ins| && (forall i :: 0 <= i < |ins| ==> MapType(hooks, ins[i]) == Some(t.params[i]))
    && (|outs| == 0 ==> t.ret == None)
    && (|outs| == 1 ==> t.ret.Some? && MapType(hooks, outs[0]) == t.ret)
    && (|outs| >= 2 ==>
          && t.ret.Some? && t.ret.value.StructTy? && |t.ret.value.fields| == |outs|
          && forall i :: 0 <= i < |outs| ==> MapType(hooks, outs[i]) == Some(t.ret.value.fields[i]))
  }

  lemma FunctionTypeSigned(hooks: Hooks, ins: seq<Ty>, outs: seq<Ty>)
    requires MapFunctionType(hooks, ins, outs).Some?
    ensures SignedAs(hooks, MapFunctionType(hooks, ins, outs).value, ins, outs)
  {
    hide MapType, MapTypes;
    forall i | 0 <= i < |ins| ensures MapType(hooks, ins[i]) == Some(MapTypes(hooks, ins).value[i]) {
      MapTypesAt(hooks, ins, i);
    }
    forall i | 0 <= i < |outs| ensures MapType(hooks, outs[i]) == Some(MapTypes(hooks, outs).value[i]) {
      MapTypesAt(hooks, outs, i);
    }
  }

  // ----- values have the types of their mailboxes -----

  /** The types an LLVM value inhabits.  Poison and undef inhabit every type; the values that the handler of a custom
      type makes inhabit the type its own callback gives. */
  ghost predicate HasLTy(w: World, hooks: Hooks, v: LVal, t: LTy)
    decreases v
  {
    match v
    case Poison => true
    case Undef => true
    case LPrim(ty, _) => ty.Custom? && MapType(hooks, ty) == Some(t)
    case LBit(_) => false
    case LPtr(_, _) => false
    case LArr(elems) =>
      t.ArrayTy? && t.size == |elems| && forall i :: 0 <= i < |elems| ==> HasLTy(w, hooks, elems[i], t.elem)
    case LInt(n) => t == I32 && 0 <= n < 0x1_0000_0000
    case LFn(f) => HasSig(w, f) && t.FnPtr? && MapFunctionType(hooks, SigIns(w, f), SigOuts(w, f)) == Some(t.f)
    case LStruct(fields) =>
      t.StructTy? && |t.fields| == |fields| && forall i :: 0 <= i < |fields| ==>
        HasLTy(w, hooks, fields[i], t.fields[i])
  }

  /** Tags fit the tag field. */
  predicate SmallSums(v: Val)
    decreases v
  {
    && (v.SumV? ==> |v.rows| < 0xFFFF_FFFF && forall i :: 0 <= i < |v.vals| ==> SmallSums(v.vals[i]))
    && (v.ArrV? ==> forall i :: 0 <= i < |v.elems| ==> SmallSums(v.elems[i]))
  }

  /** No sum in the type has more variants than the tag can tell apart. */
  predicate SmallTy(ty: Ty)
    decreases ty
  {
    match ty
    case Sum(rows) =>
      && |rows| < 0xFFFF_FFFF
      && forall i :: 0 <= i < |rows| ==> forall j :: 0 <= j < |rows[i].tys| ==> SmallTy(rows[i].tys[j])
    case Arr(_, elem) => SmallTy(elem)
    case _ => true
  }

  lemma {:induction false} SmallVal(w: World, v: Val, ty: Ty)
    requires HasTy(w, v, ty) && SmallTy(ty)
    ensures SmallSums(v)
    decreases v
  {
    match v {
      case SumV(tag, vals, rows) =>
        forall i | 0 <= i < |vals| ensures SmallSums(vals[i]) {
          HasTysAt(w, vals, rows[tag].tys, i);
          SmallVal(w, vals[i], rows[tag].tys[i]);
        }
      case ArrV(elems) =>
        forall i | 0 <= i < |elems| ensures SmallSums(elems[i]) {
          SmallVal(w, elems[i], ty.elem);
        }
      case _ =>
    }
  }

  lemma {:induction false} MapTypesAt(hooks: Hooks, tys: seq<Ty>, i: nat)
    requires MapTypes(hooks, tys).Some? && i < |tys|
    ensures MapType(hooks, tys[i]) == Some(MapTypes(hooks, tys).value[i])
    decreases tys
  {
    if i > 0 { MapTypesAt(hooks, tys[1..], i - 1); }
  }

  lemma {:induction false} MapRowsAt(hooks: Hooks, rows: seq<Row>, i: nat)
    requires MapRows(hooks, rows).Some? && i < |rows|
    ensures MapTypes(hooks, rows[i].tys) == Some(MapRows(hooks, rows).value[i])
    decreases rows
  {
    if i > 0 { MapRowsAt(hooks, rows[1..], i - 1); }
  }

  /** A well-typed value is represented by an LLVM value of the type its mailbox is allocated with. */
  lemma {:induction false} EncTyped(w: World, hooks: Hooks, v: Val, ty: Ty)
    requires HasTy(w, v, ty) && MapType(hooks, ty).Some? && SmallSums(v)
    ensures HasLTy(w, hooks, Enc(v), MapType(hooks, ty).value)
    decreases v, 1
  {
    match v {
      case Prim(_, _) =>
      case ArrV(elems) =>
        forall i | 0 <= i < |elems| ensures HasLTy(w, hooks, EncAll(elems)[i], MapType(hooks, ty.elem).value) {
          EncTyped(w, hooks, elems[i], ty.elem);
        }
      case FunV(_) =>
      case SumV(tag, vals, rows) =>
        MapRowsAt(hooks, rows, tag);
        var ts := MapRows(hooks, rows).value[tag];
        EncAllTyped(w, hooks, vals, rows[tag].tys);
        SumStructTyped(w, hooks, rows, tag, EncAll(vals), ts);
    }
  }

  lemma SumStructTyped(w: World, hooks: Hooks, rows: seq<Row>, tag: nat, fields: seq<LVal>, ts: seq<LTy>)
    requires tag < |rows| < 0xFFFF_FFFF && MapRows(hooks, rows).Some? && MapRows(hooks, rows).value[tag] == ts
    requires |fields| == |ts| && forall i :: 0 <= i < |ts| ==> HasLTy(w, hooks, fields[i], ts[i])
    ensures MapSumType(hooks, rows).Some?
    ensures HasLTy(w, hooks, SumStruct(rows, tag, fields), MapSumType(hooks, rows).value)
  {
    hide MapRows;
    var t, s := MapSumType(hooks, rows).value, SumStruct(rows, tag, fields);
    assert HasLTy(w, hooks, LStruct(fields), StructTy(ts));
    forall i | 0 <= i < |s.fields| ensures HasLTy(w, hooks, s.fields[i], t.fields[i]) {}
  }

  lemma {:induction false} EncAllTyped(w: World, hooks: Hooks, vs: seq<Val>, tys: seq<Ty>)
    requires HasTys(w, vs, tys) && MapTypes(hooks, tys).Some? && forall i :: 0 <= i < |vs| ==> SmallSums(vs[i])
    ensures forall i :: 0 <= i < |vs| ==> HasLTy(w, hooks, EncAll(vs)[i], MapTypes(hooks, tys).value[i])
    decreases vs, 0
  {
    forall i | 0 <= i < |vs| ensures HasLTy(w, hooks, EncAll(vs)[i], MapTypes(hooks, tys).value[i]) {
      HasTysAt(w, vs, tys, i);
      MapTypesAt(hooks, tys, i);
      EncTyped(w, hooks, vs[i], tys[i]);
    }
  }

  /** What a function returns has the return type of its LLVM function type, for every number of results. */
  lemma ReturnTyped(w: World, hooks: Hooks, os: seq<Val>, ins: seq<Ty>, outs: seq<Ty>)
    requires HasTys(w, os, outs) && MapFunctionType(hooks, ins, outs).Some? && forall i :: 0 <= i < |os| ==>
      SmallSums(os[i])
    ensures var ret := MapFunctionType(hooks, ins, outs).value.ret;
      (ret.None? <==> |os| == 0) && (ret.Some? ==> HasLTy(w, hooks, Machine.Aggregate(EncAll(os)), ret.value))
  {
    EncAllTyped(w, hooks, os, outs);
    var ts := MapTypes(hooks, outs).value;
    if |os| >= 2 { assert HasLTy(w, hooks, LStruct(EncAll(os)), StructTy(ts)); }
  }
}

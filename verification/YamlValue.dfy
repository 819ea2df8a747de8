/**
 Parsed configuration values and the plain edits of them that a text edit must
 read back as (core/tstd/config_editor_plan.py).
 */
module YamlValue {
  import opened Text
  import opened Decimal

  datatype Sign = Plus | Minus

  datatype Exponent = NoExponent | Exponent(sign: Sign, digits: string)

  /** A finite float by the digits of its shortest representation. */
  datatype FloatDigits = FloatDigits(negative: bool, whole: string, fraction: string, exponent: Exponent)

  predicate ValidFloat(f: FloatDigits) {
    Digits(f.whole) && Digits(f.fraction) && (f.exponent.Exponent? ==> Digits(f.exponent.digits))
  }

  type Float = f: FloatDigits | ValidFloat(f) witness FloatDigits(false, "0", "0", NoExponent)

  datatype Pair = Pair(key: string, val: Value)

  /** A mapping keeps the order its keys were written in. */
  datatype Value =
    | Null
    | Bool(flag: bool)
    | Int(number: int)
    | Real(float: Float)
    | Str(text: string)
    | List(items: seq<Value>)
    | Dict(pairs: seq<Pair>)

  datatype Part = Name(name: string) | Index(index: int)

  predicate NonemptyCollection(v: Value) {
    (v.List? && v.items != []) || (v.Dict? && v.pairs != [])
  }

  /** The position of `key` among `pairs`, the first when it is listed twice. */
  function Find(pairs: seq<Pair>, key: string): (at: Option<nat>)
    ensures at.Some? ==> at.value < |pairs| && pairs[at.value].key == key
    ensures at.None? ==> forall i | 0 <= i < |pairs| :: pairs[i].key != key
  {
    if pairs == [] then None
    else if pairs[0].key == key then Some(0)
    else
      match Find(pairs[1..], key)
      case None => None
      case Some(i) => Some(i + 1)
  }

  /** `has(data, [part])`: where the part leads, if anywhere. */
  function Child(v: Value, part: Part): Option<nat> {
    match part
    case Name(key) => if v.Dict? then Find(v.pairs, key) else None
    case Index(i) => if v.List? && 0 <= i < |v.items| then Some(i) else None
  }

  function At(v: Value, i: nat): Value
    requires (v.Dict? && i < |v.pairs|) || (v.List? && i < |v.items|)
  {
    if v.Dict? then v.pairs[i].val else v.items[i]
  }

  /** `holder[part] = value`, or an append one past a list's end; None where it raises. */
  function Put(holder: Value, part: Part, value: Value): Option<Value> {
    match part
    case Name(key) =>
      if !holder.Dict? then None
      else
        (match Find(holder.pairs, key)
         case Some(i) => Some(Dict(holder.pairs[i := Pair(key, value)]))
         case None => Some(Dict(holder.pairs + [Pair(key, value)])))
    case Index(i) =>
      if !holder.List? then None
      else if i == |holder.items| then Some(List(holder.items + [value]))
      else if 0 <= i < |holder.items| then Some(List(holder.items[i := value]))
      else None
  }

  /** `_with`: a copy of `data` with `value` at `path`; missing and null parents are made. */
  function With(data: Value, path: seq<Part>, value: Value): Option<Value>
    requires path != []
    decreases |path|
  {
    if |path| == 1 then Put(data, path[0], value)
    else
      var at := Child(data, path[0]);
      var child := if at.Some? then At(data, at.value) else Null;
      var held := if child.Null? then (if path[1].Index? then List([]) else Dict([])) else child;
      match With(held, path[1..], value)
      case None => None
      case Some(inner) => Put(data, path[0], inner)
  }

  function Drop(v: Value, i: nat): Value
    requires (v.Dict? && i < |v.pairs|) || (v.List? && i < |v.items|)
  {
    if v.Dict? then Dict(v.pairs[..i] + v.pairs[i + 1..]) else List(v.items[..i] + v.items[i + 1..])
  }

  /** `_without`: a copy of `data` with what `path` names deleted; None when it names nothing. */
  function Without(data: Value, path: seq<Part>): Option<Value>
    requires path != []
    decreases |path|
  {
    match Child(data, path[0])
    case None => None
    case Some(i) =>
      if |path| == 1 then Some(Drop(data, i))
      else
        match Without(At(data, i), path[1..])
        case None => None
        case Some(inner) => Put(data, path[0], inner)
  }
}

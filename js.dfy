/** JavaScript value conventions the altai facade relies on: optional
    attributes (absent, `null` or `undefined`), the `some` default helper of
    src/altai.ts, and the element conversion `new Uint8Array(numbers)` applies. */
module Js {

  /** An optional attribute: `None` stands for both `null` and `undefined`,
      which `!= null` does not tell apart. */
  datatype Option<+T> = None | Some(value: T)

  /** altai's `some(opt, def)`: the supplied value whenever it is not `null`
      or `undefined` (so `0`, `false` and `""` are kept), otherwise `def`. */
  function SomeOr<T>(opt: Option<T>, def: T): (r: T)
    ensures opt.Some? ==> r == opt.value
    ensures opt.None? ==> r == def
  {
    match opt
    case Some(v) => v
    case None => def
  }

  /** The default is only chosen when nothing usable was supplied: a result
      equal to `def` means the option was absent or itself equal to `def`. */
  lemma SomeOrDefaultOnlyWhenAbsent<T>(opt: Option<T>, def: T)
    ensures SomeOr(opt, def) == def <==> opt.None? || opt.value == def
  {
  }

  /** JavaScript truthiness of an optional object reference, as `!ref`
      negates it: every object is truthy, `null` and `undefined` are not. */
  predicate Truthy<T>(ref: Option<T>) {
    match ref
    case Some(_) => true
    case None => false
  }

  /** An element of a `Uint8Array`. */
  type Byte = x: int | 0 <= x < 256

  /** JavaScript's ToUint8 for an integral number: reduction modulo 256
      (always non-negative, so -1 becomes 255). */
  function ToUint8(x: int): (b: Byte)
    ensures (b - x) % 256 == 0
    ensures 0 <= x < 256 ==> b == x
  {
    x % 256
  }

  /** `new Uint8Array(data)` for an array of integral numbers: one byte per
      element, in order, each element reduced modulo 256. */
  function Uint8ArrayOf(data: seq<int>): (bytes: seq<Byte>)
    ensures |bytes| == |data|
    ensures forall i :: 0 <= i < |data| ==> (bytes[i] - data[i]) % 256 == 0
    ensures forall i :: 0 <= i < |data| && 0 <= data[i] < 256 ==> bytes[i] == data[i]
  {
    seq(|data|, i requires 0 <= i < |data| => ToUint8(data[i]))
  }
}

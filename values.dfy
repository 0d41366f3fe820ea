/**
 * Ruby values as far as the preloader looks at them: the option values an
 * exposure is declared with, and the objects handed to the preloader.
 */
module RubyValues {

  datatype Option<T> = None | Some(value: T)

  /** A Ruby Symbol, identified by its name (`:books` is "books"). */
  type Sym = string

  /**
   * A Ruby object. `Other` stands for every object the preloader never
   * inspects (records, hashes, procs), told apart by an identity.
   */
  datatype RubyValue =
    | Nil
    | Bool(b: bool)
    | Integer(i: int)
    | Str(s: string)
    | Symbol(name: Sym)
    | Array(elems: seq<RubyValue>)
    | Other(id: nat)

  /** Ruby's truthiness: only `nil` and `false` are falsy. */
  predicate Truthy(v: RubyValue)
  {
    v != Nil && v != Bool(false)
  }

  /**
   * ActiveSupport's `Array.wrap`: `nil` becomes the empty array, an array is
   * kept as it is, and any other object is wrapped in a one-element array.
   */
  function ArrayWrap(v: RubyValue): (r: seq<RubyValue>)
    ensures v == Nil ==> r == []
    ensures v.Array? ==> r == v.elems
    ensures v != Nil && !v.Array? ==> r == [v]
  {
    match v
    case Nil => []
    case Array(elems) => elems
    case _ => [v]
  }

  /** `Hash#[]` on an options hash: a missing key reads as `nil`. */
  function Lookup(options: map<Sym, RubyValue>, key: Sym): (r: RubyValue)
    ensures key !in options ==> r == Nil
    ensures key in options ==> r == options[key]
  {
    if key in options then options[key] else Nil
  }
}

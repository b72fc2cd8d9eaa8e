/**
 The small part of Ruby's object model that the option resolver touches:
 the values a caller can put into an options hash, Ruby truthiness,
 ActiveSupport's `blank?`/`present?`, `Kernel#Array` and `to_s` as used by
 `String#%` with a single `%s` placeholder.
 */
module RubyValues {

  /** A Ruby object as it can appear in the options hash: `nil`, `true`/`false`,
      a String, a Symbol (by its name) or an Array of such objects. */
  datatype Value = Nil | Bool(b: bool) | Str(s: string) | Sym(name: string) | List(items: seq<Value>)

  /** Every value that is not an Array. */
  type Scalar = v: Value | !v.List? witness Nil

  /** Ruby truthiness: only `nil` and `false` are falsy. */
  predicate Truthy(v: Value) {
    !v.Nil? && v != Bool(false)
  }

  /** The Unicode White_Space characters, which is what `[[:space:]]` matches
      in a UTF-8 string. */
  predicate IsSpace(c: char) {
    var n := c as int;
    || (0x09 <= n <= 0x0D) || n == 0x20 || n == 0x85 || n == 0xA0 || n == 0x1680
    || (0x2000 <= n <= 0x200A) || n == 0x2028 || n == 0x2029 || n == 0x202F
    || n == 0x205F || n == 0x3000
  }

  /** ActiveSupport's `blank?`: nil, false, a String made only of white space,
      the empty Symbol and the empty Array are blank; everything else is not. */
  predicate Blank(v: Value) {
    match v
    case Nil => true
    case Bool(b) => !b
    case Str(s) => forall i :: 0 <= i < |s| ==> IsSpace(s[i])
    case Sym(name) => name == ""
    case List(items) => items == []
  }

  /** ActiveSupport's `present?`. `presence` returns the value itself when this
      holds and `nil` otherwise, so `presence` is truthy exactly when it holds. */
  predicate Present(v: Value) {
    !Blank(v)
  }

  /** `Kernel#Array`: nil becomes the empty Array, an Array stays as it is and
      any other object is wrapped into a one-element Array. */
  function ToArray(v: Value): seq<Value> {
    match v
    case Nil => []
    case List(items) => items
    case _ => [v]
  }

  /** `to_s` of a non-Array object, which is what `"...%s..." % object` inserts. */
  function Text(v: Scalar): string {
    match v
    case Nil => ""
    case Bool(b) => if b then "true" else "false"
    case Str(s) => s
    case Sym(name) => name
  }

  /** A present value is truthy, so `option?` (`key? && presence`) is truthy
      exactly when the key is there and its value is present. The converse
      fails: `true` is both, but `""` is truthy and blank. */
  lemma PresentIsTruthy(v: Value)
    ensures Present(v) ==> Truthy(v)
    ensures Truthy(Str("")) && !Present(Str(""))
  {
  }
}

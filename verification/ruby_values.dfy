/**
  Ruby objects as the client library handles them: Hash keys, the values stored
  under them, and the few Hash and Array primitives the request builders use.
  Ruby truthiness is explicit here: only `nil` and `false` are falsy.
 */
module RubyValues {

  /** A Hash key. Ruby keeps a Symbol and a String apart even when they spell
      the same word, so `:media_ids` and `'media_ids'` are different keys. */
  datatype Key = Sym(name: string) | Str(text: string)

  /** A Ruby value. `Hash` is what `is_a?(Hash)` recognises. */
  datatype Value =
    | Nil
    | False
    | True
    | Int(i: int)
    | Text(s: string)
    | Symbol(name: string)
    | Array(elems: seq<Value>)
    | Hash(entries: map<Key, Value>)

  /** A request-parameter Hash. */
  type Params = map<Key, Value>

  /** Ruby's condition test: everything except `nil` and `false` is true. */
  predicate Truthy(v: Value)
  {
    !(v.Nil? || v.False?)
  }

  /** `Hash#[]` on a Hash without a default: the bound value, `nil` when absent. */
  function Fetch(p: Params, k: Key): Value
  {
    if k in p then p[k] else Nil
  }

  /** `Hash#delete` without a block: the removed value (`nil` when the key was
      absent) together with the Hash that no longer holds the key. */
  function DeleteKey(p: Params, k: Key): (Value, Params)
  {
    (Fetch(p, k), p - {k})
  }

  /** `Array#shift`: the first element (`nil` for an empty Array) and the rest. */
  function Shift(args: seq<Value>): (Value, seq<Value>)
  {
    if |args| == 0 then (Nil, args) else (args[0], args[1..])
  }

  /** Positional argument `i`, or `nil` when the caller passed fewer. */
  function ArgOrNil(args: seq<Value>, i: nat): Value
  {
    if i < |args| then args[i] else Nil
  }
}

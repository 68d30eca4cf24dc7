/**
 The values the experiment registry stores: flag names, the uncoerced Ruby
 values held under them, the errors the registry raises, and the meaning of
 a run of hash assignments (`table[name] = value`, one after another).
 */
module Flags {

  /** A flag name as a Ruby hash key: a Symbol (`:example_1`) or a String
      (`"example_1"`). The two are different keys. */
  datatype Name = Sym(id: string) | Str(id: string)

  /** A Ruby value as the table stores it. Nothing coerces values to
      booleans, so a flag may hold `nil`, a number or a string as well. */
  datatype Value = Bool(b: bool) | Nil | Int(i: int) | Text(s: string) | Symbol(name: string)

  datatype Option<T> = None | Some(value: T)

  /** The exceptions the registry raises or lets through. */
  datatype Error =
    | FileNotFound(path: string)      // Errno::ENOENT from File.open
    | FileTypeNotFound(path: string)  // "[Error] File type not found for: <path>"
    | ParseError                      // raised by the YAML or JSON decoder
    | NoMethodError(selector: string) // a message the receiver does not answer

  /** Ruby truthiness: everything except `nil` and `false`. */
  predicate Truthy(v: Value)
  {
    v != Nil && v != Bool(false)
  }

  /** `Hash#[]` on a hash without a default: the stored value, or `nil`. */
  function Lookup(m: map<Name, Value>, n: Name): Value
  {
    if n in m then m[n] else Nil
  }

  /** `activated?`: the stored value must be truthy and equal to `true`. */
  function Activated(m: map<Name, Value>, n: Name): (r: bool)
    ensures r <==> n in m && m[n] == Bool(true)
  {
    var feature := Lookup(m, n);
    Truthy(feature) && feature == Bool(true)
  }

  /** `key.to_sym`: String and Symbol answer it, every other key raises
      NoMethodError, shown here as `None`. */
  function ToSym(key: Value): (r: Option<Name>)
    ensures r.Some? <==> key.Text? || key.Symbol?
    ensures key.Text? ==> r == Some(Sym(key.s))
    ensures key.Symbol? ==> r == Some(Sym(key.name))
  {
    match key
    case Text(s) => Some(Sym(s))
    case Symbol(name) => Some(Sym(name))
    case _ => None
  }

  /** A run of hash assignments `m[n] = v`, applied in order. */
  function Assign(m: map<Name, Value>, writes: seq<(Name, Value)>): map<Name, Value>
    decreases writes
  {
    if writes == [] then m else Assign(m[writes[0].0 := writes[0].1], writes[1..])
  }

  /** The value of the last assignment to `n` in `writes`, if there is one. */
  function LastWrite(writes: seq<(Name, Value)>, n: Name): Option<Value>
  {
    if writes == [] then None
    else if writes[|writes| - 1].0 == n then Some(writes[|writes| - 1].1)
    else LastWrite(writes[..|writes| - 1], n)
  }

  lemma {:induction false} AssignSnoc(m: map<Name, Value>, writes: seq<(Name, Value)>, w: (Name, Value))
    ensures Assign(m, writes + [w]) == Assign(m, writes)[w.0 := w.1]
    decreases writes
  {
    if writes != [] {
      assert (writes + [w])[1..] == writes[1..] + [w];
      AssignSnoc(m[writes[0].0 := writes[0].1], writes[1..], w);
    }
  }

  /** Last write wins, values are stored as written, and a name that no
      assignment mentions keeps its earlier entry (or its absence). */
  lemma {:induction false} AssignLastWins(m: map<Name, Value>, writes: seq<(Name, Value)>, n: Name)
    ensures LastWrite(writes, n).Some? ==>
              n in Assign(m, writes) && Assign(m, writes)[n] == LastWrite(writes, n).value
    ensures LastWrite(writes, n).None? ==>
              (n in Assign(m, writes) <==> n in m) &&
              (n in m ==> Assign(m, writes)[n] == m[n])
  {
    if writes != [] {
      var k := |writes| - 1;
      assert writes == writes[..k] + [writes[k]];
      AssignSnoc(m, writes[..k], writes[k]);
      AssignLastWins(m, writes[..k], n);
    }
  }

  /** After a run of assignments, `activated?(n)` answers exactly whether
      the last assignment to `n` (or, with none, the earlier entry) is `true`. */
  lemma ActivatedAfterAssign(m: map<Name, Value>, writes: seq<(Name, Value)>, n: Name)
    ensures Activated(Assign(m, writes), n) <==>
              match LastWrite(writes, n)
              case Some(v) => v == Bool(true)
              case None => Activated(m, n)
  {
    AssignLastWins(m, writes, n);
  }
}

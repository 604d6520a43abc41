/** Health check options are free-form JSON; these are their comparison and their deep copy. */
module JsonValues {
  /** `Opaque` is any Go value of a type that the code does not list. */
  datatype Value =
    | Null
    | Text(text: string)
    | Int(int_: int)
    | Int64(int64: int)
    | Float(float: real)
    | Bool(flag: bool)
    | List(items: seq<Value>)
    | Object(fields: map<string, Value>)
    | Opaque(tag: int)

  /** interfaceEqual: objects are walked from one side only. */
  predicate InterfaceEqual(a: Value, b: Value) {
    match a
    case Null => b.Null?
    case Object(m) => b.Object? && |m| == |b.fields| && forall k :: k in m ==> k in b.fields && InterfaceEqual(m[k], b.fields[k])
    case List(s) => b.List? && |s| == |b.items| && forall i :: 0 <= i < |s| ==> InterfaceEqual(s[i], b.items[i])
    case Text(x) => b == Text(x)
    case Int(x) => b == Int(x)
    case Int64(x) => b == Int64(x)
    case Float(x) => b == Float(x)
    case Bool(x) => b == Bool(x)
    case Opaque(_) => false
  }

  /** No value of an unlisted type occurs anywhere inside. */
  predicate Plain(v: Value) {
    match v
    case Object(m) => forall k :: k in m ==> Plain(m[k])
    case List(s) => forall i :: 0 <= i < |s| ==> Plain(s[i])
    case Opaque(_) => false
    case _ => true
  }

  function DeepCopy(v: Value): Value {
    match v
    case Object(m) => Object(map k | k in m :: DeepCopy(m[k]))
    case List(s) => List(seq(|s|, i requires 0 <= i < |s| => DeepCopy(s[i])))
    case _ => v
  }

  lemma SameKeys<T>(a: map<string, T>, b: map<string, T>)
    requires |a| == |b| && forall k :: k in a ==> k in b
    ensures a.Keys == b.Keys
  {
    assert a.Keys <= b.Keys;
    assert |b.Keys - a.Keys| == |b.Keys| - |a.Keys|;
  }

  /** The one-sided walk decides equality, for values without unlisted types. */
  lemma {:induction false} InterfaceEqualIff(a: Value, b: Value)
    ensures InterfaceEqual(a, b) <==> a == b && Plain(a)
    decreases a
  {
    match a
    case Object(m) =>
      if b.Object? {
        forall k | k in m && k in b.fields ensures InterfaceEqual(m[k], b.fields[k]) <==> m[k] == b.fields[k] && Plain(m[k]) {
          InterfaceEqualIff(m[k], b.fields[k]);
        }
        if InterfaceEqual(a, b) {
          SameKeys(m, b.fields);
          assert m == b.fields;
        }
      }
    case List(s) =>
      if b.List? && |s| == |b.items| {
        forall i | 0 <= i < |s| ensures InterfaceEqual(s[i], b.items[i]) <==> s[i] == b.items[i] && Plain(s[i]) {
          InterfaceEqualIff(s[i], b.items[i]);
        }
        if InterfaceEqual(a, b) {
          assert s == b.items;
        }
      }
    case _ =>
  }

  lemma {:induction false} DeepCopyIsEqual(v: Value)
    ensures DeepCopy(v) == v
    decreases v
  {
    match v
    case Object(m) =>
      forall k | k in m ensures DeepCopy(m[k]) == m[k] {
        DeepCopyIsEqual(m[k]);
      }
      assert DeepCopy(v).fields == m;
    case List(s) =>
      forall i | 0 <= i < |s| ensures DeepCopy(s[i]) == s[i] {
        DeepCopyIsEqual(s[i]);
      }
      assert DeepCopy(v).items == s;
    case _ =>
  }

  /** A value compares equal to its own deep copy exactly when it is plain. */
  lemma CopyComparesEqualIff(v: Value)
    ensures InterfaceEqual(v, DeepCopy(v)) <==> Plain(v)
  {
    DeepCopyIsEqual(v);
    InterfaceEqualIff(v, v);
  }

  /** An option of an unlisted type differs from itself. */
  lemma UnlistedDiffersFromItself()
    ensures !InterfaceEqual(Object(map["timeout" := Opaque(0)]), DeepCopy(Object(map["timeout" := Opaque(0)])))
  {
    var v := Object(map["timeout" := Opaque(0)]);
    assert !Plain(v.fields["timeout"]);
    CopyComparesEqualIff(v);
  }
}

/** Small vocabulary shared by every module of the model. */
module Base {

  /** A value that may be absent: Python's `None` versus a present value. */
  datatype Option<+T> = None | Some(value: T)

  /** One byte of a file or of an HTTP body. */
  type byte = x: int | 0 <= x < 256

  /** How Python's f-string renders an environment value read with `os.getenv`:
      the value itself, or the text `None` when the variable is unset. */
  function EnvText(v: Option<string>): (s: string)
    ensures v.Some? ==> s == v.value
    ensures v.None? ==> s == "None"
  {
    match v
    case Some(x) => x
    case None => "None"
  }

  /** A key the right operand lacks is looked up in the left one. */
  lemma MapUnionLeft<K, V>(a: map<K, V>, b: map<K, V>, k: K)
    requires k !in b
    ensures (k in a + b) == (k in a)
    ensures k in a ==> (a + b)[k] == a[k]
  {
  }

  /** A key of the right operand is looked up there. */
  lemma MapUnionRight<K, V>(a: map<K, V>, b: map<K, V>, k: K)
    requires k in b
    ensures k in a + b && (a + b)[k] == b[k]
  {
  }

  lemma MapUnionAssoc<K, V>(a: map<K, V>, b: map<K, V>, c: map<K, V>)
    ensures (a + b) + c == a + (b + c)
  {
  }
}

/** Small value wrappers shared by every module of the model. */
module Wrappers {

  /** A nullable value: `None` stands for JavaScript's `null` or `undefined`. */
  datatype Option<+T> = None | Some(value: T) {
    function GetOr(default: T): T {
      match this
      case Some(v) => v
      case None => default
    }
  }

  /**
   * One field of a request body as the ORM sees it in a `data` object:
   * `Keep` is an `undefined` property (the column is left alone), `SetNull` an
   * explicit `null`, `Set(v)` a value.
   */
  datatype Patch<+T> = Keep | SetNull | Set(value: T)

  /** The column value after the ORM applies one patch to it. */
  function ApplyPatch<T>(prev: Option<T>, p: Patch<T>): (r: Option<T>)
    ensures p.Keep? ==> r == prev
    ensures p.SetNull? ==> r.None?
    ensures p.Set? ==> r == Some(p.value)
  {
    match p
    case Keep => prev
    case SetNull => None
    case Set(v) => Some(v)
  }

  /** The value a create stores for a patched column (an undefined column is null). */
  function PatchValue<T>(p: Patch<T>): (r: Option<T>)
    ensures r == ApplyPatch(None, p)
  {
    match p
    case Set(v) => Some(v)
    case _ => None
  }

  /** JavaScript truthiness of an optional string: present and non-empty. */
  predicate TruthyStr(s: Option<string>) {
    s.Some? && s.value != ""
  }

  /** `a || b` on optional strings. */
  function OrStr(a: Option<string>, b: string): (r: string)
    ensures TruthyStr(a) ==> r == a.value
    ensures !TruthyStr(a) ==> r == b
  {
    if TruthyStr(a) then a.value else b
  }
}

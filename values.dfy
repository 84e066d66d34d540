/**
 * Python values as they reach the parameter builders: `None`, `bool`, `int`,
 * `str`, `list` and `dict` (a dict keeps its insertion order, so it is a
 * sequence of key/value pairs). Floats do not occur in the modelled code.
 */
module Values {
  import opened Wrappers

  datatype Value =
    | VNone
    | VBool(b: bool)
    | VInt(i: int)
    | VStr(s: string)
    | VList(items: seq<Value>)
    | VDict(entries: seq<(string, Value)>)

  /** Python truthiness, `bool(v)`: None, False, 0 and empty containers are false. */
  predicate Truthy(v: Value) {
    match v
    case VNone => false
    case VBool(b) => b
    case VInt(i) => i != 0
    case VStr(s) => s != ""
    case VList(xs) => xs != []
    case VDict(es) => es != []
  }

  /** `d.get(key, default)` on a dict; a later duplicate key wins, as in `json.loads`. */
  function DictGet(entries: seq<(string, Value)>, key: string, default: Value): (r: Value)
    ensures (forall i :: 0 <= i < |entries| ==> entries[i].0 != key) ==> r == default
    ensures (exists i :: 0 <= i < |entries| && entries[i].0 == key) ==>
              exists i :: 0 <= i < |entries| && entries[i].0 == key && r == entries[i].1
  {
    if entries == [] then default
    else if entries[|entries| - 1].0 == key then entries[|entries| - 1].1
    else DictGet(entries[..|entries| - 1], key, default)
  }

  /** `sep.join(parts)` for a list of strings. */
  function Join(sep: string, parts: seq<string>): (r: string)
    ensures parts == [] ==> r == ""
    ensures |parts| == 1 ==> r == parts[0]
  {
    if parts == [] then ""
    else if |parts| == 1 then parts[0]
    else parts[0] + sep + Join(sep, parts[1..])
  }

  /** `','.join(parts)`, the encoding of field-selector style lists. */
  function CommaJoin(parts: seq<string>): string {
    Join(",", parts)
  }

  /** `s.split(',')`: always at least one piece, `"".split(',') == [""]`. */
  function CommaSplit(s: string): (r: seq<string>)
    ensures |r| >= 1
    ensures forall i :: 0 <= i < |r| ==> ',' !in r[i]
  {
    if s == [] then [""]
    else if s[0] == ',' then [""] + CommaSplit(s[1..])
    else
      var rest := CommaSplit(s[1..]);
      [[s[0]] + rest[0]] + rest[1..]
  }

  lemma {:induction false} SplitPrefix(head: string, tail: string)
    requires ',' !in head
    ensures CommaSplit(head + "," + tail) == [head] + CommaSplit(tail)
    ensures CommaSplit(head) == [head]
    decreases |head|
  {
    if head == [] {
      assert head + "," + tail == [','] + tail;
      assert ([','] + tail)[1..] == tail;
    } else {
      SplitPrefix(head[1..], tail);
      assert (head + "," + tail)[1..] == head[1..] + "," + tail;
      assert [head[0]] + head[1..] == head;
    }
  }

  /**
   * The comma-joined text determines the list: splitting it on ',' gives the
   * list back, provided the list is not empty and no element holds a comma.
   * (For the empty list the text is "" and splitting gives [""].)
   */
  lemma {:induction false} SplitJoin(parts: seq<string>)
    requires parts != []
    requires forall i :: 0 <= i < |parts| ==> ',' !in parts[i]
    ensures CommaSplit(CommaJoin(parts)) == parts
    decreases |parts|
  {
    if |parts| == 1 {
      SplitPrefix(parts[0], "");
      assert CommaJoin(parts) == parts[0];
    } else {
      var rest := parts[1..];
      assert forall i :: 0 <= i < |rest| ==> ',' !in rest[i];
      SplitJoin(rest);
      assert CommaJoin(parts) == parts[0] + "," + CommaJoin(rest);
      SplitPrefix(parts[0], CommaJoin(rest));
      assert [parts[0]] + rest == parts;
    }
  }

  /** Why `','.join(v)` raised TypeError: `v` is not iterable, or it yields a non-string. */
  datatype JoinError = NotIterable | NonStringItem

  /**
   * `','.join(v)` for any Python value: a list must hold only strings, a
   * string yields its characters, a dict its keys; anything else raises
   * TypeError.
   */
  function PyCommaJoin(v: Value): (r: Result<string, JoinError>)
    ensures v.VList? ==>
              (r.Success? <==> forall i :: 0 <= i < |v.items| ==> v.items[i].VStr?)
    ensures v.VList? && r.Success? ==>
              r.value == CommaJoin(seq(|v.items|, i requires 0 <= i < |v.items| => v.items[i].s))
    ensures (v.VNone? || v.VBool? || v.VInt?) ==> r.Failure?
    ensures v.VStr? || v.VDict? ==> r.Success?
  {
    match v
    case VList(items) =>
      if forall i :: 0 <= i < |items| ==> items[i].VStr? then
        Success(CommaJoin(seq(|items|, i requires 0 <= i < |items| => items[i].s)))
      else Failure(NonStringItem)
    case VStr(s) => Success(CommaJoin(seq(|s|, i requires 0 <= i < |s| => [s[i]])))
    case VDict(entries) => Success(CommaJoin(seq(|entries|, i requires 0 <= i < |entries| => entries[i].0)))
    case _ => Failure(NotIterable)
  }
}

/**
 * The shape every tool in server.py shares: start from a small mapping, then
 * a run of guarded stores `if <guard>: params[key] = <encoding>(value)`, one
 * after another in a fixed order. A tool is written here as the table of its
 * stores; `ApplyStores` runs the table in order.
 */
module Query {
  import opened Wrappers
  import opened Values
  import opened Params
  import Json

  /** How a stored value is written: as given, `','.join(value)`, or `json.dumps(value)`. */
  datatype Encoding = AsIs | CommaJoined | JsonText

  /** One guarded store: when `when` holds, `key` receives `value` written with `enc`. */
  datatype Store = Store(key: string, when: bool, enc: Encoding, value: Value)

  /** The value stored; only `','.join` can raise (TypeError). */
  function Encoded(s: Store): (r: Result<Value, ParamError>)
    ensures s.enc != CommaJoined ==> r.Success?
    ensures s.enc == JsonText ==> r == Success(VStr(Json.Encode(s.value)))
    ensures s.enc == CommaJoined ==> (r.Success? <==> PyCommaJoin(s.value).Success?)
    ensures s.enc == CommaJoined && r.Success? ==> r.value == VStr(PyCommaJoin(s.value).value)
    ensures r.Failure? ==> r.error == TypeError(s.key)
  {
    match s.enc
    case AsIs => Success(s.value)
    case JsonText => Success(VStr(Json.Encode(s.value)))
    case CommaJoined =>
      match PyCommaJoin(s.value)
      case Success(text) => Success(VStr(text))
      case Failure(_) => Failure(TypeError(s.key))
  }

  /** The store is reached and raises. */
  predicate Raises(s: Store) {
    s.when && Encoded(s).Failure?
  }

  /** One `if`: store the encoded value when the guard holds. */
  function Put(p: Params, s: Store): Result<Params, ParamError> {
    if !s.when then Success(p)
    else
      match Encoded(s)
      case Failure(e) => Failure(e)
      case Success(x) => Success(p[s.key := x])
  }

  /** The stores in order; the first one that raises ends the tool. */
  function ApplyStores(p: Params, stores: seq<Store>): Result<Params, ParamError>
    decreases |stores|
  {
    if stores == [] then Success(p)
    else
      match Put(p, stores[0])
      case Failure(e) => Failure(e)
      case Success(q) => ApplyStores(q, stores[1..])
  }

  predicate DistinctStoreKeys(stores: seq<Store>) {
    forall i, j :: 0 <= i < j < |stores| ==> stores[i].key != stores[j].key
  }

  /** No store of the table writes `k`. */
  predicate Untouched(stores: seq<Store>, k: string) {
    forall i :: 0 <= i < |stores| ==> stores[i].key != k
  }

  /** After the run, `key` holds the encoded value when the guard held, else what `base` held. */
  ghost predicate Emits(p: Params, base: Params, s: Store) {
    if s.when then Encoded(s).Success? && s.key in p && p[s.key] == Encoded(s).value
    else Kept(p, base, s.key)
  }

  /**
   * What running a table of stores over `base` yields: it raises exactly when
   * some store raises, and then with the error of the first such store;
   * otherwise every store decided its own key and all other keys are as in
   * `base`.
   */
  ghost predicate Applied(r: Result<Params, ParamError>, base: Params, stores: seq<Store>) {
    && (r.Failure? <==> exists i :: 0 <= i < |stores| && Raises(stores[i]))
    && (r.Failure? ==>
          exists i :: 0 <= i < |stores| && Raises(stores[i]) &&
            (forall j :: 0 <= j < i ==> !Raises(stores[j])) &&
            r.error == TypeError(stores[i].key))
    && (r.Success? ==> forall i :: 0 <= i < |stores| ==> Emits(r.value, base, stores[i]))
    && (r.Success? ==> forall k :: Untouched(stores, k) ==> Kept(r.value, base, k))
  }

  lemma KeptTrans(r: Params, q: Params, p: Params, k: string)
    requires Kept(r, q, k) && Kept(q, p, k)
    ensures Kept(r, p, k)
  {
  }

  lemma EmitsTrans(r: Params, q: Params, p: Params, s: Store)
    requires Emits(r, q, s) && Kept(q, p, s.key)
    ensures Emits(r, p, s)
  {
  }

  lemma EmitsKept(r: Params, q: Params, p: Params, s: Store)
    requires Emits(q, p, s) && Kept(r, q, s.key)
    ensures Emits(r, p, s)
  {
  }

  lemma PutFacts(p: Params, s: Store)
    requires Put(p, s).Success?
    ensures !Raises(s)
    ensures Emits(Put(p, s).value, p, s)
    ensures forall k :: k != s.key ==> Kept(Put(p, s).value, p, k)
  {
  }

  lemma {:induction false} ApplyStoresContents(p: Params, stores: seq<Store>)
    requires DistinctStoreKeys(stores)
    ensures Applied(ApplyStores(p, stores), p, stores)
    decreases |stores|
  {
    if stores != [] {
      var s := stores[0];
      var rest := stores[1..];
      assert forall i :: 0 <= i < |rest| ==> rest[i] == stores[i + 1];
      if Put(p, s).Success? {
        var q := Put(p, s).value;
        PutFacts(p, s);
        assert DistinctStoreKeys(rest);
        ApplyStoresContents(q, rest);
        var r := ApplyStores(p, stores);
        assert r == ApplyStores(q, rest);
        if r.Failure? {
          var i :| 0 <= i < |rest| && Raises(rest[i]) &&
                   (forall j :: 0 <= j < i ==> !Raises(rest[j])) &&
                   r.error == TypeError(rest[i].key);
          assert Raises(stores[i + 1]);
          assert forall j :: 0 <= j < i + 1 ==> !Raises(stores[j]) by {
            forall j | 0 <= j < i + 1 ensures !Raises(stores[j]) {
              if j > 0 { assert stores[j] == rest[j - 1]; }
            }
          }
        } else {
          assert forall i :: 0 <= i < |stores| ==> !Raises(stores[i]) by {
            forall i | 0 <= i < |stores| ensures !Raises(stores[i]) {
              if i > 0 { assert stores[i] == rest[i - 1]; }
            }
          }
          forall i | 0 <= i < |stores| ensures Emits(r.value, p, stores[i]) {
            if i == 0 {
              assert Untouched(rest, s.key);
              EmitsKept(r.value, q, p, s);
            } else {
              assert stores[i] == rest[i - 1];
              assert stores[i].key != s.key;
              EmitsTrans(r.value, q, p, stores[i]);
            }
          }
          forall k | Untouched(stores, k) ensures Kept(r.value, p, k) {
            assert Untouched(rest, k);
            assert s.key != k;
            KeptTrans(r.value, q, p, k);
          }
        }
      } else {
        assert Raises(stores[0]);
      }
    }
  }
}

/**
 * The generic query-parameter builder `_prepare_params` (server.py): copy the
 * base mapping, skip every keyword argument whose value is None, JSON-encode
 * the structured keys, comma-join the list keys, pass the rest through.
 */
module Params {
  import opened Wrappers
  import opened Values
  import Json

  /** A query-parameter mapping, as handed to the HTTP client. */
  type Params = map<string, Value>

  /** Keyword arguments in call order; Python guarantees their names are distinct. */
  type Kwargs = seq<(string, Value)>

  /** Keys whose list or dict value is sent as JSON text. */
  const JsonKeys: set<string> := {
    "filtering", "time_range", "time_ranges", "effective_status",
    "special_ad_categories", "objective", "buyer_guarantee_agreement_status"
  }

  /** Keys whose list value is sent comma-joined. */
  const JoinKeys: set<string> := {
    "fields", "action_attribution_windows", "action_breakdowns", "breakdowns"
  }

  /** `','.join` raised TypeError for the keyword argument of this name. */
  datatype ParamError = TypeError(key: string)

  predicate DistinctKeys(kwargs: Kwargs) {
    forall i, j :: 0 <= i < j < |kwargs| ==> kwargs[i].0 != kwargs[j].0
  }

  /** The names of the keyword arguments that are not None. */
  function GivenKeys(kwargs: Kwargs): set<string> {
    set i | 0 <= i < |kwargs| && kwargs[i].1 != VNone :: kwargs[i].0
  }

  function Strings(items: seq<Value>): (r: seq<string>)
    requires forall i :: 0 <= i < |items| ==> items[i].VStr?
    ensures |r| == |items| && forall i :: 0 <= i < |items| ==> r[i] == items[i].s
  {
    seq(|items|, i requires 0 <= i < |items| => items[i].s)
  }

  /** The value `_prepare_params` stores for a keyword argument that is not None. */
  function Normalize(key: string, v: Value): (r: Result<Value, ParamError>)
    ensures key in JsonKeys && (v.VList? || v.VDict?) ==>
              r.Success? && r.value.VStr? && Json.Decode(r.value.s) == Some(v)
    ensures key !in JsonKeys && key in JoinKeys && v.VList? ==>
              (r.Success? <==> forall i :: 0 <= i < |v.items| ==> v.items[i].VStr?)
    ensures key !in JsonKeys && key in JoinKeys && v.VList? && r.Success? ==>
              r.value == VStr(CommaJoin(Strings(v.items)))
    ensures !(key in JsonKeys && (v.VList? || v.VDict?)) && !(key in JoinKeys && v.VList?) ==>
              r == Success(v)
    ensures r.Failure? ==> r.error == TypeError(key)
  {
    if key in JsonKeys && (v.VList? || v.VDict?) then
      Json.DecodeEncode(v);
      Success(VStr(Json.Encode(v)))
    else if key in JoinKeys && v.VList? then
      if forall i :: 0 <= i < |v.items| ==> v.items[i].VStr? then
        Success(VStr(CommaJoin(Strings(v.items))))
      else Failure(TypeError(key))
    else Success(v)
  }

  /** The keyword argument makes `_prepare_params` raise. */
  predicate Fails(kv: (string, Value)) {
    kv.1 != VNone && Normalize(kv.0, kv.1).Failure?
  }

  /** One turn of the loop: store the normalised value unless it is None. */
  function AddKwarg(p: Params, kv: (string, Value)): Result<Params, ParamError> {
    if kv.1 == VNone then Success(p)
    else
      match Normalize(kv.0, kv.1)
      case Failure(e) => Failure(e)
      case Success(x) => Success(p[kv.0 := x])
  }

  /** `_prepare_params(base, **kwargs)`, one keyword argument after another. */
  function Prepare(base: Params, kwargs: Kwargs): Result<Params, ParamError>
    decreases |kwargs|
  {
    if kwargs == [] then Success(base)
    else
      match Prepare(base, kwargs[..|kwargs| - 1])
      case Failure(e) => Failure(e)
      case Success(p) => AddKwarg(p, kwargs[|kwargs| - 1])
  }

  /** Nothing but the keys of the base and of the given arguments, untouched base keys keep their values. */
  ghost predicate Kept(p: Params, base: Params, key: string) {
    (key in p <==> key in base) && (key in base ==> p[key] == base[key])
  }

  /** What `_prepare_params` leaves under `key` for the argument value `v`. */
  ghost predicate Prepared(p: Params, base: Params, key: string, v: Value) {
    if v == VNone then Kept(p, base, key)
    else Normalize(key, v).Success? && key in p && p[key] == Normalize(key, v).value
  }

  /** `key` holds `v` when `cond`, and otherwise whatever the base held. */
  ghost predicate Sets(p: Params, base: Params, key: string, cond: bool, v: Value) {
    if cond then key in p && p[key] == v else Kept(p, base, key)
  }

  lemma GivenKeysSnoc(kwargs: Kwargs)
    requires kwargs != []
    ensures GivenKeys(kwargs) ==
            GivenKeys(kwargs[..|kwargs| - 1]) +
            (if kwargs[|kwargs| - 1].1 != VNone then {kwargs[|kwargs| - 1].0} else {})
  {
    var n := |kwargs| - 1;
    var front := kwargs[..n];
    forall k | k in GivenKeys(kwargs)
      ensures k in GivenKeys(front) || (kwargs[n].1 != VNone && k == kwargs[n].0)
    {
      var i :| 0 <= i < |kwargs| && kwargs[i].1 != VNone && kwargs[i].0 == k;
      if i < n {
        assert front[i] == kwargs[i];
      }
    }
    forall k | k in GivenKeys(front) ensures k in GivenKeys(kwargs) {
      var i :| 0 <= i < |front| && front[i].1 != VNone && front[i].0 == k;
      assert kwargs[i] == front[i];
    }
  }

  /**
   * `_prepare_params` raises exactly when some argument that is not None
   * cannot be comma-joined, and then for the first such argument.
   */
  lemma {:induction false} PrepareFailsIff(base: Params, kwargs: Kwargs)
    ensures Prepare(base, kwargs).Failure? <==> exists i :: 0 <= i < |kwargs| && Fails(kwargs[i])
    ensures Prepare(base, kwargs).Failure? ==>
              exists i :: 0 <= i < |kwargs| && Fails(kwargs[i]) &&
                (forall j :: 0 <= j < i ==> !Fails(kwargs[j])) &&
                Prepare(base, kwargs).error == TypeError(kwargs[i].0)
    decreases |kwargs|
  {
    if kwargs != [] {
      var n := |kwargs| - 1;
      var front := kwargs[..n];
      PrepareFailsIff(base, front);
      forall i | 0 <= i < n ensures front[i] == kwargs[i] { }
    }
  }

  /**
   * On success the result holds every base key and the name of every argument
   * that is not None, and nothing else; each such argument is stored
   * normalised and every other base key keeps its value.
   */
  lemma {:induction false} PrepareContents(base: Params, kwargs: Kwargs)
    requires DistinctKeys(kwargs)
    requires Prepare(base, kwargs).Success?
    ensures Prepare(base, kwargs).value.Keys == base.Keys + GivenKeys(kwargs)
    ensures forall i :: 0 <= i < |kwargs| ==>
              Prepared(Prepare(base, kwargs).value, base, kwargs[i].0, kwargs[i].1)
    ensures forall k :: k in base && k !in GivenKeys(kwargs) ==>
              Prepare(base, kwargs).value[k] == base[k]
    decreases |kwargs|
  {
    if kwargs != [] {
      var n := |kwargs| - 1;
      var front := kwargs[..n];
      var last := kwargs[n];
      assert DistinctKeys(front);
      PrepareContents(base, front);
      GivenKeysSnoc(kwargs);
      var p := Prepare(base, front).value;
      var q := Prepare(base, kwargs).value;
      forall i | 0 <= i < |kwargs| ensures Prepared(q, base, kwargs[i].0, kwargs[i].1) {
        if i < n {
          assert front[i] == kwargs[i];
          assert kwargs[i].0 != last.0;
        }
      }
    }
  }

  /** The loop of `_prepare_params`, over a copy of the base. */
  method PrepareParams(base: Params, kwargs: Kwargs) returns (r: Result<Params, ParamError>)
    ensures r == Prepare(base, kwargs)
  {
    var params := base;
    var i := 0;
    while i < |kwargs|
      invariant 0 <= i <= |kwargs|
      invariant Prepare(base, kwargs[..i]) == Success(params)
    {
      assert kwargs[..i + 1][..i] == kwargs[..i];
      var (key, value) := kwargs[i];
      if value != VNone {
        var n := Normalize(key, value);
        if n.Failure? {
          assert kwargs[..i + 1] == kwargs[..i] + [kwargs[i]];
          PrepareFailurePersists(base, kwargs, i + 1);
          return Failure(n.error);
        }
        params := params[key := n.value];
      }
      i := i + 1;
    }
    assert kwargs[..i] == kwargs;
    return Success(params);
  }

  /** Once a prefix of the arguments raises, the whole call raises the same error. */
  lemma {:induction false} PrepareFailurePersists(base: Params, kwargs: Kwargs, n: nat)
    requires n <= |kwargs|
    requires Prepare(base, kwargs[..n]).Failure?
    ensures Prepare(base, kwargs) == Prepare(base, kwargs[..n])
    decreases |kwargs| - n
  {
    if n == |kwargs| {
      assert kwargs[..n] == kwargs;
    } else {
      assert kwargs[..n + 1][..n] == kwargs[..n];
      PrepareFailurePersists(base, kwargs, n + 1);
    }
  }
}

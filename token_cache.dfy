/**
 * `_get_fb_access_token` (server.py): the Graph API token is read once, from
 * the `FB_ACCESS_TOKEN` environment variable when it is set and not empty,
 * else from the argument that follows `--fb-token` on the command line, and
 * kept in a module-level variable for every later call. The environment and
 * the argument vector are parameters here.
 */
module TokenCache {
  import opened Wrappers

  /** The two exceptions the lookup raises. */
  datatype TokenError =
    | MissingValue   // `--fb-token` is the last argument
    | NoToken        // neither the environment nor the command line names a token

  const TokenFlag: string := "--fb-token"

  /** `argv.index(s)`: the position of the first occurrence. */
  function FirstIndex(argv: seq<string>, s: string): (i: nat)
    requires s in argv
    ensures i < |argv| && argv[i] == s
    ensures forall j :: 0 <= j < i ==> argv[j] != s
    decreases |argv|
  {
    if argv[0] == s then 0
    else
      assert s in argv[1..];
      1 + FirstIndex(argv[1..], s)
  }

  /** The environment value counts only when it is set and not empty. */
  predicate EnvGiven(env: Option<string>) {
    env.Some? && env.value != ""
  }

  /** What a lookup on an empty cache yields. */
  function Resolve(env: Option<string>, argv: seq<string>): Result<string, TokenError> {
    if EnvGiven(env) then Success(env.value)
    else if TokenFlag in argv then
      var i := FirstIndex(argv, TokenFlag) + 1;
      if i < |argv| then Success(argv[i]) else Failure(MissingValue)
    else Failure(NoToken)
  }

  /** What a call returns: the cached token when there is one, else the lookup. */
  function Lookup(cached: Option<string>, env: Option<string>, argv: seq<string>): Result<string, TokenError> {
    if cached.Some? then Success(cached.value) else Resolve(env, argv)
  }

  /**
   * The cache after a call as the source writes it: the environment value
   * is stored before its truth is checked, so a lookup that raises leaves an empty
   * environment value behind.
   */
  function CachedAsWritten(cached: Option<string>, env: Option<string>, argv: seq<string>): Option<string> {
    if cached.Some? then cached
    else
      match Resolve(env, argv)
      case Success(t) => Some(t)
      case Failure(_) => env
  }

  /** The cache after a call when only a resolved token is stored. */
  function Cached(cached: Option<string>, env: Option<string>, argv: seq<string>): Option<string> {
    if cached.Some? then cached
    else
      match Resolve(env, argv)
      case Success(t) => Some(t)
      case Failure(_) => None
  }

  /**
   * A token from the command line is the argument right after the first
   * `--fb-token`, and it is used only when the environment gives none.
   */
  lemma ResolveFromArgv(env: Option<string>, argv: seq<string>)
    requires !EnvGiven(env)
    ensures Resolve(env, argv).Success? <==>
              exists i :: 0 <= i < |argv| - 1 && argv[i] == TokenFlag &&
                forall j :: 0 <= j < i ==> argv[j] != TokenFlag
    ensures Resolve(env, argv).Success? ==>
              exists i :: 0 <= i < |argv| - 1 && argv[i] == TokenFlag &&
                (forall j :: 0 <= j < i ==> argv[j] != TokenFlag) &&
                Resolve(env, argv).value == argv[i + 1]
  {
    if TokenFlag in argv {
      var k := FirstIndex(argv, TokenFlag);
      if exists i :: 0 <= i < |argv| - 1 && argv[i] == TokenFlag &&
                     forall j :: 0 <= j < i ==> argv[j] != TokenFlag {
        var i :| 0 <= i < |argv| - 1 && argv[i] == TokenFlag &&
                 forall j :: 0 <= j < i ==> argv[j] != TokenFlag;
        assert !(k < i) && !(i < k);
      }
    }
  }

  /** The lookup raises exactly when the environment gives no token and `--fb-token` is absent or last. */
  lemma ResolveFails(env: Option<string>, argv: seq<string>)
    ensures Resolve(env, argv) == Failure(NoToken) <==> !EnvGiven(env) && TokenFlag !in argv
    ensures Resolve(env, argv) == Failure(MissingValue) <==>
              !EnvGiven(env) && TokenFlag in argv && FirstIndex(argv, TokenFlag) == |argv| - 1
  {
  }

  /** A token in the environment wins over the command line. */
  lemma EnvWins(value: string, argv: seq<string>)
    requires value != ""
    ensures Resolve(Some(value), argv) == Success(value)
  {
  }

  /**
   * Once a call has returned a token, every later call returns that same
   * token and leaves the cache alone, whatever the environment and the
   * command line hold by then.
   */
  lemma CacheIsStable(cached: Option<string>, env: Option<string>, argv: seq<string>,
                      env2: Option<string>, argv2: seq<string>)
    requires Lookup(cached, env, argv).Success?
    ensures Lookup(Cached(cached, env, argv), env2, argv2) == Lookup(cached, env, argv)
    ensures Cached(Cached(cached, env, argv), env2, argv2) == Cached(cached, env, argv)
    ensures Lookup(CachedAsWritten(cached, env, argv), env2, argv2) == Lookup(cached, env, argv)
  {
  }

  /**
   * With only resolved tokens cached, a call made again in the same
   * environment gives the same answer: a lookup that raised raises again.
   */
  lemma LookupRepeatable(cached: Option<string>, env: Option<string>, argv: seq<string>)
    ensures Lookup(Cached(cached, env, argv), env, argv) == Lookup(cached, env, argv)
    ensures Lookup(cached, env, argv).Failure? ==> Cached(cached, env, argv) == None
  {
  }

  /**
   * As written, an empty `FB_ACCESS_TOKEN` without `--fb-token` makes the
   * first call raise but the second return the empty string as the token.
   */
  lemma AsWrittenCachesEmptyEnv()
    ensures Lookup(None, Some(""), []) == Failure(NoToken)
    ensures CachedAsWritten(None, Some(""), []) == Some("")
    ensures Lookup(CachedAsWritten(None, Some(""), []), Some(""), []) == Success("")
  {
  }

  /** The module-level `FB_ACCESS_TOKEN` and the function that fills it. */
  class TokenStore {
    var token: Option<string>

    /** At import time the variable is None. */
    constructor ()
      ensures token == None
    {
      token := None;
    }

    /** `_get_fb_access_token` as written. */
    method GetAsWritten(env: Option<string>, argv: seq<string>) returns (r: Result<string, TokenError>)
      modifies this
      ensures r == Lookup(old(token), env, argv)
      ensures token == CachedAsWritten(old(token), env, argv)
    {
      if token == None {
        token := env;
        if EnvGiven(token) {
          return Success(token.value);
        }
        if TokenFlag in argv {
          var i := FirstIndex(argv, TokenFlag) + 1;
          if i < |argv| {
            token := Some(argv[i]);
          } else {
            return Failure(MissingValue);
          }
        } else {
          return Failure(NoToken);
        }
      }
      return Success(token.value);
    }

    /** `_get_fb_access_token` storing only a token it has resolved. */
    method Get(env: Option<string>, argv: seq<string>) returns (r: Result<string, TokenError>)
      modifies this
      ensures r == Lookup(old(token), env, argv)
      ensures token == Cached(old(token), env, argv)
    {
      if token == None {
        if EnvGiven(env) {
          token := env;
          return Success(env.value);
        }
        if TokenFlag in argv {
          var i := FirstIndex(argv, TokenFlag) + 1;
          if i < |argv| {
            token := Some(argv[i]);
          } else {
            return Failure(MissingValue);
          }
        } else {
          return Failure(NoToken);
        }
      }
      return Success(token.value);
    }
  }
}

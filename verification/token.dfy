/** The page-token secret: a 32-byte buffer, zero at start, filled once from
    the environment the first time it is asked for and served unchanged on
    every later call. */
module Global {
  import opened Wrappers
  import opened GoStrings

  const SecretSize: nat := 32

  /** A `[32]byte` array. */
  type Secret = b: seq<uint8> | |b| == SecretSize witness seq(SecretSize, _ => 0)

  /** The package-level array before anything is written into it. */
  function ZeroSecret(): Secret {
    seq(SecretSize, _ => 0)
  }

  const PageTokenSecretName: GoString := Lit("PAGE_TOKEN_SECRET")

  /** The process environment, variable name to value. */
  type Environment = map<GoString, GoString>

  /** `os.Getenv`: an unset variable reads as the empty string. */
  function Getenv(env: Environment, key: GoString): (v: GoString)
    ensures key !in env ==> v == []
    ensures key in env ==> v == env[key]
  {
    if key in env then env[key] else []
  }

  /** Go's built-in `copy(dst, src)`: the first `min(len(dst), len(src))`
      bytes of `dst` are overwritten by those of `src`; `dst` keeps its
      length and the rest of its bytes. */
  function Copy(dst: seq<uint8>, src: seq<uint8>): (r: seq<uint8>)
    ensures |r| == |dst|
    ensures forall i | 0 <= i < |r| && i < |src| :: r[i] == src[i]
    ensures forall i | |src| <= i < |r| :: r[i] == dst[i]
  {
    if |src| < |dst| then src + dst[|src|..] else src[..|dst|]
  }

  /** The package state: whether the once-guard has run, and the array. */
  datatype SecretCell = SecretCell(done: bool, buffer: Secret)

  const InitialCell: SecretCell := SecretCell(false, ZeroSecret())

  /** The only states the package can be in: before initialisation the array
      is still all zero. */
  predicate Reachable(cell: SecretCell) {
    !cell.done ==> cell.buffer == ZeroSecret()
  }

  /** The process exits because the variable is missing or empty. */
  datatype Fatal = MissingEnvironmentVariable(name: GoString)

  /** A served secret together with the package state after the call. */
  datatype Served = Served(cell: SecretCell, secret: Secret)

  /** The secret a first call derives from the variable's value `v`. */
  function SecretFromValue(v: GoString): (s: Secret)
    ensures forall i | 0 <= i < SecretSize && i < |v| :: s[i] == v[i]
    ensures forall i | |v| <= i < SecretSize :: s[i] == 0
  {
    Copy(ZeroSecret(), v)
  }

  /** `PageTokenSecret`: the first call reads the environment, fails fatally on
      an empty value and otherwise copies it into the array; every later call
      serves the array as it is, without looking at the environment. */
  function PageTokenSecret(cell: SecretCell, env: Environment): (r: Result<Served, Fatal>)
    ensures cell.done ==> r == Success(Served(cell, cell.buffer))
    ensures !cell.done ==> (r.Failure? <==> Getenv(env, PageTokenSecretName) == [])
    ensures r.Failure? ==> r.error == MissingEnvironmentVariable(PageTokenSecretName)
    ensures r.Success? ==> r.value.cell.done && r.value.secret == r.value.cell.buffer
    ensures r.Success? && !cell.done && Reachable(cell)
      ==> r.value.secret == SecretFromValue(Getenv(env, PageTokenSecretName))
    ensures r.Success? ==> Reachable(r.value.cell)
  {
    if cell.done then Success(Served(cell, cell.buffer))
    else
      var value := Getenv(env, PageTokenSecretName);
      if value == [] then Failure(MissingEnvironmentVariable(PageTokenSecretName))
      else
        var secret: Secret := Copy(cell.buffer, value);
        Success(Served(SecretCell(true, secret), secret))
  }

  /** Bytes of the value past the 32nd do not reach the secret. */
  lemma TruncationIgnoresTail(v: GoString)
    requires |v| > SecretSize
    ensures SecretFromValue(v) == SecretFromValue(v[..SecretSize])
  {
  }

  /** Two values of at least 32 bytes that agree on their first 32 give the
      same secret, whatever follows. */
  lemma SecretDependsOnlyOnPrefix(v: GoString, w: GoString)
    requires |v| >= SecretSize && |w| >= SecretSize
    requires v[..SecretSize] == w[..SecretSize]
    ensures SecretFromValue(v) == SecretFromValue(w)
  {
  }

  /** One call per environment snapshot in `envs`, in order, as long as the
      process survives: the secrets served, or the fatal exit. */
  function Calls(cell: SecretCell, envs: seq<Environment>): Result<seq<Secret>, Fatal>
    decreases |envs|
  {
    if |envs| == 0 then Success([])
    else match PageTokenSecret(cell, envs[0])
      case Failure(e) => Failure(e)
      case Success(served) =>
        match Calls(served.cell, envs[1..])
        case Failure(e) => Failure(e)
        case Success(rest) => Success([served.secret] + rest)
  }

  /** Once initialised, every call serves the cached array, whatever the
      environment holds by then. */
  lemma {:induction false} CachedCalls(cell: SecretCell, envs: seq<Environment>)
    requires cell.done
    ensures Calls(cell, envs) == Success(seq(|envs|, _ => cell.buffer))
    decreases |envs|
  {
    if |envs| == 0 {
      assert seq(0, _ => cell.buffer) == [];
    } else {
      assert PageTokenSecret(cell, envs[0]) == Success(Served(cell, cell.buffer));
      CachedCalls(cell, envs[1..]);
      assert Calls(cell, envs) == Success([cell.buffer] + seq(|envs| - 1, _ => cell.buffer));
      assert [cell.buffer] + seq(|envs| - 1, _ => cell.buffer) == seq(|envs|, _ => cell.buffer);
    }
  }

  /** The environment is read at most once: from the initial state, a run of
      calls either exits on the first (the variable is empty) or serves the
      secret taken from the first snapshot on every call. */
  lemma InitialisedAtMostOnce(envs: seq<Environment>)
    requires |envs| > 0
    ensures var v := Getenv(envs[0], PageTokenSecretName);
      && (v == [] ==> Calls(InitialCell, envs) == Failure(MissingEnvironmentVariable(PageTokenSecretName)))
      && (v != [] ==> Calls(InitialCell, envs) == Success(seq(|envs|, _ => SecretFromValue(v))))
  {
    var v := Getenv(envs[0], PageTokenSecretName);
    if v != [] {
      var served := PageTokenSecret(InitialCell, envs[0]).value;
      CachedCalls(served.cell, envs[1..]);
      assert [served.secret] + seq(|envs| - 1, _ => served.secret) == seq(|envs|, _ => SecretFromValue(v));
    }
  }
}

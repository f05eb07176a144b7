/** The process environment and JavaScript's `||` fallback over it. A variable
    is either absent (`undefined`) or a string, and `||` treats the empty
    string like an absent one. */
module Env {

  type Env = map<string, string>

  /** `process.env[key]` is truthy: set and not empty. */
  predicate Truthy(env: Env, key: string) {
    key in env && env[key] != ""
  }

  /** No variable of `keys` is truthy. */
  predicate NoneTruthy(env: Env, keys: seq<string>) {
    forall j :: 0 <= j < |keys| ==> !Truthy(env, keys[j])
  }

  /** `process.env[keys[0]] || ... || process.env[keys[n-1]] || fallback`:
      the value of the first truthy variable of `keys`, else `fallback`. */
  function FirstTruthy(env: Env, keys: seq<string>, fallback: string): (r: string)
    ensures forall i :: 0 <= i < |keys| && Truthy(env, keys[i]) && NoneTruthy(env, keys[..i]) ==>
      r == env[keys[i]]
    ensures NoneTruthy(env, keys) ==> r == fallback
    ensures fallback != "" ==> r != ""
    decreases |keys|
  {
    if keys == [] then fallback
    else if Truthy(env, keys[0]) then env[keys[0]]
    else
      NoneTruthyTail(env, keys);
      FirstTruthy(env, keys[1..], fallback)
  }

  /** Dropping a falsy first variable shifts every position by one. */
  lemma NoneTruthyTail(env: Env, keys: seq<string>)
    requires keys != []
    ensures forall i :: 1 <= i < |keys| && NoneTruthy(env, keys[..i]) ==>
      keys[1..][i - 1] == keys[i] && NoneTruthy(env, keys[1..][..i - 1])
  {
    forall i | 1 <= i < |keys| && NoneTruthy(env, keys[..i])
      ensures NoneTruthy(env, keys[1..][..i - 1])
    {
      var shifted, prefix := keys[1..][..i - 1], keys[..i];
      forall j | 0 <= j < |shifted|
        ensures !Truthy(env, shifted[j])
      {
        assert shifted[j] == prefix[j + 1];
      }
    }
  }
}

/** Secret lookup: the key vault first (when the deployment enables it and
    the caller allows it), then the process environment, then the caller's
    default; and the start-up step that copies the standard secrets from the
    vault into an environment that lacks them. The vault is a map from vault
    names to values, or none when no client can be made. */
module Secrets {
  import opened Outcomes
  import opened Text

  /** A vault-compatible name: lower case, `_` turned into `-`. */
  function KeyVaultName(envName: string): (name: string)
    ensures |name| == |envName|
    ensures forall i :: 0 <= i < |name| ==> !IsUpper(name[i]) && name[i] != '_'
    ensures forall i :: 0 <= i < |name| ==> name[i] == (if envName[i] == '_' then '-' else LowerChar(envName[i]))
  {
    ReplaceChar(Lower(envName), '_', '-')
  }

  /** A name already in vault form converts to itself. */
  lemma KeyVaultNameIdempotent(envName: string)
    ensures KeyVaultName(KeyVaultName(envName)) == KeyVaultName(envName)
  {
    var once := KeyVaultName(envName);
    forall i | 0 <= i < |once| ensures KeyVaultName(once)[i] == once[i] {
      assert !IsUpper(once[i]) && once[i] != '_';
    }
  }

  lemma KeyVaultNameExamples()
    ensures KeyVaultName("REDIS_PASSWORD") == "redis-password"
    ensures KeyVaultName("DATABASE_URL") == "database-url"
  {
  }

  /** What the vault yields for an environment-style name: nothing without a
      client, for a missing secret, or on any retrieval error. */
  function VaultValue(vault: Option<map<string, string>>, name: string): (v: Option<string>)
    ensures v.Some? <==> vault.Some? && KeyVaultName(name) in vault.value
    ensures v.Some? ==> v.value == vault.value[KeyVaultName(name)]
  {
    if vault.Some? && KeyVaultName(name) in vault.value then Some(vault.value[KeyVaultName(name)]) else None
  }

  /** `get_secret` (and `get_secret_sync`, which decides the same way):
      `vaultEnabled` is `USE_AZURE_KEY_VAULT`, `useKeyVault` the caller's flag. */
  function GetSecret(vaultEnabled: bool, vault: Option<map<string, string>>, env: map<string, string>,
                     name: string, default: Option<string>, useKeyVault: bool): (v: Option<string>)
    ensures useKeyVault && vaultEnabled && VaultValue(vault, name).Some? ==> v == VaultValue(vault, name)
    ensures !(useKeyVault && vaultEnabled && VaultValue(vault, name).Some?) && name in env ==> v == Some(env[name])
    ensures !(useKeyVault && vaultEnabled && VaultValue(vault, name).Some?) && name !in env ==> v == default
  {
    var fromVault := if useKeyVault && vaultEnabled then VaultValue(vault, name) else None;
    if fromVault.Some? then fromVault
    else if name in env then Some(env[name])
    else default
  }

  /** The answer always comes from one of the three sources. */
  lemma SecretSource(vaultEnabled: bool, vault: Option<map<string, string>>, env: map<string, string>,
                     name: string, default: Option<string>, useKeyVault: bool)
    ensures var v := GetSecret(vaultEnabled, vault, env, name, default, useKeyVault);
      v == default || (name in env && v == Some(env[name])) || (vaultEnabled && v == VaultValue(vault, name))
    ensures !vaultEnabled || !useKeyVault ==>
      GetSecret(vaultEnabled, vault, env, name, default, useKeyVault) == GetSecret(false, None, env, name, default, true)
  {
  }

  /** The secrets copied at start-up. */
  const StandardSecrets := [
    "POSTGRES_PASSWORD", "REDIS_PASSWORD", "LITELLM_MASTER_KEY",
    "LITELLM_SALT_KEY", "SMTP_PASSWORD", "GITHUB_CLIENT_SECRET"
  ]

  /** No standard secret is listed twice (their lengths already differ). */
  lemma StandardSecretsDistinct()
    ensures forall i, j :: 0 <= i < j < |StandardSecrets| ==> StandardSecrets[i] != StandardSecrets[j]
  {
    forall i, j | 0 <= i < j < |StandardSecrets| ensures StandardSecrets[i] != StandardSecrets[j] {
      assert |StandardSecrets[i]| != |StandardSecrets[j]|;
    }
  }

  /** The process environment. */
  class Environment {
    var vars: map<string, string>

    constructor (vars: map<string, string>)
      ensures this.vars == vars
    {
      this.vars := vars;
    }
  }

  /** Whether a standard secret is copied: it is not yet in the environment
      and the vault holds a non-empty value for it. */
  predicate Copies(vault: Option<map<string, string>>, env: map<string, string>, name: string) {
    name !in env && VaultValue(vault, name).Some? && VaultValue(vault, name).value != ""
  }

  /** `load_secrets_to_env`: nothing when the vault is disabled; otherwise one
      entry per standard secret, true exactly for the secrets copied, and the
      environment gains those and nothing else. */
  method LoadSecretsToEnv(vaultEnabled: bool, vault: Option<map<string, string>>, env: Environment)
    returns (loaded: map<string, bool>)
    modifies env
    ensures !vaultEnabled ==> loaded == map[] && env.vars == old(env.vars)
    ensures vaultEnabled ==>
      && loaded.Keys == (set i | 0 <= i < |StandardSecrets| :: StandardSecrets[i])
      && (forall i :: 0 <= i < |StandardSecrets| ==>
            loaded[StandardSecrets[i]] == Copies(vault, old(env.vars), StandardSecrets[i]))
      && (forall i :: 0 <= i < |StandardSecrets| && Copies(vault, old(env.vars), StandardSecrets[i]) ==>
            StandardSecrets[i] in env.vars && Some(env.vars[StandardSecrets[i]]) == VaultValue(vault, StandardSecrets[i]))
    ensures forall n :: n in old(env.vars) ==> n in env.vars && env.vars[n] == old(env.vars)[n]
    ensures forall n :: n in env.vars && n !in old(env.vars) ==>
      n in loaded && loaded[n] && Some(env.vars[n]) == VaultValue(vault, n)
  {
    if !vaultEnabled {
      return map[];
    }
    StandardSecretsDistinct();
    loaded := LoadEach(vault, env, StandardSecrets);
  }

  /** The loop of `load_secrets_to_env` over a list of distinct names. */
  method LoadEach(vault: Option<map<string, string>>, env: Environment, names: seq<string>)
    returns (loaded: map<string, bool>)
    requires forall i, j :: 0 <= i < j < |names| ==> names[i] != names[j]
    modifies env
    ensures loaded.Keys == (set i | 0 <= i < |names| :: names[i])
    ensures forall i :: 0 <= i < |names| ==> loaded[names[i]] == Copies(vault, old(env.vars), names[i])
    ensures forall i :: 0 <= i < |names| && Copies(vault, old(env.vars), names[i]) ==>
      names[i] in env.vars && Some(env.vars[names[i]]) == VaultValue(vault, names[i])
    ensures forall n :: n in old(env.vars) ==> n in env.vars && env.vars[n] == old(env.vars)[n]
    ensures forall n :: n in env.vars && n !in old(env.vars) ==>
      n in loaded && loaded[n] && Some(env.vars[n]) == VaultValue(vault, n)
  {
    loaded := map[];
    for i := 0 to |names|
      invariant loaded.Keys == (set j | 0 <= j < i :: names[j])
      invariant forall j :: 0 <= j < i ==> loaded[names[j]] == Copies(vault, old(env.vars), names[j])
      invariant forall j :: 0 <= j < i && Copies(vault, old(env.vars), names[j]) ==>
        names[j] in env.vars && Some(env.vars[names[j]]) == VaultValue(vault, names[j])
      invariant forall n :: n in old(env.vars) ==> n in env.vars && env.vars[n] == old(env.vars)[n]
      invariant forall n :: n in env.vars && n !in old(env.vars) ==>
        n in loaded && loaded[n] && Some(env.vars[n]) == VaultValue(vault, n)
      invariant forall j :: i <= j < |names| ==> (names[j] in env.vars <==> names[j] in old(env.vars))
    {
      var name := names[i];
      if name !in env.vars {
        var value := VaultValue(vault, name);
        if value.Some? && value.value != "" {
          env.vars := env.vars[name := value.value];
          loaded := loaded[name := true];
        } else {
          loaded := loaded[name := false];
        }
      } else {
        loaded := loaded[name := false];
      }
    }
  }
}

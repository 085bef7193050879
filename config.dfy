/**
 * Environment-driven configuration of the vault client (lambda/skyflow.go):
 * loadSkyflowConfigs, envOrDefault and envIntOrDefault. The process
 * environment is a parameter `env`; os.Getenv gives "" for a variable that
 * is not set, so an unset variable and an empty one are the same: both
 * read as Lookup(env, key) == "".
 */
module Config {
  import opened Wrappers
  import opened Text
  import opened Vault

  type Env = map<string, string>

  /** envOrDefault: the variable's value when it is non-empty, else the fallback. */
  function EnvOrDefault(env: Env, key: string, fallback: string): (r: string)
    ensures Lookup(env, key) != "" ==> r == Lookup(env, key)
    ensures Lookup(env, key) == "" ==> r == fallback
  {
    OrElse(Lookup(env, key), fallback)
  }

  /**
   * envIntOrDefault: the variable read by strconv.Atoi when that succeeds
   * with a positive number; the fallback when the variable is empty, not a
   * number, zero or negative.
   */
  function EnvIntOrDefault(env: Env, key: string, fallback: int): (r: int)
    ensures Atoi(Lookup(env, key)).Some? && Atoi(Lookup(env, key)).value > 0 ==> r == Atoi(Lookup(env, key)).value
    ensures !(Atoi(Lookup(env, key)).Some? && Atoi(Lookup(env, key)).value > 0) ==> r == fallback
    ensures fallback > 0 ==> r > 0
  {
    var v := Lookup(env, key);
    if v != "" then
      var n := Atoi(v);
      if n.Some? && n.value > 0 then n.value else fallback
    else fallback
  }

  /** The entities that may have a vault of their own, in the order they are tried. */
  const Entities: seq<string> := ["NAME", "ID", "SSN", "DOB", "EMAIL"]

  const DefaultBatchSize := 25
  const DefaultMaxConcurrency := 10
  const DefaultTable := "table1"
  const DefaultColumn := "name"

  /** The entity whose key the single-vault fallback configuration is stored under. */
  const FallbackEntity := "NAME"

  function VaultVar(entity: string): string { "SKYFLOW_VAULT_ID_" + entity }

  /** The configuration of one entity with its own vault: table "table1", column = entity in lower case. */
  function EntityConfig(env: Env, entity: string): SkyflowConfig
  {
    SkyflowConfig(
      Lookup(env, "SKYFLOW_DATA_PLANE_URL"),
      Lookup(env, "SKYFLOW_ACCOUNT_ID"),
      Lookup(env, "SKYFLOW_API_KEY"),
      Lookup(env, VaultVar(entity)),
      DefaultTable,
      ToLower(entity),
      EnvIntOrDefault(env, "SKYFLOW_BATCH_SIZE", DefaultBatchSize),
      EnvIntOrDefault(env, "SKYFLOW_MAX_CONCURRENCY", DefaultMaxConcurrency))
  }

  /** The configuration read from SKYFLOW_VAULT_ID, SKYFLOW_TABLE_NAME and SKYFLOW_COLUMN_NAME. */
  function FallbackConfig(env: Env): SkyflowConfig
  {
    SkyflowConfig(
      Lookup(env, "SKYFLOW_DATA_PLANE_URL"),
      Lookup(env, "SKYFLOW_ACCOUNT_ID"),
      Lookup(env, "SKYFLOW_API_KEY"),
      Lookup(env, "SKYFLOW_VAULT_ID"),
      EnvOrDefault(env, "SKYFLOW_TABLE_NAME", DefaultTable),
      EnvOrDefault(env, "SKYFLOW_COLUMN_NAME", DefaultColumn),
      EnvIntOrDefault(env, "SKYFLOW_BATCH_SIZE", DefaultBatchSize),
      EnvIntOrDefault(env, "SKYFLOW_MAX_CONCURRENCY", DefaultMaxConcurrency))
  }

  /** The per-entity configurations for the entities of `es` whose vault variable is set. */
  function PerEntity(env: Env, es: seq<string>): map<string, SkyflowConfig>
  {
    map e | e in es && Lookup(env, VaultVar(e)) != "" :: EntityConfig(env, e)
  }

  /** One more entity adds its configuration exactly when its vault variable is set. */
  lemma PerEntitySnoc(env: Env, es: seq<string>, e: string)
    ensures PerEntity(env, es + [e]) ==
      if Lookup(env, VaultVar(e)) != "" then PerEntity(env, es)[e := EntityConfig(env, e)] else PerEntity(env, es)
  {
    var m, m' := PerEntity(env, es), PerEntity(env, es + [e]);
    forall x
      ensures x in m' <==> x in m || (x == e && Lookup(env, VaultVar(e)) != "")
    {
      assert x in es + [e] <==> x in es || x == e;
    }
  }

  /**
   * What loadSkyflowConfigs returns: nothing (mock mode) without a data-plane
   * URL; otherwise the per-entity configurations, or, when there are none,
   * the single-vault configuration under "NAME", or nothing when
   * SKYFLOW_VAULT_ID is empty as well.
   */
  function SkyflowConfigs(env: Env): Option<map<string, SkyflowConfig>>
  {
    if Lookup(env, "SKYFLOW_DATA_PLANE_URL") == "" then None
    else
      var perEntity := PerEntity(env, Entities);
      if |perEntity| > 0 then Some(perEntity)
      else if Lookup(env, "SKYFLOW_VAULT_ID") == "" then None
      else Some(map[FallbackEntity := FallbackConfig(env)])
  }

  /** loadSkyflowConfigs, with the entity loop. */
  method LoadSkyflowConfigs(env: Env) returns (r: Option<map<string, SkyflowConfig>>)
    ensures r == SkyflowConfigs(env)
  {
    var url := Lookup(env, "SKYFLOW_DATA_PLANE_URL");
    if url == "" {
      return None;
    }
    var apiKey := Lookup(env, "SKYFLOW_API_KEY");
    var accountId := Lookup(env, "SKYFLOW_ACCOUNT_ID");
    var batchSize := EnvIntOrDefault(env, "SKYFLOW_BATCH_SIZE", DefaultBatchSize);
    var maxConcurrency := EnvIntOrDefault(env, "SKYFLOW_MAX_CONCURRENCY", DefaultMaxConcurrency);
    var configs: map<string, SkyflowConfig> := map[];
    for i := 0 to |Entities|
      invariant configs == PerEntity(env, Entities[..i])
    {
      var entity := Entities[i];
      assert Entities[..i + 1] == Entities[..i] + [entity];
      PerEntitySnoc(env, Entities[..i], entity);
      var vaultId := Lookup(env, VaultVar(entity));
      if vaultId == "" {
        continue;
      }
      configs := configs[entity := SkyflowConfig(url, accountId, apiKey, vaultId, DefaultTable, ToLower(entity), batchSize, maxConcurrency)];
    }
    assert Entities[..|Entities|] == Entities;
    if |configs| == 0 {
      var vaultId := Lookup(env, "SKYFLOW_VAULT_ID");
      if vaultId == "" {
        return None;
      }
      configs := configs[FallbackEntity := SkyflowConfig(url, accountId, apiKey, vaultId,
        EnvOrDefault(env, "SKYFLOW_TABLE_NAME", DefaultTable), EnvOrDefault(env, "SKYFLOW_COLUMN_NAME", DefaultColumn),
        batchSize, maxConcurrency)];
      assert configs == map[FallbackEntity := FallbackConfig(env)];
    }
    r := Some(configs);
  }

  /** Every loaded configuration has a positive batch size and concurrency. */
  lemma LoadedConfigsValid(env: Env)
    requires SkyflowConfigs(env).Some?
    ensures forall e | e in SkyflowConfigs(env).value :: ValidConfig(SkyflowConfigs(env).value[e])
    ensures forall e | e in SkyflowConfigs(env).value :: SkyflowConfigs(env).value[e].dataPlaneUrl != ""
  {
  }

  /**
   * Mock mode: nothing is loaded exactly when the data-plane URL is empty, or
   * when no vault variable (per-entity or single) is set.
   */
  lemma {:induction false} NoConfigsIff(env: Env)
    ensures SkyflowConfigs(env).None? <==>
      (Lookup(env, "SKYFLOW_DATA_PLANE_URL") == ""
       || (Lookup(env, "SKYFLOW_VAULT_ID") == "" && forall e | e in Entities :: Lookup(env, VaultVar(e)) == ""))
  {
    var perEntity := PerEntity(env, Entities);
    if exists e | e in Entities :: Lookup(env, VaultVar(e)) != "" {
      var e :| e in Entities && Lookup(env, VaultVar(e)) != "";
      assert e in perEntity;
    } else {
      assert perEntity == map[];
    }
  }

  /**
   * Per-entity vaults win: when any is set, the configurations are keyed by
   * exactly the entities whose vault variable is set, each with table
   * "table1", the entity's lower-case name as column and its own vault.
   */
  lemma PerEntityConfigs(env: Env, e: string)
    requires Lookup(env, "SKYFLOW_DATA_PLANE_URL") != ""
    requires e in Entities && Lookup(env, VaultVar(e)) != ""
    ensures SkyflowConfigs(env).Some?
    ensures forall x :: x in SkyflowConfigs(env).value <==> x in Entities && Lookup(env, VaultVar(x)) != ""
    ensures var cfg := SkyflowConfigs(env).value[e];
      cfg.vaultId == Lookup(env, VaultVar(e)) && cfg.tableName == "table1" && cfg.columnName == ToLower(e)
  {
    assert e in PerEntity(env, Entities);
  }

  /** Without per-entity vaults, SKYFLOW_VAULT_ID gives the one configuration, under "NAME". */
  lemma FallbackOnly(env: Env)
    requires Lookup(env, "SKYFLOW_DATA_PLANE_URL") != "" && Lookup(env, "SKYFLOW_VAULT_ID") != ""
    requires forall e | e in Entities :: Lookup(env, VaultVar(e)) == ""
    ensures SkyflowConfigs(env) == Some(map["NAME" := FallbackConfig(env)])
    ensures FallbackConfig(env).vaultId == Lookup(env, "SKYFLOW_VAULT_ID")
  {
    assert PerEntity(env, Entities) == map[];
  }
}

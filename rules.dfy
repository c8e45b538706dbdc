/** The closed gamerule registry of internal/minecraft/client.go: which rules
    may be written as booleans or as integers, and their vanilla defaults. */
module Rules {

  /** Rules `SetGameRuleBool` accepts. */
  const BoolRules: set<string> := {
    "announceAdvancements", "disableElytraMovementCheck", "disablePlayerMovementCheck",
    "disableRaids", "doDaylightCycle", "doEntityDrops", "doFireTick", "doInsomnia",
    "doImmediateRespawn", "doLimitedCrafting", "doMobLoot", "doMobSpawning",
    "doPatrolSpawning", "doTileDrops", "doTraderSpawning", "doVinesSpread",
    "doWeatherCycle", "doWardenSpawning", "drowningDamage", "fallDamage", "fireDamage",
    "forgiveDeadPlayers", "keepInventory", "logAdminCommands", "mobGriefing",
    "naturalRegeneration", "reducedDebugInfo", "sendCommandFeedback", "showDeathMessages",
    "spectatorsGenerateChunks", "universalAnger"
  }

  /** Rules `SetGameRuleInt` accepts. */
  const IntRules: set<string> := {
    "maxCommandChainLength", "maxEntityCramming", "playersSleepingPercentage",
    "randomTickSpeed", "spawnRadius"
  }

  /** Vanilla defaults of the boolean rules. */
  const DefaultBoolRules: map<string, bool> := map[
    "announceAdvancements" := true,
    "disableElytraMovementCheck" := false,
    "disablePlayerMovementCheck" := false,
    "disableRaids" := false,
    "doDaylightCycle" := true,
    "doEntityDrops" := true,
    "doFireTick" := true,
    "doInsomnia" := true,
    "doImmediateRespawn" := false,
    "doLimitedCrafting" := false,
    "doMobLoot" := true,
    "doMobSpawning" := true,
    "doPatrolSpawning" := true,
    "doTileDrops" := true,
    "doTraderSpawning" := true,
    "doVinesSpread" := true,
    "doWeatherCycle" := true,
    "doWardenSpawning" := true,
    "drowningDamage" := true,
    "fallDamage" := true,
    "fireDamage" := true,
    "forgiveDeadPlayers" := true,
    "keepInventory" := false,
    "logAdminCommands" := true,
    "mobGriefing" := true,
    "naturalRegeneration" := true,
    "reducedDebugInfo" := false,
    "sendCommandFeedback" := true,
    "showDeathMessages" := true,
    "spectatorsGenerateChunks" := true,
    "universalAnger" := false
  ]

  /** Vanilla defaults of the integer rules. */
  const DefaultIntRules: map<string, int> := map[
    "maxCommandChainLength" := 65536,
    "maxEntityCramming" := 24,
    "playersSleepingPercentage" := 100,
    "randomTickSpeed" := 3,
    "spawnRadius" := 5
  ]

  predicate IsBoolRule(rule: string) {
    rule in BoolRules
  }

  predicate IsIntRule(rule: string) {
    rule in IntRules
  }

  /** No rule is both a boolean and an integer rule. */
  lemma RulesDisjoint()
    ensures BoolRules * IntRules == {}
  {
  }

  /** Every rule that can be written has a default, and only those rules do. */
  lemma DefaultsCoverRules()
    ensures DefaultBoolRules.Keys == BoolRules
    ensures DefaultIntRules.Keys == IntRules
  {
  }

  /** The only boolean rules whose default is false. */
  lemma FalseDefaults()
    ensures forall r :: r in DefaultBoolRules && !DefaultBoolRules[r] <==>
      r in {"disableElytraMovementCheck", "disablePlayerMovementCheck", "disableRaids",
            "doImmediateRespawn", "doLimitedCrafting", "keepInventory", "reducedDebugInfo",
            "universalAnger"}
  {
  }

  /** An integer rule has an integer default and no boolean one, so a reset,
      which consults the boolean defaults first, still finds its default. */
  lemma IntRuleDefaults(r: string)
    requires r in IntRules
    ensures r !in DefaultBoolRules && r in DefaultIntRules
  {
    assert r !in BoolRules by { RulesDisjoint(); }
    assert DefaultBoolRules.Keys == BoolRules by { DefaultsCoverRules(); }
  }

  /** A boolean rule has a boolean default. */
  lemma BoolRuleDefaults(r: string)
    requires r in BoolRules
    ensures r in DefaultBoolRules
  {
  }

  /** A rule with a default is a registered rule. */
  lemma DefaultsAreRules(r: string)
    ensures r in DefaultBoolRules ==> r in BoolRules
    ensures r in DefaultIntRules ==> r in IntRules
  {
  }

  /** `keepInventory` is a boolean rule whose default is false. */
  lemma KeepInventoryRule()
    ensures "keepInventory" in BoolRules && "keepInventory" in DefaultBoolRules
    ensures !DefaultBoolRules["keepInventory"]
  {
  }

  /** `spawnRadius` is an integer rule whose default is 5. */
  lemma SpawnRadiusRule()
    ensures "spawnRadius" in IntRules && "spawnRadius" !in DefaultBoolRules
    ensures DefaultIntRules["spawnRadius"] == 5
  {
    IntRuleDefaults("spawnRadius");
  }
}

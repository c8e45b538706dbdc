/** The errors the client returns, one constructor per `return err` /
    `fmt.Errorf` site of internal/minecraft/client.go. */
module Errors {

  datatype Error =
    | Transport(cause: string)          // the RCON error, returned unchanged
    | SendFailed(cause: string)         // "send command: %w"
    | UnexpectedResponse(out: string)   // a reply without ':'
    | ParseInt(text: string)            // "parse int: %w"
    | UnknownModeId(id: int)            // an id outside the game-mode table
    | NotBoolRule(rule: string)         // SetGameRuleBool on an unknown rule
    | NotIntRule(rule: string)          // SetGameRuleInt on an unknown rule
    | NoDefault(rule: string)           // ResetGameRuleToDefault without a default
}

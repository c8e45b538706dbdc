/** `minecraft_gamerule` (internal/provider/gamerule_resource.go): a rule name
    and a value given as text, whose kind decides the client call. */
module GameruleResource {
  import opened Wrappers
  import opened Text
  import opened Errors
  import opened Transport
  import opened Commands
  import opened Rules
  import opened Replies
  import opened Client
  import opened Framework

  datatype GameruleData = GameruleData(id: Str, name: Str, value: Str)

  /** How a planned value is read: an integer first, then true/false in any
      letter case, else neither. */
  datatype Inferred = IntValue(i: Int64) | BoolValue(b: bool) | Neither

  function Infer(value: string): Inferred {
    var v := TrimSpace(value);
    match Atoi(v)
    case Some(i) => IntValue(i)
    case None =>
      var lv := ToLower(v);
      if lv == "true" || lv == "false" then BoolValue(lv == "true") else Neither
  }

  /** The command Create and Update send for a planned name and value, or
      why they send none. */
  function WritePlan(name: string, value: string): Result<string, Problem> {
    match Infer(value)
    case IntValue(i) =>
      (match IntRuleWrite(TrimSpace(name), i)
       case Ok(cmd) => Ok(cmd)
       case Err(e) => Err(Client(e)))
    case BoolValue(b) =>
      (match BoolRuleWrite(TrimSpace(name), b)
       case Ok(cmd) => Ok(cmd)
       case Err(e) => Err(Client(e)))
    case Neither => Err(InvalidValue)
  }

  /** Every 64-bit integer written with `%d` is read back as that integer. */
  lemma InferDec(i: Int64)
    ensures Infer(Dec(i)) == IntValue(i)
  {
    DecChars(i);
    TrimSpaceOfTrimmed(Dec(i));
    AtoiDec(i);
  }

  /** "true" and "false" are read back as the boolean they name. */
  lemma InferBool(b: bool)
    ensures Infer(BoolText(b)) == BoolValue(b)
  {
    var t := BoolText(b);
    assert TrimSpace(t) == t by { TrimSpaceOfTrimmed(t); }
    assert !IsDigit(t[0]) && t[0] != '-' && t[0] != '+';
    ToLowerNoUpper(t);
  }

  /** Letter case and surrounding whitespace do not matter for booleans:
      any value that lowers to "true" or "false" is that boolean. */
  lemma InferAnyCase(value: string, b: bool)
    requires ToLower(TrimSpace(value)) == BoolText(b)
    ensures Infer(value) == BoolValue(b)
  {
    var t := TrimSpace(value);
    assert t != [];
    assert LowerChar(t[0]) == BoolText(b)[0];
    assert !IsDigit(t[0]) && t[0] != '-' && t[0] != '+';
  }

  /** The kind decides which rule table admits the name: an integer needs a
      known integer rule, a boolean a known boolean rule, and anything else
      is refused before any rule is looked at. */
  lemma WritePlanGate(name: string, value: string)
    ensures Infer(value).Neither? ==> WritePlan(name, value) == Err(InvalidValue)
    ensures Infer(value).IntValue? ==>
      (WritePlan(name, value).Ok? <==> TrimSpace(name) in IntRules)
      && (WritePlan(name, value).Ok? ==>
            WritePlan(name, value).value == GameRuleSet(TrimSpace(name), Dec(Infer(value).i)))
      && (WritePlan(name, value).Err? ==>
            WritePlan(name, value).error == Client(NotIntRule(TrimSpace(name))))
    ensures Infer(value).BoolValue? ==>
      (WritePlan(name, value).Ok? <==> TrimSpace(name) in BoolRules)
      && (WritePlan(name, value).Ok? ==>
            WritePlan(name, value).value == GameRuleSet(TrimSpace(name), BoolText(Infer(value).b)))
      && (WritePlan(name, value).Err? ==>
            WritePlan(name, value).error == Client(NotBoolRule(TrimSpace(name))))
  {
    TrimSpaceIdempotent(name);
    match Infer(value)
    case IntValue(i) => IntRuleGate(TrimSpace(name), i);
    case BoolValue(b) => BoolRuleGate(TrimSpace(name), b);
    case Neither =>
  }

  /** Refresh and plan agree: a query answered with a lone integer, stored
      by Read, is inferred as that integer again. */
  lemma RefreshedIntReplans(lead: string, i: Int64, trail: string)
    requires AllSpace(lead) && AllSpace(trail)
    ensures Infer(TrimSpace(GameRuleValue(lead + Dec(i) + trail))) == IntValue(i)
  {
    DecChars(i);
    GameRuleLoneWord(lead, Dec(i), trail);
    TrimSpaceOfTrimmed(Dec(i));
    InferDec(i);
  }

  /** The part Create and Update share: send the planned command. */
  method Apply(c: Conn, name: string, value: string) returns (p: Option<Problem>)
    modifies c
    ensures WritePlan(name, value).Err? ==>
      c.log == old(c.log) && p == Some(WritePlan(name, value).error)
    ensures WritePlan(name, value).Ok? ==>
      c.log == old(c.log) + [Command(WritePlan(name, value).value)]
      && p == (match SendErr(old(c.Next())) case Some(e) => Some(Client(e)) case None => None)
  {
    var n := TrimSpace(name);
    var v := TrimSpace(value);
    var err: Option<Error>;
    match Atoi(v) {
      case Some(i) =>
        err := SetGameRuleInt(c, n, i);
      case None =>
        var lv := ToLower(v);
        if lv == "true" || lv == "false" {
          err := SetGameRuleBool(c, n, lv == "true");
        } else {
          return Some(InvalidValue);
        }
    }
    TrimSpaceIdempotent(name);
    p := match err case Some(e) => Some(Client(e)) case None => None;
  }

  /** Create sets the rule and stores the plan with the trimmed name as id. */
  method Create(c: Conn, plan: GameruleData) returns (out: Outcome<GameruleData>)
    modifies c
    ensures WritePlan(plan.name.value, plan.value.value).Err? ==>
      c.log == old(c.log) && out == Rejected(WritePlan(plan.name.value, plan.value.value).error)
    ensures WritePlan(plan.name.value, plan.value.value).Ok? ==>
      c.log == old(c.log) + [Command(WritePlan(plan.name.value, plan.value.value).value)]
      && out == Settle(SendErr(old(c.Next())), plan.(id := Known(TrimSpace(plan.name.value))))
  {
    var p := Apply(c, plan.name.value, plan.value.value);
    if p.Some? {
      return Rejected(p.value);
    }
    return Stored(plan.(id := Known(TrimSpace(plan.name.value))));
  }

  /** Update sets the rule the same way and stores the plan as it is. */
  method Update(c: Conn, plan: GameruleData) returns (out: Outcome<GameruleData>)
    modifies c
    ensures WritePlan(plan.name.value, plan.value.value).Err? ==>
      c.log == old(c.log) && out == Rejected(WritePlan(plan.name.value, plan.value.value).error)
    ensures WritePlan(plan.name.value, plan.value.value).Ok? ==>
      c.log == old(c.log) + [Command(WritePlan(plan.name.value, plan.value.value).value)]
      && out == Settle(SendErr(old(c.Next())), plan)
  {
    var p := Apply(c, plan.name.value, plan.value.value);
    if p.Some? {
      return Rejected(p.value);
    }
    return Stored(plan);
  }

  /** Read queries the rule and stores what the reply reports, trimmed. */
  method Read(c: Conn, state: GameruleData) returns (out: Outcome<GameruleData>)
    modifies c
    ensures c.log == old(c.log) + [Command(GameRuleQuery(TrimSpace(state.name.value)))]
    ensures old(c.Next()).Failed? ==> out == Rejected(Client(Transport(old(c.Next()).cause)))
    ensures old(c.Next()).Answer? ==>
      out == Stored(state.(value := Known(TrimSpace(GameRuleValue(old(c.Next()).text)))))
  {
    var name := TrimSpace(state.name.value);
    TrimSpaceIdempotent(state.name.value);
    var raw := GetGameRule(c, name);
    if raw.Err? {
      return Rejected(Client(raw.error));
    }
    return Stored(state.(value := Known(TrimSpace(raw.value))));
  }

  /** Delete puts the rule back to its vanilla default; a failure, an
      unknown rule included, is only a warning. */
  method Delete(c: Conn, state: GameruleData) returns (diags: seq<Diag>)
    modifies c
    ensures !HasError(diags)
    ensures ResetWrite(state.name.value).Err? ==>
      c.log == old(c.log) && diags == [Warning(Client(ResetWrite(state.name.value).error))]
    ensures ResetWrite(state.name.value).Ok? ==>
      c.log == old(c.log) + [Command(ResetWrite(state.name.value).value)]
      && diags == Warned(SendErr(old(c.Next())))
  {
    var name := TrimSpace(state.name.value);
    TrimSpaceIdempotent(state.name.value);
    var err := ResetGameRuleToDefault(c, name);
    diags := Warned(err);
  }

  /** Import by rule name: the trimmed id becomes id and name, and the value
      is read from the server. */
  method ImportState(c: Conn, id: string) returns (out: Outcome<GameruleData>)
    modifies c
    ensures c.log == old(c.log) + [Command(GameRuleQuery(TrimSpace(id)))]
    ensures old(c.Next()).Failed? ==> out == Rejected(Client(Transport(old(c.Next()).cause)))
    ensures old(c.Next()).Answer? ==>
      out == Stored(GameruleData(Known(TrimSpace(id)), Known(TrimSpace(id)),
                                 Known(TrimSpace(GameRuleValue(old(c.Next()).text)))))
  {
    var name := TrimSpace(id);
    TrimSpaceIdempotent(id);
    var raw := GetGameRule(c, name);
    if raw.Err? {
      return Rejected(Client(raw.error));
    }
    return Stored(GameruleData(Known(name), Known(name), Known(TrimSpace(raw.value))));
  }
}

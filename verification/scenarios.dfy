/** The scene of the repository's test fixtures (tests/conftest.py) and of
    action_formatter.py's example: Aldren, who can attack a character, in
    Old Town with John the Brave and a sword. */
module Scenarios {
  import opened Text
  import opened Wrappers
  import opened Json
  import opened Dict
  import opened Regex
  import opened Scene
  import Parse
  import Models
  import opened ActionFormatter

  const OldTown := Object("Old Town", "A quiet and peaceful town.")
  const JohnTheBrave := Character("John the Brave", "A fearless warrior", OldTown)
  const Sword := Object("Sword", "A sharp blade")
  const Attack := Skill("Attack", "Deliver a powerful blow", [CharacterParam])
  const Aldren := Protagonist("Aldren", "Brave and curious", OldTown,
    ["Saved the village", "Lost a friend"], ["Find the ancient artifact", "Defeat the evil warlock"],
    [Attack], "Determined and compassionate")

  const Names := Parse.AuthorizedNames([JohnTheBrave], [OldTown], [Sword])

  /** The completion tests/test_parse.py reads back,
      `attack John the Brave "Hello, how are you"`, spelled piece by piece. */
  const TestCommand := "attack" + " " + "John the Brave" + " \"Hello, how are you\""

  /** The guided pattern of the fixtures compiles. */
  lemma AttackCompiles()
    ensures Parse.GetGuidedRegex([Attack], [JohnTheBrave], [OldTown], [Sword]) ==
      Success(Parse.GuidedPattern([Attack], Names))
  {
    assert Recognised([CharacterParam]) == [CharacterParam];
    assert Parse.SkillNames([Attack]) == ["Attack"];
    assert IsIdentifier("Attack");
    Parse.GuidedRegexCompiles([Attack], [JohnTheBrave], [OldTown], [Sword]);
  }

  /** One group reads one value when its slot's first try ends at the value. */
  lemma ReadableSingle(g: Group, v: string, trailing: string)
    requires v != [] && !IsSpace(v[0])
    requires FirstEnd(g.slot, v + trailing, |v|)
    ensures ReadableValues([g], [v], trailing)
  {
    assert [v][1..] == [];
    assert v + Spaced([]) + trailing == v + trailing;
  }

  /** John the Brave's name, then the quoted text, is readable by the
      Attack alternative. */
  lemma AttackReadable(trailing: string)
    ensures ReadableValues(SkillAlternative(Attack, Names).groups, ["John the Brave"], trailing)
  {
    var john := "John the Brave";
    assert Names.characters == [john];
    assert Recognised([CharacterParam]) == [CharacterParam];
    SkillAlternativeShape(Attack, Names);
    var gs := SkillAlternative(Attack, Names).groups;
    assert |gs| == 1 && gs[0].slot == NameAlt([john]);
    assert gs == [gs[0]];
    NameFirstEnd([john], 0, john, trailing);
    assert john[0] == 'J';
    ReadableSingle(gs[0], john, trailing);
  }

  /** tests/test_parse.py: the guided pattern compiles, and the completion is
      read as an `Attack` on John the Brave; the quoted text after the last
      group is left unread. */
  lemma TestParse()
    ensures Parse.GetGuidedRegex([Attack], [JohnTheBrave], [OldTown], [Sword]).Success?
    ensures Parse.Decode(TestCommand, Aldren, Parse.GetGuidedRegex([Attack], [JohnTheBrave], [OldTown], [Sword]).value)
      == Success(Parse.CharacterAction("Attack", Aldren, [Parse.Str("John the Brave")]))
  {
    var trailing := TestTrailing();
    AttackCompiles();
    AttackReadable(trailing);
    AttackLiteral();
    Parse.DecodeRoundTrip(Aldren, [Attack], Names, 0, "attack", ["John the Brave"], trailing);
    AttackConverted();
  }

  function TestTrailing(): (t: string)
    ensures "attack" + Spaced(["John the Brave"]) + t == TestCommand
  {
    var t := " \"Hello, how are you\"";
    assert Spaced(["John the Brave"]) == " " + "John the Brave";
    t
  }

  lemma AttackLiteral()
    ensures CiSame(Attack.name, "attack")
    ensures Recognised(Attack.parameterTypes) == [CharacterParam]
  {
  }

  lemma AttackConverted()
    ensures Parse.Converted(Recognised(Attack.parameterTypes), ["John the Brave"]) == [Parse.Str("John the Brave")]
  {
    assert Recognised(Attack.parameterTypes) == [CharacterParam];
  }

  /** tests/test_step.py: the action prints as `Aldren: Attack John the Brave`,
      spelled here piece by piece. */
  lemma TestStep()
    ensures Parse.ActionString(Parse.CharacterAction("Attack", Aldren, [Parse.Str("John the Brave")]))
      == "Aldren" + ": " + "Attack" + " " + "John the Brave"
  {
    assert Parse.ParametersText([Parse.Str("John the Brave")]) == "John the Brave";
  }

  // ---------------------------------------------------------------------
  // action_formatter.py's example

  const World := Entities([JohnTheBrave], [OldTown], [Sword])

  /** `{"action": {"command": "Attack", "parameters": {"character": name}}}`. */
  function AttackPayload(name: string): Json
  {
    JObj([("action", JObj([("command", JStr("Attack")), ("parameters", JObj([("character", JStr(name))]))]))])
  }

  lemma FixtureLists()
    ensures FormattedLists(World.characters, World.locations, World.items) ==
      NameLists(["john the brave"], ["old town"], ["sword"])
  {
    assert Lower("John the Brave") == "john the brave";
    assert Lower("Old Town") == "old town";
    assert Lower("Sword") == "sword";
  }

  /** The members of an enum made from one option. */
  lemma SingleOptionEnum(name: string, option: string)
    ensures Values(CreateDynamicEnum(name, [option]).members) == [option]
  {
    assert [option][..0] == [];
    assert EnumMembers([option]) == Put([], EnumKey(option), option);
    assert Keys<string>([]) == [];
  }

  /** The schema of the example: one model, for Attack, whose command enum
      holds "Attack" and whose character enum holds the lower-cased name. */
  lemma AttackSchema()
    ensures var lists := FormattedLists(World.characters, World.locations, World.items);
      && SchemaOf(Aldren, lists).Success?
      && |SchemaOf(Aldren, lists).value.variants| == 1
      && var v := SchemaOf(Aldren, lists).value.variants[0];
      && Values(v.command.members) == ["Attack"]
      && |v.parameters| == 1 && v.parameters[0].0 == "character" && v.parameters[0].1.EnumField?
      && Values(v.parameters[0].1.choices.members) == ["john the brave"]
  {
    var lists := FormattedLists(World.characters, World.locations, World.items);
    FixtureLists();
    SchemaShape(Aldren, lists, 0);
    SingleOptionEnum("character", "john the brave");
    ParamFieldsStep([], CharacterParam, lists);
    assert [CharacterParam] == [] + [CharacterParam];
    assert Keys<FieldType>([]) == [];
  }

  /** A one-field model checked against a one-field action. */
  lemma OneFieldVariant(v: Variant, cmd: string, name: string)
    requires |v.parameters| == 1 && v.parameters[0].1.EnumField?
    ensures var key := v.parameters[0].0;
      var action := JObj([("command", JStr(cmd)), ("parameters", JObj([(key, JStr(name))]))]);
      ValidateVariant(v, action) ==
        if cmd in Values(v.command.members) && name in Values(v.parameters[0].1.choices.members)
        then Some(ParsedAction(cmd, [(key, Chosen(name))]))
        else None
  {
    var key := v.parameters[0].0;
    var ps := [(key, JStr(name))];
    assert v.parameters[..0] == [];
    assert Get(ps, key) == Some(JStr(name));
    var members := [("command", JStr(cmd)), ("parameters", JObj(ps))];
    assert members[..1] == [("command", JStr(cmd))];
    assert Get(members, "command") == Some(JStr(cmd));
    assert Get(members, "parameters") == Some(JObj(ps));
    var c := v.parameters[0].1.choices;
    assert ValidateField(EnumField(v.command), JStr(cmd)) ==
      if cmd in Values(v.command.members) then Some(Chosen(cmd)) else None;
    assert ValidateField(EnumField(c), JStr(name)) == if name in Values(c.members) then Some(Chosen(name)) else None;
    assert ValidateFields(v.parameters[..0], ps) == Some([]);
    assert v.parameters[0] == (key, EnumField(c));
    assert FieldAccepts(v.parameters[0], ps) <==> name in Values(c.members);
    assert [] + [(key, Chosen(name))] == [(key, Chosen(name))];
    assert ValidateFields(v.parameters, ps) ==
      if name in Values(c.members) then Some([(key, Chosen(name))]) else None;
  }

  /** A union of one model validates what that model validates. */
  lemma OneVariantSchema(schema: Schema, action: Json)
    requires |schema.variants| == 1
    ensures Validate(schema, JObj([("action", action)])) ==
      if ValidateVariant(schema.variants[0], action).Some?
      then Success(ValidateVariant(schema.variants[0], action).value)
      else Failure(ActionParsingError)
  {
    assert Get([("action", action)], "action") == Some(action);
    assert schema.variants[1..] == [];
    assert FirstValid(schema.variants[1..], action) == None;
    assert FirstValid(schema.variants, action) == ValidateVariant(schema.variants[0], action);
  }

  /** The Attack payload validates exactly when the name is the enum's
      lower-cased one, and then yields the command and that name. */
  lemma AttackValidation(name: string)
    ensures var lists := FormattedLists(World.characters, World.locations, World.items);
      Validate(SchemaOf(Aldren, lists).value, AttackPayload(name)) ==
        if name == "john the brave"
        then Success(ParsedAction("Attack", [("character", Chosen("john the brave"))]))
        else Failure(ActionParsingError)
  {
    var lists := FormattedLists(World.characters, World.locations, World.items);
    AttackSchema();
    var schema := SchemaOf(Aldren, lists).value;
    var v := schema.variants[0];
    OneFieldVariant(v, "Attack", name);
    var action := JObj([("command", JStr("Attack")), ("parameters", JObj([("character", JStr(name))]))]);
    assert AttackPayload(name) == JObj([("action", action)]);
    OneVariantSchema(schema, action);
    assert "Attack" in Values(v.command.members);
    assert name in Values(v.parameters[0].1.choices.members) <==> name == "john the brave";
  }

  /** The example at the foot of action_formatter.py names "John the Brave"
      as the character's name is written; the enum holds only the lower-cased
      name, so validation fails and `ActionParsingError` is raised. */
  lemma MainExampleRejected()
    ensures ParseActionSpec(Aldren, AttackPayload("John the Brave"), World) == Failure(ActionParsingError)
  {
    FixtureLists();
    AttackValidation("John the Brave");
  }

  lemma JohnFound()
    ensures FirstNamed(CandidatesFor("character", World), "john the brave") == Some(Models.CharacterTarget(JohnTheBrave))
  {
    assert Lower("John the Brave") == "john the brave";
    assert Lower("john the brave") == "john the brave";
    assert CiEq(Models.TargetName(Models.CharacterTarget(JohnTheBrave)), "john the brave");
    assert CandidatesFor("character", World) == [Models.CharacterTarget(JohnTheBrave)];
  }

  lemma AttackResolves()
    ensures WellTyped([("character", Chosen("john the brave"))])
    ensures Resolve([("character", Chosen("john the brave"))], World) ==
      Success(Resolution(Some(Models.CharacterTarget(JohnTheBrave)), None))
  {
    var params := [("character", Chosen("john the brave"))];
    assert params[..0] == [];
    JohnFound();
  }

  /** `parse_action` once its schema, validation and loop are known. */
  lemma ParseActionSteps(character: Protagonist, payload: Json, world: Entities, parsed: ParsedAction, res: Resolution)
    requires var lists := FormattedLists(world.characters, world.locations, world.items);
      && SchemaOf(character, lists).Success?
      && Validate(SchemaOf(character, lists).value, payload) == Success(parsed)
    requires parsed.command in Parse.SkillNames(character.skills)
    requires WellTyped(parsed.params) && Resolve(parsed.params, world) == Success(res)
    ensures ParseActionSpec(character, payload, world) == Finish(character, parsed.command, res)
  {
  }

  /** The same action with the lower-cased name parses: the command is
      upper-cased and the target is John the Brave. */
  lemma LowerCaseExampleParses()
    ensures ParseActionSpec(Aldren, AttackPayload("john the brave"), World) ==
      Success(Models.LegacyAction("ATTACK", AsCharacter(Aldren), Some(Models.CharacterTarget(JohnTheBrave)), None))
  {
    var lists := FormattedLists(World.characters, World.locations, World.items);
    var parsed := ParsedAction("Attack", [("character", Chosen("john the brave"))]);
    AttackSchema();
    AttackValidation("john the brave");
    assert Parse.SkillNames(Aldren.skills) == ["Attack"];
    AttackResolves();
    ParseActionSteps(Aldren, AttackPayload("john the brave"), World, parsed,
      Resolution(Some(Models.CharacterTarget(JohnTheBrave)), None));
    AttackUpper();
  }

  lemma AttackUpper()
    ensures Upper("Attack") == "ATTACK"
  {
  }
}

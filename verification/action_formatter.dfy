/** action_formatter.py: the pydantic schema that constrains an LLM's JSON
    action, built from a protagonist's skills and the entities of the scene,
    and the reading of a JSON action back into models.py's `CharacterAction`. */
module ActionFormatter {
  import opened Text
  import opened Wrappers
  import opened Dict
  import opened Json
  import opened Scene
  import opened Models
  import Parse

  // ---------------------------------------------------------------------
  // create_dynamic_enum

  /** An enum class made by the functional API `Enum(name, members)`: member
      names bound to their values, in definition order. */
  datatype EnumType = EnumType(name: string, members: seq<(string, string)>)

  /** `s.capitalize()`. */
  function Capitalize(s: string): (r: string)
    ensures |r| == |s|
  {
    if s == [] then [] else [UpperChar(s[0])] + Lower(s[1..])
  }

  /** The member name an option gets: upper-cased, spaces turned into `_`. */
  function EnumKey(option: string): string
  {
    ReplaceChar(Upper(option), ' ', '_')
  }

  /** `{EnumKey(o): o for o in options}`: a later option with the same member
      name replaces the earlier one's value where it stands. */
  function EnumMembers(options: seq<string>): seq<(string, string)>
  {
    if options == [] then []
    else
      var n := |options| - 1;
      Put(EnumMembers(options[..n]), EnumKey(options[n]), options[n])
  }

  /** The last option whose member name is `key`: the reference reading of
      the comprehension. */
  function LastWithKey(options: seq<string>, key: string): (r: Option<string>)
    ensures r.Some? ==> r.value in options && EnumKey(r.value) == key
    ensures r.None? <==> forall i :: 0 <= i < |options| ==> EnumKey(options[i]) != key
  {
    if options == [] then None
    else
      var n := |options| - 1;
      if EnumKey(options[n]) == key then Some(options[n]) else LastWithKey(options[..n], key)
  }

  /** `create_dynamic_enum`: its members are stated by `EnumMembersLookup`
      and `EnumValues`. */
  function CreateDynamicEnum(name: string, options: seq<string>): EnumType
  {
    EnumType(Capitalize(name), EnumMembers(options))
  }

  lemma {:induction false} EnumMembersLookup(options: seq<string>)
    ensures NoDuplicates(Keys(EnumMembers(options)))
    ensures forall key :: Get(EnumMembers(options), key) == LastWithKey(options, key)
  {
    if options != [] {
      var n := |options| - 1;
      EnumMembersLookup(options[..n]);
      PutKeepsKeysUnique(EnumMembers(options[..n]), EnumKey(options[n]), options[n]);
      PutSpec(EnumMembers(options[..n]), EnumKey(options[n]), options[n]);
    }
  }

  lemma ValueIsLastWithKey(options: seq<string>, v: string)
    requires v in Values(EnumMembers(options))
    ensures v in options && LastWithKey(options, EnumKey(v)) == Some(v)
  {
    var ms := EnumMembers(options);
    EnumMembersLookup(options);
    var i :| 0 <= i < |ms| && Values(ms)[i] == v;
    GetUnique(ms, i);
  }

  lemma LastWithKeyIsValue(options: seq<string>, v: string)
    requires v in options && LastWithKey(options, EnumKey(v)) == Some(v)
    ensures v in Values(EnumMembers(options))
  {
    var ms := EnumMembers(options);
    EnumMembersLookup(options);
    var i :| 0 <= i < |ms| && ms[i] == (EnumKey(v), v);
    assert Values(ms)[i] == v;
  }

  /** A string is a value of the enum exactly when it is an option that no
      later option with the same member name displaces. */
  lemma EnumValues(name: string, options: seq<string>, v: string)
    ensures v in Values(CreateDynamicEnum(name, options).members) <==>
      v in options && LastWithKey(options, EnumKey(v)) == Some(v)
  {
    if v in Values(EnumMembers(options)) {
      ValueIsLastWithKey(options, v);
    }
    if v in options && LastWithKey(options, EnumKey(v)) == Some(v) {
      LastWithKeyIsValue(options, v);
    }
  }

  /** Two names that differ only in case or in a space against an `_` share a
      member name, and the earlier one is no longer a value of the enum. */
  lemma EnumKeyCollision()
    ensures EnumKey("john doe") == EnumKey("john_doe")
    ensures "john doe" !in Values(CreateDynamicEnum("character", ["john doe", "john_doe"]).members)
  {
    var options := ["john doe", "john_doe"];
    assert EnumKey("john doe") == "JOHN_DOE";
    assert EnumKey("john_doe") == "JOHN_DOE";
    assert LastWithKey(options, "JOHN_DOE") == Some("john_doe");
    EnumValues("character", options, "john doe");
  }

  // ---------------------------------------------------------------------
  // generate_typed_skill_model

  /** The type a parameter field is declared with. */
  datatype FieldType = EnumField(choices: EnumType) | IntField | StrField

  /** The model made for one skill: its `command` field's enum and the
      fields of its `parameters` model, keyed by kind name. */
  datatype Variant = Variant(name: string, command: EnumType, parameters: seq<(string, FieldType)>)

  /** The `Actions` model: one required field `action`, a union of the
      skills' models. */
  datatype Schema = Schema(variants: seq<Variant>)

  /** `Union[()]`: a protagonist without skills gives a union of no types. */
  datatype SchemaError = UnionOfNoTypes

  function LowerAll(names: seq<string>): (r: seq<string>)
    ensures |r| == |names| && forall i :: 0 <= i < |names| ==> r[i] == Lower(names[i])
  {
    seq(|names|, i requires 0 <= i < |names| => Lower(names[i]))
  }

  /** The lower-cased names the enums of a scene's entities are made from. */
  function FormattedLists(characters: seq<Character>, locations: seq<Location>, items: seq<Item>): NameLists
  {
    NameLists(LowerAll(Parse.CharacterNames(characters)), LowerAll(Parse.ObjectNames(locations)),
      LowerAll(Parse.ObjectNames(items)))
  }

  /** The field a parameter kind declares; `other` declares none. */
  function FieldOf(p: ParameterType, lists: NameLists): Option<FieldType>
  {
    match p
    case CharacterParam => Some(EnumField(CreateDynamicEnum("character", lists.characters)))
    case LocationParam => Some(EnumField(CreateDynamicEnum("location", lists.locations)))
    case ItemParam => Some(EnumField(CreateDynamicEnum("item", lists.items)))
    case AmountParam => Some(IntField)
    case ContentParam => Some(StrField)
    case OtherParam => None
  }

  /** The `parameters` dict after the kinds `ps`: each kind's field is
      assigned under its kind name, a repeated kind reassigning it. */
  function ParamFields(ps: seq<ParameterType>, lists: NameLists): seq<(string, FieldType)>
  {
    if ps == [] then []
    else
      var n := |ps| - 1;
      var front := ParamFields(ps[..n], lists);
      match FieldOf(ps[n], lists)
      case Some(f) => Put(front, PlainValue(ps[n]), f)
      case None => front
  }

  lemma PlainValueInjective(p: ParameterType, q: ParameterType)
    ensures PlainValue(p) == PlainValue(q) <==> p == q
  {
    if PlainValue(p) == PlainValue(q) {
      GroupTagInjective(p, q);
    }
  }

  /** Assigning a kind's field: the step from the fields of `ps` to those
      of `ps + [p]`. */
  lemma ParamFieldsSnoc(ps: seq<ParameterType>, p: ParameterType, lists: NameLists)
    ensures ParamFields(ps + [p], lists) ==
      match FieldOf(p, lists)
      case Some(f) => Put(ParamFields(ps, lists), PlainValue(p), f)
      case None => ParamFields(ps, lists)
  {
    assert (ps + [p])[..|ps|] == ps;
  }

  /** The step of `generate_typed_skill_model`'s inner loop, one branch per kind. */
  lemma ParamFieldsStep(ps: seq<ParameterType>, p: ParameterType, lists: NameLists)
    ensures p == CharacterParam ==>
      ParamFields(ps + [p], lists) == Put(ParamFields(ps, lists), "character", EnumField(CreateDynamicEnum("character", lists.characters)))
    ensures p == LocationParam ==>
      ParamFields(ps + [p], lists) == Put(ParamFields(ps, lists), "location", EnumField(CreateDynamicEnum("location", lists.locations)))
    ensures p == ItemParam ==>
      ParamFields(ps + [p], lists) == Put(ParamFields(ps, lists), "item", EnumField(CreateDynamicEnum("item", lists.items)))
    ensures p == AmountParam ==> ParamFields(ps + [p], lists) == Put(ParamFields(ps, lists), "amount", IntField)
    ensures p == ContentParam ==> ParamFields(ps + [p], lists) == Put(ParamFields(ps, lists), "content", StrField)
    ensures p == OtherParam ==> ParamFields(ps + [p], lists) == ParamFields(ps, lists)
  {
    ParamFieldsSnoc(ps, p, lists);
  }

  /** A skill's parameters model never declares a field twice, and each of
      its fields is named after a kind the skill has. */
  lemma {:induction false} ParamFieldsKeys(ps: seq<ParameterType>, lists: NameLists)
    ensures NoDuplicates(Keys(ParamFields(ps, lists)))
    ensures forall k :: k in Keys(ParamFields(ps, lists)) ==>
      exists p :: p in ps && FieldOf(p, lists).Some? && k == PlainValue(p)
  {
    if ps != [] {
      var n := |ps| - 1;
      var front := ParamFields(ps[..n], lists);
      ParamFieldsKeys(ps[..n], lists);
      ParamFieldsSnoc(ps[..n], ps[n], lists);
      assert ps[..n] + [ps[n]] == ps;
      if FieldOf(ps[n], lists).Some? {
        PutKeepsKeysUnique(front, PlainValue(ps[n]), FieldOf(ps[n], lists).value);
        PutSpec(front, PlainValue(ps[n]), FieldOf(ps[n], lists).value);
      }
      forall k | k in Keys(ParamFields(ps, lists))
        ensures exists p :: p in ps && FieldOf(p, lists).Some? && k == PlainValue(p)
      {
        if k in Keys(front) {
          var p :| p in ps[..n] && FieldOf(p, lists).Some? && k == PlainValue(p);
          assert p in ps;
        } else {
          assert k == PlainValue(ps[n]) && FieldOf(ps[n], lists).Some?;
        }
      }
    }
  }

  /** Each kind the skill has (besides `other`) declares its field, with the
      kind's type, under the kind's name; a kind it lacks declares none. */
  lemma {:induction false} ParamFieldsGet(ps: seq<ParameterType>, lists: NameLists, p: ParameterType)
    requires FieldOf(p, lists).Some?
    ensures Get(ParamFields(ps, lists), PlainValue(p)) == if p in ps then FieldOf(p, lists) else None
  {
    if ps != [] {
      var n := |ps| - 1;
      ParamFieldsGet(ps[..n], lists, p);
      ParamFieldsGetSnoc(ps[..n], ps[n], lists, p);
      assert ps[..n] + [ps[n]] == ps;
    }
  }

  /** The inductive step of `ParamFieldsGet`. */
  lemma ParamFieldsGetSnoc(ps: seq<ParameterType>, q: ParameterType, lists: NameLists, p: ParameterType)
    requires FieldOf(p, lists).Some?
    requires Get(ParamFields(ps, lists), PlainValue(p)) == if p in ps then FieldOf(p, lists) else None
    ensures Get(ParamFields(ps + [q], lists), PlainValue(p)) == if p in ps + [q] then FieldOf(p, lists) else None
  {
    ParamFieldsGetStep(ps, q, lists, p);
    assert p in ps + [q] <==> p in ps || p == q;
  }

  /** One more kind: its own field is now bound, every other one is as it was. */
  lemma ParamFieldsGetStep(ps: seq<ParameterType>, q: ParameterType, lists: NameLists, p: ParameterType)
    requires FieldOf(p, lists).Some?
    ensures Get(ParamFields(ps + [q], lists), PlainValue(p)) ==
      if p == q then FieldOf(p, lists) else Get(ParamFields(ps, lists), PlainValue(p))
  {
    ParamFieldsSnoc(ps, q, lists);
    PlainValueInjective(p, q);
    var fq := FieldOf(q, lists);
    if fq.Some? {
      PutSpec(ParamFields(ps, lists), PlainValue(q), fq.value);
    }
  }

  function VariantOf(s: Skill, lists: NameLists): Variant
  {
    Variant(s.name, CreateDynamicEnum("command", [s.name]), ParamFields(s.parameterTypes, lists))
  }

  /** The model `generate_typed_skill_model` returns, one variant per skill
      in skill order. */
  function SchemaOf(character: Protagonist, lists: NameLists): Result<Schema, SchemaError>
  {
    if character.skills == [] then Failure(UnionOfNoTypes)
    else
      Success(Schema(seq(|character.skills|, i requires 0 <= i < |character.skills| =>
        VariantOf(character.skills[i], lists))))
  }

  /** The inner loop of `generate_typed_skill_model`: the `parameters` dict
      one skill's kinds fill in. */
  method ParametersModel(ps: seq<ParameterType>, lists: NameLists) returns (parameters: seq<(string, FieldType)>)
    ensures parameters == ParamFields(ps, lists)
  {
    parameters := [];
    for j := 0 to |ps|
      invariant parameters == ParamFields(ps[..j], lists)
    {
      var p := ps[j];
      TakeSnoc(ps, j);
      ParamFieldsStep(ps[..j], p, lists);
      if p == CharacterParam {
        var characterEnum := CreateDynamicEnum("character", lists.characters);
        parameters := Put(parameters, "character", EnumField(characterEnum));
      } else if p == LocationParam {
        var locationEnum := CreateDynamicEnum("location", lists.locations);
        parameters := Put(parameters, "location", EnumField(locationEnum));
      } else if p == ItemParam {
        var itemEnum := CreateDynamicEnum("item", lists.items);
        parameters := Put(parameters, "item", EnumField(itemEnum));
      } else if p == AmountParam {
        parameters := Put(parameters, "amount", IntField);
      } else if p == ContentParam {
        parameters := Put(parameters, "content", StrField);
      }
    }
    assert ps[..|ps|] == ps;
  }

  /** One turn of the outer loop of `generate_typed_skill_model`: the
      parameters model, the `command` enum, and the skill's model fusing them. */
  method SkillModel(skill: Skill, lists: NameLists) returns (model: Variant)
    ensures model == VariantOf(skill, lists)
  {
    var parameters := ParametersModel(skill.parameterTypes, lists);
    var commandEnum := CreateDynamicEnum("command", [skill.name]);
    model := Variant(skill.name, commandEnum, parameters);
  }

  /** `f` applied to each element, appended one at a time, as the outer
      loop of `generate_typed_skill_model` appends the skill models. */
  function Appended<A, B>(f: A -> B, xs: seq<A>): seq<B>
  {
    if xs == [] then [] else Appended(f, xs[..|xs| - 1]) + [f(xs[|xs| - 1])]
  }

  lemma {:induction false} AppendedAt<A, B>(f: A -> B, xs: seq<A>)
    ensures |Appended(f, xs)| == |xs|
    ensures forall i :: 0 <= i < |xs| ==> Appended(f, xs)[i] == f(xs[i])
  {
    if xs != [] {
      var pre := xs[..|xs| - 1];
      AppendedAt(f, pre);
      forall i | 0 <= i < |xs| ensures Appended(f, xs)[i] == f(xs[i]) {
        if i < |pre| {
          assert xs[i] == pre[i];
        }
      }
    }
  }

  /** The union model is the skill models appended one skill at a time. */
  lemma SchemaOfAppended(character: Protagonist, lists: NameLists, f: Skill -> Variant)
    requires forall s :: f(s) == VariantOf(s, lists)
    ensures SchemaOf(character, lists) ==
      if character.skills == [] then Failure(UnionOfNoTypes)
      else Success(Schema(Appended(f, character.skills)))
  {
    AppendedAt(f, character.skills);
    if character.skills != [] {
      var variants := SchemaOf(character, lists).value.variants;
      forall i | 0 <= i < |variants| ensures variants[i] == Appended(f, character.skills)[i] {
        assert variants[i] == VariantOf(character.skills[i], lists);
        assert f(character.skills[i]) == VariantOf(character.skills[i], lists);
      }
      assert variants == Appended(f, character.skills);
    }
  }

  /** The loop of `generate_typed_skill_model` over the protagonist's
      skills, and the union it ends with. */
  method SkillModels(character: Protagonist, lists: NameLists) returns (r: Result<Schema, SchemaError>)
    ensures r == SchemaOf(character, lists)
  {
    var skills: seq<Variant> := [];
    ghost var modelOf: Skill -> Variant := s => VariantOf(s, lists);
    for k := 0 to |character.skills|
      invariant skills == Appended(modelOf, character.skills[..k])
    {
      var model := SkillModel(character.skills[k], lists);
      assert character.skills[..k + 1][..k] == character.skills[..k];
      assert model == modelOf(character.skills[k]);
      skills := skills + [model];
    }
    assert character.skills[..|character.skills|] == character.skills;
    SchemaOfAppended(character, lists, modelOf);
    AppendedAt(modelOf, character.skills);
    if skills == [] {
      r := Failure(UnionOfNoTypes);
    } else {
      r := Success(Schema(skills));
    }
  }

  /** `generate_typed_skill_model`: the lower-cased name lists, then one
      model per skill. */
  method GenerateTypedSkillModel(character: Protagonist, validCharacters: seq<Character>,
                                 validLocations: seq<Location>, validItems: seq<Item>)
    returns (r: Result<Schema, SchemaError>)
    ensures r == SchemaOf(character, FormattedLists(validCharacters, validLocations, validItems))
  {
    var lists := FormattedLists(validCharacters, validLocations, validItems);
    r := SkillModels(character, lists);
  }

  /** Each skill's model is named after the skill, its `command` enum is
      `Command` with the skill's name as its single value, and its
      parameters model is that of the skill's kinds. */
  lemma SchemaShape(character: Protagonist, lists: NameLists, i: nat)
    requires i < |character.skills|
    ensures SchemaOf(character, lists).Success?
    ensures var v := SchemaOf(character, lists).value.variants[i];
      && v.name == character.skills[i].name
      && v.command.name == "Command"
      && Values(v.command.members) == [character.skills[i].name]
      && v.parameters == ParamFields(character.skills[i].parameterTypes, lists)
  {
    var s := character.skills[i];
    var e := CreateDynamicEnum("command", [s.name]);
    assert [s.name][..0] == [];
    assert EnumMembers([s.name]) == Put([], EnumKey(s.name), s.name);
    assert Keys<string>([]) == [];
    assert e.members == [(EnumKey(s.name), s.name)];
  }

  /** Every field of a skill's parameters model is the field one of its
      kinds declares, under that kind's name. */
  lemma FieldOfKind(ps: seq<ParameterType>, lists: NameLists, j: nat)
    requires j < |ParamFields(ps, lists)|
    ensures exists p ::
      && p in ps && FieldOf(p, lists).Some?
      && ParamFields(ps, lists)[j] == (PlainValue(p), FieldOf(p, lists).value)
  {
    var fields := ParamFields(ps, lists);
    ParamFieldsKeys(ps, lists);
    assert fields[j].0 in Keys(fields);
    var p :| p in ps && FieldOf(p, lists).Some? && fields[j].0 == PlainValue(p);
    GetUnique(fields, j);
    ParamFieldsGet(ps, lists, p);
  }

  // ---------------------------------------------------------------------
  // Validation of the decoded JSON against the schema

  /** A validated field: an enum member (given by its value), an int or a str. */
  datatype FieldValue = Chosen(value: string) | IntValue(i: int) | StrValue(s: string)

  /** pydantic's check of one JSON value against a field's type: an enum
      accepts a string equal to one of its values, `int` a JSON integer and
      `str` a JSON string. */
  function ValidateField(f: FieldType, v: Json): (r: Option<FieldValue>)
    ensures r.Some? ==> (f.EnumField? ==> v.JStr? && r.value == Chosen(v.s) && v.s in Values(f.choices.members))
    ensures r.Some? ==> (f.IntField? ==> v.JInt? && r.value == IntValue(v.i))
    ensures r.Some? ==> (f.StrField? ==> v.JStr? && r.value == StrValue(v.s))
    ensures r.None? <==> match f
      case EnumField(e) => !(v.JStr? && v.s in Values(e.members))
      case IntField => !v.JInt?
      case StrField => !v.JStr?
  {
    match (f, v)
    case (EnumField(e), JStr(s)) => if s in Values(e.members) then Some(Chosen(s)) else None
    case (IntField, JInt(i)) => Some(IntValue(i))
    case (StrField, JStr(s)) => Some(StrValue(s))
    case _ => None
  }

  /** The field `f` is present in `input` and its value validates. */
  predicate FieldAccepts(f: (string, FieldType), input: seq<(string, Json)>)
  {
    Get(input, f.0).Some? && ValidateField(f.1, Get(input, f.0).value).Some?
  }

  /** A model's fields validated one by one, in declaration order; every
      field is required and keys the model does not declare are ignored. */
  function ValidateFields(fields: seq<(string, FieldType)>, input: seq<(string, Json)>)
    : (r: Option<seq<(string, FieldValue)>>)
  {
    if fields == [] then Some([])
    else
      var n := |fields| - 1;
      match ValidateFields(fields[..n], input)
      case None => None
      case Some(front) =>
        if FieldAccepts(fields[n], input)
        then Some(front + [(fields[n].0, ValidateField(fields[n].1, Get(input, fields[n].0).value).value)])
        else None
  }

  /** The fields validate exactly when each one does, and then each field's
      value is its own validated value. */
  lemma {:induction false} ValidateFieldsMeaning(fields: seq<(string, FieldType)>, input: seq<(string, Json)>)
    ensures ValidateFields(fields, input).Some? <==>
      forall i :: 0 <= i < |fields| ==> FieldAccepts(fields[i], input)
    ensures ValidateFields(fields, input).Some? ==>
      var vals := ValidateFields(fields, input).value;
      |vals| == |fields| &&
      forall i :: 0 <= i < |fields| ==>
        vals[i] == (fields[i].0, ValidateField(fields[i].1, Get(input, fields[i].0).value).value)
  {
    if fields != [] {
      var n := |fields| - 1;
      ValidateFieldsMeaning(fields[..n], input);
      assert forall i :: 0 <= i < n ==> fields[..n][i] == fields[i];
    }
  }

  /** What validation leaves of an action: the command's value and the
      validated parameters, in field order. */
  datatype ParsedAction = ParsedAction(command: string, params: seq<(string, FieldValue)>)

  /** Validation of the `action` value against one skill's model. */
  function ValidateVariant(v: Variant, input: Json): Option<ParsedAction>
  {
    if !input.JObj? then None
    else
      match (Get<Json>(input.members, "command"), Get<Json>(input.members, "parameters"))
      case (Some(c), Some(JObj(ps))) =>
        (match (ValidateField(EnumField(v.command), c), ValidateFields(v.parameters, ps))
         case (Some(Chosen(command)), Some(vals)) => Some(ParsedAction(command, vals))
         case _ => None)
      case _ => None
  }

  /** Validation against the union: the first skill's model that accepts
      the value wins. */
  function FirstValid(variants: seq<Variant>, input: Json): Option<ParsedAction>
  {
    if variants == [] then None
    else
      match ValidateVariant(variants[0], input)
      case Some(a) => Some(a)
      case None => FirstValid(variants[1..], input)
  }

  /** The union rejects a value exactly when every skill's model does, and
      otherwise gives what the first accepting model gives. */
  lemma {:induction false} FirstValidMeaning(variants: seq<Variant>, input: Json)
    ensures FirstValid(variants, input).None? <==>
      forall i :: 0 <= i < |variants| ==> ValidateVariant(variants[i], input).None?
    ensures FirstValid(variants, input).Some? ==>
      exists i :: 0 <= i < |variants| && ValidateVariant(variants[i], input) == FirstValid(variants, input) &&
        forall j :: 0 <= j < i ==> ValidateVariant(variants[j], input).None?
  {
    if variants != [] && ValidateVariant(variants[0], input).None? {
      var rest := variants[1..];
      FirstValidMeaning(rest, input);
      assert forall i :: 0 <= i < |rest| ==> rest[i] == variants[i + 1];
      var r := FirstValid(variants, input);
      if r.Some? {
        var i :| 0 <= i < |rest| && ValidateVariant(rest[i], input) == r &&
          forall j :: 0 <= j < i ==> ValidateVariant(rest[j], input).None?;
        assert ValidateVariant(variants[i + 1], input) == r;
        forall j | 0 <= j < i + 1 ensures ValidateVariant(variants[j], input).None? {
          if j > 0 { assert variants[j] == rest[j - 1]; }
        }
      }
    }
  }

  /** How `parse_action` can fail. */
  datatype ActionError =
    | SchemaFailure(cause: SchemaError) // `Union[()]`: a TypeError out of generate_typed_skill_model
    | NotAMapping                       // `ActionsModel(**x)` on a JSON value that is no object
    | ActionParsingError                // a pydantic ValidationError, re-raised
    | InvalidCommand                    // the command is none of the protagonist's skills
    | NoSuchEntity                      // `next(...)` finds no entity of that name: StopIteration

  /** `ActionsModel(**action_json)`. */
  function Validate(schema: Schema, payload: Json): Result<ParsedAction, ActionError>
  {
    if !payload.JObj? then Failure(NotAMapping)
    else
      match Get(payload.members, "action")
      case None => Failure(ActionParsingError)
      case Some(action) =>
        match FirstValid(schema.variants, action)
        case None => Failure(ActionParsingError)
        case Some(parsed) => Success(parsed)
  }

  // ---------------------------------------------------------------------
  // parse_action

  /** The entities of the scene an action may name. */
  datatype Entities = Entities(characters: seq<Character>, locations: seq<Location>, items: seq<Item>)

  /** The parameter kinds whose value names an entity. */
  predicate IsReference(key: string)
  {
    key == "character" || key == "location" || key == "item"
  }

  /** The entities a reference parameter is looked up among. */
  function CandidatesFor(key: string, world: Entities): (r: seq<Target>)
    ensures key == "character" ==>
      |r| == |world.characters| && forall i :: 0 <= i < |r| ==> r[i] == CharacterTarget(world.characters[i])
    ensures key == "location" ==>
      |r| == |world.locations| && forall i :: 0 <= i < |r| ==> r[i] == LocationTarget(world.locations[i])
    ensures key == "item" ==>
      |r| == |world.items| && forall i :: 0 <= i < |r| ==> r[i] == ItemTarget(world.items[i])
  {
    if key == "character" then seq(|world.characters|, i requires 0 <= i < |world.characters| => CharacterTarget(world.characters[i]))
    else if key == "location" then seq(|world.locations|, i requires 0 <= i < |world.locations| => LocationTarget(world.locations[i]))
    else if key == "item" then seq(|world.items|, i requires 0 <= i < |world.items| => ItemTarget(world.items[i]))
    else []
  }

  /** `next(e for e in candidates if e.name.lower() == name.lower())`: the
      first candidate whose name equals `name` up to case. */
  function FirstNamed(candidates: seq<Target>, name: string): (r: Option<Target>)
    ensures r.None? <==> forall i :: 0 <= i < |candidates| ==> !CiEq(TargetName(candidates[i]), name)
    ensures r.Some? ==> exists i ::
      && 0 <= i < |candidates| && candidates[i] == r.value && CiEq(TargetName(r.value), name)
      && forall j :: 0 <= j < i ==> !CiEq(TargetName(candidates[j]), name)
  {
    if candidates == [] then None
    else if CiEq(TargetName(candidates[0]), name) then Some(candidates[0])
    else
      var r := FirstNamed(candidates[1..], name);
      assert forall i :: 0 <= i < |candidates[1..]| ==> candidates[1..][i] == candidates[i + 1];
      r
  }

  /** Reference parameters carry an enum member, as validation guarantees. */
  predicate WellTyped(params: seq<(string, FieldValue)>)
  {
    forall i :: 0 <= i < |params| && IsReference(params[i].0) ==> params[i].1.Chosen?
  }

  lemma WellTypedPrefix(params: seq<(string, FieldValue)>, k: nat)
    requires WellTyped(params) && k <= |params|
    ensures WellTyped(params[..k])
  {
    forall i | 0 <= i < k && IsReference(params[..k][i].0) ensures params[..k][i].1.Chosen? {
      assert params[..k][i] == params[i];
    }
  }

  /** The loop's state: the target and content assigned so far. */
  datatype Resolution = Resolution(target: Option<Target>, content: Option<FieldValue>)

  /** One turn of the loop over the validated parameters: a reference
      replaces the target with the entity it names, an amount or a content
      replaces the content. */
  function ResolveStep(r: Resolution, param: (string, FieldValue), world: Entities): Result<Resolution, ActionError>
    requires IsReference(param.0) ==> param.1.Chosen?
  {
    if IsReference(param.0) then
      match FirstNamed(CandidatesFor(param.0, world), param.1.value)
      case Some(t) => Success(r.(target := Some(t)))
      case None => Failure(NoSuchEntity)
    else if param.0 == "amount" || param.0 == "content" then Success(r.(content := Some(param.1)))
    else Success(r)
  }

  /** The loop over the validated parameters, in field order. */
  function Resolve(params: seq<(string, FieldValue)>, world: Entities): Result<Resolution, ActionError>
    requires WellTyped(params)
  {
    if params == [] then Success(Resolution(None, None))
    else
      var n := |params| - 1;
      match Resolve(params[..n], world)
      case Failure(e) => Failure(e)
      case Success(r) => ResolveStep(r, params[n], world)
  }

  /** The entity the last reference parameter names, if any. */
  function LastTarget(params: seq<(string, FieldValue)>, world: Entities): Option<Target>
    requires WellTyped(params)
  {
    if params == [] then None
    else
      var n := |params| - 1;
      if IsReference(params[n].0) then FirstNamed(CandidatesFor(params[n].0, world), params[n].1.value)
      else LastTarget(params[..n], world)
  }

  /** The value of the last amount or content parameter, if any. */
  function LastContent(params: seq<(string, FieldValue)>): Option<FieldValue>
  {
    if params == [] then None
    else
      var n := |params| - 1;
      if params[n].0 == "amount" || params[n].0 == "content" then Some(params[n].1)
      else LastContent(params[..n])
  }

  /** The loop fails exactly when some reference names no entity; otherwise
      the last reference decides the target and the last amount or content
      decides the content. */
  lemma {:induction false} ResolveMeaning(params: seq<(string, FieldValue)>, world: Entities)
    requires WellTyped(params)
    ensures Resolve(params, world).Success? <==>
      forall i :: 0 <= i < |params| && IsReference(params[i].0) ==>
        FirstNamed(CandidatesFor(params[i].0, world), params[i].1.value).Some?
    ensures Resolve(params, world).Success? ==>
      Resolve(params, world).value == Resolution(LastTarget(params, world), LastContent(params))
  {
    if params != [] {
      var n := |params| - 1;
      assert forall i :: 0 <= i < n ==> params[..n][i] == params[i];
      ResolveMeaning(params[..n], world);
    }
  }

  /** A protagonist as the `Character` it also is. */
  function AsCharacter(p: Protagonist): Character
  {
    Character(p.name, p.description, p.currentLocation)
  }

  /** `CharacterAction(protagonist=..., command=command.upper(), target=...,
      content=...)`: its `content` is an optional str, so an int there fails
      validation. */
  function Finish(character: Protagonist, command: string, r: Resolution): Result<LegacyAction, ActionError>
  {
    match r.content
    case None => Success(LegacyAction(Upper(command), AsCharacter(character), r.target, None))
    case Some(StrValue(s)) => Success(LegacyAction(Upper(command), AsCharacter(character), r.target, Some(s)))
    case Some(_) => Failure(ActionParsingError)
  }

  /** The names a reference parameter's enum is made from. */
  function ChoicesFor(key: string, lists: NameLists): seq<string>
  {
    if key == "character" then lists.characters
    else if key == "location" then lists.locations
    else if key == "item" then lists.items
    else []
  }

  /** A field of a skill's parameters model that validates gives: for a
      reference, a member of the enum made from that kind's names; for an
      amount, an int; for a content, a str. */
  lemma ValidatedField(ps: seq<ParameterType>, lists: NameLists, j: nat, input: seq<(string, Json)>)
    requires j < |ParamFields(ps, lists)|
    requires FieldAccepts(ParamFields(ps, lists)[j], input)
    ensures var f := ParamFields(ps, lists)[j];
      var fv := ValidateField(f.1, Get(input, f.0).value).value;
      && (IsReference(f.0) ==> fv.Chosen? && fv.value in ChoicesFor(f.0, lists))
      && (f.0 == "amount" ==> fv.IntValue?)
      && (f.0 == "content" ==> fv.StrValue?)
  {
    var f := ParamFields(ps, lists)[j];
    FieldOfKind(ps, lists, j);
    var p :| p in ps && FieldOf(p, lists).Some? && f == (PlainValue(p), FieldOf(p, lists).value);
    var v := Get(input, f.0).value;
    match p
    case CharacterParam => EnumValues("character", lists.characters, v.s);
    case LocationParam => EnumValues("location", lists.locations, v.s);
    case ItemParam => EnumValues("item", lists.items, v.s);
    case AmountParam =>
    case ContentParam =>
  }

  /** What validation against a protagonist's schema guarantees: the
      command is one of its skills' names, and each parameter carries a
      value of the type its kind declares, a reference one of the names its
      enum was made from. */
  lemma ValidatedParams(character: Protagonist, lists: NameLists, payload: Json)
    requires SchemaOf(character, lists).Success?
    requires Validate(SchemaOf(character, lists).value, payload).Success?
    ensures var parsed := Validate(SchemaOf(character, lists).value, payload).value;
      && parsed.command in Parse.SkillNames(character.skills)
      && WellTyped(parsed.params)
      && (forall i :: 0 <= i < |parsed.params| && IsReference(parsed.params[i].0) ==>
            parsed.params[i].1.value in ChoicesFor(parsed.params[i].0, lists))
      && (forall i :: 0 <= i < |parsed.params| && parsed.params[i].0 == "amount" ==> parsed.params[i].1.IntValue?)
      && (forall i :: 0 <= i < |parsed.params| && parsed.params[i].0 == "content" ==> parsed.params[i].1.StrValue?)
  {
    var variants := SchemaOf(character, lists).value.variants;
    var action := Get(payload.members, "action").value;
    var parsed := Validate(SchemaOf(character, lists).value, payload).value;
    FirstValidMeaning(variants, action);
    var k :| 0 <= k < |variants| && ValidateVariant(variants[k], action) == Some(parsed);
    var s := character.skills[k];
    SchemaShape(character, lists, k);
    assert variants[k] == VariantOf(s, lists);
    assert Parse.SkillNames(character.skills)[k] == s.name;
    var ps := Get<Json>(action.members, "parameters").value.members;
    var fields := ParamFields(s.parameterTypes, lists);
    assert ValidateFields(fields, ps) == Some(parsed.params);
    ValidateFieldsMeaning(fields, ps);
    forall i | 0 <= i < |parsed.params|
      ensures IsReference(parsed.params[i].0) ==>
        parsed.params[i].1.Chosen? && parsed.params[i].1.value in ChoicesFor(parsed.params[i].0, lists)
      ensures parsed.params[i].0 == "amount" ==> parsed.params[i].1.IntValue?
      ensures parsed.params[i].0 == "content" ==> parsed.params[i].1.StrValue?
    {
      ValidatedField(s.parameterTypes, lists, i, ps);
    }
  }

  /** `parse_action` on the decoded JSON value: the schema, its validation,
      the command check, the loop over the parameters and the construction
      of the `CharacterAction`. */
  function ParseActionSpec(character: Protagonist, payload: Json, world: Entities): Result<LegacyAction, ActionError>
  {
    var lists := FormattedLists(world.characters, world.locations, world.items);
    match SchemaOf(character, lists)
    case Failure(e) => Failure(SchemaFailure(e))
    case Success(schema) =>
      match Validate(schema, payload)
      case Failure(e) => Failure(e)
      case Success(parsed) =>
        if parsed.command !in Parse.SkillNames(character.skills) then Failure(InvalidCommand)
        else
          assert WellTyped(parsed.params) by { ValidatedParams(character, lists, payload); }
          match Resolve(parsed.params, world)
          case Failure(e) => Failure(e)
          case Success(r) => Finish(character, parsed.command, r)
  }

  /** Once the loop has failed, the rest of the parameters do not matter. */
  lemma {:induction false} ResolvePrefixFailure(params: seq<(string, FieldValue)>, k: nat, world: Entities)
    requires WellTyped(params) && k <= |params|
    requires WellTyped(params[..k]) && Resolve(params[..k], world).Failure?
    ensures Resolve(params, world) == Resolve(params[..k], world)
  {
    if k < |params| {
      var n := |params| - 1;
      var front := params[..n];
      WellTypedPrefix(params, n);
      assert front[..k] == params[..k];
      ResolvePrefixFailure(front, k, world);
      ResolveAfterFailure(params, world);
    } else {
      assert params[..k] == params;
    }
  }

  /** A failed loop stays failed through one more parameter. */
  lemma ResolveAfterFailure(params: seq<(string, FieldValue)>, world: Entities)
    requires WellTyped(params) && params != []
    requires WellTyped(params[..|params| - 1]) && Resolve(params[..|params| - 1], world).Failure?
    ensures Resolve(params, world) == Resolve(params[..|params| - 1], world)
  {
  }

  /** One more turn of the loop. */
  lemma ResolveSnoc(params: seq<(string, FieldValue)>, i: nat, world: Entities)
    requires WellTyped(params) && i < |params|
    ensures WellTyped(params[..i]) && WellTyped(params[..i + 1])
    ensures var before := Resolve(params[..i], world);
      Resolve(params[..i + 1], world) ==
        if before.Failure? then before else ResolveStep(before.value, params[i], world)
  {
    assert params[..i + 1][..i] == params[..i];
  }

  /** `parse_action`. */
  method ParseAction(character: Protagonist, payload: Json, validCharacters: seq<Character>,
                     validLocations: seq<Location>, validItems: seq<Item>)
    returns (r: Result<LegacyAction, ActionError>)
    ensures r == ParseActionSpec(character, payload, Entities(validCharacters, validLocations, validItems))
  {
    var world := Entities(validCharacters, validLocations, validItems);
    var lists := FormattedLists(validCharacters, validLocations, validItems);
    var actionsModel := GenerateTypedSkillModel(character, validCharacters, validLocations, validItems);
    if actionsModel.Failure? {
      return Failure(SchemaFailure(actionsModel.error));
    }
    assert actionsModel == SchemaOf(character, lists);
    var validated := Validate(actionsModel.value, payload);
    if validated.Failure? {
      return Failure(validated.error);
    }
    var command := validated.value.command;
    if command !in Parse.SkillNames(character.skills) {
      return Failure(InvalidCommand);
    }
    var params := validated.value.params;
    assert WellTyped(params) by { ValidatedParams(character, lists, payload); }
    var target: Option<Target> := None;
    var content: Option<FieldValue> := None;
    for i := 0 to |params|
      invariant Resolve(params[..i], world) == Success(Resolution(target, content))
    {
      var (paramType, paramValue) := params[i];
      ResolveSnoc(params, i, world);
      ghost var step := ResolveStep(Resolution(target, content), params[i], world);
      if paramType == "character" {
        var found := FirstNamed(CandidatesFor("character", world), paramValue.value);
        if found.None? {
          ResolvePrefixFailure(params, i + 1, world);
          return Failure(NoSuchEntity);
        }
        target := found;
      } else if paramType == "location" {
        var found := FirstNamed(CandidatesFor("location", world), paramValue.value);
        if found.None? {
          ResolvePrefixFailure(params, i + 1, world);
          return Failure(NoSuchEntity);
        }
        target := found;
      } else if paramType == "item" {
        var found := FirstNamed(CandidatesFor("item", world), paramValue.value);
        if found.None? {
          ResolvePrefixFailure(params, i + 1, world);
          return Failure(NoSuchEntity);
        }
        target := found;
      } else if paramType == "amount" || paramType == "content" {
        content := Some(paramValue);
      }
      assert step == Success(Resolution(target, content));
    }
    assert params[..|params|] == params;
    r := Finish(character, command, Resolution(target, content));
  }

  /** A name made by lower-casing an entity's name finds an entity. */
  lemma ChoiceResolves(key: string, world: Entities, v: string)
    requires IsReference(key)
    requires v in ChoicesFor(key, FormattedLists(world.characters, world.locations, world.items))
    ensures FirstNamed(CandidatesFor(key, world), v).Some?
  {
    var choices := ChoicesFor(key, FormattedLists(world.characters, world.locations, world.items));
    var cands := CandidatesFor(key, world);
    var k :| 0 <= k < |choices| && choices[k] == v;
    assert |cands| == |choices|;
    LowerIdempotent(TargetName(cands[k]));
    assert CiEq(TargetName(cands[k]), v);
  }

  /** The target is one of the scene's entities. */
  predicate InWorld(t: Target, world: Entities)
  {
    match t
    case CharacterTarget(c) => c in world.characters
    case LocationTarget(l) => l in world.locations
    case ItemTarget(i) => i in world.items
  }

  lemma {:induction false} LastTargetInWorld(params: seq<(string, FieldValue)>, world: Entities)
    requires WellTyped(params)
    ensures LastTarget(params, world).Some? ==> InWorld(LastTarget(params, world).value, world)
  {
    if params != [] {
      var n := |params| - 1;
      if IsReference(params[n].0) {
        var cands := CandidatesFor(params[n].0, world);
        var t := FirstNamed(cands, params[n].1.value);
        if t.Some? {
          var i :| 0 <= i < |cands| && cands[i] == t.value;
        }
      } else {
        LastTargetInWorld(params[..n], world);
      }
    }
  }

  /** What `parse_action` can give: it fails for a protagonist without
      skills and for a JSON value that is no object; it never reports an
      unknown command or an unknown entity, since the schema admits only the
      skills' names and the entities' names; and a parsed action carries the
      upper-cased name of one of the skills, the protagonist and, if any, an
      entity of the scene. */
  lemma ParseActionOutcome(character: Protagonist, payload: Json, world: Entities)
    ensures var r := ParseActionSpec(character, payload, world);
      && (r == Failure(SchemaFailure(UnionOfNoTypes)) <==> character.skills == [])
      && (character.skills != [] ==> (r == Failure(NotAMapping) <==> !payload.JObj?))
      && r != Failure(InvalidCommand)
      && r != Failure(NoSuchEntity)
      && (r.Success? ==>
            && (exists i :: 0 <= i < |character.skills| && r.value.command == Upper(character.skills[i].name))
            && r.value.protagonist == AsCharacter(character)
            && (r.value.target.Some? ==> InWorld(r.value.target.value, world)))
  {
    var lists := FormattedLists(world.characters, world.locations, world.items);
    var r := ParseActionSpec(character, payload, world);
    if character.skills != [] {
      var schema := SchemaOf(character, lists).value;
      var validated := Validate(schema, payload);
      if validated.Success? {
        var parsed := validated.value;
        ValidatedParams(character, lists, payload);
        var i :| 0 <= i < |character.skills| && Parse.SkillNames(character.skills)[i] == parsed.command;
        forall j | 0 <= j < |parsed.params| && IsReference(parsed.params[j].0)
          ensures FirstNamed(CandidatesFor(parsed.params[j].0, world), parsed.params[j].1.value).Some?
        {
          ChoiceResolves(parsed.params[j].0, world, parsed.params[j].1.value);
        }
        ResolveMeaning(parsed.params, world);
        LastTargetInWorld(parsed.params, world);
        assert r == Finish(character, parsed.command, Resolution(LastTarget(parsed.params, world), LastContent(parsed.params)));
      }
    }
  }

  /** The last amount or content parameter of a validated action: an amount
      gives an int, a content a str. */
  lemma {:induction false} LastContentTyped(params: seq<(string, FieldValue)>)
    requires forall i :: 0 <= i < |params| && params[i].0 == "amount" ==> params[i].1.IntValue?
    requires forall i :: 0 <= i < |params| && params[i].0 == "content" ==> params[i].1.StrValue?
    ensures LastContent(params).Some? ==> LastContent(params).value.IntValue? || LastContent(params).value.StrValue?
  {
    if params != [] {
      var n := |params| - 1;
      LastContentTyped(params[..n]);
    }
  }

  /** A validated action becomes the `CharacterAction` whose target is the
      entity its last reference parameter names and whose content is its
      last content parameter; when the last of its amount and content
      parameters is an amount, the int cannot be the action's str content
      and parsing fails. */
  lemma ParseActionMeaning(character: Protagonist, payload: Json, world: Entities)
    requires character.skills != []
    requires Validate(SchemaOf(character, FormattedLists(world.characters, world.locations, world.items)).value, payload).Success?
    ensures var lists := FormattedLists(world.characters, world.locations, world.items);
      var parsed := Validate(SchemaOf(character, lists).value, payload).value;
      var r := ParseActionSpec(character, payload, world);
      WellTyped(parsed.params) &&
      match LastContent(parsed.params)
      case Some(IntValue(_)) => r == Failure(ActionParsingError)
      case Some(StrValue(text)) =>
        r == Success(LegacyAction(Upper(parsed.command), AsCharacter(character), LastTarget(parsed.params, world), Some(text)))
      case None =>
        r == Success(LegacyAction(Upper(parsed.command), AsCharacter(character), LastTarget(parsed.params, world), None))
      case Some(Chosen(_)) => false
  {
    var lists := FormattedLists(world.characters, world.locations, world.items);
    var parsed := Validate(SchemaOf(character, lists).value, payload).value;
    ValidatedParams(character, lists, payload);
    forall j | 0 <= j < |parsed.params| && IsReference(parsed.params[j].0)
      ensures FirstNamed(CandidatesFor(parsed.params[j].0, world), parsed.params[j].1.value).Some?
    {
      ChoiceResolves(parsed.params[j].0, world, parsed.params[j].1.value);
    }
    ResolveMeaning(parsed.params, world);
    LastContentTyped(parsed.params);
  }
}

/** models.py: the older encodings of the same skills. A skill is declared as
    a JSON object, as a lark grammar rule, or as a regex with unnamed groups
    joined by a single `\s`; entities print as `name: description`, and an
    action prints as a JSON object with optional `target` and `content`. */
module Models {
  import opened Text
  import opened Wrappers
  import opened Json
  import opened Dict
  import opened Regex
  import opened Scene

  /** models.py's `ParameterType` values: the bare kind names, which are the
      newer enum values without their angle brackets. */
  function PlainValue(p: ParameterType): (v: string)
    ensures v == GroupTag(p)
  {
    match p
    case CharacterParam => "character"
    case LocationParam => "location"
    case ItemParam => "item"
    case AmountParam => "amount"
    case ContentParam => "content"
    case OtherParam => "other"
  }

  // ---------------------------------------------------------------------
  // Entity __str__

  /** `Location.__str__` and `Item.__str__`: `name: description`. */
  function EntityStr(o: Object): string
  {
    o.name + ": " + o.description
  }

  /** `Character.__str__`: `name: description`; the location is not shown. */
  function CharacterStr(c: Character): string
  {
    c.name + ": " + c.description
  }

  /** A printed location or item gives back its name and description when
      the name has no colon. */
  lemma EntityStrSplits(o: Object)
    requires ':' !in o.name
    ensures SplitAtColon(EntityStr(o)) == Some((o.name, o.description))
  {
    ObjectTrainingFormatSplits(o);
  }

  /** A printed character gives back its name and description when the name
      has no colon, whatever its location. */
  lemma CharacterStrSplits(c: Character)
    requires ':' !in c.name
    ensures SplitAtColon(CharacterStr(c)) == Some((c.name, c.description))
  {
    ObjectTrainingFormatSplits(Object(c.name, c.description));
  }

  // ---------------------------------------------------------------------
  // Skill.to_training_format (JSON)

  function PlainValues(ps: seq<ParameterType>): (r: seq<Json>)
    ensures |r| == |ps|
    ensures forall i :: 0 <= i < |ps| ==> r[i] == JStr(PlainValue(ps[i]))
  {
    seq(|ps|, i requires 0 <= i < |ps| => JStr(PlainValue(ps[i])))
  }

  /** `Skill.to_training_format`: the object `json.dumps` serialises. */
  function SkillJson(s: Skill): Json
  {
    JObj([("command", JStr(s.name)),
          ("parameters", JArr(PlainValues(s.parameterTypes))),
          ("description", JStr(s.description))])
  }

  /** Reads the kinds back from their JSON strings. */
  function KindsOf(items: seq<Json>): Option<seq<ParameterType>>
  {
    if items == [] then Some([])
    else
      match items[0]
      case JStr(t) =>
        (match (KindOfTag(t), KindsOf(items[1..]))
         case (Some(p), Some(ps)) => Some([p] + ps)
         case _ => None)
      case _ => None
  }

  /** Reads a skill back from its training-format object. */
  function JsonToSkill(j: Json): Option<Skill>
  {
    if !j.JObj? then None
    else
      match (Get<Json>(j.members, "command"), Get<Json>(j.members, "parameters"), Get<Json>(j.members, "description"))
      case (Some(JStr(name)), Some(JArr(items)), Some(JStr(description))) =>
        (match KindsOf(items)
         case Some(ps) => Some(Skill(name, description, ps))
         case None => None)
      case _ => None
  }

  lemma {:induction false} KindsOfPlainValues(ps: seq<ParameterType>)
    ensures KindsOf(PlainValues(ps)) == Some(ps)
  {
    if ps != [] {
      assert PlainValues(ps)[1..] == PlainValues(ps[1..]);
      KindsOfPlainValues(ps[1..]);
      var p := ps[0];
      assert KindOfTag(PlainValue(p)) == Some(p) by {
        match p
        case CharacterParam =>
        case LocationParam =>
        case ItemParam =>
        case AmountParam =>
        case ContentParam =>
        case OtherParam =>
      }
      assert [p] + ps[1..] == ps;
    }
  }

  /** The training-format object holds the skill's name, its kinds in order
      and its description: reading it back gives the skill. */
  lemma SkillJsonRoundTrip(s: Skill)
    ensures JsonToSkill(SkillJson(s)) == Some(s)
  {
    KindsOfPlainValues(s.parameterTypes);
    var ms := SkillJson(s).members;
    assert ms[..2][..1] == [ms[0]];
    assert Get(ms, "description") == Some(JStr(s.description));
    assert Get(ms, "parameters") == Some(JArr(PlainValues(s.parameterTypes))) by {
      assert ms[..2][1] == ms[1];
    }
    assert Get(ms, "command") == Some(JStr(s.name)) by {
      assert Get(ms, "command") == Get(ms[..2], "command") == Get(ms[..2][..1], "command");
    }
  }

  // ---------------------------------------------------------------------
  // Skill.to_grammar_rule

  /** The grammar symbol a kind stands for, if it has one. */
  function GrammarSymbol(p: ParameterType): Option<string>
  {
    match p
    case CharacterParam => Some("character")
    case LocationParam => Some("location")
    case ItemParam => Some("item")
    case AmountParam => Some("NUMBER")
    case ContentParam => Some("(STRING | WS)*")
    case OtherParam => None
  }

  /** The symbols of a parameter list, in declared order. */
  function GrammarSymbols(ps: seq<ParameterType>): seq<string>
  {
    if ps == [] then []
    else
      var n := |ps| - 1;
      GrammarSymbols(ps[..n]) + match GrammarSymbol(ps[n]) case Some(sym) => [sym] case None => []
  }

  /** The kind a grammar symbol names. */
  function SymbolKind(sym: string): Option<ParameterType>
  {
    if sym == "character" then Some(CharacterParam)
    else if sym == "location" then Some(LocationParam)
    else if sym == "item" then Some(ItemParam)
    else if sym == "NUMBER" then Some(AmountParam)
    else if sym == "(STRING | WS)*" then Some(ContentParam)
    else None
  }

  function SymbolKinds(syms: seq<string>): seq<Option<ParameterType>>
  {
    seq(|syms|, i requires 0 <= i < |syms| => SymbolKind(syms[i]))
  }

  function Somes(ps: seq<ParameterType>): seq<Option<ParameterType>>
  {
    seq(|ps|, i requires 0 <= i < |ps| => Some(ps[i]))
  }

  /** The rule's symbols name exactly the recognised kinds, in declared order,
      one symbol per kind; `other` has none. These are the kinds that get a
      group in the pattern of gigax/scene.py. */
  lemma {:induction false} GrammarSymbolsKinds(ps: seq<ParameterType>)
    ensures SymbolKinds(GrammarSymbols(ps)) == Somes(Recognised(ps))
  {
    if ps != [] {
      var n := |ps| - 1;
      GrammarSymbolsKinds(ps[..n]);
      var p := ps[n];
      var front := GrammarSymbols(ps[..n]);
      match GrammarSymbol(p)
      case Some(sym) =>
        assert SymbolKind(sym) == Some(p) by {
          match p
          case CharacterParam =>
          case LocationParam =>
          case ItemParam =>
          case AmountParam =>
          case ContentParam =>
        }
        assert SymbolKinds(front + [sym]) == SymbolKinds(front) + [Some(p)];
        assert Somes(Recognised(ps[..n]) + [p]) == Somes(Recognised(ps[..n])) + [Some(p)];
      case None =>
        assert front + [] == front;
        assert Recognised(ps[..n]) + [] == Recognised(ps[..n]);
        assert GrammarSymbols(ps) == front;
        assert Recognised(ps) == Recognised(ps[..n]);
    }
  }

  /** `Skill.to_grammar_rule`: the quoted name, a space, and the kind symbols
      joined by spaces. */
  method GrammarRule(s: Skill) returns (rule: string)
    ensures rule == "\"" + s.name + "\" " + Join(GrammarSymbols(s.parameterTypes), " ")
  {
    var parts: seq<string> := [];
    var i := 0;
    while i < |s.parameterTypes|
      invariant 0 <= i <= |s.parameterTypes|
      invariant parts == GrammarSymbols(s.parameterTypes[..i])
    {
      var param := s.parameterTypes[i];
      assert s.parameterTypes[..i + 1][..i] == s.parameterTypes[..i];
      if param == CharacterParam {
        parts := parts + ["character"];
      } else if param == LocationParam {
        parts := parts + ["location"];
      } else if param == ItemParam {
        parts := parts + ["item"];
      } else if param == AmountParam {
        parts := parts + ["NUMBER"];
      } else if param == ContentParam {
        parts := parts + ["(STRING | WS)*"];
      }
      i := i + 1;
    }
    assert s.parameterTypes[..i] == s.parameterTypes;
    var params := Join(parts, " ");
    rule := "\"" + s.name + "\" " + params;
  }

  // ---------------------------------------------------------------------
  // Skill.to_regex (unnamed groups)

  /** A slot as models.py writes it: an unnamed group, and for content an
      inner group around the quoted text. */
  function LegacySlot(slot: Slot): string
  {
    match slot
    case NameAlt(names) => "(" + Join(EscapeAll(names), "|") + ")"
    case Digits => "(\\d+)"
    case Quoted => "(\"([^\"]*)\")"
  }

  /** The parts models.py joins: the name as it is, then one group per slot. */
  function LegacyParts(a: Alternative): (r: seq<string>)
    ensures |r| == |a.groups| + 1 && r[0] == a.literal
    ensures forall k :: 0 <= k < |a.groups| ==> r[k + 1] == LegacySlot(a.groups[k].slot)
  {
    [a.literal] + seq(|a.groups|, i requires 0 <= i < |a.groups| => LegacySlot(a.groups[i].slot))
  }

  /** The separator models.py places between parts: one whitespace character. */
  const LegacySeparator: string := "\\s"

  function LegacyRender(a: Alternative): string
  {
    Join(LegacyParts(a), LegacySeparator)
  }

  lemma LegacyStep(name: string, ps: seq<ParameterType>, p: ParameterType, names: NameLists,
                   parts: seq<string>, next: seq<string>)
    requires parts == LegacyParts(Alternative(name, SkillGroups(name, ps, names)))
    requires SlotOf(p, names).None? ==> next == parts
    requires SlotOf(p, names).Some? ==> next == parts + [LegacySlot(SlotOf(p, names).value)]
    ensures next == LegacyParts(Alternative(name, SkillGroups(name, ps + [p], names)))
  {
    SkillGroupsSnoc(name, ps, p, names);
  }

  /** `Skill.to_regex` of models.py: the same slots, in the same order, as the
      pattern of gigax/scene.py, written with the raw name, unnamed groups and
      a single `\s` between parts. */
  method LegacyRegex(s: Skill, context: NameLists) returns (regex: string)
    ensures regex == LegacyRender(SkillAlternative(s, context))
  {
    var parts := [s.name];
    var i := 0;
    while i < |s.parameterTypes|
      invariant 0 <= i <= |s.parameterTypes|
      invariant parts == LegacyParts(Alternative(s.name, SkillGroups(s.name, s.parameterTypes[..i], context)))
    {
      var param := s.parameterTypes[i];
      ghost var before := parts;
      if param == CharacterParam {
        parts := parts + ["(" + Join(EscapeAll(context.characters), "|") + ")"];
      } else if param == LocationParam {
        parts := parts + ["(" + Join(EscapeAll(context.locations), "|") + ")"];
      } else if param == ItemParam {
        parts := parts + ["(" + Join(EscapeAll(context.items), "|") + ")"];
      } else if param == AmountParam {
        parts := parts + ["(\\d+)"];
      } else if param == ContentParam {
        parts := parts + ["(\"([^\"]*)\")"];
      }
      LegacyStep(s.name, s.parameterTypes[..i], param, context, before, parts);
      TakeSnoc(s.parameterTypes, i);
      i := i + 1;
    }
    assert s.parameterTypes[..i] == s.parameterTypes;
    regex := Join(parts, LegacySeparator);
  }

  /** The group models.py appends for a kind; `other` appends none. */
  function LegacyKindGroup(p: ParameterType, context: NameLists): string
  {
    match p
    case CharacterParam => "(" + Join(EscapeAll(context.characters), "|") + ")"
    case LocationParam => "(" + Join(EscapeAll(context.locations), "|") + ")"
    case ItemParam => "(" + Join(EscapeAll(context.items), "|") + ")"
    case AmountParam => "(\\d+)"
    case ContentParam => "(\"([^\"]*)\")"
    case OtherParam => ""
  }

  /** The parts of models.py's pattern are the raw skill name, then one group
      per recognised kind, in declared order: the kind's escaped names joined
      by `|` for a reference, `(\d+)` for an amount, the quoted text for a
      content. */
  lemma LegacySkillParts(s: Skill, context: NameLists)
    ensures var parts := LegacyParts(SkillAlternative(s, context));
      var rs := Recognised(s.parameterTypes);
      && |parts| == |rs| + 1
      && parts[0] == s.name
      && forall k :: 0 <= k < |rs| ==> parts[k + 1] == LegacyKindGroup(rs[k], context)
  {
    SkillAlternativeShape(s, context);
  }

  /** Each reference kind gets its escaped names in a group; one whose name
      list is empty gets the empty group `()`, which matches the empty
      string. */
  lemma LegacyEmptyGroup(s: Skill, context: NameLists, k: nat)
    requires k < |Recognised(s.parameterTypes)| && k < |SkillAlternative(s, context).groups|
    ensures var rs := Recognised(s.parameterTypes);
      var part := LegacyParts(SkillAlternative(s, context))[k + 1];
      && (rs[k] == CharacterParam ==> part == "(" + Join(EscapeAll(context.characters), "|") + ")")
      && (rs[k] == LocationParam ==> part == "(" + Join(EscapeAll(context.locations), "|") + ")")
      && (rs[k] == ItemParam ==> part == "(" + Join(EscapeAll(context.items), "|") + ")")
      && (rs[k] == CharacterParam && context.characters == [] ==> part == "()")
      && (rs[k] == LocationParam && context.locations == [] ==> part == "()")
      && (rs[k] == ItemParam && context.items == [] ==> part == "()")
  {
    LegacySkillParts(s, context);
  }

  /** The name part of models.py's pattern is read as the name itself exactly
      when each character of the name is read as itself. */
  lemma LegacyNameLiteral(s: Skill, context: NameLists)
    ensures ReadLiteral(LegacyParts(SkillAlternative(s, context))[0]) == Some(s.name) <==>
      forall i :: 0 <= i < |s.name| ==> LiteralAt(s.name, i)
  {
    RawLiteral(s.name);
  }

  /** A dotted skill name is not read as itself by models.py's pattern, while
      the escaped name of gigax/scene.py is. */
  lemma LegacyDottedName(context: NameLists)
    ensures var s := Skill("give.coins", "Give coins.", [AmountParam]);
      && ReadLiteral(LegacyParts(SkillAlternative(s, context))[0]) != Some(s.name)
      && ReadLiteral(Escape(s.name)) == Some(s.name)
  {
    var s := Skill("give.coins", "Give coins.", [AmountParam]);
    assert !LiteralAt(s.name, 4);
    LegacyNameLiteral(s, context);
    EscapeReadsBack(s.name);
  }

  // ---------------------------------------------------------------------
  // CharacterAction.__str__ (JSON)

  /** What an action of models.py can be aimed at. */
  datatype Target = CharacterTarget(character: Character) | ItemTarget(item: Item) | LocationTarget(location: Location)

  function TargetName(t: Target): string
  {
    match t
    case CharacterTarget(c) => c.name
    case ItemTarget(i) => i.name
    case LocationTarget(l) => l.name
  }

  /** models.py's `CharacterAction`. */
  datatype LegacyAction = LegacyAction(command: string, protagonist: Character, target: Option<Target>, content: Option<string>)

  /** The bindings of an action's JSON object, in insertion order. */
  function ActionBindings(a: LegacyAction): seq<(string, Json)>
  {
    [("type", JStr(a.command)), ("protagonist", JStr(a.protagonist.name))]
    + (if a.target.Some? then [("target", JStr(TargetName(a.target.value)))] else [])
    + (if a.content.Some? && a.content.value != [] then [("content", JStr(a.content.value))] else [])
  }

  lemma ActionBindingsKeys(a: LegacyAction)
    ensures Keys(ActionBindings(a)) ==
      ["type", "protagonist"]
      + (if a.target.Some? then ["target"] else [])
      + (if a.content.Some? && a.content.value != [] then ["content"] else [])
  {
  }

  lemma ActionBindingsGet(a: LegacyAction)
    ensures Get(ActionBindings(a), "type") == Some(JStr(a.command))
    ensures Get(ActionBindings(a), "protagonist") == Some(JStr(a.protagonist.name))
    ensures Get(ActionBindings(a), "target") ==
      if a.target.Some? then Some(JStr(TargetName(a.target.value))) else None
    ensures Get(ActionBindings(a), "content") ==
      if a.content.Some? && a.content.value != [] then Some(JStr(a.content.value)) else None
  {
    var ret := ActionBindings(a);
    assert forall i :: 0 <= i < |ret| ==> ret[i].0 in {"type", "protagonist", "target", "content"};
    assert ret[0] == ("type", JStr(a.command)) && ret[1] == ("protagonist", JStr(a.protagonist.name));
  }

  /** `CharacterAction.__str__` of models.py: the object `json.dumps`
      serialises. `type` and `protagonist` always; `target` when there is a
      target; `content` when the content is a non-empty string. */
  method ActionJson(a: LegacyAction) returns (j: Json)
    ensures j.JObj?
    ensures Keys(j.members) ==
      ["type", "protagonist"]
      + (if a.target.Some? then ["target"] else [])
      + (if a.content.Some? && a.content.value != [] then ["content"] else [])
    ensures Get(j.members, "type") == Some(JStr(a.command))
    ensures Get(j.members, "protagonist") == Some(JStr(a.protagonist.name))
    ensures Get(j.members, "target") ==
      if a.target.Some? then Some(JStr(TargetName(a.target.value))) else None
    ensures Get(j.members, "content") ==
      if a.content.Some? && a.content.value != [] then Some(JStr(a.content.value)) else None
  {
    var ret := [("type", JStr(a.command)), ("protagonist", JStr(a.protagonist.name))];
    assert Keys(ret) == ["type", "protagonist"];
    if a.target.Some? {
      PutFresh(ret, "target", JStr(TargetName(a.target.value)));
      ret := Put(ret, "target", JStr(TargetName(a.target.value)));
    }
    if a.content.Some? && a.content.value != [] {
      PutFresh(ret, "content", JStr(a.content.value));
      ret := Put(ret, "content", JStr(a.content.value));
    }
    assert ret == ActionBindings(a);
    ActionBindingsKeys(a);
    ActionBindingsGet(a);
    j := JObj(ret);
  }
}

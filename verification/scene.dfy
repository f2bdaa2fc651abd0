/** The scene data model of gigax/scene.py, shared with the older models.py:
    parameter kinds, named world objects, skills and the protagonist, with
    the prompt-facing renderings and the per-skill pattern of `Skill.to_regex`. */
module Scene {
  import opened Text
  import opened Wrappers
  import opened Regex

  /** `ParameterType`: the kinds a skill parameter can have. */
  datatype ParameterType =
    | CharacterParam
    | LocationParam
    | ItemParam
    | AmountParam
    | ContentParam
    | OtherParam

  /** The enum value in gigax/scene.py: the kind in angle brackets. */
  function BracketedValue(p: ParameterType): string
  {
    match p
    case CharacterParam => "<character>"
    case LocationParam => "<location>"
    case ItemParam => "<item>"
    case AmountParam => "<amount>"
    case ContentParam => "<content>"
    case OtherParam => "<other>"
  }

  /** `param.value[1:-1]`: the kind without its angle brackets, the suffix a
      group name gets for this kind. */
  function GroupTag(p: ParameterType): (tag: string)
    ensures tag != [] && '_' !in tag && '>' !in tag
    ensures forall i :: 0 <= i < |tag| ==> IsLower(tag[i])
  {
    match p
    case CharacterParam => "character"
    case LocationParam => "location"
    case ItemParam => "item"
    case AmountParam => "amount"
    case ContentParam => "content"
    case OtherParam => "other"
  }

  /** The enum value is the group suffix in angle brackets. */
  lemma GroupTagBracketed(p: ParameterType)
    ensures BracketedValue(p) == "<" + GroupTag(p) + ">"
  {
    match p
    case CharacterParam => assert "<" + "character" + ">" == "<character>";
    case LocationParam => assert "<" + "location" + ">" == "<location>";
    case ItemParam => assert "<" + "item" + ">" == "<item>";
    case AmountParam => assert "<" + "amount" + ">" == "<amount>";
    case ContentParam => assert "<" + "content" + ">" == "<content>";
    case OtherParam => assert "<" + "other" + ">" == "<other>";
  }

  /** Distinct kinds get distinct group suffixes. */
  lemma GroupTagInjective(p: ParameterType, q: ParameterType)
    ensures GroupTag(p) == GroupTag(q) <==> p == q
  {
    if p != q {
      assert BracketedValue(p) != BracketedValue(q);
    }
  }

  /** `Object`, and its subclasses `Location` and `Item`. */
  datatype Object = Object(name: string, description: string)

  type Location = Object
  type Item = Object

  /** `Character`: an object with a current location. */
  datatype Character = Character(name: string, description: string, currentLocation: Location)

  /** `Skill`: a command name, a description and ordered parameter kinds. */
  datatype Skill = Skill(name: string, description: string, parameterTypes: seq<ParameterType>)

  /** `ProtagonistCharacter`: the character whose skills drive the grammar. */
  datatype Protagonist = Protagonist(
    name: string,
    description: string,
    currentLocation: Location,
    memories: seq<string>,
    quests: seq<string>,
    skills: seq<Skill>,
    psychologicalProfile: string)

  // ---------------------------------------------------------------------
  // Renderings

  /** `Object.__str__`: the bare name. */
  function ObjectStr(o: Object): string
  {
    o.name
  }

  /** `Object.to_training_format`: `name: description`. */
  function ObjectTrainingFormat(o: Object): string
  {
    o.name + ": " + o.description
  }

  /** Splits a line at its first `:`, which must be followed by a space. */
  function SplitAtColon(line: string): Option<(string, string)>
  {
    if ':' !in line then None
    else
      var i := IndexOf(line, ':');
      var after := line[i + 1..];
      if after != [] && after[0] == ' ' then Some((line[..i], after[1..])) else None
  }

  /** The object's training line gives back its name and description whenever
      the name has no colon. */
  lemma ObjectTrainingFormatSplits(o: Object)
    requires ':' !in o.name
    ensures SplitAtColon(ObjectTrainingFormat(o)) == Some((o.name, o.description))
    ensures SplitAtColon(ObjectTrainingFormat(o)) == Some((ObjectStr(o), o.description))
  {
    var line := ObjectTrainingFormat(o);
    assert line == o.name + [':'] + (" " + o.description);
    IndexOfAfter(o.name, ':', " " + o.description);
    assert line[..|o.name|] == o.name;
    assert line[|o.name| + 1..] == " " + o.description;
  }

  function BracketedValues(ps: seq<ParameterType>): (r: seq<string>)
    ensures |r| == |ps|
    ensures forall i :: 0 <= i < |ps| ==> r[i] == BracketedValue(ps[i])
  {
    seq(|ps|, i requires 0 <= i < |ps| => BracketedValue(ps[i]))
  }

  /** `Skill.to_training_format`: `name <kind> <kind> ... : description`. */
  function SkillTrainingFormat(s: Skill): string
  {
    s.name + " " + Join(BracketedValues(s.parameterTypes), " ") + " : " + s.description
  }

  // Reading a skill declaration back

  predicate StartsWith(s: string, prefix: string)
  {
    |prefix| <= |s| && s[..|prefix|] == prefix
  }

  /** The kind a bracketed name stands for, if any. */
  function KindOfTag(tag: string): Option<ParameterType>
  {
    if tag == "character" then Some(CharacterParam)
    else if tag == "location" then Some(LocationParam)
    else if tag == "item" then Some(ItemParam)
    else if tag == "amount" then Some(AmountParam)
    else if tag == "content" then Some(ContentParam)
    else if tag == "other" then Some(OtherParam)
    else None
  }

  /** Reads one `<kind>` off the front of `s`. */
  function ReadKind(s: string): (r: Option<(ParameterType, string)>)
    ensures r.Some? ==> |r.value.1| < |s|
  {
    if s == [] || s[0] != '<' || '>' !in s then None
    else
      var j := IndexOf(s, '>');
      match KindOfTag(s[1..j])
      case Some(p) => Some((p, s[j + 1..]))
      case None => None
  }

  /** Each kind's group suffix names that kind. */
  lemma KindOfGroupTag(p: ParameterType)
    ensures KindOfTag(GroupTag(p)) == Some(p)
  {
    match p
    case CharacterParam =>
    case LocationParam => assert "location" != "character";
    case ItemParam => assert "item" != "character" && "item" != "location";
    case AmountParam => assert "amount" != "character" && "amount" != "location" && "amount" != "item";
    case ContentParam =>
      assert "content" != "character" && "content" != "location" && "content" != "item" && "content" != "amount";
    case OtherParam =>
      assert "other" != "character" && "other" != "location" && "other" != "item" && "other" != "amount";
      assert "other" != "content";
  }

  /** Reading `<tag>` off the front stops at the first `>`. */
  lemma ReadBracketed(tag: string, rest: string)
    requires '>' !in tag
    ensures ReadKind("<" + tag + ">" + rest) ==
      match KindOfTag(tag)
      case Some(p) => Some((p, rest))
      case None => None
  {
    var head := "<" + tag;
    var s := "<" + tag + ">" + rest;
    assert s == head + ['>'] + rest;
    assert '>' !in head;
    IndexOfAfter(head, '>', rest);
    assert s[1..|head|] == tag;
    assert s[|head| + 1..] == rest;
  }

  lemma ReadKindOf(p: ParameterType, rest: string)
    ensures ReadKind(BracketedValue(p) + rest) == Some((p, rest))
  {
    GroupTagBracketed(p);
    KindOfGroupTag(p);
    ReadBracketed(GroupTag(p), rest);
  }

  /** Reads `<kind> <kind> ... : description`. */
  function ParseKinds(s: string): Option<(seq<ParameterType>, string)>
    decreases |s|
  {
    if StartsWith(s, " : ") then Some(([], s[3..]))
    else
      match ReadKind(s)
      case None => None
      case Some((p, rest)) =>
        if StartsWith(rest, " : ") then Some(([p], rest[3..]))
        else if rest != [] && rest[0] == ' ' then
          match ParseKinds(rest[1..])
          case Some((ps, d)) => Some(([p] + ps, d))
          case None => None
        else None
  }

  /** Reads a skill declaration: the name up to the first space, the kinds, and
      the description. */
  function ParseSkillDeclaration(line: string): Option<(string, seq<ParameterType>, string)>
  {
    if ' ' !in line then None
    else
      var i := IndexOf(line, ' ');
      match ParseKinds(line[i + 1..])
      case Some((ps, d)) => Some((line[..i], ps, d))
      case None => None
  }

  lemma ParseKindsLast(p: ParameterType, d: string)
    ensures ParseKinds(BracketedValue(p) + " : " + d) == Some(([p], d))
  {
    var s := BracketedValue(p) + " : " + d;
    var rest := " : " + d;
    assert s == BracketedValue(p) + rest;
    assert !StartsWith(s, " : ") by {
      assert |s| >= 3 ==> s[..3][0] == '<';
    }
    ReadKindOf(p, rest);
    assert rest[..3] == " : ";
    assert rest[3..] == d;
  }

  lemma DiffersFromPrefix(s: string, prefix: string, i: nat)
    requires i < |prefix| && i < |s| && s[i] != prefix[i]
    ensures !StartsWith(s, prefix)
  {
    if |prefix| <= |s| {
      assert s[..|prefix|][i] != prefix[i];
    }
  }

  lemma ParseKindsMore(p: ParameterType, tail: string)
    requires tail != [] && tail[0] == '<'
    ensures ParseKinds(BracketedValue(p) + " " + tail) ==
      match ParseKinds(tail)
      case Some((ps, d)) => Some(([p] + ps, d))
      case None => None
  {
    ReadKindOf(p, " " + tail);
    GroupTagBracketed(p);
    KindsAfterKind(BracketedValue(p), p, tail);
  }

  lemma KindsAfterKind(b: string, p: ParameterType, tail: string)
    requires b != [] && b[0] == '<' && tail != [] && tail[0] == '<'
    requires ReadKind(b + (" " + tail)) == Some((p, " " + tail))
    ensures ParseKinds(b + " " + tail) ==
      match ParseKinds(tail)
      case Some((ps, d)) => Some(([p] + ps, d))
      case None => None
  {
    var rest := " " + tail;
    var s := b + rest;
    assert b + " " + tail == s;
    DiffersFromPrefix(s, " : ", 0);
    DiffersFromPrefix(rest, " : ", 1);
    assert rest[1..] == tail;
    ParseKindsCons(s, p, rest);
  }

  /** A kind followed by a space and more: the kinds read from the rest,
      with this one in front. */
  lemma ParseKindsCons(s: string, p: ParameterType, rest: string)
    requires !StartsWith(s, " : ") && ReadKind(s) == Some((p, rest))
    requires !StartsWith(rest, " : ") && rest != [] && rest[0] == ' '
    ensures ParseKinds(s) ==
      match ParseKinds(rest[1..])
      case Some((ps, d)) => Some(([p] + ps, d))
      case None => None
  {
  }

  lemma JoinBracketedCons(ps: seq<ParameterType>)
    requires |ps| >= 2
    ensures Join(BracketedValues(ps), " ") ==
      BracketedValue(ps[0]) + " " + Join(BracketedValues(ps[1..]), " ")
  {
    assert BracketedValues(ps)[1..] == BracketedValues(ps[1..]);
  }

  /** A join starts with the first part's first character. */
  lemma JoinHead(parts: seq<string>, sep: string)
    requires parts != [] && parts[0] != []
    ensures Join(parts, sep) != [] && Join(parts, sep)[0] == parts[0][0]
  {
  }

  /** The step of `ParseKindsJoin`: a kind put in front of two or more. */
  lemma ParseKindsJoinStep(ps: seq<ParameterType>, d: string)
    requires |ps| >= 2
    requires ParseKinds(Join(BracketedValues(ps[1..]), " ") + " : " + d) == Some((ps[1..], d))
    ensures ParseKinds(Join(BracketedValues(ps), " ") + " : " + d) == Some((ps, d))
  {
    var tail := Join(BracketedValues(ps[1..]), " ") + " : " + d;
    assert tail != [] && tail[0] == '<' by {
      GroupTagBracketed(ps[1]);
      JoinHead(BracketedValues(ps[1..]), " ");
    }
    assert Join(BracketedValues(ps), " ") + " : " + d == BracketedValue(ps[0]) + " " + tail by {
      JoinBracketedCons(ps);
    }
    ParseKindsMore(ps[0], tail);
    assert [ps[0]] + ps[1..] == ps;
  }

  lemma {:induction false} ParseKindsJoin(ps: seq<ParameterType>, d: string)
    ensures ParseKinds(Join(BracketedValues(ps), " ") + " : " + d) == Some((ps, d))
  {
    if ps == [] {
      assert (Join(BracketedValues(ps), " ") + " : " + d)[..3] == " : ";
    } else if |ps| == 1 {
      assert Join(BracketedValues(ps), " ") == BracketedValue(ps[0]);
      ParseKindsLast(ps[0], d);
      assert ps == [ps[0]];
    } else {
      ParseKindsJoin(ps[1..], d);
      ParseKindsJoinStep(ps, d);
    }
  }

  /** The declaration line of a skill whose name has no space reads back into
      the skill's name, its parameter kinds in order, and its description. */
  lemma SkillTrainingFormatRoundTrip(s: Skill)
    requires ' ' !in s.name
    ensures ParseSkillDeclaration(SkillTrainingFormat(s)) ==
      Some((s.name, s.parameterTypes, s.description))
  {
    var line := SkillTrainingFormat(s);
    var tail := Join(BracketedValues(s.parameterTypes), " ") + " : " + s.description;
    assert line == s.name + [' '] + tail;
    IndexOfAfter(s.name, ' ', tail);
    assert line[..|s.name|] == s.name;
    assert line[|s.name| + 1..] == tail;
    ParseKindsJoin(s.parameterTypes, s.description);
  }

  /** A skill with one kind is declared as its name, the kind in brackets,
      and its description. */
  lemma SingleKindTrainingFormat(s: Skill)
    requires |s.parameterTypes| == 1
    ensures SkillTrainingFormat(s) ==
      s.name + " " + BracketedValue(s.parameterTypes[0]) + " : " + s.description
  {
    assert BracketedValues(s.parameterTypes) == [BracketedValue(s.parameterTypes[0])];
  }

  /** The declaration the prompt shows for the test protagonist's skill:
      `Attack <character> : Deliver a powerful blow`. */
  lemma AttackTrainingFormat()
    ensures SkillTrainingFormat(Skill("Attack", "Deliver a powerful blow", [CharacterParam]))
      == "Attack" + " " + "<character>" + " : " + "Deliver a powerful blow"
  {
    SingleKindTrainingFormat(Skill("Attack", "Deliver a powerful blow", [CharacterParam]));
  }

  // ---------------------------------------------------------------------
  // Skill.to_regex

  /** The entity names a skill's reference slots may take. */
  datatype NameLists = NameLists(characters: seq<string>, locations: seq<string>, items: seq<string>)

  /** The slot token a kind contributes, if it contributes one. */
  function SlotOf(p: ParameterType, names: NameLists): Option<Slot>
  {
    match p
    case CharacterParam => Some(NameAlt(names.characters))
    case LocationParam => Some(NameAlt(names.locations))
    case ItemParam => Some(NameAlt(names.items))
    case AmountParam => Some(Digits)
    case ContentParam => Some(Quoted)
    case OtherParam => None
  }

  /** `f"{skill_name}_{param.value[1:-1]}"`. */
  function GroupNameOf(skillName: string, p: ParameterType): string
  {
    skillName + "_" + GroupTag(p)
  }

  /** The groups the loop of `to_regex` has added after the parameters `ps`. */
  function SkillGroups(skillName: string, ps: seq<ParameterType>, names: NameLists): seq<Group>
  {
    if ps == [] then []
    else
      var p := ps[|ps| - 1];
      SkillGroups(skillName, ps[..|ps| - 1], names) +
        match SlotOf(p, names)
        case Some(slot) => [Group(GroupNameOf(skillName, p), slot)]
        case None => []
  }

  /** The alternative `to_regex` builds for one skill. */
  function SkillAlternative(s: Skill, names: NameLists): Alternative
  {
    Alternative(s.name, SkillGroups(s.name, s.parameterTypes, names))
  }

  /** The kinds that contribute a token, in declared order (`other` does not). */
  function Recognised(ps: seq<ParameterType>): (r: seq<ParameterType>)
    ensures |r| <= |ps|
    ensures forall i :: 0 <= i < |r| ==> r[i] != OtherParam && r[i] in ps
  {
    if ps == [] then []
    else Recognised(ps[..|ps| - 1]) + (if ps[|ps| - 1] == OtherParam then [] else [ps[|ps| - 1]])
  }

  /** The pattern of a skill: its name first, then exactly one group per
      recognised parameter in declared order, named `name_kind`, holding the
      names of that kind, `\d+` or a quoted run. */
  lemma {:induction false} SkillAlternativeShape(s: Skill, names: NameLists)
    ensures SkillAlternative(s, names).literal == s.name
    ensures
      var gs := SkillAlternative(s, names).groups;
      var rs := Recognised(s.parameterTypes);
      && |gs| == |rs|
      && forall k :: 0 <= k < |gs| ==>
        && gs[k].groupName == s.name + "_" + GroupTag(rs[k])
        && Some(gs[k].slot) == SlotOf(rs[k], names)
  {
    SkillGroupsShape(s.name, s.parameterTypes, names);
  }

  lemma {:induction false} SkillGroupsShape(skillName: string, ps: seq<ParameterType>, names: NameLists)
    ensures
      var gs := SkillGroups(skillName, ps, names);
      var rs := Recognised(ps);
      && |gs| == |rs|
      && forall k :: 0 <= k < |gs| ==>
        && gs[k].groupName == skillName + "_" + GroupTag(rs[k])
        && Some(gs[k].slot) == SlotOf(rs[k], names)
  {
    if ps != [] {
      SkillGroupsShape(skillName, ps[..|ps| - 1], names);
    }
  }

  /** The groups after one more parameter: those before it, and its own. */
  lemma SkillGroupsSnoc(skillName: string, ps: seq<ParameterType>, p: ParameterType, names: NameLists)
    ensures SlotOf(p, names).Some? ==>
      SkillGroups(skillName, ps + [p], names) ==
        SkillGroups(skillName, ps, names) + [Group(GroupNameOf(skillName, p), SlotOf(p, names).value)]
    ensures SlotOf(p, names).None? ==>
      SkillGroups(skillName, ps + [p], names) == SkillGroups(skillName, ps, names)
  {
    assert (ps + [p])[..|ps|] == ps;
  }

  /** A group's text with its slot and closing parenthesis written as one literal. */
  lemma GroupText(groupName: string, slot: Slot, tail: string)
    requires tail == ">" + RenderSlot(slot) + ")"
    ensures "(?P<" + groupName + tail == "(?P<" + groupName + ">" + RenderSlot(slot) + ")"
  {
  }

  /** One step of `to_regex`: appending the text of the next parameter's
      group, or nothing for `other`, extends the rendering by that parameter. */
  lemma ToRegexStep(skillName: string, ps: seq<ParameterType>, p: ParameterType, names: NameLists,
                    parts: seq<string>, next: seq<string>)
    requires parts == [Escape(skillName)] + RenderGroups(SkillGroups(skillName, ps, names))
    requires SlotOf(p, names).None? ==> next == parts
    requires SlotOf(p, names).Some? ==>
      next == parts + ["(?P<" + GroupNameOf(skillName, p) + ">" + RenderSlot(SlotOf(p, names).value) + ")"]
    ensures next == [Escape(skillName)] + RenderGroups(SkillGroups(skillName, ps + [p], names))
  {
    SkillGroupsSnoc(skillName, ps, p, names);
    if SlotOf(p, names).Some? {
      RenderGroupsSnoc(SkillGroups(skillName, ps, names), Group(GroupNameOf(skillName, p), SlotOf(p, names).value));
    }
  }

  /** The body of the loop of `to_regex`: the part one parameter appends,
      chosen by its kind. */
  method AppendGroup(skillName: string, param: ParameterType, names: NameLists, parts: seq<string>)
    returns (next: seq<string>)
    ensures SlotOf(param, names).None? ==> next == parts
    ensures SlotOf(param, names).Some? ==>
      next == parts + ["(?P<" + GroupNameOf(skillName, param) + ">" + RenderSlot(SlotOf(param, names).value) + ")"]
  {
    var groupName := skillName + "_" + GroupTag(param);
    next := parts;
    if param == CharacterParam {
      next := parts + ["(?P<" + groupName + ">" + Join(EscapeAll(names.characters), "|") + ")"];
    } else if param == LocationParam {
      next := parts + ["(?P<" + groupName + ">" + Join(EscapeAll(names.locations), "|") + ")"];
    } else if param == ItemParam {
      next := parts + ["(?P<" + groupName + ">" + Join(EscapeAll(names.items), "|") + ")"];
    } else if param == AmountParam {
      next := parts + ["(?P<" + groupName + ">\\d+)"];
      GroupText(groupName, Digits, ">\\d+)");
    } else if param == ContentParam {
      next := parts + ["(?P<" + groupName + ">\"[^\"]*\")"];
      GroupText(groupName, Quoted, ">\"[^\"]*\")");
    }
  }

  /** `Skill.to_regex`: the escaped name and one named group per recognised
      parameter, joined by `\s+`. */
  method ToRegex(s: Skill, names: NameLists) returns (regex: string)
    ensures regex == RenderAlternative(SkillAlternative(s, names))
  {
    var parts := [Escape(s.name)];
    var i := 0;
    while i < |s.parameterTypes|
      invariant 0 <= i <= |s.parameterTypes|
      invariant parts == [Escape(s.name)] + RenderGroups(SkillGroups(s.name, s.parameterTypes[..i], names))
    {
      var next := AppendGroup(s.name, s.parameterTypes[i], names, parts);
      ToRegexStep(s.name, s.parameterTypes[..i], s.parameterTypes[i], names, parts, next);
      TakeSnoc(s.parameterTypes, i);
      parts := next;
      i := i + 1;
    }
    assert s.parameterTypes[..i] == s.parameterTypes;
    regex := Join(parts, SlotSeparator);
  }
}

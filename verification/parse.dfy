/** gigax/parse.py: the guided pattern built from a protagonist's skills, and
    the reading of a model's completion back into a character action. */
module Parse {
  import opened Text
  import opened Wrappers
  import opened Regex
  import opened Scene

  /** An action parameter: `Union[str, int]`. */
  datatype Value = Str(s: string) | Int(n: int)

  /** `CharacterAction`: the command, who performs it, and its parameters. */
  datatype CharacterAction = CharacterAction(command: string, protagonist: Protagonist, parameters: seq<Value>)

  /** The `ValueError`s `from_str` raises: no match, a match without a group,
      and `int()` refusing an amount. */
  datatype ParseError = InvalidCommandFormat | NoMatchingSkill | InvalidLiteral

  /** `re.error` from `re.compile`. */
  datatype CompileError = ReError

  // ---------------------------------------------------------------------
  // CharacterAction.__str__

  /** `str(v)`. */
  function ValueStr(v: Value): string
  {
    match v
    case Str(s) => s
    case Int(n) => IntToString(n)
  }

  function ParametersText(ps: seq<Value>): string
  {
    Join(seq(|ps|, i requires 0 <= i < |ps| => ValueStr(ps[i])), " ")
  }

  /** `CharacterAction.__str__`: `protagonist: command p1 p2 ...`. */
  function ActionString(a: CharacterAction): string
  {
    a.protagonist.name + ": " + a.command + " " + ParametersText(a.parameters)
  }

  /** The printed action names its protagonist before the first colon, and
      what follows is the command line the parameters were read from. */
  lemma ActionStringSplits(a: CharacterAction)
    requires ':' !in a.protagonist.name
    ensures SplitAtColon(ActionString(a)) ==
      Some((a.protagonist.name, a.command + " " + ParametersText(a.parameters)))
  {
    var o := Object(a.protagonist.name, a.command + " " + ParametersText(a.parameters));
    ObjectTrainingFormatSplits(o);
    assert ActionString(a) == ObjectTrainingFormat(o);
  }

  // ---------------------------------------------------------------------
  // get_guided_regex

  function CharacterNames(cs: seq<Character>): (r: seq<string>)
    ensures |r| == |cs| && forall i :: 0 <= i < |cs| ==> r[i] == cs[i].name
  {
    seq(|cs|, i requires 0 <= i < |cs| => cs[i].name)
  }

  function ObjectNames(os: seq<Object>): (r: seq<string>)
    ensures |r| == |os| && forall i :: 0 <= i < |os| ==> r[i] == os[i].name
  {
    seq(|os|, i requires 0 <= i < |os| => os[i].name)
  }

  function AuthorizedNames(characters: seq<Character>, locations: seq<Location>, items: seq<Item>): NameLists
  {
    NameLists(CharacterNames(characters), ObjectNames(locations), ObjectNames(items))
  }

  /** One alternative per skill, in skill order. */
  function GuidedPattern(skills: seq<Skill>, names: NameLists): (p: Pattern)
    ensures |p.alternatives| == |skills|
    ensures forall i :: 0 <= i < |skills| ==> p.alternatives[i] == SkillAlternative(skills[i], names)
  {
    Pattern(seq(|skills|, i requires 0 <= i < |skills| => SkillAlternative(skills[i], names)))
  }

  /** `get_guided_regex`: the alternatives of every skill joined by `|`,
      compiled case-insensitively; compilation fails on a repeated or
      malformed group name. */
  function GetGuidedRegex(skills: seq<Skill>, characters: seq<Character>, locations: seq<Location>,
                          items: seq<Item>): Result<Pattern, CompileError>
  {
    var p := GuidedPattern(skills, AuthorizedNames(characters, locations, items));
    if Compilable(p) then Success(p) else Failure(ReError)
  }

  function SkillNames(skills: seq<Skill>): (r: seq<string>)
    ensures |r| == |skills| && forall i :: 0 <= i < |skills| ==> r[i] == skills[i].name
  {
    seq(|skills|, i requires 0 <= i < |skills| => skills[i].name)
  }

  /** A skill whose name is an identifier and whose kinds do not repeat yields
      group names that are distinct identifiers, each naming the skill. */
  lemma SkillGroupNames(s: Skill, names: NameLists)
    requires IsIdentifier(s.name)
    requires NoDuplicates(Recognised(s.parameterTypes))
    ensures var gn := GroupNames(SkillAlternative(s, names).groups);
      && NoDuplicates(gn)
      && forall i :: 0 <= i < |gn| ==> IsIdentifier(gn[i]) && DropLastSegment(gn[i]) == s.name
  {
    SkillAlternativeShape(s, names);
    var rs := Recognised(s.parameterTypes);
    var gn := GroupNames(SkillAlternative(s, names).groups);
    forall i | 0 <= i < |gn| ensures IsIdentifier(gn[i]) && DropLastSegment(gn[i]) == s.name {
      var tag := GroupTag(rs[i]);
      assert gn[i] == s.name + "_" + tag;
      DropLastSegmentOfLabel(s.name, tag);
    }
    forall i, j | 0 <= i < j < |gn| ensures gn[i] != gn[j] {
      var ti, tj := GroupTag(rs[i]), GroupTag(rs[j]);
      assert gn[i][|s.name| + 1..] == ti;
      assert gn[j][|s.name| + 1..] == tj;
      GroupTagInjective(rs[i], rs[j]);
    }
  }

  lemma NoDuplicatesAppend(a: seq<string>, b: seq<string>)
    requires NoDuplicates(a) && NoDuplicates(b)
    requires forall i, j :: 0 <= i < |a| && 0 <= j < |b| ==> a[i] != b[j]
    ensures NoDuplicates(a + b)
  {
    forall i, j | 0 <= i < j < |a + b| ensures (a + b)[i] != (a + b)[j] {
      if j < |a| {
      } else if i >= |a| {
        assert (a + b)[i] == b[i - |a|] && (a + b)[j] == b[j - |a|];
      } else {
        assert (a + b)[j] == b[j - |a|];
      }
    }
  }

  /** One skill's group names put before the rest's: still distinct, each
      naming one of the skills. */
  lemma GroupNamesCons(name: string, others: seq<string>, a: seq<string>, b: seq<string>)
    requires NoDuplicates(a) && NoDuplicates(b)
    requires name !in others
    requires forall i :: 0 <= i < |a| ==> IsIdentifier(a[i]) && DropLastSegment(a[i]) == name
    requires forall j :: 0 <= j < |b| ==> IsIdentifier(b[j]) && DropLastSegment(b[j]) in others
    ensures NoDuplicates(a + b)
    ensures forall i :: 0 <= i < |a + b| ==>
      IsIdentifier((a + b)[i]) && DropLastSegment((a + b)[i]) in [name] + others
  {
    forall i, j | 0 <= i < |a| && 0 <= j < |b| ensures a[i] != b[j] {
      assert DropLastSegment(b[j]) in others;
    }
    NoDuplicatesAppend(a, b);
    forall i | 0 <= i < |a + b|
      ensures IsIdentifier((a + b)[i]) && DropLastSegment((a + b)[i]) in [name] + others
    {
      if i >= |a| {
        assert (a + b)[i] == b[i - |a|];
      }
    }
  }

  /** The names of all skills but the first: distinct, and none of them the
      first skill's. */
  lemma SkillNamesTail(skills: seq<Skill>)
    requires skills != [] && NoDuplicates(SkillNames(skills))
    ensures SkillNames(skills) == [skills[0].name] + SkillNames(skills[1..])
    ensures NoDuplicates(SkillNames(skills[1..]))
    ensures skills[0].name !in SkillNames(skills[1..])
  {
    var rest := skills[1..];
    forall i, j | 0 <= i < j < |rest| ensures SkillNames(rest)[i] != SkillNames(rest)[j] {
      assert SkillNames(skills)[i + 1] != SkillNames(skills)[j + 1];
    }
    forall k | 0 <= k < |rest| ensures SkillNames(rest)[k] != skills[0].name {
      assert SkillNames(skills)[0] != SkillNames(skills)[k + 1];
    }
  }

  lemma {:induction false} GuidedGroupNames(skills: seq<Skill>, names: NameLists)
    requires forall i :: 0 <= i < |skills| ==>
      IsIdentifier(skills[i].name) && NoDuplicates(Recognised(skills[i].parameterTypes))
    requires NoDuplicates(SkillNames(skills))
    ensures var gn := PatternGroupNames(GuidedPattern(skills, names).alternatives);
      && NoDuplicates(gn)
      && forall i :: 0 <= i < |gn| ==> IsIdentifier(gn[i]) && DropLastSegment(gn[i]) in SkillNames(skills)
  {
    var alts := GuidedPattern(skills, names).alternatives;
    if skills != [] {
      var rest := skills[1..];
      assert GuidedPattern(rest, names).alternatives == alts[1..];
      SkillNamesTail(skills);
      GuidedGroupNames(rest, names);
      SkillGroupNames(skills[0], names);
      var a := GroupNames(alts[0].groups);
      var b := PatternGroupNames(alts[1..]);
      GroupNamesCons(skills[0].name, SkillNames(rest), a, b);
      assert PatternGroupNames(alts) == a + b;
    }
  }

  /** Skills with distinct identifier names, none declaring a kind twice, give
      a pattern `re.compile` accepts. */
  lemma GuidedRegexCompiles(skills: seq<Skill>, characters: seq<Character>, locations: seq<Location>,
                            items: seq<Item>)
    requires forall i :: 0 <= i < |skills| ==>
      IsIdentifier(skills[i].name) && NoDuplicates(Recognised(skills[i].parameterTypes))
    requires NoDuplicates(SkillNames(skills))
    ensures GetGuidedRegex(skills, characters, locations, items) ==
      Success(GuidedPattern(skills, AuthorizedNames(characters, locations, items)))
  {
    GuidedGroupNames(skills, AuthorizedNames(characters, locations, items));
  }

  lemma {:induction false} PatternGroupNamesHas(alts: seq<Alternative>, k: nat, i: nat)
    requires k < |alts| && i < |alts[k].groups|
    ensures exists j :: 0 <= j < |PatternGroupNames(alts)| && PatternGroupNames(alts)[j] == alts[k].groups[i].groupName
  {
    var a := GroupNames(alts[0].groups);
    assert PatternGroupNames(alts) == a + PatternGroupNames(alts[1..]);
    if k == 0 {
      assert PatternGroupNames(alts)[i] == a[i];
    } else {
      PatternGroupNamesHas(alts[1..], k - 1, i);
      var j :| 0 <= j < |PatternGroupNames(alts[1..])| &&
        PatternGroupNames(alts[1..])[j] == alts[1..][k - 1].groups[i].groupName;
      assert PatternGroupNames(alts)[|a| + j] == PatternGroupNames(alts[1..])[j];
    }
  }

  lemma {:induction false} PatternGroupNamesRepeat(alts: seq<Alternative>, k: nat, i: nat, l: nat)
    requires k < |alts| && i < l < |alts[k].groups|
    requires alts[k].groups[i].groupName == alts[k].groups[l].groupName
    ensures !NoDuplicates(PatternGroupNames(alts))
  {
    var a := GroupNames(alts[0].groups);
    var pn := PatternGroupNames(alts);
    assert pn == a + PatternGroupNames(alts[1..]);
    if k == 0 {
      assert pn[i] == pn[l];
    } else {
      PatternGroupNamesRepeat(alts[1..], k - 1, i, l);
      var b := PatternGroupNames(alts[1..]);
      var x, y :| 0 <= x < y < |b| && b[x] == b[y];
      assert pn[|a| + x] == pn[|a| + y];
    }
  }

  /** A skill declaring the same kind twice, say `trade <item> <item>`, makes
      `re.compile` reject the whole pattern: both groups get the same name. */
  lemma GuidedRegexRejectsRepeatedKind(skills: seq<Skill>, characters: seq<Character>,
                                       locations: seq<Location>, items: seq<Item>, k: nat, i: nat, l: nat)
    requires k < |skills|
    requires i < l < |Recognised(skills[k].parameterTypes)|
    requires Recognised(skills[k].parameterTypes)[i] == Recognised(skills[k].parameterTypes)[l]
    ensures GetGuidedRegex(skills, characters, locations, items) == Failure(ReError)
  {
    var names := AuthorizedNames(characters, locations, items);
    var alts := GuidedPattern(skills, names).alternatives;
    SkillAlternativeShape(skills[k], names);
    PatternGroupNamesRepeat(alts, k, i, l);
  }

  /** A skill with a recognised parameter whose name holds a space (as in
      `pick up` with an `<item>`) makes `re.compile` reject the pattern: the
      group name read up to the first `>` is not an identifier. */
  lemma GuidedRegexRejectsSpacedName(skills: seq<Skill>, characters: seq<Character>,
                                     locations: seq<Location>, items: seq<Item>, k: nat)
    requires k < |skills|
    requires ' ' in skills[k].name
    requires '>' !in skills[k].name
    requires Recognised(skills[k].parameterTypes) != []
    ensures GetGuidedRegex(skills, characters, locations, items) == Failure(ReError)
  {
    var names := AuthorizedNames(characters, locations, items);
    var alts := GuidedPattern(skills, names).alternatives;
    SkillAlternativeShape(skills[k], names);
    var g := alts[k].groups[0].groupName;
    PatternGroupNamesHas(alts, k, 0);
    var j :| 0 <= j < |PatternGroupNames(alts)| && PatternGroupNames(alts)[j] == g;
    var x :| 0 <= x < |skills[k].name| && skills[k].name[x] == ' ';
    assert g[x] == ' ';
  }

  // ---------------------------------------------------------------------
  // CharacterAction.from_str

  /** `match.groupdict()`: every group of the pattern in order, with its
      capture when it took part in the match. */
  function Entries(gs: seq<Group>, caps: Option<seq<string>>): (r: seq<(string, Option<string>)>)
    ensures |r| == |gs|
    ensures forall i :: 0 <= i < |gs| ==> r[i].0 == gs[i].groupName
  {
    seq(|gs|, i requires 0 <= i < |gs| =>
      (gs[i].groupName, if caps.Some? && i < |caps.value| then Some(caps.value[i]) else None))
  }

  function DictFrom(alts: seq<Alternative>, k: nat, m: Match): seq<(string, Option<string>)>
    decreases |alts| - k
  {
    if k >= |alts| then []
    else Entries(alts[k].groups, if k == m.alternative then Some(m.captures) else None) + DictFrom(alts, k + 1, m)
  }

  function GroupDict(p: Pattern, m: Match): seq<(string, Option<string>)>
  {
    DictFrom(p.alternatives, 0, m)
  }

  /** `match.lastgroup`: the last group of the alternative that matched. */
  function LastGroup(p: Pattern, m: Match): Option<string>
  {
    if m.alternative < |p.alternatives| && p.alternatives[m.alternative].groups != [] then
      var gs := p.alternatives[m.alternative].groups;
      Some(gs[|gs| - 1].groupName)
    else None
  }

  /** `group_name[len(f"{command}_"):]`, with Python's clamped slicing. */
  function ParamType(command: string, groupName: string): string
  {
    if |command| + 1 <= |groupName| then groupName[|command| + 1..] else ""
  }

  /** What one captured value adds to the parameters. */
  function ConvertValue(paramType: string, value: string): Result<seq<Value>, ParseError>
  {
    if paramType == "character" || paramType == "NPC" || paramType == "item" then Success([Str(value)])
    else if paramType == "amount" then
      if value != [] && AllDigits(value) then Success([Int(DigitsValue(value))]) else Failure(InvalidLiteral)
    else if paramType == "content" then Success([Str(Strip(value, '"'))])
    else Success([])
  }

  /** One turn of the loop over `groupdict()`: unset and empty captures are
      skipped, an error stops the loop. */
  function CollectStep(command: string, acc: Result<seq<Value>, ParseError>, entry: (string, Option<string>))
    : Result<seq<Value>, ParseError>
  {
    if acc.Failure? || entry.1.None? || entry.1.value == [] then acc
    else
      match ConvertValue(ParamType(command, entry.0), entry.1.value)
      case Failure(e) => Failure(e)
      case Success(extra) => Success(acc.value + extra)
  }

  /** The parameters the loop over `groupdict()` collects, or the first error. */
  function Collect(command: string, entries: seq<(string, Option<string>)>): Result<seq<Value>, ParseError>
  {
    if entries == [] then Success([])
    else CollectStep(command, Collect(command, entries[..|entries| - 1]), entries[|entries| - 1])
  }

  /** What `CharacterAction.from_str(text, protagonist, compiled)` returns or
      raises. */
  function Decode(text: string, protagonist: Protagonist, p: Pattern): Result<CharacterAction, ParseError>
    requires Compilable(p)
  {
    match MatchPattern(p, text)
    case None => Failure(InvalidCommandFormat)
    case Some(m) =>
      match LastGroup(p, m)
      case None => Failure(NoMatchingSkill)
      case Some(g) =>
        var command := DropLastSegment(g);
        match Collect(command, GroupDict(p, m))
        case Failure(e) => Failure(e)
        case Success(ps) => Success(CharacterAction(command, protagonist, ps))
  }

  /** Collecting over two runs of entries: the first error, else both results. */
  lemma {:induction false} CollectAppend(command: string, a: seq<(string, Option<string>)>, b: seq<(string, Option<string>)>)
    ensures Collect(command, a + b) ==
      if Collect(command, a).Failure? then Collect(command, a)
      else if Collect(command, b).Failure? then Collect(command, b)
      else Success(Collect(command, a).value + Collect(command, b).value)
  {
    if b == [] {
      assert a + b == a;
      if Collect(command, a).Success? {
        assert Collect(command, a).value + [] == Collect(command, a).value;
      }
    } else {
      var n := |b|;
      var front := b[..n - 1];
      assert (a + b)[..|a + b| - 1] == a + front;
      assert (a + b)[|a + b| - 1] == b[n - 1];
      CollectAppend(command, a, front);
      var ra, rf := Collect(command, a), Collect(command, front);
      if ra.Success? && rf.Success? {
        var entry := b[n - 1];
        if !(entry.1.None? || entry.1.value == []) {
          var c := ConvertValue(ParamType(command, entry.0), entry.1.value);
          if c.Success? {
            assert ra.value + rf.value + c.value == ra.value + (rf.value + c.value);
          }
        }
      }
    }
  }

  lemma CollectSnoc(command: string, entries: seq<(string, Option<string>)>, i: nat)
    requires i < |entries|
    ensures Collect(command, entries[..i + 1]) == CollectStep(command, Collect(command, entries[..i]), entries[i])
  {
    assert entries[..i + 1][..i] == entries[..i];
    assert entries[..i + 1][i] == entries[i];
  }

  /** `CharacterAction.from_str`. */
  method FromStr(commandStr: string, protagonist: Protagonist, compiledRegex: Pattern)
    returns (r: Result<CharacterAction, ParseError>)
    requires Compilable(compiledRegex)
    ensures r == Decode(commandStr, protagonist, compiledRegex)
  {
    var found := MatchPattern(compiledRegex, commandStr);
    if found.None? {
      return Failure(InvalidCommandFormat);
    }
    var m := found.value;
    var lastGroup := LastGroup(compiledRegex, m);
    if lastGroup.None? {
      return Failure(NoMatchingSkill);
    }
    var command := DropLastSegment(lastGroup.value);
    var parameters: seq<Value> := [];
    var groups := GroupDict(compiledRegex, m);
    var i := 0;
    while i < |groups|
      invariant 0 <= i <= |groups|
      invariant Collect(command, groups[..i]) == Success(parameters)
    {
      var (groupName, value) := groups[i];
      CollectSnoc(command, groups, i);
      if value.Some? && value.value != [] {
        var paramType := ParamType(command, groupName);
        if paramType == "character" || paramType == "NPC" || paramType == "item" {
          parameters := parameters + [Str(value.value)];
        } else if paramType == "amount" {
          if !(AllDigits(value.value)) {
            CollectAppend(command, groups[..i + 1], groups[i + 1..]);
            assert groups[..i + 1] + groups[i + 1..] == groups;
            return Failure(InvalidLiteral);
          }
          parameters := parameters + [Int(DigitsValue(value.value))];
        } else if paramType == "content" {
          parameters := parameters + [Str(Strip(value.value, '"'))];
        } else {
          assert parameters + [] == parameters;
        }
      }
      i := i + 1;
    }
    assert groups[..i] == groups;
    return Success(CharacterAction(command, protagonist, parameters));
  }

  // ---------------------------------------------------------------------
  // What from_str reads from a guided pattern

  /** What a value of a given kind contributes: names and amounts as read,
      content without its quotes, locations and `other` nothing. */
  function KindValue(p: ParameterType, v: string): seq<Value>
    requires p == AmountParam ==> AllDigits(v)
  {
    match p
    case CharacterParam => [Str(v)]
    case ItemParam => [Str(v)]
    case AmountParam => [Int(DigitsValue(v))]
    case ContentParam => [Str(Strip(v, '"'))]
    case LocationParam => []
    case OtherParam => []
  }

  predicate AmountsAreDigits(kinds: seq<ParameterType>, vs: seq<string>)
    requires |kinds| == |vs|
  {
    forall k :: 0 <= k < |kinds| ==> kinds[k] == AmountParam ==> AllDigits(vs[k])
  }

  /** The parameters of an action whose kinds are `kinds` and whose captured
      texts are `vs`; empty captures add nothing. */
  function Converted(kinds: seq<ParameterType>, vs: seq<string>): seq<Value>
    requires |kinds| == |vs| && AmountsAreDigits(kinds, vs)
  {
    if kinds == [] then []
    else
      var n := |kinds| - 1;
      Converted(kinds[..n], vs[..n]) + (if vs[n] == [] then [] else KindValue(kinds[n], vs[n]))
  }

  /** The group suffix of a kind selects that kind's conversion. */
  lemma ConvertKind(p: ParameterType, v: string)
    requires v != [] && (p == AmountParam ==> AllDigits(v))
    ensures ConvertValue(GroupTag(p), v) == Success(KindValue(p, v))
  {
    match p
    case CharacterParam =>
    case LocationParam =>
    case ItemParam =>
    case AmountParam =>
    case ContentParam =>
    case OtherParam =>
  }

  /** The entries of a skill's own groups, each captured. */
  lemma {:induction false} CollectKinds(command: string, kinds: seq<ParameterType>, vs: seq<string>,
                                        entries: seq<(string, Option<string>)>)
    requires |kinds| == |vs| == |entries| && AmountsAreDigits(kinds, vs)
    requires forall k :: 0 <= k < |entries| ==> entries[k] == (command + "_" + GroupTag(kinds[k]), Some(vs[k]))
    ensures Collect(command, entries) == Success(Converted(kinds, vs))
  {
    if kinds != [] {
      var n := |kinds| - 1;
      assert AmountsAreDigits(kinds[..n], vs[..n]) by {
        forall k | 0 <= k < n && kinds[..n][k] == AmountParam ensures AllDigits(vs[..n][k]) {
          assert kinds[k] == AmountParam;
        }
      }
      CollectKinds(command, kinds[..n], vs[..n], entries[..n]);
      var tag := GroupTag(kinds[n]);
      assert (command + "_" + tag)[|command| + 1..] == tag;
      assert ParamType(command, entries[n].0) == tag;
      var prev := Converted(kinds[..n], vs[..n]);
      assert Collect(command, entries) == CollectStep(command, Success(prev), entries[n]);
      if vs[n] == [] {
        assert prev + [] == prev;
      } else {
        ConvertKind(kinds[n], vs[n]);
      }
    }
  }

  lemma {:induction false} CollectUnset(command: string, gs: seq<Group>)
    ensures Collect(command, Entries(gs, None)) == Success([])
  {
    if gs != [] {
      var n := |gs| - 1;
      assert Entries(gs, None)[..n] == Entries(gs[..n], None);
      CollectUnset(command, gs[..n]);
    }
  }

  /** Only the matched alternative's groups contribute. */
  lemma {:induction false} CollectDictFrom(command: string, alts: seq<Alternative>, k: nat, m: Match)
    ensures Collect(command, DictFrom(alts, k, m)) ==
      if k <= m.alternative < |alts| then Collect(command, Entries(alts[m.alternative].groups, Some(m.captures)))
      else Success([])
    decreases |alts| - k
  {
    if k < |alts| {
      var here := Entries(alts[k].groups, if k == m.alternative then Some(m.captures) else None);
      var later := DictFrom(alts, k + 1, m);
      assert DictFrom(alts, k, m) == here + later;
      CollectAppend(command, here, later);
      CollectDictFrom(command, alts, k + 1, m);
      if k != m.alternative {
        CollectUnset(command, alts[k].groups);
        var rl := Collect(command, later);
        if rl.Success? {
          assert [] + rl.value == rl.value;
        }
      } else {
        var rh := Collect(command, here);
        if rh.Success? {
          assert rh.value + [] == rh.value;
        }
      }
    }
  }

  /** Reading a completion with the guided pattern of a protagonist's skills:
      the first skill whose alternative matches decides; its captures are
      names from the authorized lists (up to case), digit runs or quoted text;
      the command is that skill's name (underscores included); and the
      parameters are its captures converted kind by kind. A skill without a
      recognised parameter cannot be read. */
  lemma DecodeGuided(text: string, protagonist: Protagonist, skills: seq<Skill>, names: NameLists)
    requires skills != []
    requires Compilable(GuidedPattern(skills, names))
    requires MatchPattern(GuidedPattern(skills, names), text).Some?
    ensures
      var p := GuidedPattern(skills, names);
      var m := MatchPattern(p, text).value;
      && m.alternative < |skills|
      && MatchAlternative(SkillAlternative(skills[m.alternative], names), text) == Some(m.captures)
      && forall j :: 0 <= j < m.alternative ==> MatchAlternative(SkillAlternative(skills[j], names), text).None?
    ensures
      var p := GuidedPattern(skills, names);
      var m := MatchPattern(p, text).value;
      var s := skills[m.alternative];
      var rs := Recognised(s.parameterTypes);
      && |m.captures| == |rs|
      && (forall k :: 0 <= k < |rs| ==> Accepts(SlotOf(rs[k], names).value, m.captures[k]))
      && AmountsAreDigits(rs, m.captures)
      && (rs == [] ==> Decode(text, protagonist, p) == Failure(NoMatchingSkill))
      && (rs != [] ==>
            Decode(text, protagonist, p) == Success(CharacterAction(s.name, protagonist, Converted(rs, m.captures))))
  {
    var p := GuidedPattern(skills, names);
    MatchPatternSpec(p, text);
    var m := MatchPattern(p, text).value;
    DecodeCaptures(text, skills, names, m);
    DecodeMatched(text, protagonist, skills, names, m);
  }

  /** The captures of the matched skill's alternative are names from the
      lists, digit runs or quoted text. */
  lemma DecodeCaptures(text: string, skills: seq<Skill>, names: NameLists, m: Match)
    requires m.alternative < |skills|
    requires MatchAlternative(SkillAlternative(skills[m.alternative], names), text) == Some(m.captures)
    ensures
      var rs := Recognised(skills[m.alternative].parameterTypes);
      && |m.captures| == |rs|
      && (forall k :: 0 <= k < |rs| ==> Accepts(SlotOf(rs[k], names).value, m.captures[k]))
      && AmountsAreDigits(rs, m.captures)
  {
    var s := skills[m.alternative];
    var alt := SkillAlternative(s, names);
    var rs := Recognised(s.parameterTypes);
    SkillAlternativeShape(s, names);
    MatchAlternativeSound(alt, text);
    forall k | 0 <= k < |rs| ensures Accepts(SlotOf(rs[k], names).value, m.captures[k]) {
      assert alt.groups[k].slot == SlotOf(rs[k], names).value;
    }
    assert AmountsAreDigits(rs, m.captures) by {
      forall k | 0 <= k < |rs| && rs[k] == AmountParam ensures AllDigits(m.captures[k]) {
        assert SlotOf(rs[k], names).value == Digits;
      }
    }
  }

  /** What `from_str` returns once the matched skill and its captures are known. */
  lemma DecodeMatched(text: string, protagonist: Protagonist, skills: seq<Skill>, names: NameLists, m: Match)
    requires Compilable(GuidedPattern(skills, names))
    requires MatchPattern(GuidedPattern(skills, names), text) == Some(m)
    requires m.alternative < |skills|
    requires |m.captures| == |Recognised(skills[m.alternative].parameterTypes)|
    requires AmountsAreDigits(Recognised(skills[m.alternative].parameterTypes), m.captures)
    ensures
      var s := skills[m.alternative];
      var rs := Recognised(s.parameterTypes);
      && (rs == [] ==> Decode(text, protagonist, GuidedPattern(skills, names)) == Failure(NoMatchingSkill))
      && (rs != [] ==>
            Decode(text, protagonist, GuidedPattern(skills, names))
            == Success(CharacterAction(s.name, protagonist, Converted(rs, m.captures))))
  {
    var p := GuidedPattern(skills, names);
    var s := skills[m.alternative];
    var alt := SkillAlternative(s, names);
    var rs := Recognised(s.parameterTypes);
    SkillAlternativeShape(s, names);
    assert p.alternatives[m.alternative] == alt;
    if rs != [] {
      var last := alt.groups[|alt.groups| - 1].groupName;
      assert LastGroup(p, m) == Some(last);
      DropLastSegmentOfLabel(s.name, GroupTag(rs[|rs| - 1]));
      CollectDictFrom(s.name, p.alternatives, 0, m);
      CollectKinds(s.name, rs, m.captures, Entries(alt.groups, Some(m.captures)));
    } else {
      assert LastGroup(p, m) == None;
    }
  }

  /** A completion is refused as malformed exactly when no skill's alternative
      matches its start. */
  lemma DecodeRejects(text: string, protagonist: Protagonist, skills: seq<Skill>, names: NameLists)
    requires skills != []
    requires Compilable(GuidedPattern(skills, names))
    ensures Decode(text, protagonist, GuidedPattern(skills, names)) == Failure(InvalidCommandFormat) <==>
      forall j :: 0 <= j < |skills| ==> MatchAlternative(SkillAlternative(skills[j], names), text).None?
  {
    var p := GuidedPattern(skills, names);
    MatchPatternSpec(p, text);
    if MatchPattern(p, text).Some? {
      DecodeGuided(text, protagonist, skills, names);
    }
  }

  /** With no skills, `"|".join([])` is the empty pattern: it compiles, it
      matches every completion with no group set, and the completion is
      refused as matching no skill. */
  lemma DecodeNoSkills(text: string, protagonist: Protagonist, characters: seq<Character>,
                       locations: seq<Location>, items: seq<Item>)
    ensures GetGuidedRegex([], characters, locations, items).Success?
    ensures
      var p := GetGuidedRegex([], characters, locations, items).value;
      Decode(text, protagonist, p) == Failure(NoMatchingSkill)
  {
    assert GuidedPattern([], AuthorizedNames(characters, locations, items)).alternatives == [];
  }

  /** Round trip: a skill name, in any letter case, followed by readable
      values one space apart, is read back as that skill's action with those
      values converted, provided no earlier skill matches the text. */
  lemma DecodeRoundTrip(protagonist: Protagonist, skills: seq<Skill>, names: NameLists, j: nat,
                        lit: string, vs: seq<string>, trailing: string)
    requires Compilable(GuidedPattern(skills, names))
    requires j < |skills| && CiSame(skills[j].name, lit)
    requires Recognised(skills[j].parameterTypes) != []
    requires ReadableValues(SkillAlternative(skills[j], names).groups, vs, trailing)
    requires forall i :: 0 <= i < j ==>
      MatchAlternative(SkillAlternative(skills[i], names), lit + Spaced(vs) + trailing).None?
    ensures |Recognised(skills[j].parameterTypes)| == |vs|
    ensures AmountsAreDigits(Recognised(skills[j].parameterTypes), vs)
    ensures Decode(lit + Spaced(vs) + trailing, protagonist, GuidedPattern(skills, names)) ==
      Success(CharacterAction(skills[j].name, protagonist, Converted(Recognised(skills[j].parameterTypes), vs)))
  {
    var p := GuidedPattern(skills, names);
    var text := lit + Spaced(vs) + trailing;
    SkillAlternativeShape(skills[j], names);
    AlternativeRoundTrip(SkillAlternative(skills[j], names), lit, vs, trailing);
    MatchFromFirst(p.alternatives, text, 0, Match(j, vs));
    DecodeGuided(text, protagonist, skills, names);
  }
}

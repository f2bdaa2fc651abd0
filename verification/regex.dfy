/** The pattern encoding as an explicit value instead of regex text.

    A guided pattern is an alternation of per-skill alternatives. Each
    alternative is the skill name, matched literally, followed by its named
    groups, each preceded by `\s+`. A group holds one of three slot tokens:
    an alternation of entity names, `\d+`, or `"[^"]*"`. `Render*` gives the
    exact regex text the source builds; `Match*` gives the meaning Python's
    `re.match` assigns to that text when it is compiled with `re.IGNORECASE`:
    anchored at the start only, alternatives tried left to right, greedy
    quantifiers, backtracking, first success wins. */
module Regex {
  import opened Text
  import opened Wrappers

  datatype Slot =
    | NameAlt(names: seq<string>)  // `(?P<g>n1|n2|...)`, each name escaped
    | Digits                       // `(?P<g>\d+)`
    | Quoted                       // `(?P<g>"[^"]*")`

  datatype Group = Group(groupName: string, slot: Slot)

  datatype Alternative = Alternative(literal: string, groups: seq<Group>)

  datatype Pattern = Pattern(alternatives: seq<Alternative>)

  // ---------------------------------------------------------------------
  // re.escape

  /** The characters `re.escape` prefixes with a backslash (Python 3.7+). */
  predicate IsEscaped(c: char)
  {
    c in "()[]{}?*+-|^$\\.&~# \t\n\r\U{B}\U{C}"
  }

  /** `re.escape(s)`. */
  function Escape(s: string): string
  {
    if s == [] then []
    else (if IsEscaped(s[0]) then ['\\', s[0]] else [s[0]]) + Escape(s[1..])
  }

  /** Characters with a meaning of their own in a regex outside a class. A
      `]` or a `}` is read as itself, and a `{` is one only when it opens a
      repeat (`OpensRepeat`). */
  predicate IsMeta(c: char)
  {
    c in ".^$*+?[\\|()"
  }

  /** `t` starts with `{m}`, `{m,}`, `{,n}`, `{m,n}` or `{,}`: the parser reads
      such a `{` as a repeat count; any other `{`, `{}` included, is read as
      itself. */
  predicate OpensRepeat(t: string)
  {
    && t != [] && t[0] == '{'
    && var lo := DigitRun(t[1..]);
       var after := t[1 + lo..];
       if after != [] && after[0] == ',' then
         var hi := DigitRun(after[1..]);
         1 + hi < |after| && after[1 + hi] == '}'
       else
         lo > 0 && after != [] && after[0] == '}'
  }

  /** The character at `i` of unescaped text is read as itself. */
  predicate LiteralAt(t: string, i: nat)
    requires i < |t|
  {
    !IsMeta(t[i]) && !OpensRepeat(t[i..])
  }

  predicate IsAsciiAlnum(c: char)
  {
    IsDigit(c) || IsUpper(c) || IsLower(c)
  }

  /** The text a run of literal regex syntax matches: `\c` stands for `c` when
      `c` is not an ASCII letter or digit, an unescaped metacharacter is not a
      literal at all. */
  function ReadLiteral(t: string): (r: Option<string>)
    ensures r.Some? ==> |r.value| <= |t|
  {
    if t == [] then Some([])
    else if t[0] == '\\' then
      if |t| >= 2 && !IsAsciiAlnum(t[1]) then
        match ReadLiteral(t[2..])
        case Some(rest) => Some([t[1]] + rest)
        case None => None
      else None
    else if IsMeta(t[0]) || OpensRepeat(t) then None
    else
      match ReadLiteral(t[1..])
      case Some(rest) => Some([t[0]] + rest)
      case None => None
  }

  /** An escaped name matches exactly the name itself: `re.escape` leaves no
      metacharacter bare and never escapes a letter or digit. */
  lemma {:induction false} EscapeReadsBack(s: string)
    ensures ReadLiteral(Escape(s)) == Some(s)
  {
    if s != [] {
      EscapeReadsBack(s[1..]);
      var e := Escape(s);
      if IsEscaped(s[0]) {
        assert e == ['\\', s[0]] + Escape(s[1..]);
        assert e[2..] == Escape(s[1..]);
      } else {
        assert e == [s[0]] + Escape(s[1..]);
        assert e[1..] == Escape(s[1..]);
      }
      assert [s[0]] + s[1..] == s;
    }
  }

  /** Text inserted without escaping is read as itself exactly when every one
      of its characters is: no metacharacter and no `{` opening a repeat. */
  lemma {:induction false} RawLiteral(t: string)
    ensures ReadLiteral(t) == Some(t) <==> forall i :: 0 <= i < |t| ==> LiteralAt(t, i)
  {
    if t != [] {
      RawLiteral(t[1..]);
      assert forall i :: 1 <= i < |t| ==> t[1..][i - 1] == t[i] && t[1..][i - 1..] == t[i..];
      if t[0] == '\\' {
        assert !LiteralAt(t, 0);
        if |t| >= 2 && !IsAsciiAlnum(t[1]) {
          match ReadLiteral(t[2..])
          case Some(rest) => assert |[t[1]] + rest| < |t|;
          case None =>
        }
      } else if LiteralAt(t, 0) {
        assert [t[0]] + t[1..] == t;
        if ReadLiteral(t[1..]) == Some(t[1..]) {
          forall i | 0 <= i < |t| ensures LiteralAt(t, i) {
            if i > 0 {
              assert LiteralAt(t[1..], i - 1);
            }
          }
        } else {
          var j :| 0 <= j < |t[1..]| && !LiteralAt(t[1..], j);
          assert !LiteralAt(t, j + 1);
        }
      }
    }
  }

  /** `]`, `}` and a `{` that opens no repeat are read as themselves. */
  lemma BracesLiteral()
    ensures ReadLiteral("]") == Some("]")
    ensures ReadLiteral("}") == Some("}")
    ensures ReadLiteral("{") == Some("{")
  {
    assert "]"[1..] == [] && "}"[1..] == [] && "{"[1..] == [];
    assert ReadLiteral([]) == Some([]);
    assert [']'] + [] == "]" && ['}'] + [] == "}" && ['{'] + [] == "{";
    assert !OpensRepeat("{") by { assert DigitRun([]) == 0; }
  }

  /** `{2}` after a character is a repeat count, not literal text. */
  lemma RepeatNotLiteral()
    ensures ReadLiteral("a{2}") == None
  {
    assert OpensRepeat("{2}") by {
      assert "{2}"[1..] == "2}";
      assert "2}"[1..] == "}";
      assert DigitRun("}") == 0;
      assert DigitRun("2}") == 1;
      assert "{2}"[2..] == "}";
    }
    assert "a{2}"[1..] == "{2}";
  }

  // ---------------------------------------------------------------------
  // Rendering: the regex text the source assembles

  /** The separator `r"\s+".join` places between the parts of one alternative. */
  const SlotSeparator: string := "\\s+"

  function EscapeAll(names: seq<string>): (r: seq<string>)
    ensures |r| == |names|
    ensures forall i :: 0 <= i < |names| ==> r[i] == Escape(names[i])
  {
    seq(|names|, i requires 0 <= i < |names| => Escape(names[i]))
  }

  function RenderSlot(slot: Slot): string
  {
    match slot
    case NameAlt(names) => Join(EscapeAll(names), "|")
    case Digits => "\\d+"
    case Quoted => "\"[^\"]*\""
  }

  function RenderGroup(g: Group): string
  {
    "(?P<" + g.groupName + ">" + RenderSlot(g.slot) + ")"
  }

  function RenderGroups(gs: seq<Group>): (r: seq<string>)
    ensures |r| == |gs|
    ensures forall i :: 0 <= i < |gs| ==> r[i] == RenderGroup(gs[i])
  {
    seq(|gs|, i requires 0 <= i < |gs| => RenderGroup(gs[i]))
  }

  lemma RenderGroupsSnoc(gs: seq<Group>, g: Group)
    ensures RenderGroups(gs + [g]) == RenderGroups(gs) + [RenderGroup(g)]
  {
  }

  function RenderAlternative(a: Alternative): string
  {
    Join([Escape(a.literal)] + RenderGroups(a.groups), SlotSeparator)
  }

  function RenderPattern(p: Pattern): string
  {
    Join(seq(|p.alternatives|, i requires 0 <= i < |p.alternatives| =>
               RenderAlternative(p.alternatives[i])), "|")
  }

  // ---------------------------------------------------------------------
  // What re.compile accepts

  function GroupNames(gs: seq<Group>): (r: seq<string>)
    ensures |r| == |gs|
    ensures forall i :: 0 <= i < |gs| ==> r[i] == gs[i].groupName
  {
    seq(|gs|, i requires 0 <= i < |gs| => gs[i].groupName)
  }

  /** Every group name of the pattern, in the order the groups appear. */
  function PatternGroupNames(alts: seq<Alternative>): seq<string>
  {
    if alts == [] then [] else GroupNames(alts[0].groups) + PatternGroupNames(alts[1..])
  }

  /** An ASCII Python identifier: letters, digits and `_`, not starting with a
      digit. */
  predicate IsIdentifier(s: string)
  {
    && s != []
    && !IsDigit(s[0])
    && forall i :: 0 <= i < |s| ==> IsAsciiAlnum(s[i]) || s[i] == '_'
  }

  /** `re.compile` raises `re.error` unless every group name is an identifier
      and no group name is defined twice. */
  predicate Compilable(p: Pattern)
  {
    var names := PatternGroupNames(p.alternatives);
    NoDuplicates(names) && forall i :: 0 <= i < |names| ==> IsIdentifier(names[i])
  }

  // ---------------------------------------------------------------------
  // Matching. Each function works on the rest of the input and yields, in the
  // order the backtracking engine tries them, the lengths a token can consume.

  function SpaceRun(s: string): (n: nat)
    ensures n <= |s|
    ensures forall i :: 0 <= i < n ==> IsSpace(s[i])
    ensures n < |s| ==> !IsSpace(s[n])
  {
    if s != [] && IsSpace(s[0]) then 1 + SpaceRun(s[1..]) else 0
  }

  function DigitRun(s: string): (n: nat)
    ensures n <= |s|
    ensures forall i :: 0 <= i < n ==> IsDigit(s[i])
    ensures n < |s| ==> !IsDigit(s[n])
  {
    if s != [] && IsDigit(s[0]) then 1 + DigitRun(s[1..]) else 0
  }

  /** `[hi, hi - 1, ..., 1]`: the lengths a greedy `+` tries, longest first. */
  function Countdown(hi: nat): (r: seq<nat>)
    ensures |r| == hi
    ensures forall i :: 0 <= i < |r| ==> r[i] == hi - i
  {
    if hi == 0 then [] else [hi] + Countdown(hi - 1)
  }

  /** The index of the first `"` in `s`, if any. */
  function QuoteIndex(s: string): (r: Option<nat>)
    ensures r.Some? ==> r.value < |s| && s[r.value] == '"' && '"' !in s[..r.value]
    ensures r.None? ==> '"' !in s
  {
    if s == [] then None
    else if s[0] == '"' then Some(0)
    else match QuoteIndex(s[1..])
      case Some(k) => (assert s[..k + 1] == [s[0]] + s[1..][..k]; Some(k + 1))
      case None => (assert s == [s[0]] + s[1..]; None)
  }

  /** The lengths of the names, in list order, that match the start of `s`. */
  function NameEnds(names: seq<string>, s: string): (r: seq<nat>)
    ensures forall i :: 0 <= i < |r| ==> r[i] <= |s|
  {
    if names == [] then []
    else (if CiPrefix(names[0], s) then [|names[0]|] else []) + NameEnds(names[1..], s)
  }

  function SlotEnds(slot: Slot, s: string): (r: seq<nat>)
    ensures forall i :: 0 <= i < |r| ==> r[i] <= |s|
  {
    match slot
    case NameAlt(names) =>
      // `'|'.join([])` is empty, and an empty group matches the empty string
      if names == [] then [0] else NameEnds(names, s)
    case Digits => Countdown(DigitRun(s))
    case Quoted =>
      if s != [] && s[0] == '"' then
        match QuoteIndex(s[1..])
        case Some(k) => [k + 2]
        case None => []
      else []
  }

  function SeparatorEnds(s: string): (r: seq<nat>)
    ensures forall i :: 0 <= i < |r| ==> 1 <= r[i] <= |s|
  {
    Countdown(SpaceRun(s))
  }

  /** The captures of the first way `\s+ g1 \s+ g2 ...` matches the start of
      `s`. */
  function MatchGroups(gs: seq<Group>, s: string): (r: Option<seq<string>>)
    ensures r.Some? ==> |r.value| == |gs|
    decreases |gs|, 2, 0
  {
    if gs == [] then Some([]) else TrySeparators(gs, s, SeparatorEnds(s))
  }

  function TrySeparators(gs: seq<Group>, s: string, ends: seq<nat>): (r: Option<seq<string>>)
    requires gs != []
    requires forall i :: 0 <= i < |ends| ==> ends[i] <= |s|
    ensures r.Some? ==> |r.value| == |gs|
    decreases |gs|, 1, |ends|
  {
    if ends == [] then None
    else
      var rest := s[ends[0]..];
      var r := TrySlot(gs, rest, SlotEnds(gs[0].slot, rest));
      if r.Some? then r else TrySeparators(gs, s, ends[1..])
  }

  function TrySlot(gs: seq<Group>, s: string, ends: seq<nat>): (r: Option<seq<string>>)
    requires gs != []
    requires forall i :: 0 <= i < |ends| ==> ends[i] <= |s|
    ensures r.Some? ==> |r.value| == |gs|
    decreases |gs|, 0, |ends|
  {
    if ends == [] then None
    else
      match MatchGroups(gs[1..], s[ends[0]..])
      case Some(caps) => Some([s[..ends[0]]] + caps)
      case None => TrySlot(gs, s, ends[1..])
  }

  function MatchAlternative(a: Alternative, s: string): (r: Option<seq<string>>)
    ensures r.Some? ==> |r.value| == |a.groups|
  {
    if CiPrefix(a.literal, s) then MatchGroups(a.groups, s[|a.literal|..]) else None
  }

  /** A successful match: which alternative matched and what each of its groups
      captured. The groups of every other alternative did not participate. */
  datatype Match = Match(alternative: nat, captures: seq<string>)

  function MatchFrom(alts: seq<Alternative>, s: string, k: nat): Option<Match>
    decreases |alts| - k
  {
    if k >= |alts| then None
    else
      match MatchAlternative(alts[k], s)
      case Some(caps) => Some(Match(k, caps))
      case None => MatchFrom(alts, s, k + 1)
  }

  /** `re.compile(RenderPattern(p), re.IGNORECASE).match(s)`. An empty pattern
      matches the empty string with no group. */
  function MatchPattern(p: Pattern, s: string): Option<Match>
  {
    if p.alternatives == [] then Some(Match(0, [])) else MatchFrom(p.alternatives, s, 0)
  }

  /** The first alternative that matches wins, and nothing matches when no
      alternative does. */
  lemma {:induction false} MatchFromFirst(alts: seq<Alternative>, s: string, k: nat, m: Match)
    ensures MatchFrom(alts, s, k) == Some(m) <==>
      && k <= m.alternative < |alts|
      && MatchAlternative(alts[m.alternative], s) == Some(m.captures)
      && forall j :: k <= j < m.alternative ==> MatchAlternative(alts[j], s).None?
    decreases |alts| - k
  {
    if k < |alts| {
      MatchFromFirst(alts, s, k + 1, m);
    }
  }

  lemma {:induction false} MatchFromNone(alts: seq<Alternative>, s: string, k: nat)
    ensures MatchFrom(alts, s, k).None? <==>
      forall j :: k <= j < |alts| ==> MatchAlternative(alts[j], s).None?
    decreases |alts| - k
  {
    if k < |alts| {
      MatchFromNone(alts, s, k + 1);
    }
  }

  /** `re.match` returns None exactly when no alternative matches the start of
      the input; otherwise it reports the first alternative that does. */
  lemma MatchPatternSpec(p: Pattern, s: string)
    requires p.alternatives != []
    ensures MatchPattern(p, s).None? <==>
      forall j :: 0 <= j < |p.alternatives| ==> MatchAlternative(p.alternatives[j], s).None?
    ensures MatchPattern(p, s).Some? ==>
      var m := MatchPattern(p, s).value;
      && m.alternative < |p.alternatives|
      && MatchAlternative(p.alternatives[m.alternative], s) == Some(m.captures)
      && forall j :: 0 <= j < m.alternative ==> MatchAlternative(p.alternatives[j], s).None?
  {
    MatchFromNone(p.alternatives, s, 0);
    if MatchPattern(p, s).Some? {
      MatchFromFirst(p.alternatives, s, 0, MatchPattern(p, s).value);
    }
  }

  // ---------------------------------------------------------------------
  // What a group accepts

  /** `v` equals `name` up to the case of its letters. */
  predicate CiSame(name: string, v: string)
  {
    |name| == |v| && CiPrefix(name, v)
  }

  /** The texts a slot token can capture. */
  predicate Accepts(slot: Slot, v: string)
  {
    match slot
    case NameAlt(names) =>
      if names == [] then v == []
      else exists j :: 0 <= j < |names| && CiSame(names[j], v)
    case Digits => v != [] && AllDigits(v)
    case Quoted => |v| >= 2 && v[0] == '"' && v[|v| - 1] == '"' && '"' !in v[1..|v| - 1]
  }

  lemma {:induction false} NameEndsSound(names: seq<string>, s: string, i: nat)
    requires i < |NameEnds(names, s)|
    ensures exists j :: 0 <= j < |names| && CiSame(names[j], s[..NameEnds(names, s)[i]])
  {
    var head := if CiPrefix(names[0], s) then [|names[0]|] else [];
    if i < |head| {
      assert CiSame(names[0], s[..|names[0]|]);
    } else {
      NameEndsSound(names[1..], s, i - |head|);
      var j :| 0 <= j < |names[1..]| && CiSame(names[1..][j], s[..NameEnds(names[1..], s)[i - |head|]]);
      assert CiSame(names[j + 1], s[..NameEnds(names, s)[i]]);
    }
  }

  lemma SlotEndsSound(slot: Slot, s: string, i: nat)
    requires i < |SlotEnds(slot, s)|
    ensures Accepts(slot, s[..SlotEnds(slot, s)[i]])
  {
    match slot
    case NameAlt(names) =>
      if names != [] { NameEndsSound(names, s, i); }
    case Digits =>
    case Quoted =>
      var k := QuoteIndex(s[1..]).value;
      var v := s[..k + 2];
      assert v[1..|v| - 1] == s[1..][..k];
  }

  /** Soundness of the matcher: every capture is text its slot accepts; a name
      slot captures one of its names, up to case, and nothing else. */
  lemma {:induction false} MatchGroupsSound(gs: seq<Group>, s: string)
    requires MatchGroups(gs, s).Some?
    ensures forall i :: 0 <= i < |gs| ==> Accepts(gs[i].slot, MatchGroups(gs, s).value[i])
    decreases |gs|, 2, 0
  {
    if gs != [] {
      TrySeparatorsSound(gs, s, SeparatorEnds(s));
    }
  }

  lemma {:induction false} TrySeparatorsSound(gs: seq<Group>, s: string, ends: seq<nat>)
    requires gs != []
    requires forall i :: 0 <= i < |ends| ==> ends[i] <= |s|
    requires TrySeparators(gs, s, ends).Some?
    ensures forall i :: 0 <= i < |gs| ==> Accepts(gs[i].slot, TrySeparators(gs, s, ends).value[i])
    decreases |gs|, 1, |ends|
  {
    var rest := s[ends[0]..];
    if TrySlot(gs, rest, SlotEnds(gs[0].slot, rest)).Some? {
      TrySlotSound(gs, rest, SlotEnds(gs[0].slot, rest), SlotEnds(gs[0].slot, rest));
    } else {
      TrySeparatorsSound(gs, s, ends[1..]);
    }
  }

  lemma {:induction false} TrySlotSound(gs: seq<Group>, s: string, ends: seq<nat>, all: seq<nat>)
    requires gs != []
    requires all == SlotEnds(gs[0].slot, s)
    requires |ends| <= |all| && ends == all[|all| - |ends|..]
    requires TrySlot(gs, s, ends).Some?
    ensures forall i :: 0 <= i < |gs| ==> Accepts(gs[i].slot, TrySlot(gs, s, ends).value[i])
    decreases |gs|, 0, |ends|
  {
    var r := TrySlot(gs, s, ends).value;
    match MatchGroups(gs[1..], s[ends[0]..])
    case Some(caps) =>
      SlotEndsSound(gs[0].slot, s, |all| - |ends|);
      MatchGroupsSound(gs[1..], s[ends[0]..]);
      assert r == [s[..ends[0]]] + caps;
      forall i | 1 <= i < |gs| ensures Accepts(gs[i].slot, r[i]) {
        assert gs[i] == gs[1..][i - 1];
      }
    case None =>
      TrySlotSound(gs, s, ends[1..], all);
  }

  // ---------------------------------------------------------------------
  // Completeness: text written from readable values is matched back into them

  /** `" v1 v2 ..."`: each value preceded by one space. */
  function Spaced(vs: seq<string>): string
  {
    if vs == [] then "" else " " + vs[0] + Spaced(vs[1..])
  }

  /** The first length the slot tries on `s` is `n`. */
  predicate FirstEnd(slot: Slot, s: string, n: nat)
  {
    SlotEnds(slot, s) != [] && SlotEnds(slot, s)[0] == n
  }

  /** The conditions under which `vs`, written one space apart and followed by
      `trailing`, is read back by the groups `gs`. */
  predicate ReadableValues(gs: seq<Group>, vs: seq<string>, trailing: string)
  {
    && |gs| == |vs|
    && forall k :: 0 <= k < |vs| ==>
      && vs[k] != [] && !IsSpace(vs[k][0])
      && FirstEnd(gs[k].slot, vs[k] + Spaced(vs[k + 1..]) + trailing, |vs[k]|)
  }

  lemma ReadableTail(gs: seq<Group>, vs: seq<string>, trailing: string)
    requires gs != [] && ReadableValues(gs, vs, trailing)
    ensures ReadableValues(gs[1..], vs[1..], trailing)
    ensures vs[0] != [] && !IsSpace(vs[0][0])
    ensures FirstEnd(gs[0].slot, vs[0] + Spaced(vs[1..]) + trailing, |vs[0]|)
  {
    forall k | 0 <= k < |vs[1..]|
      ensures vs[1..][k] != [] && !IsSpace(vs[1..][k][0])
      ensures FirstEnd(gs[1..][k].slot, vs[1..][k] + Spaced(vs[1..][k + 1..]) + trailing, |vs[1..][k]|)
    {
      assert vs[1..][k + 1..] == vs[k + 2..];
    }
  }

  /** Values that each start with a non-space, each the first thing its slot
      tries to consume at its place in the text, are captured verbatim. */
  lemma {:induction false} GroupsRoundTrip(gs: seq<Group>, vs: seq<string>, trailing: string)
    requires ReadableValues(gs, vs, trailing)
    ensures MatchGroups(gs, Spaced(vs) + trailing) == Some(vs)
  {
    if gs != [] {
      ReadableTail(gs, vs, trailing);
      var after := Spaced(vs[1..]) + trailing;
      var rest := vs[0] + Spaced(vs[1..]) + trailing;
      assert rest == vs[0] + after;
      var s := Spaced(vs) + trailing;
      GroupsRoundTrip(gs[1..], vs[1..], trailing);
      FirstSlotWins(gs, vs[0], rest, after, vs[1..]);
      SpacedHead(vs, trailing);
      SingleSpace(s, rest);
      MatchGroupsStep(gs, s, rest, [vs[0]] + vs[1..]);
      assert [vs[0]] + vs[1..] == vs;
    }
  }

  lemma SpacedHead(vs: seq<string>, trailing: string)
    requires vs != [] && vs[0] != []
    ensures Spaced(vs) + trailing == " " + (vs[0] + Spaced(vs[1..]) + trailing)
    ensures (vs[0] + Spaced(vs[1..]) + trailing)[0] == vs[0][0]
  {
  }

  lemma MatchGroupsStep(gs: seq<Group>, s: string, rest: string, caps: seq<string>)
    requires gs != []
    requires SeparatorEnds(s) == [1] && s[1..] == rest
    requires TrySlot(gs, rest, SlotEnds(gs[0].slot, rest)) == Some(caps)
    ensures MatchGroups(gs, s) == Some(caps)
  {
  }

  lemma FirstSlotWins(gs: seq<Group>, v: string, s: string, after: string, caps: seq<string>)
    requires gs != []
    requires s == v + after
    requires FirstEnd(gs[0].slot, s, |v|)
    requires MatchGroups(gs[1..], after) == Some(caps)
    ensures TrySlot(gs, s, SlotEnds(gs[0].slot, s)) == Some([v] + caps)
  {
    assert s[|v|..] == after;
    assert s[..|v|] == v;
  }

  lemma SingleSpace(s: string, rest: string)
    requires s == " " + rest
    requires rest != [] && !IsSpace(rest[0])
    ensures SeparatorEnds(s) == [1] && s[1..] == rest
  {
    assert SpaceRun(s) == 1 + SpaceRun(rest);
  }

  /** The first name in the list that matches the start of the text decides
      what a name slot captures. */
  lemma {:induction false} NameFirstEnd(names: seq<string>, j: nat, v: string, rest: string)
    requires j < |names| && CiSame(names[j], v)
    requires forall i :: 0 <= i < j ==> !CiPrefix(names[i], v + rest)
    ensures FirstEnd(NameAlt(names), v + rest, |v|)
  {
    NameEndsFirst(names, j, v + rest);
  }

  lemma {:induction false} NameEndsFirst(names: seq<string>, j: nat, s: string)
    requires j < |names| && CiPrefix(names[j], s)
    requires forall i :: 0 <= i < j ==> !CiPrefix(names[i], s)
    ensures NameEnds(names, s) != [] && NameEnds(names, s)[0] == |names[j]|
  {
    if j > 0 {
      NameEndsFirst(names[1..], j - 1, s);
    }
  }

  /** A digit string followed by a non-digit is consumed whole by `\d+`. */
  lemma DigitsFirstEnd(d: string, rest: string)
    requires d != [] && AllDigits(d)
    requires rest == [] || !IsDigit(rest[0])
    ensures FirstEnd(Digits, d + rest, |d|)
  {
    DigitRunOf(d, rest);
  }

  lemma {:induction false} DigitRunOf(d: string, rest: string)
    requires AllDigits(d)
    requires rest == [] || !IsDigit(rest[0])
    ensures DigitRun(d + rest) == |d|
  {
    if d != [] {
      assert (d + rest)[1..] == d[1..] + rest;
      DigitRunOf(d[1..], rest);
    } else {
      assert d + rest == rest;
    }
  }

  /** Quoted text without inner quotes is consumed up to its closing quote. */
  lemma QuotedFirstEnd(c: string, rest: string)
    requires '"' !in c
    ensures FirstEnd(Quoted, "\"" + c + "\"" + rest, |c| + 2)
  {
    var s := "\"" + c + "\"" + rest;
    assert s[1..] == c + ("\"" + rest);
    QuoteIndexOf(c, "\"" + rest);
  }

  lemma {:induction false} QuoteIndexOf(c: string, rest: string)
    requires '"' !in c && rest != [] && rest[0] == '"'
    ensures QuoteIndex(c + rest) == Some(|c|)
  {
    if c != [] {
      assert (c + rest)[1..] == c[1..] + rest;
      assert c[0] in c;
      assert '"' !in c[1..] by {
        forall k | 0 <= k < |c[1..]| ensures c[1..][k] != '"' { assert c[1..][k] == c[k + 1]; }
      }
      QuoteIndexOf(c[1..], rest);
    } else {
      assert c + rest == rest;
    }
  }

  // ---------------------------------------------------------------------
  // Whole alternatives

  /** What an alternative captures, group by group, is text the group accepts. */
  lemma MatchAlternativeSound(a: Alternative, s: string)
    requires MatchAlternative(a, s).Some?
    ensures forall i :: 0 <= i < |a.groups| ==> Accepts(a.groups[i].slot, MatchAlternative(a, s).value[i])
  {
    MatchGroupsSound(a.groups, s[|a.literal|..]);
  }

  /** The literal, in any letter case, followed by readable values one space
      apart, is matched by the alternative into exactly those values. */
  lemma AlternativeRoundTrip(a: Alternative, lit: string, vs: seq<string>, trailing: string)
    requires CiSame(a.literal, lit)
    requires ReadableValues(a.groups, vs, trailing)
    ensures MatchAlternative(a, lit + Spaced(vs) + trailing) == Some(vs)
  {
    var s := lit + Spaced(vs) + trailing;
    assert s == lit + (Spaced(vs) + trailing);
    assert CiPrefix(a.literal, s) by {
      forall i | 0 <= i < |a.literal| ensures CiEqChar(a.literal[i], s[i]) {
        assert s[i] == lit[i];
      }
    }
    assert s[|a.literal|..] == Spaced(vs) + trailing;
    GroupsRoundTrip(a.groups, vs, trailing);
  }
}

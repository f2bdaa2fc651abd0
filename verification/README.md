# Gigax action grammar and action parsing, in Dafny

Gigax makes non-player characters act in a game. A language model
completes a prompt with one action of the protagonist. The library either
constrains that completion with a pattern built from the protagonist's
skills, or validates it as a JSON object against a schema built from them.
It then reads the completion back into an action. This project models
that core:

- **gigax/scene.py** (module `Scene`) holds the scene data model: parameter
  kinds, objects, characters, skills and the protagonist. It also holds each
  skill's training-format line and `Skill.to_regex`. `to_regex` puts the
  escaped skill name first, then one named group per recognised parameter
  kind, joined by `\s+`.
- **gigax/parse.py** (module `Parse`) covers the following:
  - `get_guided_regex`, which joins every skill's alternative with `|` and
    compiles the result case-insensitively.
  - `CharacterAction.from_str`, which reads a completion back into a command
    and a list of parameters.
  - `CharacterAction.__str__`.
- **models.py** (module `Models`) is the older generation of the same
  encodings. It has:
  - plain kind names;
  - the JSON training format of a skill;
  - the grammar rule;
  - the unescaped, unnamed-group pattern;
  - the JSON form of an action.
- **action_formatter.py** (module `ActionFormatter`) covers the following:
  - `create_dynamic_enum`.
  - `generate_typed_skill_model`, which builds one pydantic model per skill
    and a union of them under the key `action`.
  - `parse_action`. It validates a decoded payload against that schema,
    checks the command and resolves entity names to the world's objects. It
    then builds a `models.CharacterAction`.

The regular expressions are not modelled as text handed to a library.
Module `Regex` gives a pattern as a value (alternatives, named groups and
slot tokens). `Render*` gives the exact regex text the source assembles.
`Match*` gives the meaning Python's `re.match` assigns to that text: it is
anchored at the start, tries alternatives in order, and uses greedy
backtracking quantifiers. The first success wins. The matcher is proved
sound: every capture is text its token accepts. It is also proved complete
for text written from readable values: such text reads back into exactly
those values. A value is readable when the token's first, greedy attempt
ends exactly at it. With the names `John` and `John the Brave` listed in that order, for
example, `John the Brave` is not readable, because `John` is tried first. `Text`, `Dict` and `Json` hold Python's string operations, dict
semantics (insertion order; rebinding a key keeps its place), and decoded
JSON values. `Scenarios` replays the repository's own fixtures. These come
from tests/conftest.py and the example at the foot of action_formatter.py.

Some behaviours of the code are modelled as written and stated as lemmas:

- `from_str` keeps character, `NPC` and item captures. It drops location
  captures.
- A skill without a recognised parameter can never be read back.
- A skill with a recognised kind makes `re.compile` fail when it declares
  that kind twice, or when its name is not an ASCII identifier. A skill
  without recognised kinds adds no group, so its name is never checked.
  Declaring `other` twice is harmless.
- `parse_action` lower-cases the enum choices. A payload that names an
  entity in its original case is therefore refused.
- An `amount` parameter makes `parse_action` fail when it is the last
  `amount` or `content` parameter. Its integer cannot be stored in the
  action's `Optional[str]` content.
- The "Invalid command" and "no such entity" branches of `parse_action`
  cannot be reached.

Where the tests and the code disagree, the model follows the code.
tests/test_parse.py calls `from_str` with six arguments and expects a
`Character` object among the parameters. The code takes three arguments and
returns the captured name as a string.

## Model

| member | source | states |
|---|---|---|
| Text.JoinSplit | gigax/parse.py:60 | joining the `_`-pieces of a string with `_` gives the string back |
| Text.DropLastSegmentOfLabel | gigax/parse.py:59-60 | dropping the last `_` segment of `name_tag` gives `name` back, however many underscores the name holds |
| Text.DigitsRoundTrip | gigax/parse.py:78-79 | `int` of the decimal text of a natural number is that number |
| Regex.EscapeReadsBack | gigax/scene.py:81 | an escaped name, read as regex syntax, matches exactly the name |
| Regex.RawLiteral | models.py:84 | text put into a pattern unescaped is read as itself exactly when none of its characters is one of `.^$*+?[\|()` or a `{` opening a repeat count; `]`, `}` and any other `{` stand for themselves |
| Regex.BracesLiteral | models.py:84 | `]`, `}` and a lone `{` are each read as themselves |
| Regex.RepeatNotLiteral | models.py:84 | `a{2}` is read as a repeat count, not as itself |
| Regex.MatchFromFirst | gigax/parse.py:106-107 | the alternation reports alternative k exactly when k matches and no earlier alternative does |
| Regex.MatchFromNone | gigax/parse.py:106-107 | the alternation fails exactly when every alternative from the start point fails |
| Regex.MatchPatternSpec | gigax/parse.py:50-52 | `match` returns None exactly when no skill's alternative matches; otherwise it reports the first that does, with its captures |
| Regex.SlotEndsSound | gigax/scene.py:85-102 | every end position a token tries gives text that token accepts |
| Regex.MatchGroupsSound | gigax/scene.py:82-103 | every capture of `\s+`-separated groups is text its token accepts: one of the names up to case, a digit run, or quoted text without inner quotes |
| Regex.MatchAlternativeSound | gigax/scene.py:81-103 | every capture of a skill's alternative is text its group's token accepts |
| Regex.GroupsRoundTrip | gigax/scene.py:82-103 | readable values written one space apart are captured back verbatim |
| Regex.AlternativeRoundTrip | gigax/scene.py:75-103 | the skill name in any letter case, followed by readable values, is matched into exactly those values |
| Scene.GroupTag | gigax/scene.py:84 | the group suffix of a kind is non-empty and lower-case, with no `_` and no `>` |
| Scene.GroupTagBracketed | gigax/scene.py:84 | a kind's enum value is its group suffix in angle brackets, so `[1:-1]` takes the suffix out |
| Scene.GroupTagInjective | gigax/scene.py:7-13 | distinct kinds get distinct group suffixes, and only they |
| Scene.ObjectTrainingFormatSplits | gigax/scene.py:20-27 | an object's `name: description` line splits back into its name and description when the name has no colon; the part before the colon is the printed object |
| Scene.ParseKindsJoin | gigax/scene.py:73 | the space-joined bracketed kinds followed by ` : description` read back into the same kinds and description |
| Scene.SkillTrainingFormatRoundTrip | gigax/scene.py:68-73 | a skill's declaration line reads back into its name, kinds and description when the name has no space |
| Scene.AttackTrainingFormat | tests/test_prompt.py:34 | the Attack skill is declared as `Attack <character> : Deliver a powerful blow` |
| Scene.SkillAlternativeShape | gigax/scene.py:81-102 | a skill's alternative starts with its name and has one group per recognised kind, in order, named `name_kind` with that kind's token |
| Scene.SkillGroupsShape | gigax/scene.py:82-102 | the groups built after any prefix of the kinds are one per recognised kind of that prefix |
| Scene.SkillGroupsSnoc | gigax/scene.py:82-102 | one more kind adds its group when it is recognised, and nothing for `other` |
| Scene.ToRegexStep | gigax/scene.py:85-102 | one loop turn appends exactly the text of the next kind's group |
| Scene.ToRegex | gigax/scene.py:75-103 | the loop builds exactly the rendered alternative: escaped name, then each group, joined by `\s+` |
| Parse.ActionStringSplits | gigax/parse.py:33-38 | the printed action splits at its first colon into the protagonist's name and the command followed by the space-joined parameters, when the name has no colon |
| Parse.SkillGroupNames | gigax/scene.py:84 | a skill with an identifier name and no repeated kind has distinct identifier group names, each of which gives back the skill name when its last `_` segment is dropped |
| Parse.GuidedGroupNames | gigax/parse.py:102-106 | skills with distinct identifier names and no repeated kinds give a pattern whose group names are distinct identifiers |
| Parse.GuidedRegexCompiles | gigax/parse.py:87-107 | under those conditions `re.compile` succeeds with the guided pattern |
| Parse.GuidedRegexRejectsRepeatedKind | gigax/parse.py:106-107 | a skill declaring a kind twice makes `re.compile` fail |
| Parse.GuidedRegexRejectsSpacedName | gigax/parse.py:106-107 | a skill whose name holds a space but no `>`, and that has a recognised kind, makes `re.compile` fail |
| Parse.CollectAppend | gigax/parse.py:66-82 | collecting over two runs of groups gives the first error, else the two parameter lists concatenated |
| Parse.CollectSnoc | gigax/parse.py:66-82 | one loop turn extends the collected parameters by that group's contribution |
| Parse.FromStr | gigax/parse.py:41-84 | the loop returns exactly the action or error `Decode` specifies |
| Parse.ConvertKind | gigax/parse.py:70-82 | the suffix of a kind's group selects that kind's conversion: names as read, amounts as integers, content stripped of quotes, locations nothing |
| Parse.CollectKinds | gigax/parse.py:66-82 | a skill's captured groups become its parameters converted kind by kind, empty captures skipped |
| Parse.CollectUnset | gigax/parse.py:67-68 | groups of alternatives that did not match contribute nothing |
| Parse.CollectDictFrom | gigax/parse.py:66-68 | only the matched alternative's groups contribute parameters |
| Parse.DecodeGuided | gigax/parse.py:50-84 | for a non-empty skill list, with the guided pattern the first matching skill decides; captures are names from the lists up to case, digit runs or quoted text; the command is the skill's name; parameters are the converted captures; a skill without recognised kinds fails with "no matching skill" |
| Parse.DecodeRejects | gigax/parse.py:50-52 | for a non-empty skill list, a completion is refused as malformed exactly when no skill's alternative matches it |
| Parse.DecodeNoSkills | gigax/parse.py:50-57 | with no skills the pattern is empty and compiles, and every completion is refused as matching no skill |
| Parse.DecodeRoundTrip | gigax/parse.py:41-84 | a skill name in any case followed by readable values decodes into that skill and those values converted, when no earlier skill matches |
| Models.PlainValue | models.py:10-16 | the older enum value is the group suffix of the newer kind, its enum value without angle brackets |
| Models.EntityStrSplits | models.py:23-24 | a printed location or item splits back into its name and description |
| Models.CharacterStrSplits | models.py:117-118 | a printed character splits back into its name and description |
| Models.KindsOfPlainValues | models.py:54 | the plain values of a list of kinds read back into the same kinds |
| Models.SkillJsonRoundTrip | models.py:41-57 | the training-format object of a skill reads back into the same skill |
| Models.GrammarSymbolsKinds | models.py:63-74 | the grammar rule's symbols name exactly the recognised kinds, in declared order |
| Models.GrammarRule | models.py:59-78 | the rule is the quoted name, a space, and the space-joined symbols |
| Models.LegacySkillParts | models.py:84-101 | the parts are the unescaped name, then one unnamed group per recognised kind, in order: the escaped names of a character, location or item kind joined by `\|`, `(\d+)` for an amount, `("([^"]*)")` for a content |
| Models.LegacyStep | models.py:85-101 | one loop turn appends exactly the next kind's unnamed group |
| Models.LegacyRegex | models.py:80-104 | the loop builds exactly the parts joined by a single `\s` |
| Models.LegacyEmptyGroup | models.py:86-95 | a character, location or item kind gets its own list's escaped names in a group, and `()` when that list is empty |
| Models.LegacyNameLiteral | models.py:84 | the unescaped name is read as itself exactly when none of its characters is one of `.^$*+?[\|()` or a `{` opening a repeat count |
| Models.LegacyDottedName | models.py:84 | a dotted skill name is not read as itself by the older pattern, but is by the escaped one |
| Models.ActionJson | models.py:142-152 | the JSON object always has `type` and `protagonist`, has `target` exactly when there is a target, and has `content` exactly when the content is a non-empty string |
| Dict.Get | action_formatter.py:100 | a key is absent exactly when no binding has it; a value found is bound to that key |
| Dict.GetLastBinding | action_formatter.py:100 | the value found for a key is exactly the value of its last binding |
| Dict.PutSpec | action_formatter.py:50-64 | after assignment the key maps to the new value, other keys are unchanged, and a new key goes last while an old one keeps its place |
| ActionFormatter.LastWithKey | action_formatter.py:26 | the value of a member name is the last option with that name, and none exists exactly when no option has it |
| ActionFormatter.EnumMembersLookup | action_formatter.py:26 | each member name maps to the last option with that name |
| ActionFormatter.EnumValues | action_formatter.py:21-27 | a string is a member value exactly when it is an option not overridden by a later option with the same member name |
| ActionFormatter.EnumKeyCollision | action_formatter.py:26 | `john doe` and `john_doe` share the member name `JOHN_DOE`, and only `john_doe` survives |
| ActionFormatter.PlainValueInjective | models.py:10-16 | distinct kinds have distinct parameter keys |
| ActionFormatter.ParamFieldsSnoc | action_formatter.py:51-64 | one more kind assigns its field into the parameters dict |
| ActionFormatter.ParamFieldsStep | action_formatter.py:52-64 | each kind's branch assigns its own key: an enum of the matching names, `int`, `str`, or nothing for `other` |
| ActionFormatter.ParamFieldsKeys | action_formatter.py:50-64 | the parameter keys are distinct, each the key of a declared recognised kind |
| ActionFormatter.ParamFieldsGet | action_formatter.py:50-64 | a recognised kind's key holds that kind's field exactly when the kind is declared |
| ActionFormatter.ParametersModel | action_formatter.py:47-61 | the inner loop builds exactly the parameters dict `ParamFields` gives for the skill's kinds |
| ActionFormatter.SkillModel | action_formatter.py:47-74 | one skill's model is named by the skill, has the command enum made from the skill name, and has the skill's parameter fields |
| ActionFormatter.SkillModels | action_formatter.py:45-81 | the outer loop gives one model per skill, in skill order; no skills is a `TypeError` |
| ActionFormatter.GenerateTypedSkillModel | action_formatter.py:30-81 | the nested loops build exactly the schema `SchemaOf` gives; no skills is a `TypeError` |
| ActionFormatter.SchemaShape | action_formatter.py:67-77 | each skill's model is named by the skill, its `command` enum has exactly the skill name, and its parameters are the skill's fields |
| ActionFormatter.FieldOfKind | action_formatter.py:52-64 | a declared recognised kind has its field in the parameters |
| ActionFormatter.ValidateFieldsMeaning | action_formatter.py:100 | a parameters object validates exactly when every field's key is present with an accepted value; the result lists each field with its validated value |
| ActionFormatter.FirstValidMeaning | action_formatter.py:80-81 | the union fails exactly when every skill model fails; otherwise the first skill model that validates decides |
| ActionFormatter.FirstNamed | action_formatter.py:119-123 | `next` finds nothing exactly when no candidate's name equals the value ignoring case; otherwise the first such candidate |
| ActionFormatter.ResolveMeaning | action_formatter.py:112-142 | the loop succeeds exactly when every reference names an entity; then the target is the last reference resolved and the content is the last amount or content |
| ActionFormatter.ValidatedField | action_formatter.py:100 | a validated reference is one of its enum's values, an amount an integer, a content a string |
| ActionFormatter.ValidatedParams | action_formatter.py:100-106 | a validated action's command is a skill name and each parameter has its field's type |
| ActionFormatter.ResolvePrefixFailure | action_formatter.py:112-145 | once a reference fails to resolve, the loop stays failed |
| ActionFormatter.ResolveSnoc | action_formatter.py:112-142 | one loop turn extends the resolution by that parameter |
| ActionFormatter.ParseAction | action_formatter.py:84-157 | the method returns exactly the action or error `ParseActionSpec` specifies |
| ActionFormatter.ChoiceResolves | action_formatter.py:119-137 | every allowed (lower-cased) name resolves to an entity of the world |
| ActionFormatter.LastTargetInWorld | action_formatter.py:116-137 | a resolved target is one of the world's characters, locations or items |
| ActionFormatter.ParseActionOutcome | action_formatter.py:84-157 | no skills gives `TypeError`; a payload that is not an object gives a mapping error; "Invalid command" and "no such entity" never occur; a success's command is an upper-cased skill name and its target is in the world |
| ActionFormatter.LastContentTyped | action_formatter.py:138-142 | the content kept is an integer or a string, never an enum choice |
| ActionFormatter.ParseActionMeaning | action_formatter.py:138-153 | after validation, an integer content fails as `ActionParsingError`; otherwise the action is the upper-cased command, the protagonist, the last target and the string content |
| Scenarios.AttackCompiles | tests/test_parse.py:14-17 | the fixtures' guided pattern compiles |
| Scenarios.AttackReadable | tests/test_parse.py:11 | `John the Brave` is a readable value for the Attack alternative |
| Scenarios.TestParse | tests/test_parse.py:11-27 | the test command decodes into command `Attack`, the protagonist, and the parameter `John the Brave` |
| Scenarios.TestStep | tests/test_step.py:46 | that action prints as `Aldren: Attack John the Brave` |
| Scenarios.AttackSchema | action_formatter.py:30-81 | the example's schema is one Attack model with a `character` enum holding `john the brave` |
| Scenarios.AttackValidation | action_formatter.py:100 | the Attack payload validates exactly when its name is the lower-cased enum value |
| Scenarios.MainExampleRejected | action_formatter.py:160-200 | the example payload naming `John the Brave` fails with `ActionParsingError` |
| Scenarios.LowerCaseExampleParses | action_formatter.py:84-153 | the same payload with the lower-cased name parses into `ATTACK`, Aldren, target John the Brave, no content |

## Left out

- Case folding and `\d` are ASCII only. Python folds and classifies all of Unicode. `\s` is Python's full whitespace set.
- Regex.IsIdentifier: accepts ASCII identifiers only, where `re.compile` accepts any Unicode identifier as a group name.
- Parse.GetGuidedRegex: a skill name holding `>` is not modelled faithfully. sre reads a group name only up to the first `>` and parses the rest of the name as pattern text, which the pattern value cannot hold; the model takes such a pattern as failing to compile.
- GuidedRegexRejectsSpacedName: states nothing about names holding `>`, for the reason above.
- Parse.DecodeGuided: CPython's limit of 4300 digits on `int()` (3.10.7 and later) is not modelled. A longer amount capture makes `from_str` raise `ValueError` where the model returns the integer.
- JSON text is not modelled. `json.loads` and `json.dumps` are replaced by the decoded `Json` value. `parse_action` takes the decoded payload, and malformed JSON text is not modelled.
- ActionFormatter.ValidateField: pydantic's strict matching only. The model leaves out lax coercions such as a numeric string, a boolean or an integral float accepted as `int`.
- ActionFormatter.FirstValidMeaning: a union of models is taken as "first model that validates". pydantic's smart-mode tie-breaking between several valid models is not modelled.
- `Enum` refusing reserved or `_sunder_` member names is not modelled. An enum of no options is allowed.
- The `dict` form of `parameter_types` is not modelled. That form only carries an empty list from the game engine.
- Parse.ConvertKind: `int()` is applied to `\d+` captures only. The signs, underscores and surrounding spaces `int()` also accepts cannot appear there.
- The protagonist of models.py's action is stored as its `Character` fields (`AsCharacter`). pydantic's revalidation of a subclass instance is not modelled.
- The dead `NotImplementedError` branch of `parse_action` (a second `item` test) is not modelled, because it can never be taken.
- The HTTP app, the prompt templates, the stepper and the calls to a language model are not modelled. gigax/app.py, gigax/prompt.py, gigax/step.py, app.py, prompt.py and step_NPC.py are not part of this model.
- Logging, timing, `print` and the `__main__` blocks are not modelled. The `__main__` example of action_formatter.py is restated as lemmas in `Scenarios`.
- The lark grammar library that consumes `to_grammar_rule` is not part of this model. Only the rule text is modelled.

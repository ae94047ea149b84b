# Story AI-visibility front end, modelled in Dafny

The front end sends a story transcript, with a provider name and a list of provider aliases, to an
analysis service. The service reports how often each AI model "inferred" the masked provider,
pillar by pillar and question by question. This project models the logic that does not depend on
rendering:

- **Shape reconciliation** (`normalize.dfy`). The response schemas accept the payload or reject it
  as a whole. Validated members get their defaults. The `summary` and `metadata` members may be
  spelled in snake_case or camelCase; the camelCase spelling is rewritten to the snake_case record.
  A payload may come bare or wrapped in `{ data: … }`, one level deep. An empty `selling_points`
  list is replaced by a non-empty `sellingPoints` list. Every rejection becomes one fixed error
  message.
- **View adaptation** (`adapter.dfy`). This stage is total and only renames fields. It also picks
  the authoritative pillar list and resolves each response's inference flag, with
  `ai_provider_inferred` taking precedence over `inferred`.
- **End to end** (`pipeline.dfy`). It states the promises of the two stages together: which
  pillar list is shown, when the envelope is transparent, that the spelling of `summary` and
  `metadata` does not matter, and what a worked example payload shows.
- **Model comparison** (`model_comparison.dfy`). The per-model and per-pillar inference tallies
  are computed by the same nested loops as the component. The loops are proved equal to one
  reference count, and the per-pillar tallies are proved to add up to the overall ones. The rate
  bands of the two colour scales are also modelled.
- **Simulated progress** (`progress.dfy`). The timer-driven percentage and step, with
  activation, reset and `complete`.
- **Transcript form** (`input_section.dfy`). Submit gating, and adding, removing and
  de-duplicating aliases.
- **Accordion** (`accordion.dfy`). Single and multiple open-state behaviour.
- **Page** (`alias_defaults.dfy`, `page.dfy`). The default provider name and alias list, the
  state changes of one analysis round trip, the panels shown, and the export file name.

Supporting modules:

- `results.dfy`: `Option` and `Result`.
- `json.dfy`: parsed JSON values. Property access returns the last member of a given name, as
  `JSON.parse` keeps the last of duplicate keys.
- `text.dfy`: `trim`, `split` and `join` on one separator, and `Number(string)` on decimal
  integers.
- `types.dfy`: the wire and UI records.

Side effects become explicit inputs. A request's outcome is a parameter of `Page.Finish`. Each
timer firing is one call of `SimulatedProgress.Tick`. Environment variables are `Option`
parameters.

Where the code and its neighbours disagree, the model follows the code:

- The adapter reads a pillar's title from its `pillar` member (`src/lib/api.ts:185`), never from
  `title`. The adapter tests expect the `title` value to be shown (`src/__tests__/api.test.ts:58`,
  `src/__tests__/api.test.ts:159`). The model shows "Untitled pillar" for such pillars, and
  `Adapter.AdaptExample` and `Adapter.FallbackExample` state exactly that.
- The hand-written types (`src/types/api.ts`) do not mention `pillar`, `sellingPoints`, `id` or
  `assumptions`. The wire records here follow what the schemas actually let through.
- A `summary` or `metadata` object must use one spelling throughout. A mixed object is rejected.
- Counts are whatever `Number` makes of them, so negative counts are accepted.
- A successful request calls `complete`, which reports 100%. It then leaves the loading state,
  and the hook's effect resets the report to 0% and "mask" (`Page.SuccessResetsProgress`).
- The built-in alias list is written as its eight names joined by ", ". That is the literal the
  page uses.

## Model

| member | source | states |
|---|---|---|
| Json.Get | src/lib/api.ts:160 | a member is found exactly when some member has that name, and what is found is one of the object's members |
| Json.GetLastWins | src/lib/api.ts:160 | of duplicate members the last one is the one read |
| Text.Trim | src/app/page.tsx:19 | the result has no surrounding whitespace, is empty exactly when the input is all whitespace, and is a slice framed by whitespace only |
| Text.TrimNonEmpty | src/app/page.tsx:35 | a trimmed transcript is non-empty exactly when the text holds a non-whitespace character |
| Text.Split | src/app/page.tsx:18 | splitting gives at least one piece, and no piece contains the separator |
| Text.JoinSplit | src/app/page.tsx:16-18 | joining the pieces of a split restores the string |
| Text.SplitJoin | src/app/page.tsx:16-18 | separator-free pieces are recovered by splitting their join |
| Text.ParseNumeral | src/lib/api.ts:31-32 | a numeral is read exactly when it is digits, or a sign followed by digits |
| Text.NumberOfShowInt | src/lib/api.ts:31-32 | every integer written in decimal reads back as itself |
| Text.StringToNumber | src/lib/api.ts:31-32 | a blank string reads as 0, any other as its trimmed decimal numeral when it is one |
| Text.DecimalNotationsUnread | src/lib/api.ts:31-32 | fractions, "1.", "1.0" and exponents are not read |
| Text.PrefixedNotationsUnread | src/lib/api.ts:31-32 | hexadecimal, binary and octal numerals are not read |
| Types.ModeFromLabel | src/lib/api.ts:51 | exactly the labels "stub" and "live" are modes, each read as the mode carrying that label |
| Types.EnumerationsAreExact | src/types/api.ts:1-2 | page and progress states are exactly the listed values, with distinct labels |
| Normalize.ParseEach | src/lib/api.ts:50 | an array is accepted exactly when every element is, and then the elements are read one for one, in order |
| Normalize.RequiredString | src/lib/api.ts:5-6 | a required string member is accepted exactly when present and a string, and read as that string |
| Normalize.OptionalString | src/lib/api.ts:16 | an optional string member is accepted exactly when absent or a string, and read as that string or none |
| Normalize.NullableString | src/lib/api.ts:48 | a nullable string member is accepted exactly when present and null or a string, and read as none or that string |
| Normalize.OptionalBool | src/lib/api.ts:7-8 | an optional boolean member is accepted exactly when absent or a boolean, and read as that boolean or none |
| Normalize.BoolOrDefault | src/lib/api.ts:15 | a defaulted boolean is accepted exactly when absent or a boolean, and read as that boolean or the default |
| Normalize.StringOrDefault | src/lib/api.ts:24 | a defaulted string is accepted exactly when absent or a string, and read as that string or the default |
| Normalize.ModeLiteral | src/lib/api.ts:51 | a mode is accepted exactly when it is the label of a mode, and read as that mode |
| Normalize.StringItem | src/lib/api.ts:50 | an array element is accepted exactly when it is a string, and read as it |
| Normalize.RequiredArray | src/lib/api.ts:50 | a required array is accepted exactly when present and every element is, and read element by element |
| Normalize.ArrayOrEmpty | src/lib/api.ts:17-18 | a defaulted array is accepted exactly when absent or an array of accepted elements, and read element by element, absent as empty |
| Normalize.ListReadsUnique | src/lib/api.ts:17-18 | an array member is read as at most one list |
| Normalize.ListReadsAccepted | src/lib/api.ts:17-18 | a member read as a list is accepted |
| Normalize.ListReadingExact | src/lib/api.ts:17-18 | a defaulted array parses to a list exactly when it reads as that list |
| Normalize.ArrayToNumber | src/lib/api.ts:31-32 | `Number` of an array: empty is 0, two or more elements are not a number, one element reads as its own string form |
| Normalize.CoerceNumber | src/lib/api.ts:31-32 | absent and object members are rejected, null reads as 0, booleans as 1 and 0, numbers as themselves, strings and arrays as `Number` reads them |
| Normalize.ParseResponse | src/lib/api.ts:4-9 | a response is accepted exactly when model and answer are strings and both flags booleans or absent, and is then read member by member |
| Normalize.ResponseReadingExact | src/lib/api.ts:4-9 | a response parses to a record exactly when it reads as that record |
| Normalize.CoerceNumericString | src/lib/api.ts:31-32 | a count sent as a decimal string is read as that number |
| Normalize.NonNumericCountRejected | src/lib/api.ts:31-32 | a count spelled as a word is rejected |
| Normalize.UnknownModeRejected | src/lib/api.ts:51 | any other mode string, a non-string mode, or a missing mode is rejected |
| Normalize.ParseQuestion | src/lib/api.ts:11-19 | a question is accepted exactly when prompt, category and kind are strings, the flag a boolean or absent, the id a string or absent, and assumptions and responses acceptable arrays or absent; it is then read member by member, the defaults false and empty lists filling absent members |
| Normalize.ParsePillar | src/lib/api.ts:21-27 | a pillar is accepted exactly when title, pillar and summary are strings or absent, the flag a boolean or absent, and questions an acceptable array or absent; it is then read member by member, with "" , false and an empty list for absent members |
| Normalize.QuestionReadingExact | src/lib/api.ts:11-19 | a question parses to a record exactly when it reads as that record with its defaults filled in |
| Normalize.PillarReadingExact | src/lib/api.ts:21-27 | a pillar parses to a record exactly when it reads as that record with its defaults filled in |
| Normalize.SummaryFrom | src/lib/api.ts:30-33 | the two counts are accepted exactly when both coerce, and read as their numbers |
| Normalize.ParseSummary | src/lib/api.ts:29-44 | a summary is accepted exactly when it is an object whose snake_case or camelCase counts both coerce; the snake_case counts are read when they coerce, the camelCase ones otherwise |
| Normalize.SummaryReadingExact | src/lib/api.ts:29-44 | a summary parses to counts exactly when it reads as those counts |
| Normalize.MetadataFrom | src/lib/api.ts:47-52 | the four metadata members are accepted exactly when each has an accepted value, and read as those values |
| Normalize.MetadataReadsShape | src/lib/api.ts:47-52 | members that read as a metadata record are acceptable |
| Normalize.ParseMetadata | src/lib/api.ts:46-67 | metadata is accepted exactly when its snake_case or camelCase members are all acceptable; the snake_case ones are read when they are, the camelCase ones otherwise |
| Normalize.MetadataReadingExact | src/lib/api.ts:46-67 | metadata parses to a record exactly when it reads as that record |
| Normalize.QuestionDefaults | src/lib/api.ts:15-18 | an absent flag reads as false, absent assumptions and responses as empty lists, and an absent id stays absent |
| Normalize.PillarDefaults | src/lib/api.ts:24-26 | an absent summary reads as "", an absent flag as false, and absent questions as an empty list |
| Normalize.ResponseFlagsStayOptional | src/lib/api.ts:7-8 | a response's absent flags stay absent through validation |
| Normalize.ClientNameRequired | src/lib/api.ts:48 | metadata without `client_name` is rejected |
| Normalize.ClientNameNullable | src/lib/api.ts:48 | a null `client_name` is accepted and read as no client |
| Normalize.SummaryConventionIrrelevant | src/lib/api.ts:29-44 | a summary written in camelCase is accepted or rejected like its snake_case form, with the same counts |
| Normalize.CamelMetadataOfRenamed | src/lib/api.ts:53-66 | the camelCase metadata branch reads renamed members as the snake_case branch reads the originals |
| Normalize.MetadataConventionIrrelevant | src/lib/api.ts:46-67 | metadata written in camelCase is accepted or rejected like its snake_case form, with the same values |
| Normalize.SnakeCaseWins | src/lib/api.ts:29-44 | when both spellings of the counts are present, the snake_case ones are read |
| Normalize.MixedSummaryRejected | src/lib/api.ts:29-44 | a summary mixing the two spellings is rejected |
| Normalize.MixedMetadataRejected | src/lib/api.ts:46-67 | metadata mixing the two spellings is rejected |
| Normalize.ParseMembers | src/lib/api.ts:70-86 | a body is accepted exactly when story id is a string, summary and metadata are accepted and the three pillar lists are acceptable or absent; it then holds those values and each list read element by element, an absent list as empty |
| Normalize.ParseBody | src/lib/api.ts:69-86 | an object is accepted as a body exactly when its members are acceptable, and it is then read member by member as its body |
| Normalize.ParseEnvelope | src/lib/api.ts:69-108 | a payload is accepted exactly when it is a body itself or its `data` member is one; it is read as itself when it is a body, otherwise as its `data` member |
| Normalize.ReadsAsBodyUnique | src/lib/api.ts:70-86 | an object is read as at most one body |
| Normalize.BodyReadingExact | src/lib/api.ts:70-86 | a body parses to a record exactly when it reads as that record |
| Normalize.EnvelopeReadingExact | src/lib/api.ts:69-108 | a payload parses to a record exactly when it, or its `data` member when it is no body, reads as that record |
| Normalize.StoryIdHasNoAlias | src/lib/api.ts:71 | a payload carrying no `story_id` (and no `data`) is rejected with the fixed message |
| Normalize.NestedMismatchRejects | src/lib/api.ts:69-108 | one bad summary, or one bad pillar in `selling_points`, rejects the whole payload |
| Normalize.MergeCamelPillars | src/lib/api.ts:129-131 | only `selling_points` may change, and only from empty to a non-empty `sellingPoints`; afterwards it is non-empty unless `sellingPoints` is empty |
| Normalize.NormalizePayload | src/lib/api.ts:116-134 | it fails exactly when validation fails, and then with the fixed message; on success the result is the validated payload with an empty `selling_points` replaced by a non-empty `sellingPoints` |
| Adapter.ResolveInferred | src/lib/api.ts:203-204 | a response counts as inferred exactly when `ai_provider_inferred` is true, or is absent and `inferred` is true |
| Adapter.InferredPrecedence | src/lib/api.ts:203-204 | a present `ai_provider_inferred` wins even when false; with both absent the flag is false |
| Adapter.NormalizeResponses | src/lib/api.ts:201-212 | one UI response per response, in order, with model, answer and the resolved flag |
| Adapter.ResolvePillars | src/lib/api.ts:214-222 | a non-empty `selling_points` wins; when it is absent a non-empty `sellingPoints` wins; when `selling_points` is empty, or absent with `sellingPoints` empty or absent, `pillars` is used |
| Adapter.AdaptQuestion | src/lib/api.ts:188-196 | prompt, category, kind, assumptions and id are copied, the flag defaults to false, and the responses are the normalized responses of the question |
| Adapter.AdaptPillar | src/lib/api.ts:184-197 | the title is `pillar` or "Untitled pillar", the summary defaults to "", the flag to false, and each question is adapted in order |
| Adapter.AdaptPillars | src/lib/api.ts:184-197 | one pillar result per resolved pillar, in order |
| Adapter.Adapt | src/lib/api.ts:169-199 | story id, counts, models and metadata are carried over unchanged, and the pillars come from the resolved list |
| Adapter.TitleFieldIgnored | src/lib/api.ts:185 | a pillar's `title` never affects its result; a pillar named only by `title` is shown as untitled |
| Adapter.AdapterDefaults | src/__tests__/api.test.ts:81-123 | absent flags read as false, an absent summary as "", and absent questions and responses as empty |
| Adapter.AdaptExample | src/__tests__/api.test.ts:5-79 | the first example payload adapts field for field, except that its pillar is shown as untitled |
| Adapter.FallbackExample | src/__tests__/api.test.ts:125-161 | with `selling_points` absent, the `pillars` list is shown, and an absent response flag reads as false |
| Pipeline.Analyze | src/lib/api.ts:160-166 | the analysis fails exactly when validation fails, and then with the fixed message; otherwise story id, counts, models and metadata are those validated and the pillars are the adapted resolved list of the merged payload |
| Pipeline.PillarPrecedence | src/lib/api.ts:214-222 | end to end, the pillars shown come from the first non-empty of `selling_points`, `sellingPoints` and `pillars` |
| Pipeline.Wrap | src/lib/api.ts:88-106 | the envelope is an object whose `data` member is the payload |
| Pipeline.EnvelopeReadsBody | src/lib/api.ts:87-108 | a wrapped payload is read exactly as its body |
| Pipeline.EnvelopeTransparent | src/lib/api.ts:69-108 | wrapping changes nothing unless the bare payload is invalid and has a `data` member of its own |
| Pipeline.EnvelopeOneLevel | src/lib/api.ts:87-108 | a doubly wrapped payload is rejected |
| Pipeline.SameBody | src/lib/api.ts:70-86 | two objects that agree on the members the body reads are read alike |
| Pipeline.DirectBranchFirst | src/lib/api.ts:69-108 | a valid bare payload is read as is, whatever `data` member it also carries |
| Pipeline.BodyCongruence | src/lib/api.ts:69-108 | two payloads that agree on the members the schema reads give the same result |
| Pipeline.SummarySpellingEndToEnd | src/lib/api.ts:29-44 | respelling `summary` in camelCase leaves the whole result unchanged |
| Pipeline.WithMember | src/lib/api.ts:160 | a payload built with a last `key` member holds that member under `key` |
| Pipeline.MetadataSpellingEndToEnd | src/lib/api.ts:46-67 | respelling `metadata` in camelCase leaves the whole result unchanged |
| Pipeline.ReadOne | src/lib/api.ts:26 | an array of one element reads as the one value its element reads as |
| Pipeline.OnePillarBody | src/lib/api.ts:70-86 | an object with a story id, a summary, metadata and one `selling_points` pillar, and no other pillar list, reads as that body with the other lists empty |
| Pipeline.OnePillarAnalysis | src/lib/api.ts:164-199 | such a body is shown with its story id, counts, models and metadata, and its one pillar adapted |
| Pipeline.ExampleResponseRead | src/lib/api.ts:4-9 | the example response reads with `inferred` absent and `ai_provider_inferred` true |
| Pipeline.ExampleQuestionRead | src/lib/api.ts:11-19 | the example question takes its defaults: not inferred, no id, no assumptions |
| Pipeline.ExamplePillarRead | src/lib/api.ts:21-27 | the example pillar takes its defaults: no `pillar` member, an empty summary |
| Pipeline.ExampleSummaryRead | src/lib/api.ts:29-33 | the example summary reads as 2 questions, recognized in 1 |
| Pipeline.ExampleMetadataRead | src/lib/api.ts:46-52 | the example metadata reads with no client, provider "OpenAI", one model and live mode |
| Pipeline.ExampleEnvelope | src/lib/api.ts:69-108 | the example payload validates as it stands, with both absent pillar lists empty |
| Pipeline.ExampleAdapted | src/lib/api.ts:184-212 | the example pillar is shown untitled, with one question and one inferred response |
| Pipeline.ScenarioEndToEnd | src/lib/api.ts:160-222 | a payload shaped as the example shows story "s1", counts 2 and 1, one untitled pillar with one question and an inferred "gpt-4o" response, and the live "OpenAI" metadata |
| Pipeline.ExampleScenario | src/lib/api.ts:160-222 | the example payload itself is shown so |
| ModelComparison.Count | src/components/results/ModelComparison.tsx:114-120 | the inferred count never exceeds the total, which never exceeds the number of responses |
| ModelComparison.CountIsMultiplicity | src/components/results/ModelComparison.tsx:114-120 | the total is the number of the model's responses, and the inferred count the number of its inferring ones |
| ModelComparison.CountAppend | src/components/results/ModelComparison.tsx:112-122 | tallies add up over consecutive runs of responses |
| ModelComparison.OtherModelIgnored | src/components/results/ModelComparison.tsx:115 | a response of another model is never counted, wherever it stands |
| ModelComparison.TallyResponses | src/components/results/ModelComparison.tsx:114-120 | the loop over one question's responses computes the reference count |
| ModelComparison.TallyQuestions | src/components/results/ModelComparison.tsx:138-146 | the loops over one pillar's questions compute the reference count of its responses |
| ModelComparison.TallyPillars | src/components/results/ModelComparison.tsx:112-122 | the three nested loops compute the reference count over every response |
| ModelComparison.Rate | src/components/results/ModelComparison.tsx:124 | the rate is 0 with nothing counted, otherwise inferred as a percentage of total, and within 0 to 100 |
| ModelComparison.ComputeModelStats | src/components/results/ModelComparison.tsx:107-128 | one row per listed model, in order, with that model's overall counts and rate |
| ModelComparison.PillarRowFor | src/components/results/ModelComparison.tsx:131-161 | a pillar row has the pillar's title and exactly one cell per listed model, holding that model's counts and rate in the pillar |
| ModelComparison.ComputePillarStats | src/components/results/ModelComparison.tsx:130-163 | one row per pillar, in order, each with a cell for exactly the listed models |
| ModelComparison.PillarTalliesSumToOverall | src/components/results/ModelComparison.tsx:107-163 | a model's per-pillar tallies add up to its overall tally |
| ModelComparison.ColoursAgree | src/components/results/ModelComparison.tsx:165-175 | both colour scales put every rate in the same band |
| ModelComparison.RateAtLeast | src/components/results/ModelComparison.tsx:124 | a rate reaches a threshold exactly when inferred × 100 reaches threshold × total |
| ModelComparison.BandsOfTally | src/components/results/ModelComparison.tsx:165-169 | a tally's band: at least 80%, from 50% up to 80%, or under 50%, stated without division |
| ModelComparison.GetRateColor | src/components/results/ModelComparison.tsx:165-169 | emerald exactly from 80, amber exactly from 50 below 80, rose exactly below 50 |
| ModelComparison.RateColorValue | src/components/results/ModelComparison.tsx:171-175 | the same three bands, as colour values |
| SimulatedProgress.StepIndex | src/hooks/useProgress.ts:31-34 | the computed index is in range and names the step for that percentage |
| SimulatedProgress.StepFor | src/hooks/useProgress.ts:31-35 | the step shown is the i-th exactly when the percentage is from 20i and below 20(i+1), the last step holding from 80 up |
| SimulatedProgress.TickProgress | src/hooks/useProgress.ts:29-37 | a tick sets the percentage to the smaller of the old value plus twenty and 95, and shows the matching step |
| SimulatedProgress.TicksFromInitial | src/hooks/useProgress.ts:28-38 | after n ticks from the reset state the bar stands at min(20n, 95), with the matching step |
| SimulatedProgress.StepSequence | src/hooks/useProgress.ts:28-38 | from reset the steps are pillars, questions, models and evaluate, then evaluate at 95 for good |
| SimulatedProgress.FixedPoint | src/hooks/useProgress.ts:30 | a tick at 95 changes nothing |
| SimulatedProgress.Mount | src/hooks/useProgress.ts:13-14 | the hook starts at 0% on "mask", with the timer running when active |
| SimulatedProgress.SetActive | src/hooks/useProgress.ts:17-45 | deactivation stops the timer and resets to 0% on "mask"; activation starts the timer from the current report; an unchanged flag changes nothing |
| SimulatedProgress.Tick | src/hooks/useProgress.ts:28-38 | a firing advances the report only while the timer runs |
| SimulatedProgress.Complete | src/hooks/useProgress.ts:47-54 | complete stops the timer and reports 100% on "evaluate" |
| SimulatedProgress.ValidPreserved | src/hooks/useProgress.ts:12-57 | every operation keeps the step matching the percentage, and the timer running only while active |
| SimulatedProgress.CompleteStopsTicks | src/hooks/useProgress.ts:47-51 | after complete, timer firings change nothing |
| InputSection.CanSubmit | src/components/InputSection.tsx:34 | submitting is allowed exactly when not loading and the text has a non-whitespace character |
| InputSection.AddAlias | src/components/InputSection.tsx:36-45 | a blank draft changes nothing; otherwise the draft is cleared and its trimmed form is appended unless already listed |
| InputSection.AddAliasKeepsListClean | src/components/InputSection.tsx:36-45 | adding keeps the list free of duplicates and of blank or untrimmed entries |
| InputSection.RemoveAlias | src/components/InputSection.tsx:47-49 | the alias no longer occurs, and every other entry keeps its number of occurrences |
| InputSection.RemoveAppend | src/components/InputSection.tsx:48 | removal distributes over concatenation, so the kept entries keep their order |
| InputSection.RemoveAbsent | src/components/InputSection.tsx:48 | removing an unlisted alias changes nothing |
| InputSection.AddThenRemove | src/components/InputSection.tsx:36-49 | adding a new alias and then removing it restores the list |
| InputSection.HandleAliasKeyDown | src/components/InputSection.tsx:51-56 | Enter and "," add the draft and are swallowed; every other key changes nothing |
| Accordion.Create | src/components/ui/accordion.tsx:19-24 | the type defaults to single, and the open value is the default value or none |
| Accordion.SetValue | src/components/ui/accordion.tsx:26-32 | multiple mode sets the value as given; single mode clears it when it is already the value, and sets it otherwise |
| Accordion.Select | src/components/ui/accordion.tsx:26-32 | a click keeps the mode; the clicked item is open afterwards exactly in multiple mode or when it was closed; no other item is open |
| Accordion.AtMostOneOpen | src/components/ui/accordion.tsx:76 | no two different items are open at once |
| Accordion.SingleClick | src/components/ui/accordion.tsx:31 | in single mode a click toggles the clicked item and closes every other |
| Accordion.SingleToggleTwice | src/components/ui/accordion.tsx:31 | two clicks on one item restore the state when nothing, or that item, was open |
| Accordion.SingleToggleTwiceOtherOpen | src/components/ui/accordion.tsx:31 | two clicks on one item, while another was open, leave everything closed |
| Accordion.MultipleKeepsOpen | src/components/ui/accordion.tsx:27-29 | in multiple mode a click always opens, and re-clicking an open item keeps it open |
| AliasDefaults.Pad | src/app/page.tsx:17 | every name except the first stands after one space |
| AliasDefaults.TrimAll | src/app/page.tsx:19 | each entry is the trimmed form of its piece |
| AliasDefaults.DropEmpty | src/app/page.tsx:20 | exactly the non-empty entries are kept |
| AliasDefaults.DropEmptyKeepsCounts | src/app/page.tsx:20 | every non-empty entry is kept as often as it occurs |
| AliasDefaults.DropEmptyIsRemoval | src/app/page.tsx:20 | `.filter(Boolean)` is removing the empty string, the same removal as the form's remove button, so the kept entries keep their order |
| AliasDefaults.DropEmptyKeepsTrimmed | src/app/page.tsx:19-20 | trimmed entries stay trimmed, and no empty one is left |
| AliasDefaults.DropEmptyKeepsNonEmpty | src/app/page.tsx:20 | a list without empty entries passes unchanged |
| AliasDefaults.AliasMembers | src/app/page.tsx:19-20 | the kept entries are exactly the non-empty trimmed pieces |
| AliasDefaults.ParseAliasList | src/app/page.tsx:16-20 | the aliases are trimmed, and are exactly the non-empty trimmed pieces of the comma-separated source |
| AliasDefaults.AliasListOrder | src/app/page.tsx:16-20 | the parsed list is the trimmed pieces with the empty ones removed, every other piece kept as often as it occurs and in source order |
| AliasDefaults.DefaultProviderAliases | src/app/page.tsx:16-20 | the aliases are the configured list when one is set, the built-in list otherwise, read as a comma-separated list |
| AliasDefaults.DefaultProviderName | src/app/page.tsx:15 | the configured name is used, and "OpenAI" only when none is configured |
| AliasDefaults.BuiltInNamesClean | src/app/page.tsx:17 | the built-in names are non-empty, trimmed and comma-free |
| AliasDefaults.TrimPad | src/app/page.tsx:17-19 | trimming the pieces of a ", "-separated list gives back its names |
| AliasDefaults.PadNoComma | src/app/page.tsx:17-18 | padding adds no comma |
| AliasDefaults.AliasesOfJoin | src/app/page.tsx:16-20 | a comma-joined list of clean names is read back as exactly those names |
| AliasDefaults.BuiltInAliases | src/app/page.tsx:16-20 | with nothing configured, the aliases are the eight built-in names in order |
| Page.InitialPage | src/app/page.tsx:25-32 | the page starts idle, with empty text, no error, no result, the configured provider name or "OpenAI", the default aliases, and the progress hook mounted inactive |
| Page.WithAnalysis | src/app/page.tsx:32 | only the state changes, and the progress hook is active exactly while loading |
| Page.RunAnalysis | src/app/page.tsx:34-49 | a blank transcript errs with its message and sends nothing; otherwise the page loads, the error is cleared, and the request carries text, provider name and aliases |
| Page.Finish | src/app/page.tsx:44-59 | success stores the result; failure clears it and shows the error's message, or the fallback for a non-error |
| Page.HandleRetry | src/app/page.tsx:62-65 | retry returns to idle and clears the message, keeping the last result |
| Page.ExportFileName | src/app/page.tsx:67-75 | nothing is exported without a result; otherwise the file is named after the story id |
| Page.ReachablePreserved | src/app/page.tsx:25-65 | every change keeps the page consistent, and a successful request always shows results |
| Page.InitialReachable | src/app/page.tsx:116-118 | the first render is consistent, shows the empty state and shows no progress |
| Page.ShowError | src/app/page.tsx:108-110 | the error panel is shown only below the progress panel, with a non-empty message |
| Page.ShowResults | src/app/page.tsx:112-114 | results are shown only below the progress panel, never with the error panel, and only with a result |
| Page.ShowEmptyState | src/app/page.tsx:116-118 | the empty state is shown alone |
| Page.BlankTranscriptShowsError | src/app/page.tsx:35-39 | a blank transcript sends nothing and shows the error panel |
| Page.SuccessResetsProgress | src/app/page.tsx:50-52 | after a successful request the progress report is back at 0% on "mask", while results are shown |
| Page.OutcomeOfBody | src/lib/api.ts:164-166 | a response body ends the request with the analysis result exactly when the analysis accepts it, and otherwise throws the fixed format error |
| Page.MalformedBodyShowsFormatError | src/app/page.tsx:53-58 | a body that fails validation ends in the error panel, with the fixed format message and no result |

## Left out

- The HTTP request, the base-URL check, `buildErrorMessage` and its messages, and the `console` logging
  in `fetchAnalysis` (`src/lib/api.ts:136-159`, `src/lib/api.ts:224-240`). These are I/O. A request's
  outcome enters the model as the `Outcome` parameter of `Page.Finish`.
- zod's error details. Only accept or reject is modelled, because every rejection is replaced by one
  fixed message.
- Normalize.CoerceNumber: reads only decimal integers. JSON numbers are integers here, and a string
  counts only when it is blank or a signed run of decimal digits. `Number` also reads fractions
  ("2.5"), integers in other notations ("1.", "1.0", "1e3"), hexadecimal, binary and octal
  numerals, and "Infinity"; the model rejects those (`Text.DecimalNotationsUnread`,
  `Text.PrefixedNotationsUnread`). The model has no floating point.
- ModelComparison.Rate: is an exact real, not a float. `Math.round` of the displayed percentage is
  presentation and is left out.
- AliasDefaults.DropEmpty, AliasDefaults.ParseAliasList: their own contracts state which entries are
  kept; their multiplicity and order are stated instead by `AliasDefaults.DropEmptyKeepsCounts`,
  `AliasDefaults.DropEmptyIsRemoval` and `AliasDefaults.AliasListOrder` (with
  `InputSection.RemoveAppend`), because stating them in the functions' own ensures makes
  ParseAliasList too costly to verify.
- InputSection: the form's inputs and alias buttons are `disabled` while an analysis is loading,
  and the Analyze button whenever `canSubmit` is false (`src/components/InputSection.tsx:68-175`).
  The model does not gate `AddAlias`, `RemoveAlias`, `HandleAliasKeyDown` or `Page.RunAnalysis`
  on that state, so it also covers calls the rendered form cannot make, such as a blank
  transcript reaching `RunAnalysis`'s error branch (`src/app/page.tsx:35-39`).
- The empty-render guard of the comparison panel (`ModelComparison.tsx:22`), and all JSX rendering:
  `PillarCards`, `ProgressState`, the summary, header, footer, buttons, badges and cards.
- React plumbing: state hooks, effects, memoised callbacks and the context object. These are modelled
  as explicit state passed from one function to the next. The timer's one-second period is not
  modelled; only the order of firings matters.
- The sample-text button and its environment flag (`src/app/page.tsx:21-22`), and the form's
  "advanced" toggle (`src/components/InputSection.tsx:32`). Neither affects the analysis.
- The blob, URL and DOM work of `handleExport`. Only the file name is modelled.
- Text.IsSpace: the whitespace set is the ECMAScript one, listed by code point. No Unicode database is
  consulted.

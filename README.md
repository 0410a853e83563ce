# CommonGround analysis core, in Dafny

CommonGround reads each day's Congressional Record speeches and runs a chain
of agents over them. Each agent is one request to a language model:

- intake tags the speeches with topics and parties;
- the opportunity scout picks the topic with the most room for agreement;
- a Republican and a Democratic steelman state each side's strongest case;
- a bridge agent finds shared values and compromise paths;
- a democracy guard checks those paths;
- a policy drafter writes a draft.

The result is stored as a "brief". Cron routes ingest the day's speeches
and harvest bipartisan bills from Congress.gov, and an agent links those
bills to the brief topics. The public site shows the briefs, an RSS feed, a
sitemap, schema.org structured data and the "proof" page of linked bills.

This project models that core and proves properties of it:

- The daily pipeline (`Pipeline`) and the topic stage (`Pipeline.ProcessTopic`)
  are imperative methods over a `Db.Store` and a `Claude.Backend`. Each one is
  proved equal to a ghost specification function of the old state. The
  properties the source promises are proved as lemmas about those functions:
  - an empty day does nothing;
  - a failing intake stops the run;
  - once a topic is chosen, every fetched speech is marked processed;
  - the saved brief holds the agents' transcript in call order;
  - the placeholders appear when a side has no speeches.
- The language-model backend is an oracle from (agent role, prompt) to a
  response. Every call is logged in `Claude.Backend.calls`, so contracts can
  say which prompts an operation sends and in which order.
- Each agent's prompt builder and reply handling is a pure function. The
  JSON-span extraction is in `ResponseParser`. JSON decoding itself is a
  parameter (a `Parsers` record), because the model does not contain a JSON
  parser.
- `Congress` and `GovInfo` hold the pure helpers:
  - the bipartisan score, in exact hundredths;
  - bill status classification and bill ids;
  - HTML-to-text cleaning;
  - speaker parsing, with each regular expression written out as a function over the string.
- The two cron routes (`CronIngest`, `CronBills`) are methods over the tables
  with their loops and counters. Each loop body is proved to be one step of a
  fold, and the lemmas state what the fold keeps.
- `JsonLd`, `Feed` and `Sitemap` are pure renderers. `ProofPage.GetLinkedTopics`
  is the grouping loop of the proof page, proved equal to a fold over the link
  rows and compared with a filter-based reference definition.

Time is an input throughout:

- dates are integers (milliseconds since the epoch);
- the pipeline's day window is given as its two ends;
- `toUTCString`/`toISOString` are parameters or inputs.

Database queries are modelled on in-memory tables (`Db.Store`,
`Db.BillStore`), and each query becomes a method with its own contract. The
fetches from Congress.gov and GovInfo are inputs: each is the value the fetch
returned, or `None` or `Threw` when it threw.

Score ratios are exact (hundredths as integers), and rounding is written out
explicitly. Strings are sequences of characters. Case mapping covers ASCII letters only.

## Model

| member | source | states |
|---|---|---|
| Congress.BipartisanHundredths | src/lib/congress.ts:132-135 | a side with no cosponsors scores 0, and the score never exceeds 100 hundredths |
| Congress.BipartisanScore | src/lib/congress.ts:132-135 | the stored score lies in [0, 1] and is 0 exactly when its hundredths are 0 |
| Congress.ScoreIsRoundedRatio | src/lib/congress.ts:134 | with both sides non-empty, the hundredths are min/max × 100 rounded to the nearest integer, halves upward (the bracket 2·hi·h ≤ 200·lo + hi < 2·hi·(h+1)) |
| Congress.ScoreSymmetric | src/lib/congress.ts:132-135 | swapping the Republican and Democratic counts does not change the score |
| Congress.ScoreOneWhenBalanced | src/lib/congress.ts:132-135 | equal non-zero support on both sides scores exactly 1 |
| Congress.ScoreFourTwo | src/lib/congress.ts:134 | four against two scores 0.5 |
| Congress.ScoreZeroIff | src/lib/congress.ts:133-134 | the score is 0 if and only if a side is empty or the minority is under half a percent of the majority |
| Congress.EnactedName | src/lib/congress.ts:141 | the status string "enacted" names the enacted status and no other |
| Congress.DeriveBillStatus | src/lib/congress.ts:137-138 | a missing or empty latest action is "introduced" |
| Congress.EnactedWins | src/lib/congress.ts:141 | an action saying "became public law" or "signed by president" is enacted, whatever else it says |
| Congress.VetoedBeatsPassed | src/lib/congress.ts:142 | without an enactment phrase, "vetoed" wins over any "passed" phrase |
| Congress.PassedBothNeedsBoth | src/lib/congress.ts:141-143 | "passed_both" holds if and only if both "passed senate" and "passed house" occur and no enactment or veto phrase does |
| Congress.StatusIgnoresCase | src/lib/congress.ts:139 | upper-casing the action text does not change its status |
| Congress.LowerOfUpper | src/lib/congress.ts:139 | lower-casing after upper-casing equals lower-casing |
| Congress.IsAdvancedBill | src/lib/congress.ts:153-156 | a bill is advanced if and only if its status is committee, floor, passed_one, passed_both or enacted, that is, neither introduced nor vetoed |
| Congress.FormatBillId | src/lib/congress.ts:158-170 | a known type (in any case) gets its prefix; any other type is upper-cased; the number follows after one space |
| Congress.FormatIgnoresCase | src/lib/congress.ts:169 | the type's letter case does not change the id |
| Congress.UpperIdempotent | src/lib/congress.ts:169 | upper-casing twice is upper-casing once |
| Congress.FormatHouseBill | src/lib/congress.ts:160 | ("hr", "1234") becomes "H.R. 1234" |
| GovInfo.BlockAt | src/lib/govinfo.ts:135-136 | a match of the style/script block pattern is non-empty and lies within the text |
| GovInfo.TagAt | src/lib/govinfo.ts:137 | a tag match has at least three characters and lies within the text |
| GovInfo.StripBlocks | src/lib/govinfo.ts:135-136 | removing style and script blocks never lengthens the text and adds no character |
| GovInfo.StripTags | src/lib/govinfo.ts:137 | replacing each tag by one space never lengthens the text, and every character left is from the input or a space |
| GovInfo.ReplaceAll | src/lib/govinfo.ts:138-143 | a literal replacement no longer than its pattern never lengthens the text |
| GovInfo.DecodeEntities | src/lib/govinfo.ts:138-143 | decoding the six entities never lengthens the text |
| GovInfo.FirstFrom | src/lib/govinfo.ts:135-137 | the index found is the first occurrence of the character at or after the start, and `None` means there is none |
| GovInfo.FindIgnoringCase | src/lib/govinfo.ts:135-136 | a match found lies wholly within the text, at or after the start |
| GovInfo.Collapse | src/lib/govinfo.ts:144 | after collapsing there are no two spaces in a row and no white space other than ' '; a leading non-space character is kept; no character is invented except ' ' |
| GovInfo.HtmlToPlainText | src/lib/govinfo.ts:133-146 | the cleaned text neither starts nor ends with white space and never holds two spaces in a row |
| GovInfo.TrimPreservesNoDoubleSpace | src/lib/govinfo.ts:145 | trimming keeps single spacing and adds no character |
| GovInfo.TrimIsSlice | src/lib/govinfo.ts:145 | the trimmed text is a contiguous slice of the text |
| GovInfo.StripTagsKeepsPlain | src/lib/govinfo.ts:137 | text before the first '<' passes through tag stripping unchanged |
| GovInfo.TagBecomesSpace | src/lib/govinfo.ts:137 | each tag becomes exactly one space, so the words on either side stay apart |
| GovInfo.ShortTextHasNoBlock | src/lib/govinfo.ts:135-136 | a text shorter than the opening tag loses no block |
| GovInfo.ReplaceAllWithoutAmpersand | src/lib/govinfo.ts:138-143 | an entity replacement leaves a text with no '&' unchanged |
| GovInfo.DecodeWithoutAmpersand | src/lib/govinfo.ts:138-143 | entity decoding leaves a text with no '&' unchanged |
| GovInfo.CollapseFixed | src/lib/govinfo.ts:144 | a text already single-spaced with plain spaces only is a fixed point of collapsing |
| GovInfo.TagExample | src/lib/govinfo.ts:133-146 | "a<b>c" cleans to "a c" |
| GovInfo.TagExampleStripped | src/lib/govinfo.ts:137 | tag stripping turns "a<b>c" into "a c" |
| GovInfo.TagExampleClean | src/lib/govinfo.ts:138-145 | decoding, collapsing and trimming leave "a c" unchanged |
| GovInfo.NbspStep | src/lib/govinfo.ts:138 | the `&nbsp;` pass leaves "&amp;lt;" unchanged |
| GovInfo.LoneAmpersandKept | src/lib/govinfo.ts:138-143 | an '&' not followed by the rest of an entity name is kept |
| GovInfo.AmpStep | src/lib/govinfo.ts:139 | the `&amp;` pass turns "&amp;lt;" into "&lt;" |
| GovInfo.LtStep | src/lib/govinfo.ts:140 | the `&lt;` pass turns "&lt;" into "<" |
| GovInfo.DoubleDecoding | src/lib/govinfo.ts:139-140 | because `&amp;` is decoded before `&lt;`, "&amp;lt;" decodes all the way to "<" |
| GovInfo.StripTagsWithoutLess | src/lib/govinfo.ts:137 | a text without '<' has no tags to strip |
| GovInfo.StripBlocksWithoutLess | src/lib/govinfo.ts:135-136 | a text without '<' has no style or script blocks |
| GovInfo.PlainTextIdempotent | src/lib/govinfo.ts:133-146 | for text holding no '<' and no '&', cleaning only collapses and trims white space, and cleaning twice equals cleaning once |
| GovInfo.SpaceRunEnd | src/lib/govinfo.ts:155-156 | the `\s+` run starting at an index ends at the first non-space character or at the end of the text |
| GovInfo.TitleLength | src/lib/govinfo.ts:155 | a recognised honorific lies within the text |
| GovInfo.NameEnd | src/lib/govinfo.ts:155 | the lazy name group stops at the first '.' or white space, and only capitals come before it |
| GovInfo.TitledName | src/lib/govinfo.ts:155 | a first-pattern capture needs an honorific, has at least two characters and starts with a capital |
| GovInfo.TemporeLength | src/lib/govinfo.ts:156 | the optional "pro tempore" lies within the text |
| GovInfo.OfficeHolder | src/lib/govinfo.ts:156 | a second-pattern capture is a prefix of the text that starts with "The", in any case |
| GovInfo.OfficeAt | src/lib/govinfo.ts:156 | the office and the optional "pro tempore" after it form a prefix of the text |
| GovInfo.ParseSpeaker | src/lib/govinfo.ts:152-165 | a speaker is found only when the text opens with an honorific or "The"; a first-pattern match always gives a non-empty name starting with a capital |
| GovInfo.NameEndAt | src/lib/govinfo.ts:155 | the name ends at the first '.' or white space after a run of capitals |
| GovInfo.TitleLengthOf | src/lib/govinfo.ts:155 | each of "Mr.", "Ms.", "Mrs." and "Miss" is recognised with its own length |
| GovInfo.TitledNameAt | src/lib/govinfo.ts:155 | after an honorific and white space, the capture is the run of capitals up to the first '.' or white space |
| GovInfo.NameIsCapitalRun | src/lib/govinfo.ts:155-161 | honorific, white space, two or more capitals, then '.' or white space: the speaker is exactly those capitals, whatever follows |
| GovInfo.CapitalRunCaptured | src/lib/govinfo.ts:155 | the first pattern captures that run of capitals |
| GovInfo.CapitalRunAt | src/lib/govinfo.ts:155 | the same capture, for a text split after its honorific |
| GovInfo.SmithOfTexas | src/lib/govinfo.ts:155-161 | "Mr. SMITH of Texas." yields "SMITH" |
| GovInfo.DeLaCruz | src/lib/govinfo.ts:155-161 | "Mr. DE LA CRUZ." yields only "DE", because the lazy group stops at the first space |
| GovInfo.OfficeLengthOf | src/lib/govinfo.ts:156 | each of SPEAKER, PRESIDENT and CHAIR is recognised with its own length |
| GovInfo.OfficeHolderAt | src/lib/govinfo.ts:156 | "The", white space and an office, followed by no more white space, is captured whole |
| GovInfo.OpeningLayout | src/lib/govinfo.ts:156 | in such a text, the white-space run after "The" ends where the office begins |
| GovInfo.OfficeHolderFrom | src/lib/govinfo.ts:156 | the capture runs from the start of the text to the end of the office |
| GovInfo.OfficeWithoutTempore | src/lib/govinfo.ts:156 | without a following "pro tempore", the capture ends with the office |
| GovInfo.TemporeAbsent | src/lib/govinfo.ts:156 | "pro tempore" is absent when no white space follows the office |
| GovInfo.PresidingOfficer | src/lib/govinfo.ts:156-161 | a text without an honorific that opens with "The", white space and an office yields that opening as the speaker |
| Claude.FirstText | src/lib/claude.ts:41-42 | the answer is the text of the first text block, or "" when no block is text |
| Claude.AnswerFailsOnlyOnFailure | src/lib/claude.ts:33-42 | a call throws exactly when the request fails; a response without content answers "" |
| Claude.Backend.constructor | src/lib/claude.ts:5-12 | a new backend has the given responder and no calls logged yet |
| Claude.Backend.CallAgent | src/lib/claude.ts:22-43 | each call is logged once, in order, with its role and prompt, and its result is the responder's first text or a thrown error |
| ResponseParser.FirstIndex | src/lib/agents/intake.ts:71 | the first position of the character, or `None` when it does not occur |
| ResponseParser.LastIndex | src/lib/agents/intake.ts:71 | the last position of the character, or `None` when it does not occur |
| ResponseParser.ExtractSpan | src/lib/agents/intake.ts:71-72 | /\{[\s\S]*\}/ matches if and only if some '{' comes before some '}'; the match runs from the first '{' to the last '}' |
| ResponseParser.EmbeddedObjectIsSpan | src/lib/agents/bridge.ts:59-61 | an object wrapped in prose with no '{' before it and no '}' after it is exactly the span that is parsed |
| ResponseParser.EmbeddedObjectParses | src/lib/agents/bridge.ts:58-71 | round trip: when the decoder accepts such an embedded object, the agent returns the decoded value, not the default |
| ResponseParser.NoBracePairGivesDefault | src/lib/agents/bridge.ts:58-71 | a reply with no '{' before a '}' yields the agent's default, whatever the decoder does |
| ResponseParser.TrailingBraceWidensSpan | src/lib/agents/bridge.ts:59 | a '}' in the prose after the object widens the greedy span past the object |
| Intake.Run | src/lib/agents/intake.ts:54-78 | the intake agent throws exactly when its backend call fails |
| Intake.Truncated | src/lib/agents/intake.ts:60 | the body sent is a prefix of at most 3000 characters, the whole body when it is short enough, with id and chamber kept |
| Intake.PromptSeesOnlyTruncatedBodies | src/lib/agents/intake.ts:60 | only the first 3000 characters of each speech reach the prompt |
| Intake.PromptAppendsBlock | src/lib/agents/intake.ts:57-62 | speech blocks appear in input order, separated by a blank line |
| Intake.NoJsonGivesNoTopics | src/lib/agents/intake.ts:69-77 | a reply with no JSON span is not an error: it yields no topics |
| OpportunityScout.Run | src/lib/agents/opportunity-scout.ts:47-81 | the scout throws exactly when its backend call fails |
| OpportunityScout.NonSubstantiveSpeechOnlyCounted | src/lib/agents/opportunity-scout.ts:52-57 | a further non-substantive speech is counted for its party but adds no listed position |
| OpportunityScout.PromptAppendsBlock | src/lib/agents/opportunity-scout.ts:50-63 | topic blocks appear in input order, separated by a rule line |
| OpportunityScout.UnparsableReplyRanksNothing | src/lib/agents/opportunity-scout.ts:70-80 | a reply that does not parse ranks no topic and carries the failure summary |
| OpportunityScout.ScoresNotClamped | src/lib/agents/opportunity-scout.ts:70-73 | a parsed ranking is passed on as it is, out-of-range scores included |
| RedSteelman.Run | src/lib/agents/red-steelman.ts:20-39 | the answer is the backend's first text, unparsed, and it throws exactly when the call fails |
| RedSteelman.PromptLayout | src/lib/agents/red-steelman.ts:25-33 | the prompt opens with the topic; the conservative header and its numbered speeches come before the progressive context header and its speeches |
| RedSteelman.EmptySideRendersEmpty | src/lib/agents/red-steelman.ts:28-31 | an empty side leaves its section empty, header followed by the blank line, with no placeholder added by the agent |
| BlueSteelman.Run | src/lib/agents/blue-steelman.ts:20-39 | the answer is the backend's first text, unparsed, and it throws exactly when the call fails |
| BlueSteelman.PromptLayout | src/lib/agents/blue-steelman.ts:25-33 | the prompt opens with the topic; the progressive header and its numbered speeches come before the conservative context header and its speeches |
| BlueSteelman.EmptySideRendersEmpty | src/lib/agents/blue-steelman.ts:28-31 | an empty side leaves its section empty, header followed by the blank line, with no placeholder added by the agent |
| Bridge.Run | src/lib/agents/bridge.ts:38-73 | the bridge agent throws exactly when its backend call fails |
| Bridge.PromptLayout | src/lib/agents/bridge.ts:43-51 | the conservative position, under its header, comes before the progressive one, and the prompt opens with the topic |
| Bridge.UnparsableReplyFindsNothing | src/lib/agents/bridge.ts:58-71 | a reply that does not parse lists nothing in all five lists and carries the failure summary |
| DemocracyGuard.Run | src/lib/agents/democracy-guard.ts:55-95 | the guard throws exactly when its backend call fails |
| DemocracyGuard.PromptLayout | src/lib/agents/democracy-guard.ts:62-76 | the sections occur in the order topic, conservative, progressive, bridge summary, paths, instruction, without overlapping |
| DemocracyGuard.PathInPrompt | src/lib/agents/democracy-guard.ts:73-74 | the k-th compromise path appears as the line "k. path" at its place in the paths section |
| DemocracyGuard.UnparsableReplyPasses | src/lib/agents/democracy-guard.ts:83-94 | without a parsable reply the guard fails open: it passes and raises no flag |
| DemocracyGuard.PassedTakenVerbatim | src/lib/agents/democracy-guard.ts:84-86 | a parsed verdict is kept as it is, so a pass that lists critical flags stays a pass |
| PolicyDrafter.Run | src/lib/agents/policy-drafter.ts:33-65 | the draft is the backend's first text, unparsed, and it throws exactly when the call fails |
| PolicyDrafter.NoFlagsSentence | src/lib/agents/policy-drafter.ts:40-44 | the flag text is the fixed "no flags" sentence if and only if there are no flags |
| PolicyDrafter.FlagLinesInOrder | src/lib/agents/policy-drafter.ts:42-43 | each flag's line sits under the header, and the lines keep the flags' order |
| PolicyDrafter.SuggestionNotSent | src/lib/agents/policy-drafter.ts:43 | flags that agree on severity, principle and concern give the same prompt: the suggestion and the source are never sent |
| PolicyDrafter.PathInPrompt | src/lib/agents/policy-drafter.ts:54-55 | the k-th compromise path appears as the line "k. path" at its place in the paths section |
| PolicyDrafter.FlagsAfterPaths | src/lib/agents/policy-drafter.ts:46-59 | the flag text is the section after the compromise paths, and the two do not overlap |
| BillMatcher.PolicyAreaText | src/lib/agents/bill-matcher.ts:51 | the field reads "none" if and only if the policy area is missing, empty or literally "none"; otherwise it is the policy area |
| BillMatcher.Run | src/lib/agents/bill-matcher.ts:39-71 | with no bills or no slugs there are no matches and no call; otherwise the matcher throws exactly when its call fails |
| BillMatcher.BareBillRendersNone | src/lib/agents/bill-matcher.ts:51-52 | a bill with no subjects renders "none" for them, and a missing policy area renders like an empty one |
| BillMatcher.SlugInPrompt | src/lib/agents/bill-matcher.ts:56 | each slug sits in the slug list after the bills section, in input order |
| BillMatcher.ParsedMatchesKept | src/lib/agents/bill-matcher.ts:63-66 | a parsed reply is kept as it is; confidences are not filtered here |
| BillMatcher.UnparsableReplyMatchesNothing | src/lib/agents/bill-matcher.ts:63-70 | a reply that does not parse gives no matches |
| Db.MarkAll | src/lib/pipeline.ts:97-103 | marking keeps every stored speech; the ones in the set become processed and nothing else changes |
| Db.Store.constructor | src/lib/db/index.ts:13-32 | a fresh store has no speeches and no briefs, and ids start at 0 |
| Db.Store.SpeechesBetween | src/lib/pipeline.ts:28-31 | the rows returned are exactly the stored speeches dated inside the window, each once, in no particular order |
| Db.Store.FindByGranule | src/app/api/cron/ingest/route.ts:52-54 | `None` if and only if no stored speech has the granule id; otherwise a stored speech with that id |
| Db.Store.InsertSpeech | src/app/api/cron/ingest/route.ts:73-84 | the row is stored under the next serial id, and the id counter moves past it |
| Db.Store.MarkProcessed | src/lib/pipeline.ts:99-102 | sets `processed` on that one speech, and a missing id changes nothing |
| Db.Store.InsertBrief | src/lib/pipeline.ts:250-267 | the brief is appended to the brief table and the speeches are untouched |
| Db.Store.DistinctSlugs | src/app/api/cron/bills/route.ts:142-145 | every brief slug, each exactly once |
| Db.BillStore.constructor | src/lib/db/index.ts:13-32 | a fresh bill table has no bills and no links |
| Db.BillStore.FindBill | src/app/api/cron/bills/route.ts:52-55 | `None` if and only if no stored bill has that congress, type and number; otherwise that stored row |
| Db.BillStore.UpdateBill | src/app/api/cron/bills/route.ts:117-121 | the row under that id is replaced, keeping its natural key, and no two rows become the same bill |
| Db.BillStore.InsertBill | src/app/api/cron/bills/route.ts:117-121 | a bill not yet stored gets the next id, and no two rows are the same bill |
| Db.BillStore.InsertLink | src/app/api/cron/bills/route.ts:161-165 | an existing (bill, slug) link is kept as it is ("on conflict do nothing"); a new one is added |
| CronIngest.AuthorizedWithSecret | src/app/api/cron/ingest/route.ts:20-23 | with a secret set, exactly the header "Bearer <secret>" is accepted, and a missing header is rejected |
| CronIngest.UnsetSecretAcceptsUndefined | src/app/api/cron/ingest/route.ts:21 | with the secret unset, the template prints "undefined", so the header "Bearer undefined" is accepted |
| CronIngest.StepKeeps | src/app/api/cron/ingest/route.ts:50-92 | one granule keeps rows under their own ids and never stores a granule id twice |
| CronIngest.InsertKeeps | src/app/api/cron/ingest/route.ts:73-84 | inserting a granule not yet stored, under the next id, keeps both table invariants |
| CronIngest.IngestedNumbered | src/app/api/cron/ingest/route.ts:49-93 | the whole loop keeps rows under their own ids and every granule id unique |
| CronIngest.StepExtends | src/app/api/cron/ingest/route.ts:50-92 | one granule leaves stored rows alone, adds at most its own row under the next id, and counts itself at most once |
| CronIngest.IngestedExtends | src/app/api/cron/ingest/route.ts:49-93 | over the loop, every new row comes from a listed granule, has at least 200 characters of text, is unprocessed with no party and no topics, and takes the granule's class and the target day; old rows are untouched |
| CronIngest.StoredForWider | src/app/api/cron/ingest/route.ts:49 | a row built from a granule of part of the listing is built from a granule of the listing |
| CronIngest.Get | src/app/api/cron/ingest/route.ts:18-109 | a wrong header is rejected and changes nothing; a failed listing is a 500 and an empty one "nothing found", both changing nothing; otherwise the store and the counters are the fold over the granules |
| CronIngest.IngestGranule | src/app/api/cron/ingest/route.ts:50-92 | the loop body is exactly one step of that fold: stored ids skip, failed fetches count nowhere, short texts skip, others are inserted |
| CronIngest.CountersBounded | src/app/api/cron/ingest/route.ts:46-100 | `ingested + skipped` never exceeds the number of granules, and `ingested` is the number of rows added |
| CronIngest.KnownGranuleSkipped | src/app/api/cron/ingest/route.ts:52-59 | an already stored granule is skipped without a fetch, and only `skipped` changes |
| CronIngest.ShortTextSkipped | src/app/api/cron/ingest/route.ts:66-69 | a text under 200 characters is never stored, and it is counted as skipped |
| CronIngest.RepeatedGranuleSkipped | src/app/api/cron/ingest/route.ts:52-59 | a granule listed twice is stored at most once; if the first visit stored it, the second is a skip |
| JsonLd.WebsiteSchema | src/lib/json-ld.ts:3-12 | the site object carries the schema.org context, type "WebSite", the site name and the base URL |
| JsonLd.BreadcrumbSchema | src/lib/json-ld.ts:14-25 | the schema.org context and one list item per crumb, positions 1 to n in trail order, carrying the crumb names |
| JsonLd.ArticleSchema | src/lib/json-ld.ts:27-51 | the site is author and publisher alike, only the url gets the base prefix, and headline and description are passed through |
| JsonLd.ListItemsAt | src/lib/json-ld.ts:18-23 | list item i has position from + i + 1, the crumb's name and the base URL followed by its path |
| JsonLd.BreadcrumbShape | src/lib/json-ld.ts:14-25 | one list item per crumb, in order, at positions 1..n, each with its name and base URL plus path |
| JsonLd.TrailRoundTrip | src/lib/json-ld.ts:14-25 | round trip: the crumbs can be read back from the trail unchanged |
| JsonLd.ArticleRoundTrip | src/lib/json-ld.ts:27-51 | only `url` gets the base URL prefix; author and publisher agree; the fields can be read back unchanged |
| JsonLd.ContextEverywhere | src/lib/json-ld.ts:5 | all three objects carry the schema.org context |
| Feed.LinkIsGuid | src/app/feed.xml/route.ts:27-28 | an item's link and guid are the same topic URL, and the slug can be read back from it |
| Feed.Description | src/app/feed.xml/route.ts:24 | opens with the conservative label and is bounded by the labels plus 200 characters per side, reaching the bound when both sides are long |
| Feed.DescriptionQuotesBothSides | src/app/feed.xml/route.ts:24 | the description quotes the first 200 characters of each position, red first, each followed by "..." even when nothing was cut; it is bounded in length, and a short red position appears whole |
| Feed.TitleVerbatim | src/app/feed.xml/route.ts:26 | the topic goes into the title's CDATA section verbatim |
| Feed.ItemsInOrder | src/app/feed.xml/route.ts:21-33 | every brief gives one item, and item k sits after item k-1 and its newline, in query order |
| Feed.RssIsChannel | src/app/feed.xml/route.ts:35-46 | the feed is the fixed channel head followed by the items of the briefs the query returned |
| Feed.FailedQueryEmptyChannel | src/app/feed.xml/route.ts:10-19 | a failed query renders the same channel as an empty result: the head and the closing tags only |
| Sitemap.Layout | src/app/sitemap.ts:9-59 | the four static pages come first, then one topic page per slug row, then one archive page per day row, each in row order |
| Sitemap.SitemapOf | src/app/sitemap.ts:6-60 | always opens with the four static pages, and holds one more page per slug row and, when the day query also succeeded, per day row |
| Sitemap.ArchiveNamesDay | src/app/sitemap.ts:47-49 | the archive URL names the day part of the ISO timestamp |
| Sitemap.QueryFailures | src/app/sitemap.ts:19-59 | a failed slug query leaves only the static pages; a failed day query drops only the archive pages; the static pages are always there |
| ProofPage.GroupedKeys | src/app/proof/page.tsx:37-41 | the map's keys are exactly the bills that occur in the link rows |
| ProofPage.GroupedLists | src/app/proof/page.tsx:37-41 | each bill's list equals its link rows' slugs, filtered from the rows in row order |
| ProofPage.TotalIsLinkCount | src/app/proof/page.tsx:38-41 | one slug is listed per row, so the lists add up to the number of rows |
| ProofPage.GetLinkedTopics | src/app/proof/page.tsx:31-43 | an empty id list returns {} without a query; otherwise the loop builds exactly the grouping of the returned rows |
| StableSort.Insert | src/lib/pipeline.ts:39-41 | inserting one element gives a permutation of the input plus that element |
| StableSort.SortDesc | src/lib/pipeline.ts:39-41 | the sort returns a permutation of its input |
| StableSort.InsertSorted | src/lib/pipeline.ts:40 | inserting into a sequence ordered by non-increasing key keeps it ordered |
| StableSort.SortDescSorted | src/lib/pipeline.ts:40 | the result is ordered by non-increasing key (longest text first; highest score first at line 72) |
| StableSort.WithKey | src/lib/pipeline.ts:40 | the elements picked out all come from the input and have that key |
| StableSort.WithKeyConcat | src/lib/pipeline.ts:40 | picking the elements with one key distributes over concatenation |
| StableSort.InsertWithKey | src/lib/pipeline.ts:40 | an insertion puts the new element in front of the old ones with its key |
| StableSort.SortDescStable | src/lib/pipeline.ts:39-41 | stability, as `Array.prototype.sort` guarantees: elements with equal keys keep their input order |
| StableSort.BestByScanIsBest | src/lib/pipeline.ts:71-73 | the reference scan finds an element exactly when one qualifies, and no qualifying element has a larger key |
| StableSort.BestByScanIsFirst | src/lib/pipeline.ts:71-73 | ties go to the earliest: every qualifying element before the chosen one has a smaller key |
| StableSort.FindFirstInsertNotOk | src/lib/pipeline.ts:73 | inserting a non-qualifying element does not change what `find` returns |
| StableSort.FindFirstInsertOk | src/lib/pipeline.ts:73 | inserting a qualifying element into a sorted sequence makes `find` return it, unless the old find result has a strictly larger key |
| StableSort.FirstOfSortedIsBest | src/lib/pipeline.ts:71-73 | sort then `find` picks the first qualifying element, in input order, among those with the largest key: it equals the reference scan |
| Seqs.Filter | src/lib/pipeline.ts:52-54 | the kept elements all satisfy the predicate and come from the input, and every satisfying element is kept |
| Seqs.FilterConcat | src/lib/pipeline.ts:52-54 | filtering distributes over concatenation |
| Seqs.FindFirst | src/lib/pipeline.ts:73 | `find` fails exactly when no element satisfies the predicate, and otherwise returns the first one that does |
| Seqs.Map | src/lib/pipeline.ts:45-49 | the mapped sequence has one image per element, in order |
| Text.Take | src/app/feed.xml/route.ts:24 | `slice(0, n)` is a prefix, of length n or the whole string when it is shorter |
| Text.Contains | src/lib/congress.ts:141-148 | `includes` holds exactly when the phrase occurs at some position |
| Text.NatToString | src/lib/agents/red-steelman.ts:28 | a number prints as one or more decimal digits, and a single digit prints as itself |
| Text.IntToString | src/lib/pipeline.ts:263 | negative numbers print with a leading '-', others as their digits |
| Text.ToLower | src/lib/congress.ts:139 | lower-casing maps each character on its own and keeps the length |
| Text.ToUpper | src/lib/congress.ts:169 | upper-casing maps each character on its own and keeps the length |
| Text.Before | src/app/sitemap.ts:47 | `split(c)[0]` is a prefix without `c`, ending where the first `c` is |
| Text.BeforeJoined | src/app/sitemap.ts:47 | splitting `a + c + b`, with no `c` in `a`, gives back `a` and `b` |
| Text.Numbered | src/lib/agents/democracy-guard.ts:74 | item i is numbered i + 1 and keeps its text, in order |
| Text.PathListed | src/lib/agents/democracy-guard.ts:74 | the k-th path appears in the joined list as the line "k. path" |
| Text.TrimStart | src/lib/govinfo.ts:145 | only leading white space is removed, and what is left does not start with white space |
| Text.TrimEnd | src/lib/govinfo.ts:145 | only trailing white space is removed, and what is left does not end with white space |
| Text.Trim | src/lib/govinfo.ts:145 | the trimmed text neither starts nor ends with white space |
| Text.TrimmedIsFixed | src/lib/govinfo.ts:145 | a text that neither starts nor ends with white space is its own trim |
| Pipeline.RunPipeline | src/lib/pipeline.ts:21-106 | the speeches read are exactly the day's, each once; the result, the calls made, the marking and the saved brief are those of the run's specification on them |
| Pipeline.EmptyDayDoesNothing | src/lib/pipeline.ts:33-36 | a day without speeches returns 0, calls no agent, marks nothing and saves nothing |
| Pipeline.Batch | src/lib/pipeline.ts:38-41 | at most 20 of the fetched speeches, none invented, at least one when any was fetched, and all of them when there are 20 or fewer |
| Pipeline.BatchIsLongestFirst | src/lib/pipeline.ts:38-50 | intake sees at most 20 speeches, longest first; each one left out is no longer than each one kept; kept and left-out speeches together are the fetched ones; equal lengths keep their fetch order |
| Pipeline.IntakeFailureStops | src/lib/pipeline.ts:44-50 | a failing intake call ends the run with that failure after that one call, with nothing marked or saved |
| Pipeline.NoSubstantiveTopicStops | src/lib/pipeline.ts:52-59 | no topic with a substantive speech: the run returns 0 after the intake call alone and marks nothing |
| Pipeline.ChosenTopicMarksAll | src/lib/pipeline.ts:61-105 | once a topic is chosen, the fetched speeches are marked and the result is 1 exactly when a brief is saved, otherwise 0; intake is called first and the scout second |
| Pipeline.PipelineSpecChosen | src/lib/pipeline.ts:44-105 | with substantive topics, the run is the intake call followed by the topic stage |
| Pipeline.TopicStageCounts | src/lib/pipeline.ts:66-105 | the topic stage always marks, counts 0 or 1 brief (1 exactly when one is saved) and sends the scout its request first |
| Pipeline.AnalyseTopics | src/lib/pipeline.ts:61-105 | scout call, topic choice, `processTopic` and marking give exactly the topic stage's count, calls, marking and brief |
| Pipeline.PickTopic | src/lib/pipeline.ts:63-85 | one scout request with the substantive topics; a failed scout gives no result, and the topic comes from the topic choice |
| Pipeline.MarkFetched | src/lib/pipeline.ts:97-103 | after the loop, exactly the fetched speeches have been marked processed, and nothing else changes |
| Pipeline.MarkOneMore | src/lib/pipeline.ts:98-102 | marking one more speech extends the set marked so far |
| Pipeline.DayFullyMarked | src/lib/pipeline.ts:97-103 | after marking, exactly the speeches dated within the day, or already processed, are processed; no other row or column changes |
| Pipeline.SelectedTopicIsSubstantive | src/lib/pipeline.ts:66-85 | the analysed topic is always one of the substantive topics |
| Pipeline.SelectTopic | src/lib/pipeline.ts:66-85 | the chosen topic is a substantive one, and the first when the scout failed |
| Pipeline.ScoutPicksBestListed | src/lib/pipeline.ts:66-85 | without a scout result, or when the scout ranked nothing substantive, the first substantive topic; otherwise the first topic with the slug of the highest-scored listed entry, ties going to the entry listed first |
| Pipeline.ScoutPickUnlisted | src/lib/pipeline.ts:78-81 | a ranking that names no substantive topic falls back to the first one |
| Pipeline.ScoutPickListed | src/lib/pipeline.ts:71-77 | a ranking naming a substantive topic picks the highest-scored such entry, first among equals, and its first topic |
| Pipeline.BestListed | src/lib/pipeline.ts:71-73 | the entry chosen is listed, scores highest among the listed ones, and no listed entry before it scores as much |
| Pipeline.SelectedThroughBest | src/lib/pipeline.ts:71-81 | sorting and then `find` is the same as scanning the unsorted ranking for its best listed entry |
| Pipeline.BestPickIsFirstWithSlug | src/lib/pipeline.ts:76 | the topic taken for a listed entry has its slug and is the first substantive topic with that slug |
| Pipeline.IntakeAndScoutAsAgents | src/lib/pipeline.ts:44-50 | with the agents' own prompt builders, the intake and scout stages send the prompts those agents build and read the answers as the agents do |
| Pipeline.SteelmenAsAgents | src/lib/pipeline.ts:154-165 | the same for the two steelmen, with the sides swapped for the blue one |
| Pipeline.BridgeAsAgent | src/lib/pipeline.ts:184-188 | the same for the bridge agent |
| Pipeline.GuardAsAgent | src/lib/pipeline.ts:199-205 | the same for the democracy guard, given the bridge's summary and paths |
| Pipeline.DrafterAsAgent | src/lib/pipeline.ts:216-222 | the same for the policy drafter, given the paths and the guard's flags |
| Pipeline.ProcessTopic | src/lib/pipeline.ts:108-271 | the calls made, the outcome and the saved brief are those of the topic's specification, and the speech table is untouched |
| Pipeline.SteelStep | src/lib/pipeline.ts:152-180 | the steelmen and everything after them behave as their specification stage says |
| Pipeline.BridgeStep | src/lib/pipeline.ts:182-195 | the bridge and everything after it behave as their specification stage says |
| Pipeline.GuardStep | src/lib/pipeline.ts:197-212 | the guard and everything after it behave as their specification stage says |
| Pipeline.DraftStep | src/lib/pipeline.ts:214-270 | the drafter call and the insert behave as their specification stage says |
| Pipeline.PositionsOfParty | src/lib/pipeline.ts:121-126 | a side's positions are those of its speeches: every one of them and nothing else |
| Pipeline.NoPartisanSpeechNoBrief | src/lib/pipeline.ts:129-131 | a topic with no "R" and no "D" speech calls no agent and saves nothing |
| Pipeline.OrPlaceholder | src/lib/pipeline.ts:157-163 | a side with speeches keeps them; an empty side becomes its one placeholder sentence |
| Pipeline.RedPlaceholderWhenNoRepublican | src/lib/pipeline.ts:154-165 | with no Republican speech, both steelmen are shown the red placeholder instead, red first, then blue |
| Pipeline.BluePlaceholderWhenNoDemocrat | src/lib/pipeline.ts:154-165 | with no Democratic speech, both steelmen are shown the blue placeholder instead |
| Pipeline.SteelCallsFirst | src/lib/pipeline.ts:154-165 | every run of the steelman stage starts with the red request, then the blue one |
| Pipeline.OpeningShape | src/lib/pipeline.ts:136-150 | the transcript opens with the intake note, then the scout note exactly when the scout ranked the topic |
| Pipeline.PushAppends | src/lib/pipeline.ts:136-229 | each push adds one message with its role at the end and keeps every timestamp taken from the clock in order |
| Pipeline.SteelStageSaves | src/lib/pipeline.ts:152-267 | a failed steelman call rejects; a saved brief holds both steelman answers and the transcript roles red, blue, bridge, guard, drafter after the opening |
| Pipeline.BridgeStageSaves | src/lib/pipeline.ts:182-267 | a failed bridge call rejects; a saved brief takes its shared values, differences and paths from the bridge's answer |
| Pipeline.GuardStageSaves | src/lib/pipeline.ts:197-267 | a failed guard call rejects; a saved brief takes its check from the guard's summary and is flagged exactly when the guard did not pass it |
| Pipeline.DraftStageSaves | src/lib/pipeline.ts:214-267 | a brief is saved exactly when the drafter answers, with its draft and every column taken from the agents, the topic and the scout entry |
| Pipeline.SavedBriefTranscript | src/lib/pipeline.ts:136-267 | a saved brief's transcript is intake, then scout when ranked, then red, blue, bridge, guard and drafter, each stamped in order; the brief cites the topic and has a score exactly when the scout ranked it |
| Pipeline.SourceIdsCited | src/lib/pipeline.ts:232-235 | the source ids are those of the fetched rows the topic cites: every one of them and nothing else |
| Pipeline.SpeakerFor | src/lib/pipeline.ts:241 | the topic's speaker, else the stored speaker, else null, with "" counting as missing |
| Pipeline.SourceMetaPerSpeech | src/lib/pipeline.ts:237-247 | one attribution per topic speech, in order, carrying its fields and the title of the first fetched row with its granule, or "" |
| Pipeline.CollaborationScore | src/lib/pipeline.ts:263 | a score is stored exactly when the scout ranked the topic |
| Pipeline.CollaborationReason | src/lib/pipeline.ts:264 | a reason is stored exactly when the scout ranked the topic with a non-empty reason |
| CronBills.UnsetSecretRejectsAll | src/app/api/cron/bills/route.ts:19-24 | with the secret unset or empty, no header is accepted, not even "Bearer undefined" or "Bearer " |
| CronBills.Get | src/app/api/cron/bills/route.ts:18-194 | a wrong header is rejected with nothing changed and no call made; otherwise the reply, the bill and link tables and the calls are those of the route's specification, run over every distinct brief slug exactly when the harvest completed with a saved bill, and no slug otherwise |
| CronBills.HarvestLists | src/app/api/cron/bills/route.ts:35-137 | the type loop is exactly the harvest fold over "hr" then "s", stopping at the first list that cannot be fetched |
| CronBills.HarvestNext | src/app/api/cron/bills/route.ts:35-46 | unless an earlier list failed, the next type's list is read and its advanced bills are evaluated in order |
| CronBills.HarvestStaysFailed | src/app/api/cron/bills/route.ts:187-193 | once a list fetch fails, the types after it change nothing |
| CronBills.HarvestKeeps | src/app/api/cron/bills/route.ts:35-137 | the harvest keeps one row per natural key and `saved` within `evaluated` |
| CronBills.EvaluateType | src/app/api/cron/bills/route.ts:46-136 | the bill loop is exactly the fold of one bill's evaluation over the advanced bills |
| CronBills.EvaluateAllKeeps | src/app/api/cron/bills/route.ts:46-136 | that fold keeps the table valid and the counters consistent, and counts every bill as evaluated |
| CronBills.EvaluateBill | src/app/api/cron/bills/route.ts:47-135 | the loop body is exactly one bill's evaluation: the lookup, the freshness check, the fetches, then the scoring and upsert |
| CronBills.KeepIfWorth | src/app/api/cron/bills/route.ts:83-129 | the fetched bill is scored, and unless it is one-sided and not enacted it is upserted under its natural key and queued for matching |
| CronBills.EvaluateKeeps | src/app/api/cron/bills/route.ts:47-135 | one bill keeps one row per natural key and the counters consistent; when it is not saved, the table is unchanged |
| CronBills.FreshBillSkipped | src/app/api/cron/bills/route.ts:57-60 | a stored bill updated less than 24 hours ago is counted as evaluated and nothing else happens |
| CronBills.SaveIsUpsert | src/app/api/cron/bills/route.ts:117-129 | a saved bill was fetched and is worth keeping; it updates its stored row or inserts a new one, and its key is queued for matching |
| CronBills.UpsertKeeps | src/app/api/cron/bills/route.ts:117-121 | updating the row of the natural key, or inserting when there is none, keeps one row per natural key |
| CronBills.Existing | src/app/api/cron/bills/route.ts:52-55 | the stored row for (119, type, number), and `None` exactly when there is none |
| CronBills.CountParties | src/app/api/cron/bills/route.ts:70-81 | the tally loops compute the reference tally: cosponsors first, then the sponsor |
| CronBills.CountOf | src/app/api/cron/bills/route.ts:71-75 | a party's count never exceeds the number of cosponsors |
| CronBills.ThreePartiesAtMostAll | src/app/api/cron/bills/route.ts:70-75 | the three party counts add up to at most the number of cosponsors |
| CronBills.TallyCountsSponsorOnce | src/app/api/cron/bills/route.ts:70-81 | each tally is that party's cosponsors plus one for a sponsor of that party; other parties count nowhere |
| CronBills.OneSidedBillNeedsEnactment | src/app/api/cron/bills/route.ts:83-87 | with no Republican or no Democratic signer, a bill is kept if and only if it is enacted |
| CronBills.Worth | src/app/api/cron/bills/route.ts:83-87 | an enacted bill is always kept, and any other bill exactly when its bipartisan score is not zero |
| CronBills.CongressGovUrl | src/app/api/cron/bills/route.ts:91-93 | the congress.gov page of the 119th Congress, followed by the chamber segment, a slash and the number |
| CronBills.OrNull | src/app/api/cron/bills/route.ts:102-111 | a non-empty value is kept, and "" or a missing value becomes null |
| CronBills.PolicyAreaOf | src/app/api/cron/bills/route.ts:90 | the subjects' policy area when it is non-empty, else the detail's, else null |
| CronBills.Segment | src/app/api/cron/bills/route.ts:91-93 | "hr" maps to "house-bill", "s" to "senate-bill", and any other type to itself |
| CronBills.BillKeyRoundTrip | src/app/api/cron/bills/route.ts:152 | round trip: a key built as type-number (line 125) splits back into that type and number |
| CronBills.SplitKey | src/app/api/cron/bills/route.ts:152 | the type is the text before the first dash; a number exists exactly when there is a dash, and it is the dash-free text that follows it |
| CronBills.SplitDropsThirdPart | src/app/api/cron/bills/route.ts:152 | a key with a second '-' loses the part after it, as destructuring `split` does |
| CronBills.MatchNewBills | src/app/api/cron/bills/route.ts:139-186 | the matching tail behaves as its specification: no slug query and no call without new bills; otherwise the slugs are every distinct brief slug, and with some slug one matcher call and the links it yields |
| CronBills.MatcherSeesEverySlug | src/app/api/cron/bills/route.ts:139-149 | with saved bills and at least one brief, exactly one matcher request is sent, and it names every brief slug |
| CronBills.MatchBills | src/app/api/cron/bills/route.ts:149 | the matcher call logs one request exactly when bills and slugs are both non-empty, and returns the matcher's result |
| CronBills.LinkMatches | src/app/api/cron/bills/route.ts:151-171 | the match loop is exactly the link fold: unknown keys are skipped; the link table and the count are the fold's |
| CronBills.LinkSlugs | src/app/api/cron/bills/route.ts:160-170 | the slug loop inserts every slug's link with "on conflict do nothing" and counts every slug |
| CronBills.InsertLinksKeeps | src/app/api/cron/bills/route.ts:160-170 | existing links keep their confidence; afterwards the bill links to every slug; nothing else is added |
| CronBills.LinkCountIgnoresExisting | src/app/api/cron/bills/route.ts:166 | `topicLinksCreated` does not depend on which links already existed |
| CronBills.DuplicateLinkCounted | src/app/api/cron/bills/route.ts:162-166 | re-sending an existing link changes nothing in the table but is still counted |
| CronBills.RunCountersConsistent | src/app/api/cron/bills/route.ts:180-186 | in every reply `billsSaved` ≤ `billsEvaluated`, `billsSaved` is the number of bills queued for matching, and the table keeps one row per natural key |
| CronBills.RunKeepsHarvest | src/app/api/cron/bills/route.ts:139-186 | the matching step changes neither the bills nor the harvest's counters |

## Left out

- The language-model request (`src/lib/claude.ts`) is an oracle `respond` from (role, prompt) to a response. The SDK client, API key, model name, token limits and temperature are not part of the contracts. `Claude.MaxTokens` and `Claude.TemperatureTenths` record the per-agent settings.
- Each agent's system prompt is foreign text. It is represented by the agent's `Role` tag.
- `JSON.parse` is a library function. Each agent takes a parser `string -> Option<T>` over the extracted span, and `None` stands for a parse that throws. A reply that parses to an object of the wrong shape is not modelled: the typed parse result assumes the shape.
- The embedded-JSON round trip holds only when the prose after the object has no '}'. The code's greedy pattern then widens the span (`ResponseParser.TrailingBraceWidensSpan`), so the model follows the code and not the stronger claim.
- Network fetchers are inputs. These are `fetchDailySpeechGranules`, `fetchGranuleHtml`, `fetchRecentBills`, `fetchBillDetail`, `fetchBillCosponsors` and `fetchBillSubjects`. Each is given as the value it returned, or as `None` when it threw.
- The granule pagination loop in `src/lib/govinfo.ts` is not modelled. Its termination depends on the server's paging tokens.
- The three bill fetches of `Promise.all` are one fetch of the combined facts, which fails as a whole.
- Steelman concurrency: `Promise.all` sends the red and blue requests together. The model logs the red call and then the blue call. Both are always sent, and the stage rejects if either fails.
- The database is in-memory tables: `Db.Store` and `Db.BillStore`. Drizzle, SQL, `date_trunc` and Neon are not modelled, and neither is the lazy connection proxy of `src/lib/db/index.ts`.
- Query failures are modelled only where the source catches them or where the model has an input for them. These are the feed and sitemap queries, the fetches and the types loop. Throws from other queries are not modelled:
  - `findMany`, `update` and `insert` in `runPipeline`;
  - `findFirst` and `insert` in the ingest loop;
  - the bills lookups and upserts;
  - the distinct-slug query;
  - a link insert that throws inside its own `try`, which would not be counted.
- The order in which the database returns rows is an input. `Db.Store.SpeechesBetween` promises only the set of rows, and the slug list is the list the query returned.
- Dates and time:
  - the day window that `setHours` computes in the server's local time zone is given as its two ends;
  - the ingest route's target day (`?date=` or yesterday) is an input;
  - `Date.now()` in the bills route is read once per run (`Env.now`) instead of once per bill;
  - `now()` timestamps in `processTopic` come from a `Clock` indexed by the message's position;
  - `toUTCString` and `toISOString` are parameters or inputs.
- Congress.BipartisanHundredths: computes min/max × 100 exactly and rounds halves up. The source rounds a floating-point quotient, which can fall just below an exact half (29/200 gives 14.4999…, which rounds to 14). The model therefore agrees with the source only off exact halves.
- The `bipartisanScore` column is stored as the real number. The source stores `String(score)`.
- Strings are sequences of characters. JavaScript lengths count UTF-16 code units, so the 200- and 3000-character cut-offs agree with the source only for text inside the Basic Multilingual Plane.
- `toLowerCase` and `toUpperCase` are modelled on ASCII letters only.
- Congress.FormatBillId: the lookup is on the eight listed keys only. In the source, a type such as "constructor" would hit an inherited property of the object literal.
- CronBills.SplitKey: a matched key with no '-' gives no number, and the model skips that match. The source would query with an undefined number.
- The proof page's three bill queries, its `parseFloat` filter and its rendering are not modelled. `getLinkedTopics` is the part in scope.
- The other pages and components are not modelled, and neither is the `JsonLd` component that embeds the schema objects.
- Not modelled in the routes:
  - response headers, `revalidate`, HTTP status codes beyond the reply constructors, and `NextResponse` bodies;
  - console logging;
  - the 100 ms delay between bills.
- The in-place sort of `rankedTopics` (`src/lib/pipeline.ts:72`) is modelled by handing the sorted ranking on to `processTopic`, which is what the source's later `find` sees. Aliasing itself is not modelled.
- `runPipeline` reads every speech of the day, processed or not, despite its comment. The model follows the code.
- OpportunityScout.ScoutEntry: the scout's score is an integer. The source keeps whatever JSON number the reply holds, so a fractional score such as 7.5, its place in the `b.score - a.score` ordering and its printing are not modelled.
- Pipeline.CollaborationScore: prints the score with `IntToString`, which matches `${score}/10` only for integer scores. The same holds for the scout note in the transcript (`Pipeline.ScoutNote`).
- Db.BillStore.InsertLink: the conflict target of "on conflict do nothing" is taken to be the (bill id, topic slug) pair. The table schema is not part of this model, so that unique key is an assumption.

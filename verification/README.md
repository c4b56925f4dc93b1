# A Dafny model of the case-processing pipeline

This project models the core of a law-firm case assistant, as a Dafny 4 model with its proofs. The assistant reads the free text of a case file and does the following:

- it pulls case metadata out of the text;
- it detects which kinds of work the case needs (records analysis, client communication, legal research, scheduling, evidence organisation);
- it dispatches one AI agent per kind of work;
- it sanitises what each agent returns, and folds the outputs into a scored result;
- it composes a one-paragraph attorney brief from that result;
- separately, a calendar service proposes free call slots.

Each module follows one source file:

| module | file | what it holds |
|---|---|---|
| `Orchestrator` | `orchestrator.dfy` | Task detection over the lower-cased text (keyword patterns per category, counts, confidence, the stable priority sort and the two-task fallback). The workflow that maps tasks to agents, with first-occurrence deduplication. The sequential recording of each agent's outcome. The aggregation into actions, a mean confidence and a `" \| "`-joined summary. The whole `process_case_text` run, including its failure dict. |
| `Patterns` | `patterns.dfy` | The fragment of `re.search` the detection keywords use: literals, `.*` and `.?`, both of which stay on one line. |
| `Brief` | `brief.dfy` | The attorney brief: overview, per-agent findings in a fixed order, action summary, and the error sentence when composing raises. |
| `ContextEnricher` | `context.dfy` | First-match metadata extraction: client, case number, case type, insurer, incident date, and the deduplicated medical providers. |
| `RecordsWrangler`, `LegalResearcher`, `EvidenceSorter`, `VoiceScheduler` | `records.dfy`, `legal.dfy`, `evidence.dfy`, `voice.dfy` | The agents' output sanitisers. Also the fence stripping before JSON parsing, the date validator, phone standardisation, the e-mail check, and the synthetic precedent table. |
| `Calendar` | `calendar.dfy` | `CalendarService`, a class whose `service` field `Authenticate` sets. Its availability rule, and the nested slot search. |
| `Json`, `Text`, `Seqs`, `Outcomes` | `json.dfy`, `text.dfy`, `seqs.dfy`, `outcomes.dfy` | The dynamic values agents return, with the Python built-ins applied to them. Python's string helpers. The stable sort and first-occurrence deduplication. The exceptions pure code can raise, modelled as `Result` values. |

Code that builds its result step by step is modelled as methods with loops:

- the detection loops, the workflow filter and the agent fold;
- the aggregation and summary;
- the sanitisers, the provider scan and the slot search.

Each such method is proved equal to a specification function. The properties are proved as lemmas about those functions. Pure branching code is modelled as functions.

Python exceptions that the pure code can raise on malformed agent payloads are `Err` values carrying the exception's message. Examples are `.get` on a list, `len` of a number, and `sum` over strings. The handlers in the source turn them into the failure dict or the brief's error sentence, and so do the handlers here.

Some choices of the code that shape the model:

- A task's confidence is `min(matches / len(keywords), 1.0)`.
- A task's match count is the number of its patterns that occur in the text, each counted once.
- When no category matches, detection itself returns two default tasks. The workflow builder has no fallback of its own.
- The overall confidence is the mean of the `confidence_score` values of available outputs that carry one. It is 0.0 when there are none, which can happen even when agents succeeded.
- The input text is not checked up front. Any exception in the steps yields the failure dict.

## Model

| member | source | states |
|---|---|---|
| Json.Len | backend/postprocessors/brief_generator.py:235 | `len(v)` succeeds exactly on strings, lists and dicts (a TypeError otherwise) and gives a list its item count |
| Json.Get | backend/agents/records_wrangler.py:214 | `d.get(k, default)` is the value at k after `setdefault(k, default)`: the stored value when k is present, the default otherwise |
| Json.Truthy | backend/postprocessors/brief_generator.py:125 | truthiness: a string, list or dict is true exactly when its `len` is not zero |
| Json.TypeName | backend/orchestrator/orchestrator_core.py:450 | the type name in a TypeError message is never empty |
| Json.TypeNameDistinct | backend/orchestrator/orchestrator_core.py:450 | two values get the same type name exactly when they are the same kind of value |
| Json.Render | backend/postprocessors/brief_generator.py:126 | interpolating a value gives the empty text exactly for the empty string |
| Json.ToFloat | backend/agents/records_wrangler.py:246 | `float(v)`: a number is kept, True and False give 1.0 and 0.0, a digit string gives its value, a string blank after stripping gives nothing, and None, lists and dicts raise (the string grammar is ParseFloat and ParseUnsigned) |
| Json.NoUnderscores | backend/agents/records_wrangler.py:246 | dropping the grouping underscores leaves only digits, and leaves a digit string unchanged |
| Json.ParseDecimal | backend/agents/records_wrangler.py:246 | a digit string reads as its value, and whatever is read is non-negative and comes from a non-empty text |
| Json.ParseUnsigned | backend/agents/records_wrangler.py:246 | a digit string reads as its value, the empty text as nothing; "inf"/"infinity" are exactly the spellings of inf and "nan" that of nan, and no unsigned text reads as -inf |
| Json.Negate | backend/agents/records_wrangler.py:246 | a minus sign flips a finite value, swaps the infinities and keeps NaN |
| Json.ParseFloat | backend/agents/records_wrangler.py:246 | `float(s)` reads nothing from a text that is blank once stripped |
| Json.ParseFloatSpecial | backend/agents/records_wrangler.py:246 | `float` gives inf for "inf"/"infinity" with an optional "+", -inf for their "-" forms and nan for "nan" with any sign, ignoring case and surrounding whitespace |
| Json.MinusSpecial | backend/agents/records_wrangler.py:246 | a text starting with "-" is "-inf", "-infinity" or "-nan" exactly when its unsigned rest is inf, infinity or nan |
| Json.PlusSpecial | backend/agents/records_wrangler.py:246 | the same for a text starting with "+" |
| Json.ParseFloatDigits | backend/agents/records_wrangler.py:246 | a digit string reads as its value |
| Json.DigitsStripped | backend/agents/records_wrangler.py:246 | a digit string has no surrounding whitespace to strip |
| Json.ToFloatOfNumeral | backend/agents/records_wrangler.py:246 | `float(str(n))` is n |
| Json.ExponentExample | backend/agents/records_wrangler.py:246 | `float("1e-1")` is 0.1 |
| Json.ExponentParts | backend/agents/records_wrangler.py:246 | the unsigned numeral "1e-1" reads as 0.1 |
| Json.OneDigit | backend/agents/records_wrangler.py:246 | "1" reads as 1 and "-1" as the exponent -1 |
| Json.UnderscoreExample | backend/agents/records_wrangler.py:246 | `float("1_000")` is 1000 |
| Json.Clamp01 | backend/agents/records_wrangler.py:247 | `max(0.0, min(1.0, x))` lies in [0, 1], keeps x when x is already there, and gives the nearest bound otherwise |
| Json.Score | backend/agents/records_wrangler.py:245-249 | the sanitisers' confidence lies in [0, 1]: a finite value is clamped, -inf gives 0.0, inf and nan give 1.0, and the fallback is used when `float` raises |
| Json.ScoreIdempotent | backend/agents/records_wrangler.py:245-249 | sanitising a confidence that was already sanitised changes nothing |
| Json.SetDefaults | backend/agents/records_wrangler.py:224-231 | `setdefault` on a dict adds exactly the missing default keys, keeps every existing value and leaves non-dicts alone |
| Json.SetDefaultsIdempotent | backend/agents/records_wrangler.py:224-231 | applying the defaults twice is the same as applying them once |
| Json.ListOr | backend/agents/records_wrangler.py:221-222 | a value that is not a list is replaced by the empty list; a list is kept |
| Json.FillAll | backend/agents/records_wrangler.py:224-231 | the filled list has the same length, and item i is item i with the defaults applied |
| Json.FillAllIdempotent | backend/agents/records_wrangler.py:224-231 | filling an already filled list changes nothing |
| Json.FillEach | backend/agents/records_wrangler.py:224-231 | the in-place `for ... setdefault` loop leaves the list equal to FillAll of its input |
| Seqs.Insert | backend/orchestrator/orchestrator_core.py:214 | inserting into the sorted list adds one element and keeps the multiset of elements |
| Seqs.InsertSorted | backend/orchestrator/orchestrator_core.py:214 | insertion keeps a list sorted in descending key order |
| Seqs.SortDesc | backend/orchestrator/orchestrator_core.py:214 | `sort(key=..., reverse=True)` yields a permutation of its input in descending key order |
| Seqs.InsertWithKey | backend/orchestrator/orchestrator_core.py:214 | insertion keeps the relative order of the elements that share a key |
| Seqs.WithKeyPassed | backend/orchestrator/orchestrator_core.py:214 | an element with a higher key does not disturb the order among elements of a lower key |
| Seqs.SortStable | backend/orchestrator/orchestrator_core.py:214 | the sort is stable: for every key, the elements with that key keep their input order |
| Seqs.InsertRanked | backend/orchestrator/orchestrator_core.py:214 | inserting an element that came first in the input keeps ties ordered by input position |
| Seqs.RankedCons | backend/orchestrator/orchestrator_core.py:214 | a head ranked before every element of a ranked tail gives a ranked list |
| Seqs.SortRanked | backend/orchestrator/orchestrator_core.py:214 | after the sort, equal keys appear in input order and higher keys first |
| Seqs.FirstIndex | backend/orchestrator/orchestrator_core.py:261-267 | the first position whose key is k: its key is k and no earlier key is |
| Seqs.FirstIndexPrefix | backend/orchestrator/orchestrator_core.py:261-267 | a key already present in a prefix has the same first position in the whole list |
| Seqs.KeysOfAppend | backend/orchestrator/orchestrator_core.py:265-266 | appending an element adds exactly its key to the set of keys seen |
| Seqs.DedupBy | backend/orchestrator/orchestrator_core.py:261-269 | first-occurrence deduplication keeps exactly the set of keys of its input |
| Seqs.DedupDistinct | backend/orchestrator/orchestrator_core.py:261-269 | no two elements of the deduplicated list share a key |
| Seqs.DedupFirstInOrder | backend/orchestrator/orchestrator_core.py:261-269 | each kept element is the first occurrence of its key, and kept elements follow the input order |
| Seqs.DedupElements | backend/orchestrator/orchestrator_core.py:261-269 | every kept element comes from the input |
| Seqs.DedupExtends | backend/utils/context_enricher.py:297-340 | deduplicating more input only appends: the earlier result is a prefix and the new elements come from the new input |
| Text.Lower | backend/orchestrator/orchestrator_core.py:150 | `str.lower()` keeps the length and lower-cases each character (ASCII letters only) |
| Text.LowerAppend | backend/utils/context_enricher.py:312 | lower-casing distributes over concatenation |
| Text.LowerIdempotent | backend/utils/context_enricher.py:312 | lower-casing twice is lower-casing once |
| Text.LStrip | backend/agents/records_wrangler.py:195 | the left strip is a suffix of its input, starts with no whitespace, and drops only whitespace |
| Text.RStrip | backend/agents/records_wrangler.py:195 | the right strip is a prefix of its input, ends with no whitespace, and drops only whitespace |
| Text.Strip | backend/agents/records_wrangler.py:195 | `str.strip()` neither starts nor ends with whitespace and is a slice of its input (the slice itself is StripSlice) |
| Text.StripSlice | backend/agents/records_wrangler.py:195 | the stripped text is the slice between the leading and the trailing whitespace: only whitespace at the ends is dropped |
| Text.IndexFrom | backend/agents/records_wrangler.py:195 | the search finds the leftmost occurrence at or after the start, or reports that there is none |
| Text.IndexOf | backend/agents/records_wrangler.py:194-195 | `str.find` returns the leftmost occurrence, or none when the substring does not occur |
| Text.ContainsIff | backend/agents/records_wrangler.py:194 | `sub in s` holds exactly when `sub` occurs at some position |
| Text.NatToString | backend/postprocessors/brief_generator.py:239 | `str(n)` of a count is a non-empty digit string whose value is n, with no leading zero unless n is 0 |
| RecordsWrangler.BeforeFence | backend/agents/records_wrangler.py:195 | `split("```")[0]` is a prefix of its input that holds no fence |
| RecordsWrangler.BeforeJsonFence | backend/agents/records_wrangler.py:195 | `split("```json")[1]` ends at the next "```json": a prefix of the text after the opening fence that holds no "```json" and is followed by one when the text has one |
| RecordsWrangler.NoOccurrenceBefore | backend/agents/records_wrangler.py:195 | the text before the first fence contains no fence |
| RecordsWrangler.NoOccurrenceInside | backend/agents/records_wrangler.py:195 | a slice of a text without a fence has no fence either |
| RecordsWrangler.StripInside | backend/agents/records_wrangler.py:195 | stripping returns a slice of its input |
| RecordsWrangler.StripKeepsNoOccurrence | backend/agents/records_wrangler.py:195 | stripping cannot create a fence |
| RecordsWrangler.JsonFenceIsFence | backend/agents/records_wrangler.py:194-196 | a text holding "```json" also holds "```", so the second branch only handles plain fences |
| RecordsWrangler.StripFences | backend/agents/records_wrangler.py:193-197 | a reply without a fence is parsed as it is, and the extracted body never holds a fence; after "```json" the text is cut at the next "```json" before the next "```" (its exact text is StripFencedBlock, StripPlainFencedBlock and JsonFenceCutsFirst) |
| RecordsWrangler.StripFencesIdempotent | backend/agents/records_wrangler.py:193-197 | extracting from an already extracted body changes nothing |
| RecordsWrangler.StripFencedBlock | backend/agents/records_wrangler.py:194-195 | for `pre + "```json" + body + "```" + post` with no "```json" in pre, the result is the trimmed body, provided body holds no fence and does not end with a backquote and post does not start with one (otherwise the source itself cuts elsewhere) |
| RecordsWrangler.JsonFenceAfterClose | backend/agents/records_wrangler.py:195 | after a clean body and its closing fence, the next "```json" is that fence itself or lies wholly after it |
| RecordsWrangler.BeforeFenceOfPrefix | backend/agents/records_wrangler.py:195 | cutting `body + "```" + rest` anywhere past that fence leaves body before the first fence |
| RecordsWrangler.JsonFenceCutsFirst | backend/agents/records_wrangler.py:194-195 | "```json{}`````json" gives "{}``": the cut at the second "```json" keeps the backquotes before it, which `json.loads` then rejects |
| RecordsWrangler.CutAtSecondJsonFence | backend/agents/records_wrangler.py:195 | the text after the opening fence of that reply is cut at its second "```json" |
| RecordsWrangler.BackquotesKept | backend/agents/records_wrangler.py:195 | two backquotes are no fence, so stripping and the "```" cut keep them |
| RecordsWrangler.StripPlainFencedBlock | backend/agents/records_wrangler.py:196-197 | with no "```json" anywhere, `pre + "```" + body + "```" + post` gives the trimmed body when pre and body hold no fence and do not end with a backquote |
| RecordsWrangler.FencedBody | backend/agents/records_wrangler.py:195 | the trimmed text before the next fence holds no fence |
| RecordsWrangler.IndexOfFirst | backend/agents/records_wrangler.py:195 | an occurrence with none before it is the one `split` cuts at |
| RecordsWrangler.NoFenceInPrefix | backend/agents/records_wrangler.py:194-197 | no fence starts inside a prefix that holds none, even one overlapping the fence after it, when a plain-fence prefix does not end with a backquote |
| RecordsWrangler.BeforeFenceOf | backend/agents/records_wrangler.py:195 | `split("```")[0]` of `body + "```" + rest` is body |
| RecordsWrangler.OpenedAfter | backend/agents/records_wrangler.py:194-197 | the first opening fence of `pre + fence + rest` ends right after pre, and the text after it is rest |
| RecordsWrangler.ValidateOutput | backend/agents/records_wrangler.py:202-251 | exactly the four output keys; both record lists are lists whose dicts carry their defaults; the action is passed through; the confidence is the clamped score |
| LegalResearcher.ValidateOutput | backend/agents/legal_researcher.py:200-242 | exactly the four output keys; `relevant_cases` is the first min(5, n) filled cases in order; the confidence is the clamped score |
| LegalResearcher.SyntheticPrecedents | backend/agents/legal_researcher.py:245-303 | the list for the lower-cased case type, the negligence list for an unknown type; always two named, cited cases |
| LegalResearcher.PrecedentsIgnoreJurisdiction | backend/agents/legal_researcher.py:245-303 | the jurisdiction argument has no effect on the result |
| LegalResearcher.PrecedentsIgnoreCase | backend/agents/legal_researcher.py:303 | case types that differ only in letter case get the same precedents |
| Patterns.Search | backend/orchestrator/orchestrator_core.py:197 | `re.search(p, t)` succeeds exactly when some position starts a match of the pattern (the reference semantics `Found`) |
| Patterns.ScanSpec | backend/orchestrator/orchestrator_core.py:197 | trying `.*` position by position succeeds exactly when the literal after it occurs, with the rest matching, on the same line |
| Patterns.AnyOnLineSound | backend/orchestrator/orchestrator_core.py:197 | a hit of the `.*` scan is a match of the reference semantics |
| Patterns.AnyOnLineSpec | backend/orchestrator/orchestrator_core.py:197 | for a `.*` segment the matcher and the reference semantics agree |
| Patterns.AtMostOneComplete | backend/orchestrator/orchestrator_core.py:166 | every reference match of `.?` is found by trying the literal at the position and one character later |
| Patterns.AtMostOneSound | backend/orchestrator/orchestrator_core.py:166 | what the `.?` matcher finds is a reference match |
| Patterns.AtMostOneSpec | backend/orchestrator/orchestrator_core.py:166 | for a `.?` segment the matcher and the reference semantics agree |
| Patterns.RestSpec | backend/orchestrator/orchestrator_core.py:197 | matching the segments from a position agrees with the reference semantics for every pattern shape |
| Patterns.SearchFromFound | backend/orchestrator/orchestrator_core.py:197 | the search from position i succeeds exactly when a match starts at some position at or after i |
| Patterns.WordFound | backend/orchestrator/orchestrator_core.py:174 | a plain word pattern such as `precedent` is found exactly when the word is a substring |
| Patterns.NearAtFound | backend/orchestrator/orchestrator_core.py:156 | `a` followed later on the same line by `b` is a match of `a.*b` |
| Patterns.NearFound | backend/orchestrator/orchestrator_core.py:156 | `a.*b` is found exactly when `a` occurs and `b` starts after it with no line feed in between |
| VoiceScheduler.Digits | backend/agents/voice_bot_scheduler.py:273 | `re.sub(r'\D', '', phone)` leaves only digits and never lengthens the text |
| VoiceScheduler.DigitsAppend | backend/agents/voice_bot_scheduler.py:273 | removing non-digits distributes over concatenation |
| VoiceScheduler.DigitsDashed | backend/agents/voice_bot_scheduler.py:273 | a dash before a group of digits is dropped and the group is kept |
| VoiceScheduler.DigitsOfDigits | backend/agents/voice_bot_scheduler.py:273 | a text made only of digits is left unchanged |
| VoiceScheduler.UsNumber | backend/agents/voice_bot_scheduler.py:276-281 | `+1-XXX-XXX-XXXX` built from ten digits has the US shape and carries exactly "1" followed by those digits |
| VoiceScheduler.UsNumberDigits | backend/agents/voice_bot_scheduler.py:276-278 | the f-string over the three slices of ten digits has the US shape and the digits "1" + d |
| VoiceScheduler.UsDigits | backend/agents/voice_bot_scheduler.py:278 | the digits of `+1-x-y-z` are "1" followed by x, y and z |
| VoiceScheduler.CountryDigits | backend/agents/voice_bot_scheduler.py:278 | the digits of `+1-x` are "1" followed by x |
| VoiceScheduler.TwoDashed | backend/agents/voice_bot_scheduler.py:278 | two dash-separated digit groups keep all their digits |
| VoiceScheduler.UsFormOf | backend/agents/voice_bot_scheduler.py:278 | three groups of 3, 3 and 4 digits joined as `+1-x-y-z` have the US shape |
| VoiceScheduler.StandardizePhoneNumber | backend/agents/voice_bot_scheduler.py:262-287 | ten digits give the US form with "1" prefixed; eleven digits starting with 1 give the US form with the same digits; more than eleven give `+CC-rest` with the same digits; anything else is returned unchanged |
| VoiceScheduler.LeadingOne | backend/agents/voice_bot_scheduler.py:279-281 | eleven digits starting with 1 are "1" followed by the other ten, so the 11-digit branch keeps every digit |
| VoiceScheduler.InternationalNumber | backend/agents/voice_bot_scheduler.py:282-284 | `+{d[:2]}-{d[2:]}` has the international shape, keeps every digit and is two characters longer |
| VoiceScheduler.StandardizeIdempotent | backend/agents/voice_bot_scheduler.py:262-287 | standardising an already standardised number changes nothing |
| VoiceScheduler.UsRebuilt | backend/agents/voice_bot_scheduler.py:279-281 | a number already in the US form is rebuilt exactly |
| VoiceScheduler.InternationalRebuilt | backend/agents/voice_bot_scheduler.py:282-284 | a number already in the international form (of more than eleven digits) is rebuilt exactly |
| VoiceScheduler.LastIndex | backend/agents/voice_bot_scheduler.py:301 | the last position of a character, or none when it does not occur |
| VoiceScheduler.IsEmailIff | backend/agents/voice_bot_scheduler.py:301 | the executable test agrees with the shape of the pattern: local part, one `@`, a domain, a final dot and at least two letters |
| VoiceScheduler.ValidateEmail | backend/agents/voice_bot_scheduler.py:290-306 | the result is either "" or the stripped, lower-cased address, and it is non-empty exactly when the stripped address has the email shape |
| VoiceScheduler.EmailOneAt | backend/agents/voice_bot_scheduler.py:301 | an address of that shape holds exactly one `@` |
| VoiceScheduler.ActionType | backend/agents/voice_bot_scheduler.py:238-242 | a string action becomes one of call, email, meeting, its lower-cased self when that is valid; a non-string raises |
| VoiceScheduler.ContactNumber | backend/agents/voice_bot_scheduler.py:245-246 | a falsy number is kept; a truthy string is standardised; a truthy non-string raises |
| VoiceScheduler.ContactEmail | backend/agents/voice_bot_scheduler.py:249-250 | a falsy email is kept; a truthy string is validated; a truthy non-string raises |
| VoiceScheduler.ValidateOutput | backend/agents/voice_bot_scheduler.py:215-259 | fails exactly when one of the three field checks raises; otherwise exactly the eight output keys, with the action, number and email normalised, the confidence clamped and the other four fields passed through |
| EvidenceSorter.ZFill2 | backend/agents/evidence_sorter.py:362 | `zfill(2)` of a one- or two-digit numeral has two digits and the same value, and leaves two digits alone |
| EvidenceSorter.DigitRun | backend/agents/evidence_sorter.py:341-343 | a `\d{1,n}` run taken from a position has at most n characters, all of them digits |
| EvidenceSorter.DigitRunMaximal | backend/agents/evidence_sorter.py:343 | the run is greedy: it stops early only at a non-digit or at the end of the text |
| EvidenceSorter.FixedAt | backend/agents/evidence_sorter.py:341-342 | a fixed-width match such as `(\d{4})-(\d{2})-(\d{2})` yields three digit groups of exactly those widths, the first taken at the position |
| EvidenceSorter.GroupsAt | backend/agents/evidence_sorter.py:340-344 | a match of any of the three date patterns yields groups of the widths the patterns allow |
| EvidenceSorter.ShortAt | backend/agents/evidence_sorter.py:343 | a match of `(\d{1,2})/(\d{1,2})/(\d{2,4})` yields groups of the allowed widths |
| EvidenceSorter.ShortShaped | backend/agents/evidence_sorter.py:343 | groups of 1-2, 1-2 and 2-4 digits have an allowed shape |
| EvidenceSorter.FirstMatch | backend/agents/evidence_sorter.py:347 | `re.search` returns a position at or after the start where the pattern matches |
| EvidenceSorter.FirstMatchLeftmost | backend/agents/evidence_sorter.py:347 | no position before the one returned matches the pattern |
| EvidenceSorter.FirstMatchNoneSound | backend/agents/evidence_sorter.py:347 | when the search finds nothing, no position matches |
| EvidenceSorter.FirstMatchNone | backend/agents/evidence_sorter.py:347 | when no position matches, the search finds nothing |
| EvidenceSorter.IsoDateOf | backend/agents/evidence_sorter.py:361-362 | a valid calendar date written `YYYY-MM-DD` from its digit groups is an ISO date naming that year, month and day |
| EvidenceSorter.SplitDate | backend/agents/evidence_sorter.py:362 | the year, month and day can be read back from `f"{year}-{mm}-{dd}"` |
| EvidenceSorter.IsoDateParts | backend/agents/evidence_sorter.py:362 | a text split into a valid year, month and day by dashes is an ISO date |
| EvidenceSorter.DigitsValueTwo | backend/agents/evidence_sorter.py:361 | `int` of two digits is ten times the first plus the second |
| EvidenceSorter.DigitsValueFour | backend/agents/evidence_sorter.py:361 | `int` of four digits is a hundred times its first two plus its last two |
| EvidenceSorter.CenturyYear | backend/agents/evidence_sorter.py:355 | prefixing "20" to a two-digit year adds 2000 to its value |
| EvidenceSorter.FromGroups | backend/agents/evidence_sorter.py:350-362 | a four-digit first group gives year, month and day from groups 1, 2, 3; otherwise month and day are groups 1 and 2 and the year is group 3, plus 2000 when it has two digits; nothing exactly when `datetime` rejects that date, and otherwise the ISO text naming it |
| EvidenceSorter.ShapeDate | backend/agents/evidence_sorter.py:347-362 | a pattern gives a date only when it matches, and the date is ISO |
| EvidenceSorter.TryShapesFirst | backend/agents/evidence_sorter.py:346-362 | the result is the date of the first pattern whose leftmost match is a valid date, when every earlier pattern gave none |
| EvidenceSorter.TryShapesNone | backend/agents/evidence_sorter.py:346-366 | "unknown" exactly when no pattern's leftmost match is a valid date |
| EvidenceSorter.TryShapes | backend/agents/evidence_sorter.py:346-366 | trying the patterns in order yields "unknown" or an ISO date (which one is TryShapesFirst and TryShapesNone) |
| EvidenceSorter.ValidateDateText | backend/agents/evidence_sorter.py:326-366 | `_validate_date` yields "unknown" for an empty text or any casing of "unknown", and otherwise the date of the first of the three patterns whose leftmost match is a valid date, or "unknown" |
| EvidenceSorter.FirstShapeWins | backend/agents/evidence_sorter.py:340-366 | for the three patterns of the source, the loop yields the first of the YYYY-MM-DD, MM/DD/YYYY and M/D/YY dates present, or "unknown" |
| EvidenceSorter.FirstShapeWinsOf | backend/agents/evidence_sorter.py:346-366 | for any three patterns, the loop yields the first date among theirs, or "unknown" |
| EvidenceSorter.LaterShapeWins | backend/agents/evidence_sorter.py:346-366 | when the first pattern gives nothing, the result is the first date among the other two |
| EvidenceSorter.LastShapeWins | backend/agents/evidence_sorter.py:346-366 | when the first two give nothing, the result is the third pattern's date, or "unknown" |
| EvidenceSorter.ValidateDate | backend/agents/evidence_sorter.py:336 | a falsy or string date is normalised to "unknown" or an ISO date; a truthy non-string raises |
| EvidenceSorter.NormalisedDateFixed | backend/agents/evidence_sorter.py:326-366 | an ISO date with a four-digit year is left unchanged, so normalising twice is normalising once |
| EvidenceSorter.ShortYearGroups | backend/agents/evidence_sorter.py:343 | "3/4/24" matches the short pattern with groups 3, 4 and 24 |
| EvidenceSorter.ShortYearDate | backend/agents/evidence_sorter.py:354-362 | the groups 3, 4 and 24 give "2024-03-04" (the general two-digit-year rule is FromGroups) |
| EvidenceSorter.ShortYearExample | backend/agents/evidence_sorter.py:326-366 | "3/4/24" is normalised to "2024-03-04" |
| EvidenceSorter.NoFixedMatch | backend/agents/evidence_sorter.py:341-342 | a text shorter than eight characters matches neither fixed-width pattern |
| EvidenceSorter.NotYearFirstAt | backend/agents/evidence_sorter.py:341 | a non-digit among the first four characters rules out a `YYYY-` match there |
| EvidenceSorter.FallThroughYearFirst | backend/agents/evidence_sorter.py:341 | in "01/02/2024-13-01" the ISO pattern first matches "2024-13-01" |
| EvidenceSorter.FallThroughMonthFirst | backend/agents/evidence_sorter.py:342 | the same text matches `MM/DD/YYYY` at its start |
| EvidenceSorter.MonthFirstDate | backend/agents/evidence_sorter.py:358-362 | groups 01, 02, 2024 give "2024-01-02" |
| EvidenceSorter.FallThroughExample | backend/agents/evidence_sorter.py:346-366 | an invalid ISO match (month 13) is skipped and the next pattern's date "2024-01-02" is returned |
| EvidenceSorter.NormaliseEvidence | backend/agents/evidence_sorter.py:269-297 | items that are not dicts pass through unchanged, and dicts stay dicts |
| EvidenceSorter.Corrected | backend/agents/evidence_sorter.py:273-294 | the corrected dict holds exactly the original keys plus the six defaults |
| EvidenceSorter.CorrectedKeepsDate | backend/agents/evidence_sorter.py:276 | before the date step the date is the item's own date or "unknown" |
| EvidenceSorter.CorrectedKeepsOthers | backend/agents/evidence_sorter.py:273-294 | keys outside the six defaults are kept with their values |
| EvidenceSorter.CorrectedKeepsValid | backend/agents/evidence_sorter.py:273-294 | a description, a source, a valid type and a valid authenticity are kept as given |
| EvidenceSorter.CorrectedValid | backend/agents/evidence_sorter.py:281-294 | after the corrections the type is valid or "unknown" ("unknown" when invalid), the authenticity is valid ("unverified" when invalid), and the relevance is the sanitised score with fallback 0.5 |
| EvidenceSorter.NormaliseEvidenceRaises | backend/agents/evidence_sorter.py:297 | the loop body on a dict fails exactly when `_validate_date` of its date raises |
| EvidenceSorter.NormaliseEvidenceNormalises | backend/agents/evidence_sorter.py:273-297 | a dict that passes the loop body is a normalised item: valid type or "unknown", valid authenticity, relevance in [0, 1], date "unknown" or ISO |
| EvidenceSorter.NormaliseEvidenceKeeps | backend/agents/evidence_sorter.py:273-297 | the loop body adds only the default keys and keeps every other field and every value that was already valid |
| EvidenceSorter.NormaliseAll | backend/agents/evidence_sorter.py:269-297 | when the loop completes, item i is the loop body applied to input item i |
| EvidenceSorter.FirstNonDict | backend/agents/evidence_sorter.py:300-303 | the item on which `x.get` raises during the sort: none exactly when every item is a dict |
| EvidenceSorter.RelevanceKey | backend/agents/evidence_sorter.py:301 | the sort key of a normalised item is its relevance score |
| EvidenceSorter.SortedEvidence | backend/agents/evidence_sorter.py:261-303 | the evidence step succeeds exactly when the loop completes and every item is a dict |
| EvidenceSorter.NormalisedDicts | backend/agents/evidence_sorter.py:269-303 | the loop keeps items that are not dicts as they are, so the sort raises exactly when the input held one |
| EvidenceSorter.SortedEvidenceOrdered | backend/agents/evidence_sorter.py:300-303 | the sorted evidence is a permutation of the normalised items, all normalised, in non-increasing relevance |
| EvidenceSorter.NormalisedSorted | backend/agents/evidence_sorter.py:300-303 | any descending arrangement of the normalised items has non-increasing relevance |
| EvidenceSorter.NormalisedAt | backend/agents/evidence_sorter.py:269-297 | every item of a completed loop over dicts is normalised |
| EvidenceSorter.ScoresDescend | backend/agents/evidence_sorter.py:300-303 | sorting on the relevance key puts relevances in non-increasing order |
| EvidenceSorter.SortedEvidenceStable | backend/agents/evidence_sorter.py:300-303 | items of equal relevance keep their input order |
| EvidenceSorter.ValidateOutput | backend/agents/evidence_sorter.py:243-323 | fails exactly when the evidence step raises; otherwise exactly the four output keys, the evidence sorted, the missing list filled with its defaults, the action passed through and the confidence clamped |
| EvidenceSorter.SortEvidence | backend/agents/evidence_sorter.py:261-303 | the in-place normalise-then-sort computes SortedEvidence |
| EvidenceSorter.NormaliseEach | backend/agents/evidence_sorter.py:269-297 | the loop over the items computes NormaliseAll, stopping at the first item that raises |
| EvidenceSorter.NormaliseErrPersists | backend/agents/evidence_sorter.py:269-297 | once an item raises, the whole loop raises the same error |
| ContextEnricher.FirstHit | backend/utils/context_enricher.py:81-89 | the first-match loop reports "not found" (value None, confidence 0.0) exactly when no probe hits |
| ContextEnricher.FirstHitFirst | backend/utils/context_enricher.py:81-86 | the loop returns the value and confidence of the first probe that hits |
| ContextEnricher.FirstHitAt | backend/utils/context_enricher.py:81-86 | when probe i is the first to hit, the loop returns probe i's value and confidence |
| ContextEnricher.FirstHitFound | backend/utils/context_enricher.py:81-86 | a value is only returned when some probe hits with no earlier probe hitting |
| ContextEnricher.FirstTrimmed | backend/utils/context_enricher.py:81-89 | "not found" exactly when no pattern matches; otherwise the stripped capture of the first matching pattern with that pattern's confidence |
| ContextEnricher.TrimmedFirst | backend/utils/context_enricher.py:81-86 | the first matching pattern's stripped capture is what the loop returns |
| ContextEnricher.ClientName | backend/utils/context_enricher.py:61-89 | `_extract_client_name`: "not found" exactly when none of its patterns match; otherwise the stripped capture of the first that does, with its confidence |
| ContextEnricher.CaseNumber | backend/utils/context_enricher.py:92-123 | `_extract_case_number`: "not found" exactly when none of its patterns match; otherwise the stripped capture of the first that does, with its confidence |
| ContextEnricher.FirstCategory | backend/utils/context_enricher.py:171-178 | "not found" exactly when no category has a keyword in the text; otherwise the first such category's type and confidence |
| ContextEnricher.CaseType | backend/utils/context_enricher.py:126-178 | `_extract_case_type` returns the first category, in table order, with a keyword in the lower-cased text, and "not found" when there is none |
| ContextEnricher.MotorVehicleFirst | backend/utils/context_enricher.py:142-175 | a motor-vehicle keyword wins over every later category, such as the generic "negligence" |
| ContextEnricher.CasedOccurrence | backend/utils/context_enricher.py:200-206 | the case-insensitive search finds the insurer exactly when its lower-case name occurs in the lower-cased text, and returns the text's own casing of it |
| ContextEnricher.WithInsurance | backend/utils/context_enricher.py:228-230 | the name always mentions "insurance"; a name that already does is kept, any other gets " Insurance" appended |
| ContextEnricher.FirstKnown | backend/utils/context_enricher.py:200-208 | "not found" exactly when no known name occurs; otherwise the first known name in list order, in the text's casing, with confidence 0.95 |
| ContextEnricher.KnownInsurer | backend/utils/context_enricher.py:186-208 | the known-insurer pass over the eighteen names in list order, with confidence 0.95 |
| ContextEnricher.FirstInsurer | backend/utils/context_enricher.py:224-235 | the first pattern that matches gives its stripped capture, with " Insurance" added unless it mentions insurance, at that pattern's confidence; "not found" exactly when no pattern matches |
| ContextEnricher.InsurerFirst | backend/utils/context_enricher.py:224-232 | the earliest matching insurer pattern gives its stripped capture made to mention insurance, at that pattern's confidence |
| ContextEnricher.InsuranceCompany | backend/utils/context_enricher.py:181-235 | a known insurer takes precedence; failing one, the result is the pattern pass of FirstInsurer, whose name always mentions insurance; "not found" exactly when both passes fail |
| ContextEnricher.InsuranceFromPattern | backend/utils/context_enricher.py:181-235 | with no known insurer in the text, the first matching pattern names the company: its stripped capture with " Insurance" added unless present, at that pattern's confidence |
| ContextEnricher.DateHit | backend/utils/context_enricher.py:256-262 | a pattern yields a date only when the capture normalises to a non-empty date |
| ContextEnricher.FirstDate | backend/utils/context_enricher.py:255-262 | the date loop returns the first pattern whose capture normalises, with the loop's confidence, and "not found" when none does |
| ContextEnricher.IncidentDate | backend/utils/context_enricher.py:238-284 | the first label pattern whose capture normalises gives that date at 0.95; when no label pattern does, the first bare-date pattern that normalises gives its date at 0.70; "not found" exactly when no pattern of either list yields a date |
| ContextEnricher.DoctorName | backend/utils/context_enricher.py:311 | every doctor's name is prefixed "Dr. " |
| ContextEnricher.Named | backend/utils/context_enricher.py:309-339 | one candidate per match, in match order, each with the pattern's confidence |
| ContextEnricher.DoctorCandidates | backend/utils/context_enricher.py:309-311 | every doctor candidate's name starts with "Dr. " |
| ContextEnricher.CandidatesStep | backend/utils/context_enricher.py:309-310 | the candidates of one more pattern are the earlier candidates followed by that pattern's matches |
| ContextEnricher.ProvidersShape | backend/utils/context_enricher.py:287-345 | no two providers share a lower-cased name; the doctors come first, each prefixed "Dr. ", then the hospitals |
| ContextEnricher.DedupStep | backend/utils/context_enricher.py:312-314 | a candidate whose lower-cased name was seen changes nothing; any other is appended and its name added to `seen` |
| ContextEnricher.AdmitAll | backend/utils/context_enricher.py:310-314 | the loop over one pattern's matches keeps the list equal to the first-occurrence dedup of all candidates so far, and `seen` equal to its names |
| ContextEnricher.AdmitProbes | backend/utils/context_enricher.py:309-314 | the loop over a list of patterns extends the deduplicated list by exactly the new candidates not seen before |
| ContextEnricher.ExtractMedicalProviders | backend/utils/context_enricher.py:287-345 | `_extract_medical_providers` returns the first-occurrence dedup, by lower-cased name, of the doctor candidates followed by the hospital candidates |
| ContextEnricher.ProvidersJson | backend/utils/context_enricher.py:314 | one `{"value", "confidence"}` dict per provider, in order |
| ContextEnricher.ContextOf | backend/utils/context_enricher.py:45-50 | the context holds exactly the six fields, each set to its extractor's result |
| ContextEnricher.HoldsUnique | backend/utils/context_enricher.py:45-50 | the six fields determine the context completely |
| ContextEnricher.CaseContext | backend/utils/context_enricher.py:15-58 | `extract_case_context` holds the six extractors' results and nothing else |
| ContextEnricher.FillContext | backend/utils/context_enricher.py:45-50 | filling the dict field by field yields exactly the six results |
| ContextEnricher.ExtractCaseContext | backend/utils/context_enricher.py:15-58 | the imperative extraction yields the context of the six extractors |
| ContextEnricher.HospitalName | backend/utils/context_enricher.py:331-335 | a match containing "st." or "mt." gives its stripped text; any other gives a name ending " Hospital" |
| ContextEnricher.Candidates | backend/utils/context_enricher.py:309-340 | every candidate carries the confidence of one of the patterns |
| ContextEnricher.MedicalProviders | backend/utils/context_enricher.py:297-345 | no two providers returned share a lower-cased name |
| Calendar.Weekday | backend/utils/calendar_service.py:126 | `weekday()` is a day of the week, 0 (Monday) to 6 |
| Calendar.HourOf | backend/utils/calendar_service.py:130-131 | the hour of a time lies in 0..23 |
| Calendar.SlotStartParts | backend/utils/calendar_service.py:131 | `replace(hour=h, minute=0, ...)` on the day `offset` days ahead starts on that day, in hour h, on the hour |
| Calendar.DivModUnique | backend/utils/calendar_service.py:131 | a day and an hour are recovered uniquely from a minute count |
| Calendar.Free | backend/utils/calendar_service.py:80-98 | `check_availability` is true without a service, false on an HttpError, and otherwise true exactly when the event listing is empty |
| Calendar.Scan | backend/utils/calendar_service.py:122-153 | the loop only extends the slots found so far and, starting under five, returns at most five |
| Calendar.Slots | backend/utils/calendar_service.py:100-155 | at most five slots are returned |
| Calendar.ScanSound | backend/utils/calendar_service.py:122-155 | from any point of the nested loop, the slots returned number at most five, are in chronological order and are all acceptable |
| Calendar.SlotsSound | backend/utils/calendar_service.py:100-155 | every returned slot falls on a weekday within `days_ahead` days, starts on the hour within the preferred hours and not before now, lasts `duration_minutes` and is free; at most five, in chronological order |
| Calendar.ScanFails | backend/utils/calendar_service.py:130-131 | the loop can only fail with the ValueError of `replace` on an hour outside 0..23 |
| Calendar.SlotsFail | backend/utils/calendar_service.py:100-155 | `find_available_slots` raises only when the preferred hours reach outside 0..24 |
| Calendar.TimeParts | backend/utils/calendar_service.py:131 | a time is its day, its hour and its minutes within the hour |
| Calendar.SameDay | backend/utils/calendar_service.py:122-127 | a time on the day `offset` days ahead has that day's weekday |
| Calendar.BeyondHorizon | backend/utils/calendar_service.py:122 | a slot within the horizon starts before the point where the day loop ends |
| Calendar.DayDone | backend/utils/calendar_service.py:126-130 | skipping a weekend day or finishing the hours of a day passes over no acceptable slot |
| Calendar.HourDone | backend/utils/calendar_service.py:130-141 | moving to the next hour passes over no on-the-hour start other than the one just tried |
| Calendar.ScanExtends | backend/utils/calendar_service.py:140-153 | the loop only appends to the slots already found |
| Calendar.FullAtSlot | backend/utils/calendar_service.py:152-153 | returning at the fifth slot passes over no acceptable slot up to that one |
| Calendar.CompleteBeyond | backend/utils/calendar_service.py:122 | past the last day no acceptable slot remains |
| Calendar.CompleteNextDay | backend/utils/calendar_service.py:126-130 | skipping a weekend day or a finished day keeps the search complete |
| Calendar.CompleteNextHour | backend/utils/calendar_service.py:130-153 | moving to the next hour keeps the search complete once this hour's slot is in the result when it is acceptable |
| Calendar.ScanComplete | backend/utils/calendar_service.py:122-155 | from any point of the loop, every acceptable slot from there on is returned unless five slots were found before it |
| Calendar.ScanCompleteAt | backend/utils/calendar_service.py:130-153 | the same at an hour the loop tries: a past or busy slot is skipped, a free one is appended, and returning at the fifth passes over nothing up to it |
| Calendar.SlotsComplete | backend/utils/calendar_service.py:100-155 | every acceptable slot is returned unless five were found before it: a result under five holds every acceptable slot, and a full one every acceptable slot up to its last |
| Calendar.CalendarService.constructor | backend/utils/calendar_service.py:24-26 | a new service has no API client |
| Calendar.CalendarService.Authenticate | backend/utils/calendar_service.py:28-61 | the service keeps the client the OAuth flow produced, and the result says whether there is one |
| Calendar.CalendarService.CheckAvailability | backend/utils/calendar_service.py:63-98 | the method answers Free for the current client |
| Calendar.CalendarService.FindAvailableSlots | backend/utils/calendar_service.py:100-155 | the nested day and hour loops compute Slots, and so inherit its soundness and its completeness, for full results too |
| Orchestrator.Keywords | backend/orchestrator/orchestrator_core.py:153-194 | every task category has a non-empty keyword list, so the confidence ratio never divides by zero |
| Orchestrator.CountMatches | backend/orchestrator/orchestrator_core.py:198-201 | the match count of a category is the number of its keyword patterns found in the text, so it never exceeds the number of keywords |
| Orchestrator.MatchingStep | backend/orchestrator/orchestrator_core.py:199-201 | checking one more keyword adds one to the count exactly when that keyword is found |
| Orchestrator.CountPatterns | backend/orchestrator/orchestrator_core.py:198-201 | the keyword loop's counter ends at the number of keyword patterns found in the text |
| Orchestrator.HitsStep | backend/orchestrator/orchestrator_core.py:197-210 | visiting one more category appends its task exactly when at least one of its keywords matched |
| Orchestrator.HitsFaithful | backend/orchestrator/orchestrator_core.py:197-210 | a task is produced for a visited category if and only if one of its keywords matched, carrying that category's count, priority and confidence |
| Orchestrator.HitsFrom | backend/orchestrator/orchestrator_core.py:197-210 | every task produced belongs to one of the visited categories |
| Orchestrator.HitsOrdered | backend/orchestrator/orchestrator_core.py:197-210 | tasks come out in the order their categories are visited |
| Orchestrator.IndexedAppend | backend/orchestrator/orchestrator_core.py:204-209 | appending a task whose category comes after all earlier ones keeps detected tasks in category order |
| Orchestrator.EveryCategory | backend/orchestrator/orchestrator_core.py:153-194 | the pattern table covers every task category |
| Orchestrator.RankedMembers | backend/orchestrator/orchestrator_core.py:197-214 | after sorting, the detected-task list holds exactly one task per category with a keyword match, each with its own count |
| Orchestrator.DetectTasks | backend/orchestrator/orchestrator_core.py:139-224 | `_detect_tasks` counts keyword matches per category on the lower-cased text, sorts the hits and falls back to the two default tasks |
| Orchestrator.Detect | backend/orchestrator/orchestrator_core.py:216-222 | task detection never returns an empty list |
| Orchestrator.DetectFallback | backend/orchestrator/orchestrator_core.py:216-222 | the default records and evidence tasks are returned if and only if no keyword of any category matches |
| Orchestrator.DetectTasksCounted | backend/orchestrator/orchestrator_core.py:197-214 | when something matches, each task's count lies between 1 and its keyword total, its priority is its category's, its confidence is count over total in (0, 1], a category gets a task if and only if it matched, and no category appears twice |
| Orchestrator.ConfidenceRatio | backend/orchestrator/orchestrator_core.py:208 | with at least one match the `min(..., 1.0)` cap never bites and the confidence lies in (0, 1] |
| Orchestrator.CategoriesOrdered | backend/orchestrator/orchestrator_core.py:153-194 | categories are visited in the pattern table's order |
| Orchestrator.RankedOrdered | backend/orchestrator/orchestrator_core.py:213-214 | the sort puts tasks in descending (priority, match count) order, ties kept in table order as Python's stable sort does |
| Orchestrator.RankedDistinct | backend/orchestrator/orchestrator_core.py:197-214 | no two detected tasks share a category |
| Orchestrator.DetectOrdered | backend/orchestrator/orchestrator_core.py:213-222 | whatever detection returns, hits or fallback, is in descending (priority, match count) order |
| Orchestrator.FallbackOrdered | backend/orchestrator/orchestrator_core.py:218-221 | the default tasks (medium, then low) are already in descending priority order |
| Orchestrator.Entries | backend/orchestrator/orchestrator_core.py:248-258 | every task yields one workflow entry naming its category's agent and its priority, in task order |
| Orchestrator.CreateWorkflow | backend/orchestrator/orchestrator_core.py:227-269 | `_create_workflow` maps tasks to agents and keeps the first entry per agent |
| Orchestrator.WorkflowAgents | backend/orchestrator/orchestrator_core.py:237-269 | the workflow's agents are exactly the agents of the detected tasks' categories |
| Orchestrator.WorkflowDistinct | backend/orchestrator/orchestrator_core.py:260-269 | no agent appears twice in the workflow |
| Orchestrator.WorkflowFirstTasks | backend/orchestrator/orchestrator_core.py:260-269 | each workflow entry carries the first task for its agent with that task's priority, and entries keep the order in which agents first appear |
| Orchestrator.Stamp | backend/orchestrator/orchestrator_core.py:325-336 | a recorded output names its agent, has status "success" if and only if the agent succeeded, otherwise status "agent_unavailable" with an error message, and keeps the agent's other keys on success |
| Orchestrator.AgentsOfCons | backend/orchestrator/orchestrator_core.py:326-336 | the agents of outputs with one in front are that agent plus the rest |
| Orchestrator.Put | backend/orchestrator/orchestrator_core.py:326-336 | `agent_outputs[name] = ...` adds the agent to the recorded set and, for a new agent, appends its output at the end as a dict insertion does |
| Orchestrator.ExecuteAgents | backend/orchestrator/orchestrator_core.py:272-338 | `_execute_agents` records each workflow agent's stamped result in order |
| Orchestrator.RecordedPerAgent | backend/orchestrator/orchestrator_core.py:298-336 | over a workflow of distinct agents there is exactly one output per entry, in workflow order, holding that agent's stamped result |
| Orchestrator.WorkflowRecorded | backend/orchestrator/orchestrator_core.py:94-100 | running the workflow yields one output per workflow agent, in order, with status "success" exactly when that agent's run succeeded |
| Orchestrator.CountAvailable | backend/orchestrator/orchestrator_core.py:460 | the successful-agent count never exceeds the number of outputs |
| Orchestrator.Action.Line | backend/orchestrator/orchestrator_core.py:432 | every recommended action begins with its agent's name in brackets |
| Orchestrator.ActionEntry | backend/orchestrator/orchestrator_core.py:429-432 | an agent's `recommended_action` contributes one action if and only if it is a string that is not blank; a truthy non-string raises |
| Orchestrator.ExtraEntry | backend/orchestrator/orchestrator_core.py:434-447 | the extra action exists if and only if the communication agent drafted a message, the records agent reported missing records, or the scheduler wrote a call script; a truthy `missing_records` without a length raises |
| Orchestrator.OutputActions | backend/orchestrator/orchestrator_core.py:428-447 | one output contributes at most two actions, all tagged with its agent |
| Orchestrator.Find | backend/orchestrator/orchestrator_core.py:505-513 | looking an agent up finds an output recorded for it, or reports that none was |
| Orchestrator.GenerateSummary | backend/orchestrator/orchestrator_core.py:469-519 | `_generate_summary` builds the four head parts and the optional missing-record and evidence counts, joined with " \| " |
| Orchestrator.SummaryRaises | backend/orchestrator/orchestrator_core.py:505-517 | the summary raises if and only if an available records or evidence output has a list field without a length |
| Orchestrator.SummaryStarts | backend/orchestrator/orchestrator_core.py:497-519 | every summary starts with the case number, case type, task count and available-agent count |
| Orchestrator.JoinPrefix | backend/orchestrator/orchestrator_core.py:519 | joining more parts keeps the join of the first parts as a prefix |
| Orchestrator.AggregateResults | backend/orchestrator/orchestrator_core.py:395-466 | `_aggregate_results` collects actions and scores from the available outputs and averages the scores |
| Orchestrator.CollectErrPersists | backend/orchestrator/orchestrator_core.py:420-447 | once collecting raises on some output, the whole aggregation raises that same exception |
| Orchestrator.CollectScores | backend/orchestrator/orchestrator_core.py:424-426 | the scores collected are the `confidence_score` of every available output that has one, in output order |
| Orchestrator.CollectStep | backend/orchestrator/orchestrator_core.py:420-447 | one more output adds its actions when available and nothing when unavailable |
| Orchestrator.CollectAvailable | backend/orchestrator/orchestrator_core.py:421-422 | every collected action comes from an output whose status is not "agent_unavailable" |
| Orchestrator.AvailableAppend | backend/orchestrator/orchestrator_core.py:421-447 | appending the actions of an available output keeps every action's agent available |
| Orchestrator.AgentIndex | backend/orchestrator/orchestrator_core.py:420 | the position of an agent's output is the first one recorded for it, or the end when there is none |
| Orchestrator.AgentIndexPrefix | backend/orchestrator/orchestrator_core.py:420 | an agent's position among a prefix of outputs is its position among all of them when found there |
| Orchestrator.CollectOrdered | backend/orchestrator/orchestrator_core.py:420-447 | actions are grouped by agent in the order the outputs were recorded |
| Orchestrator.OrderedAppend | backend/orchestrator/orchestrator_core.py:428-447 | appending the next output's actions keeps actions in output order |
| Orchestrator.AvailableIndex | backend/orchestrator/orchestrator_core.py:420-422 | an agent available among the first outputs is found at the same position among all of them |
| Orchestrator.LastIndex | backend/orchestrator/orchestrator_core.py:326-336 | with distinct agents, the last output's agent is found at the last position |
| Orchestrator.SumBounds | backend/orchestrator/orchestrator_core.py:450 | a sum of scores in [0, 1] succeeds and lies between 0 and the number of scores |
| Orchestrator.AggregateConfidence | backend/orchestrator/orchestrator_core.py:449-461 | the overall confidence is the mean of the collected scores, 0.0 when there are none, and lies in [0, 1] when every score does; successful agents never exceed executed ones |
| Orchestrator.MeanBounds | backend/orchestrator/orchestrator_core.py:450 | the mean of scores whose sum lies in [0, n] lies in [0, 1] |
| Orchestrator.UnavailableIgnored | backend/orchestrator/orchestrator_core.py:421-422 | an unavailable output adds neither actions nor scores |
| Orchestrator.OutputsJson | backend/orchestrator/orchestrator_core.py:456 | `agent_outputs` holds a dict for every recorded agent, under its name |
| Orchestrator.ActionsJson | backend/orchestrator/orchestrator_core.py:457 | `recommended_actions` lists each action's tagged line, one per action, in order |
| Orchestrator.ResultJson | backend/orchestrator/orchestrator_core.py:453-462 | the result dict carries the summary, tasks, outputs, actions, confidence and agent counts, plus the context metadata, and no status |
| Orchestrator.FailedResult | backend/orchestrator/orchestrator_core.py:126-136 | a failure gives status "failed", the exception's message as the error and as the only action, confidence 0.0 and no outputs |
| Orchestrator.WithBrief | backend/orchestrator/orchestrator_core.py:110-112 | adding the brief sets `attorney_brief` to the generated brief and keeps every other key |
| Orchestrator.ProcessCaseText | backend/orchestrator/orchestrator_core.py:46-136 | `process_case_text` runs context extraction, detection, workflow, agents, aggregation and the brief in sequence, giving the failure dict when a step raises (the brief with the intended capitalisation and join) |
| Orchestrator.Conclude | backend/orchestrator/orchestrator_core.py:104-136 | a raised aggregation gives the failure dict; otherwise the result dict with context metadata and the brief |
| Orchestrator.AgentNameIsWord | backend/orchestrator/orchestrator_core.py:432 | every agent name is a non-empty run of word characters, so the brief's tag pattern strips it |
| Orchestrator.ActionTagRemoved | backend/orchestrator/orchestrator_core.py:432 | cleaning a recommended action for the brief removes exactly its `[agent] ` tag |
| Orchestrator.CaseContextShape | backend/orchestrator/orchestrator_core.py:85 | the extracted context always has the shape the brief's overview reads |
| Orchestrator.HoldsShape | backend/orchestrator/orchestrator_core.py:85 | any context holding the enricher's six fields has the shape the brief's overview reads |
| Orchestrator.ConcludedOutcome | backend/orchestrator/orchestrator_core.py:105-113 | on success the brief starts with the case overview and ends with the action summary, and falls back to the error brief exactly when the findings raise |
| Orchestrator.Workflow | backend/orchestrator/orchestrator_core.py:260-269 | the workflow is empty exactly when there are no tasks |
| Orchestrator.Recorded | backend/orchestrator/orchestrator_core.py:298-336 | the recorded outputs name exactly the agents of the workflow |
| Orchestrator.Collect | backend/orchestrator/orchestrator_core.py:420-447 | at most one score per available output; collecting raises only when some output is available |
| Orchestrator.Sum | backend/orchestrator/orchestrator_core.py:450 | `sum` of the scores succeeds exactly when every score is a number or a boolean |
| Orchestrator.Summary | backend/orchestrator/orchestrator_core.py:469-519 | the summary can raise only a TypeError |
| Orchestrator.Aggregated | backend/orchestrator/orchestrator_core.py:395-466 | a raising summary makes the aggregation raise the same exception; a result carries the tasks and outputs, counts every output as executed and no more successes than executions |
| Orchestrator.Processed | backend/orchestrator/orchestrator_core.py:46-136 | the result has `status` exactly when it lacks `attorney_brief`, which is exactly when aggregation raises; the context metadata is the extracted context |
| Brief.GetOn | backend/postprocessors/brief_generator.py:92-94 | `.get(key, default)` succeeds exactly on a dict and then gives the key's value or the default; on anything else it raises |
| Brief.Head | backend/postprocessors/brief_generator.py:131 | `x[0]` gives the first item of a non-empty list, and raises on an empty or unsubscriptable value |
| Brief.Take | backend/postprocessors/brief_generator.py:338 | `x[:3]` keeps at most the first three items of a list, succeeds only on a list or string, and its length is the smaller of the bound and the length |
| Brief.Capitalize | backend/postprocessors/brief_generator.py:139 | `str.capitalize()` keeps the length of the string |
| Brief.CapitalizeLowersRest | backend/postprocessors/brief_generator.py:124-139 | as written, capitalising a key-party sentence lower-cases every name inside it |
| Brief.CarrierCasingLost | backend/postprocessors/brief_generator.py:124-139 | as written, a carrier named "State Farm" is printed "state farm" |
| Brief.CapitalizeFirst | backend/postprocessors/brief_generator.py:139 | the intended capitalisation upper-cases the first character and keeps every other one |
| Brief.CarrierCasingKept | backend/postprocessors/brief_generator.py:124-139 | with the correction, a name appended to the opening phrase keeps its own spelling |
| Brief.FieldValue | backend/postprocessors/brief_generator.py:92-94 | reading `context[key]["value"]` succeeds exactly when the context is a dict whose entry (default `{}`) is a dict |
| Brief.Opening | backend/postprocessors/brief_generator.py:96-103 | the overview opens with "This ..." or "Case #...", chosen by which of case number and client are present |
| Brief.Sentence | backend/postprocessors/brief_generator.py:143-145 | the joined overview starts with its first part and always ends with a period |
| Brief.JoinStartsWith | backend/postprocessors/brief_generator.py:143 | a join starts with its first part |
| Brief.Heading | backend/postprocessors/brief_generator.py:96-119 | the heading parts start with the opening phrase |
| Brief.HeadingOf | backend/postprocessors/brief_generator.py:92-119 | once the four fields are read, the heading starts with the opening for the case number and client |
| Brief.Overview | backend/postprocessors/brief_generator.py:79-147 | the overview raises on a context that is not a dict; otherwise it starts with the opening phrase and ends with a period (with the first key party capitalised as intended) |
| Brief.IncidentPhrase | backend/postprocessors/brief_generator.py:110-119 | the incident phrase always opens with "arising from an incident " |
| Brief.TreatmentParty | backend/postprocessors/brief_generator.py:128-136 | no providers gives no clause; otherwise at most one clause, which opens with "the client received treatment at " |
| Brief.PartyParts | backend/postprocessors/brief_generator.py:138-141 | one part per key party up to two: the first after ". " with its length kept (capitalised as intended), the second ending with the second party |
| Brief.CaseHeading | backend/postprocessors/brief_generator.py:92-119 | the heading loop appends the opening, case type and incident parts as the heading function describes |
| Brief.KeyParties | backend/postprocessors/brief_generator.py:122-136 | the key-party loop yields the carrier and the first provider as the parties function describes |
| Brief.GenerateCaseOverview | backend/postprocessors/brief_generator.py:79-147 | `_generate_case_overview` computes Overview, which capitalises the first key party as intended, or raises where it does |
| Brief.OverviewOfEnriched | backend/postprocessors/brief_generator.py:79-147 | a context with the enricher's shape never makes the overview raise |
| Brief.Counted | backend/postprocessors/brief_generator.py:235-246 | a counted phrase starts with its verb |
| Brief.CountedOne | backend/postprocessors/brief_generator.py:237-238 | a count of one uses the singular noun |
| Brief.CountPart | backend/postprocessors/brief_generator.py:234-246 | a list field adds a phrase exactly when it is truthy, with its length; a truthy value without a length raises |
| Brief.RecordsSummary | backend/postprocessors/brief_generator.py:227-251 | the records summary reports "all records complete" if and only if neither list is truthy, and opens with the missing count when there is one |
| Brief.RecordsJoined | backend/postprocessors/brief_generator.py:248-251 | joined count phrases never read as the all-complete sentence, and start with the missing-records phrase when there is one |
| Brief.StartsWithTrans | backend/postprocessors/brief_generator.py:251 | a prefix of a prefix is a prefix |
| Brief.SummarizeRecords | backend/postprocessors/brief_generator.py:227-251 | `_summarize_records_wrangler` collects the parts and joins them with " and " |
| Brief.CommunicationSummary | backend/postprocessors/brief_generator.py:254-261 | the communication summary mentions a detected tone if and only if the tone is truthy |
| Brief.LegalSummary | backend/postprocessors/brief_generator.py:264-276 | no cases gives "completed legal research"; one case names it; several give their count |
| Brief.VerifiedIn | backend/postprocessors/brief_generator.py:290 | the verified count succeeds exactly when every item is a dict, and never exceeds the number of items |
| Brief.CountCharAppend | backend/postprocessors/brief_generator.py:308 | counting a character over a concatenation adds the counts |
| Brief.NoParensCount | backend/postprocessors/brief_generator.py:308 | text without parentheses counts none of either |
| Brief.NoParensNoOpening | backend/postprocessors/brief_generator.py:308 | text without parentheses never contains "(" |
| Brief.SingleJoinUnbalanced | backend/postprocessors/brief_generator.py:307-308 | as written, a single part without parentheses is returned with a ")" appended, and the result is unbalanced |
| Brief.EvidenceJoinUnbalanced | backend/postprocessors/brief_generator.py:307-308 | as written, a single evidence part comes out with a closing parenthesis nothing opens |
| Brief.EvidenceText | backend/postprocessors/brief_generator.py:279-310 | the intended evidence text is "organized case evidence" exactly when there is neither evidence nor missing exhibits |
| Brief.DigitsNoParens | backend/postprocessors/brief_generator.py:295-305 | a number's digits contain no parenthesis |
| Brief.BalancedAppend | backend/postprocessors/brief_generator.py:308 | two balanced texts stay balanced when joined |
| Brief.NoParensBalanced | backend/postprocessors/brief_generator.py:308 | text without parentheses is balanced |
| Brief.ParenthesisedBalanced | backend/postprocessors/brief_generator.py:298 | a parenthesised aside is balanced |
| Brief.VerifiedBalanced | backend/postprocessors/brief_generator.py:298 | the verified aside is balanced |
| Brief.EvidencePartBalanced | backend/postprocessors/brief_generator.py:292-298 | the evidence phrase with its verified aside is balanced |
| Brief.MissingPartBalanced | backend/postprocessors/brief_generator.py:302-305 | the missing-exhibits phrase is balanced |
| Brief.EvidenceTextBalanced | backend/postprocessors/brief_generator.py:307-310 | the intended evidence text always has balanced parentheses |
| Brief.EvidenceSummary | backend/postprocessors/brief_generator.py:279-310 | the evidence summary has balanced parentheses, and reads "organized case evidence" if and only if neither list is truthy |
| Brief.Verified | backend/postprocessors/brief_generator.py:290 | the verified count exists exactly for a list of dicts and never exceeds its length |
| Brief.EvidenceJoinAsWritten | backend/postprocessors/brief_generator.py:308 | as written, parts without "(" are always closed with ")" |
| Brief.SummarizeEvidence | backend/postprocessors/brief_generator.py:279-310 | `_summarize_evidence_sorter` collects the parts and joins them as intended, not with line 308's join |
| Brief.SchedulerSummary | backend/postprocessors/brief_generator.py:313-321 | the scheduler summary says "scheduled" if and only if a contact name is truthy |
| Brief.SummarizeAgentResult | backend/postprocessors/brief_generator.py:198-224 | an unavailable agent or an unknown name gives no summary; a summary given is never empty; raising needs a known agent or a non-dict value |
| Brief.AgentEntry | backend/postprocessors/brief_generator.py:163-188 | a dict of outputs never raises, and an entry found is that agent's own output |
| Brief.Findings | backend/postprocessors/brief_generator.py:150-195 | the findings are empty if and only if no agent contributed a summary, and otherwise open with the analysis phrase and end with a period |
| Brief.GenerateAgentFindings | backend/postprocessors/brief_generator.py:150-195 | `_generate_agent_findings` visits the five agents in a fixed order and collects their summaries |
| Brief.FindingsErrPersists | backend/postprocessors/brief_generator.py:150-195 | once one agent's summary raises, the findings raise that exception |
| Brief.UnavailableSkipped | backend/postprocessors/brief_generator.py:210-211 | an unavailable agent's output changes nothing in the findings |
| Brief.WordRun | backend/postprocessors/brief_generator.py:365 | `[\w_]+` matches the longest run of word characters |
| Brief.RStripDots | backend/postprocessors/brief_generator.py:372 | `rstrip('.')` removes exactly the trailing dots |
| Brief.CleanText | backend/postprocessors/brief_generator.py:353-374 | a cleaned action never ends with a dot or starts with a capital, and untagged text is only lower-cased and stripped |
| Brief.CleanTagged | backend/postprocessors/brief_generator.py:365 | an `[agent]` tag and the spaces after it are removed |
| Brief.WordRunOver | backend/postprocessors/brief_generator.py:365 | the word run stops at the first non-word character |
| Brief.CleanAction | backend/postprocessors/brief_generator.py:353-374 | cleaning succeeds exactly on a string |
| Brief.ActionClause | backend/postprocessors/brief_generator.py:340-350 | the action clause ends with a period and succeeds exactly when the actions it cleans are strings |
| Brief.ActionSummary | backend/postprocessors/brief_generator.py:324-350 | no actions gives the complete-file sentence and only then; otherwise it opens with "To advance this matter"; it always ends with a period, and a list of strings never raises |
| Brief.IsWordChar | backend/postprocessors/brief_generator.py:365 | a `[\w_]` character is neither "]" nor whitespace |
| Brief.StripTag | backend/postprocessors/brief_generator.py:365 | removing the agent tag leaves a suffix of the text, and a text not starting with "[" is unchanged |
| Brief.Finish | backend/postprocessors/brief_generator.py:368-372 | the cleaned action never ends with "." and never starts with a capital |
| Brief.ActionsOpened | backend/postprocessors/brief_generator.py:341-350 | an opened clause is never the no-actions sentence |
| Brief.ActionSummaryTail | backend/postprocessors/brief_generator.py:338 | past the first two actions, only their number matters |
| Brief.ContainsAtEnd | backend/postprocessors/brief_generator.py:341-350 | text appended at the end is contained |
| Brief.ContainsExtended | backend/postprocessors/brief_generator.py:341-350 | extending text keeps what it contained |
| Brief.EndsWithSuffix | backend/postprocessors/brief_generator.py:341-350 | text ends with what was appended last |
| Brief.EndsWithLast | backend/postprocessors/brief_generator.py:341-350 | text ends with its last two appended parts |
| Brief.EndsWithLastFour | backend/postprocessors/brief_generator.py:350 | text ends with its last four appended parts |
| Brief.SummaryOfStrings | backend/postprocessors/brief_generator.py:338-350 | for a non-empty list of strings, the summary is the opening followed by the clause on the first actions |
| Brief.ClauseNamesOne | backend/postprocessors/brief_generator.py:341 | a single action is named in its clause |
| Brief.ClauseNamesTwo | backend/postprocessors/brief_generator.py:343 | both of two actions are named |
| Brief.ClauseNamesMany | backend/postprocessors/brief_generator.py:345-350 | with three or more, the first two are named |
| Brief.ClauseCountsOne | backend/postprocessors/brief_generator.py:348 | exactly three actions end with "one additional follow-up item." |
| Brief.ClauseCountsMore | backend/postprocessors/brief_generator.py:350 | more than three end with the count of all actions after the first two |
| Brief.OpenedContains | backend/postprocessors/brief_generator.py:341-350 | the opening keeps what the clause names |
| Brief.OpenedEndsWith | backend/postprocessors/brief_generator.py:341-350 | the opening keeps how the clause ends |
| Brief.ActionSummaryOne | backend/postprocessors/brief_generator.py:340-341 | a single action appears, cleaned, in the summary |
| Brief.ActionSummaryTwo | backend/postprocessors/brief_generator.py:342-343 | both of two actions appear, cleaned, in the summary |
| Brief.ActionSummaryNamesTwo | backend/postprocessors/brief_generator.py:344-350 | with three or more actions, the first two appear, cleaned |
| Brief.ActionSummaryCountsOne | backend/postprocessors/brief_generator.py:347-348 | three actions end with one additional follow-up item |
| Brief.ActionSummaryCountsMore | backend/postprocessors/brief_generator.py:349-350 | more actions end with the count beyond the first two, counted over the whole list and not the three shown |
| Brief.Present | backend/postprocessors/brief_generator.py:48-60 | only non-empty sections are kept |
| Brief.PresentThree | backend/postprocessors/brief_generator.py:48-60 | with a non-empty overview and action summary, only an empty findings section is dropped |
| Brief.Compose | backend/postprocessors/brief_generator.py:45-76 | the brief is the error sentence if and only if a section raised; otherwise it starts with the overview, ends with the action summary, and is just those two when there are no findings |
| Brief.AttorneyBrief | backend/postprocessors/brief_generator.py:14-76 | the brief falls back to the error sentence exactly when the overview, findings or action summary raises; otherwise it starts with the overview and ends with the action summary (the brief with the intended capitalisation and join) |
| Brief.BriefSections | backend/postprocessors/brief_generator.py:63 | the sections joined with spaces start with the overview and end with the actions, and are never the error sentence |
| Brief.GenerateAttorneyBrief | backend/postprocessors/brief_generator.py:14-76 | `generate_attorney_brief` reads the three inputs, builds the sections and joins them |
| Brief.Assemble | backend/postprocessors/brief_generator.py:45-76 | the sections are assembled, or the error sentence given, as the composition describes |

## Left out

- LLM calls are not modelled: the OpenAI and Anthropic requests, the provider switches read from the environment, and `json.loads`. An agent's behaviour is the parameter `run` of `Orchestrator.ProcessCaseText`, and only the fence stripping before parsing is modelled.
- Concurrency is not modelled. `asyncio.gather`, `asyncio.wait_for` and the 60-second timeout become a sequential fold over `run`, which answers success, failure or timeout. Concurrency does not change the recorded outputs, because each agent writes its own key.
- The exception branch of `_execute_agents` (source lines 327-332) is not modelled. `_execute_single_agent` catches every exception, so that branch is never taken.
- Logging, `datetime.now()`, `execution_time` and `execution_time_seconds` are not modelled, because they are wall-clock values.
- Orchestrator.AggregateResults: `round(overall_confidence, 2)` is not applied, because scores are reals and rounding is float formatting.
- Regular-expression captures are parameters (`ContextEnricher.Search` and `ContextEnricher.FindAll`), applied to the source's own pattern strings. This covers the client name, case number, incident date, insurer and provider patterns in the context enricher, and the case-number and case-type captures of `_generate_summary`. Python's regex engine is outside the model. The keyword scans are modelled concretely: the detection patterns, the case-type keywords and the known insurers.
- Date-library parsing and formatting are parameters: `_normalize_date`, and the `strptime`/`strftime` month-name formatting in the case overview. `_validate_date` in the evidence sorter is modelled with ASCII digits only (see EvidenceSorter.ValidateDateText below).
- Json.Render: when the brief interpolates a number, list or dict, the model writes a placeholder naming its type, because Python's float and container formatting is not modelled. Strings, `None` and booleans read exactly as in Python.
- Google OAuth and token files are not modelled. `Calendar.CalendarService.Authenticate` takes the outcome of building the client as a parameter. `create_event`, `update_event` and `cancel_event` are left out too, because they are only API calls.
- Time zones are not modelled: times are whole minutes of local wall-clock time, so pytz and daylight-saving transitions are outside the model.
- The calendar API is not modelled. The client kept in the `service` field is a function from an interval to an events listing or an HTTP error.
- The `AGENT_INFO` and `AGENT_CAPABILITIES` tables and the prompt strings are not modelled, because nothing in the pipeline reads them.
- `backend/main.py`, `backend/utils/twilio_service.py`, `backend/agents/communication_guru.py` and `backend/orchestrator/router.py` are not part of this model: they are HTTP, SDK and LLM plumbing with no logic of their own. The communication agent appears only as an output that the aggregation and the brief read.
- The agents' own `run()` methods are not part of this model, including the error dicts they return when an LLM call fails. Their results reach the model only through `run`.
- Json.ToFloat: numbers are reals, not IEEE doubles, so there is no rounding and no overflow to infinity (Python reads "1e400" as inf, the model as a finite value); only ASCII digits are read, where Python also accepts other Unicode decimal digits.
- Json.Score: inherits the gaps of Json.ToFloat; a value Python would round or overflow is clamped exactly.
- Json.ParseFloat: the grammar covers signs, digits with single underscores between them, one decimal point, an exponent, and inf, infinity and nan in any case; Unicode digits and whitespace outside `str.isspace` are not read.
- Text.Lower: only ASCII letters are lower-cased. Python's `str.lower` also maps other letters, some of them to two characters, so keyword matches on non-ASCII text can differ.
- Text.Strip: whitespace is the set `str.isspace` accepts, written out as a fixed list of code points; the model follows that list, not the Unicode database of a particular Python version.
- VoiceScheduler.Digits: `\d` and `\D` are ASCII here, so digits from other scripts (full-width "５" for example) are dropped where Python keeps them.
- EvidenceSorter.ValidateDateText: `\d` is ASCII here, so a date written in other Unicode digits gives "unknown" where Python would read it.
- Brief.IsWordChar: `\w` is ASCII here; an agent tag with non-ASCII letters is not removed where Python would remove it.
- Brief.Overview: capitalises the first key party as intended (CapitalizeFirst), not with the `capitalize()` of brief_generator.py:139, which lower-cases the rest; the as-written text is Brief.Capitalize, and "## Findings" shows the difference.
- Brief.GenerateCaseOverview: computes Brief.Overview, so it writes the intended capitalisation, not that of line 139.
- Brief.PartyParts: the first key party is capitalised as intended, not as line 139 writes it.
- Brief.EvidenceSummary: joins the parts as intended, with balanced parentheses, not as line 308 writes them; the as-written join is Brief.EvidenceJoinAsWritten.
- Brief.SummarizeEvidence: returns Brief.EvidenceSummary, so it writes the intended join, not that of line 308.
- Brief.SummarizeAgentResult: the evidence sorter's summary is the intended text of Brief.EvidenceSummary.
- Brief.Findings: contains the intended evidence summary, not the text line 308 produces.
- Brief.GenerateAgentFindings: computes Brief.Findings, with the same difference.
- Brief.AttorneyBrief: built from the intended overview and evidence summary, so its text differs from the program's wherever lines 139 and 308 do.
- Brief.GenerateAttorneyBrief: computes Brief.AttorneyBrief, with the same difference.
- Orchestrator.WithBrief: the brief it stores is the intended one of Brief.AttorneyBrief.
- Orchestrator.Conclude: the brief in its result is the intended one of Brief.AttorneyBrief.
- Orchestrator.ConcludedOutcome: speaks of the intended brief of Brief.AttorneyBrief.
- Orchestrator.Processed: the brief in its result is the intended one of Brief.AttorneyBrief.
- Orchestrator.ProcessCaseText: the brief in its result is the intended one of Brief.AttorneyBrief, not the text lines 139 and 308 produce.
- Calendar.CalendarService.FindAvailableSlots: a slot keeps only its start and end. The five display fields of each slot dict (`formatted_start`, `formatted_end`, `day_of_week`, `date` and `time`, calendar_service.py:141-147) are `strftime` formatting and are not modelled.
- Orchestrator.Sum: JSON integers and floats are both `JNum` reals, so after an integer score the model names the running total 'float' where Python's `sum` still holds an int; the `TypeError` message then reads "'float' and 'str'" instead of "'int' and 'str'". Only booleans keep the total an int here.
- Json.TypeName: one number kind (`JNum`, a real) stands for both Python's `int` and `float`, so a JSON integer is named 'float' in error messages where Python names it 'int'.

## Findings

| source | as written | input that shows it | evidently intended | confidence | as-written member | corrected member |
|---|---|---|---|---|---|---|
| backend/postprocessors/brief_generator.py:139 | `key_parties[0].capitalize()` upper-cases the first letter and lower-cases all the rest | an insurer "State Farm" gives "The defendant's carrier is state farm" | upper-case only the first letter and keep the names as spelled | not executed | Brief.CarrierCasingLost | Brief.CarrierCasingKept |
| backend/postprocessors/brief_generator.py:308 | the parts never contain "(", so they are always joined with " (" and one ")" is appended | evidence with one item and no verified count or missing exhibits gives "catalogued 1 piece of evidence)" | the verified count in parentheses after the evidence count, and the missing exhibits after " and ", with balanced parentheses | not executed | Brief.EvidenceJoinUnbalanced | Brief.EvidenceTextBalanced |

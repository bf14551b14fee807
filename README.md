# xssmap core, modelled in Dafny

xssmap looks for cross-site scripting in one web request, GET or POST, in
three stages:

1. **Probe** (`RequestVariableProbe`). Splits the request into its
   parameters. Each parameter has a name and a value, and a delivery tag
   that says whether it came from the URL query or the form body.
2. **Reflection check** (`ReflectionChecker`). Gives every parameter a
   random nine-letter trigger as its value and renders the page once. It
   then looks for each trigger in seventeen page contexts: thirteen
   structural page queries, then the error, console, prompt and confirm
   messages. Every parameter whose trigger shows up moves from
   `params_other` to `params_reflected`, labelled with the contexts it was
   seen in.
3. **Scan** (`XssScanner`). Attacks each reflected parameter with every
   catalogue payload that one of its contexts selects, without trying any
   payload id twice. Each attack gets a fresh nine-digit trigger in
   `alert(...)`. The page is rendered for each attack, and every alert,
   error or console message that holds the trigger becomes a finding.

`XssMap` ties the stages together. It first validates the request. Then it
either runs the reflection check and scans what was reflected, or skips the
check and scans every parameter under the wildcard context `general`.

Design choices of the model:

- Python exceptions are values: `Common.Result` with `Common.Error` naming
  the exception class (IndexError, KeyError, AttributeError, TypeError,
  RuntimeError).
- Python's `random` is a parameter `RandomSource`, read through a draw
  counter. The render service is a parameter `Renderer`: a function from
  the request to a `RenderedPage`. The page carries one count per
  (trigger, context) for the structural queries, plus the browser's
  message lists.
- Classes whose fields the source updates in place are Dafny classes:
  `XssMapObject`, `ReflectionChecker`, `XssScanner` and `XssMap`. Their
  loops are methods with invariants, each proved against a function that
  states the whole computation: `LoadSpec`, `Analysis`, `Migrate`,
  `Attempts` and `Scan`, `ProbedParams`, `WildcardScan`. The properties are
  lemmas about those functions.
- The payload module keeps its list as an `array`. Its rewrite loop works
  in place on that array.

Modules, one per source file, plus three shared ones:

- `Common` holds Option, Result and Error.
- `Strings` holds the Python string operations the core uses: `split`,
  `split(c, 1)`, `in`, `replace`, `str(n)` and `join`, with their laws.
- `Collaborators` holds the render service and the random source.
- `XssMapObjects`, `RequestVariableProbe`, `ReflectionSpec` and
  `ReflectionChecking`, `XssMapPayloads`, `ScanSpec` and `XssScanning`,
  `XssMapTool`.

## Model

| member | source | states |
|---|---|---|
| XssMapObjects.XssMapObject.constructor | XssMapObject.py:81-86 | A new record has no type, root or body, and both parameter lists are empty. |
| XssMapObjects.LabelInjective | ReflectionChecker.py:250-532 | The context labels the analysis writes are pairwise distinct, so comparing labels is comparing contexts. |
| XssMapObjects.Stripped | ReflectionChecker.py:172-177 | Moving a parameter to `params_reflected` keeps its name, value, delivery and trigger and resets its contexts. |
| RequestVariableProbe.HasUrlParams | RequestVariableProbe.py:36-50 | A URL has parameters exactly when `split('?', 1)` gives two parts, that is when it holds a `?`. |
| RequestVariableProbe.UrlRoot | RequestVariableProbe.py:129 | The root holds no `?` and is a prefix of the URL. |
| RequestVariableProbe.UrlQuery | RequestVariableProbe.py:65 | The query exists exactly when the URL has parameters, and root, `?` and query rebuild the URL. Without a `?` the call raises IndexError. |
| RequestVariableProbe.ParseParam | RequestVariableProbe.py:72-80 | A piece parses exactly when it holds an `=`. The name is the text before the first `=` and holds none; the value is the rest. A piece without `=` raises IndexError. |
| RequestVariableProbe.ParsePiecesSpec | RequestVariableProbe.py:68-82 | Parsing succeeds exactly when every `&`-piece holds an `=`; then it gives one record per piece, in order. Otherwise it raises IndexError. |
| RequestVariableProbe.ParsePiecesOk | RequestVariableProbe.py:70-80 | The success and IndexError halves of the parse, by induction over the pieces. |
| RequestVariableProbe.ParsePiecesValues | RequestVariableProbe.py:70-80 | A successful parse gives, for each piece in order, the record with that piece's name and value and the given delivery. |
| RequestVariableProbe.ParsedRecords | RequestVariableProbe.py:65-82 | Parsing a query or body text succeeds exactly when every `&`-piece holds `=`, and then gives one record per piece, in order. |
| RequestVariableProbe.PairParses | RequestVariableProbe.py:72-80 | A record whose name holds no `=` or `&` and whose value holds no `&` parses back from its `name=value` pair. |
| RequestVariableProbe.ParsePairs | RequestVariableProbe.py:70-80 | Such records, in order, are what parsing their pairs gives. |
| RequestVariableProbe.ParseParamsRoundTrip | RequestVariableProbe.py:65-82 | No decoding happens: joining the parsed records back as `name=value` with `&` gives the query or body text. |
| RequestVariableProbe.ParseParamsOfJoin | RequestVariableProbe.py:99-113 | Records whose names hold no `=` or `&` and whose values hold no `&` are recovered exactly from their `&`-joined pairs. |
| RequestVariableProbe.EmptyTextRaises | RequestVariableProbe.py:99-109 | An empty body is one empty piece without `=`, so it raises IndexError. |
| RequestVariableProbe.ProcessUrlParams | RequestVariableProbe.py:53-82 | The loop gives the query's parameters with delivery `url`, or IndexError when the URL has no `?`. |
| RequestVariableProbe.ProcessBodyParams | RequestVariableProbe.py:85-113 | The loop gives the body's parameters with delivery `body`. |
| RequestVariableProbe.ProcessPieces | RequestVariableProbe.py:70-82 | The shared loop appends one record per piece, in order, and stops at the first piece that raises. |
| RequestVariableProbe.AppendOther | RequestVariableProbe.py:137-139 | Each body parameter is appended to `params_other`, in order, after what was there. |
| RequestVariableProbe.ProbePostRequest | RequestVariableProbe.py:116-141 | The result is a new object of type POST with root before the first `?`. Its `params_other` holds the URL parameters followed by the body parameters. A piece without `=` makes the probe raise IndexError. |
| RequestVariableProbe.ProbeGetRequest | RequestVariableProbe.py:144-163 | The result is a new object of type GET with root before the first `?` and the URL's parameters (none without `?`). A piece without `=` makes the probe raise IndexError. |
| RequestVariableProbe.GetParamsShape | RequestVariableProbe.py:144-163 | A GET URL without `?` yields no parameters. Otherwise the probe succeeds exactly when every `&`-piece of the query holds `=`, and then yields one record per piece, in order, with that piece's name and value and delivery `url`. |
| RequestVariableProbe.PostParamsPartition | RequestVariableProbe.py:116-141 | An empty POST body raises. The POST probe succeeds exactly when the URL's own probe does and every `&`-piece of the body holds `=`. It then lists the URL's parameters first, then one record per body piece, in order, with delivery `body`. |
| RequestVariableProbe.ProbedFields | RequestVariableProbe.py:116-163 | Every probed parameter has delivery `url` or `body`, no trigger and no contexts. With URL parameters the first one is a `url` one; without, all are `body` ones. |
| ReflectionSpec.ReflTrigger | ReflectionChecker.py:182-190 | A reflection trigger is nine lowercase ASCII letters. |
| ReflectionSpec.TriggerAt | ReflectionChecker.py:107-117 | The `i`-th parameter's trigger is made from the nine draws that start at `start + 9i`. |
| ReflectionSpec.TriggersWellFormed | ReflectionChecker.py:182-190 | Every trigger the load loops draw is nine lowercase letters. |
| ReflectionSpec.WithTriggersTriggered | ReflectionChecker.py:116 | Recording the triggers changes only `reflect_trigger`. Afterwards the recorded triggers are exactly the drawn ones, in order. |
| ReflectionSpec.TriggeredUpTo | ReflectionChecker.py:107-117 | Part-way through a load loop, the first `i` parameters carry their triggers and the rest are as probed. |
| ReflectionSpec.GetUrlStep | ReflectionChecker.py:108-115 | One GET loop turn appends `?` before the first pair, then the pair, then `&` unless it was the last pair. |
| ReflectionSpec.GetProbeUrlRoundTrip | ReflectionChecker.py:104-117 | For parameters whose names hold no `=` or `&`, probing the built GET URL again gives the original names with the triggers as values: every trigger reaches the page under its parameter's name. |
| ReflectionSpec.PostPiecesSpec | ReflectionChecker.py:133-151 | The POST loop succeeds exactly when every delivery is `url` or `body`. Its URL pairs and body pairs are then the `name=trigger` pairs of each delivery, in order. |
| ReflectionSpec.PostPiecesErrPersists | ReflectionChecker.py:133-149 | After the first parameter that raises, later parameters are never looked at. |
| ReflectionSpec.PostPiecesBadDelivery | ReflectionChecker.py:134-149 | A missing delivery raises KeyError('delivery'). An unrecognised one raises RuntimeError with the source's message. |
| ReflectionSpec.OfDeliveryEmpty | ReflectionChecker.py:133-147 | No pair of a delivery is gathered exactly when no parameter has that delivery. |
| ReflectionSpec.TerminatedJoin | ReflectionChecker.py:142-157 | Pairs each followed by `&`, less the final `&`, are the pairs joined by `&`. |
| ReflectionSpec.PostUrlStep | ReflectionChecker.py:134-142 | A URL pair appends `?` before the first one, then the pair and `&`. |
| ReflectionSpec.PostLoopPieces | ReflectionChecker.py:131-151 | The stepping POST loop raises exactly when the pair-gathering view raises, with the same error. Otherwise it holds the gathered URL and body, and the `first_url_param` flag is set exactly when no `url` pair was met. |
| ReflectionSpec.PostLoopErrPersists | ReflectionChecker.py:133-151 | Once the POST loop raises, its result stays that error. |
| ReflectionSpec.PostProbeRequestWithUrlParams | ReflectionChecker.py:126-157 | With URL parameters, the POST probe's URL is the root, `?` and the `url` pairs joined by `&`. Its body is the `body` pairs joined by `&`. |
| ReflectionSpec.PostProbeRequestWithoutUrlParams | ReflectionChecker.py:126-157 | Without URL parameters, the URL is the root less one trailing `&`. An empty root raises IndexError at `request_url[-1]`. |
| ReflectionSpec.PostProbeRequestBadDelivery | ReflectionChecker.py:133-149 | When some parameter has an unknown delivery, the load raises the error of the first such parameter: KeyError('delivery') when it has none, RuntimeError with the source's message otherwise. |
| ReflectionSpec.FirstUnknown | ReflectionChecker.py:133-149 | The POST loop's error is that of the first parameter with an unknown delivery; every parameter before it has a known one. |
| ReflectionSpec.Rank | ReflectionChecker.py:240-532 | Every context except the wildcard has its place in the order in which the analysis tests contexts. |
| ReflectionSpec.NumContainingZero | ReflectionChecker.py:487-532 | A message count is zero exactly when no message holds the trigger. |
| ReflectionSpec.DomKindCount | ReflectionChecker.py:246-482 | The first thirteen contexts are counted by the page's structural queries. |
| ReflectionSpec.PositiveSnoc | ReflectionChecker.py:250-532 | Testing one more context appends it exactly when its count is positive. |
| ReflectionSpec.ContextsForSplit | ReflectionChecker.py:240-532 | A trigger's contexts are the structural ones in test order, then the four message kinds. |
| ReflectionSpec.PositiveSound | ReflectionChecker.py:250-532 | Every reported context is a tested one, reported with its positive count. |
| ReflectionSpec.PositiveComplete | ReflectionChecker.py:250-532 | Every tested context with a positive count is reported. |
| ReflectionSpec.PositiveOrdered | ReflectionChecker.py:250-532 | Reported contexts keep the test order, so none is reported twice. |
| ReflectionSpec.OrderRanks | ReflectionChecker.py:240-532 | The test order is strictly increasing in rank and leaves out the wildcard. |
| ReflectionSpec.ContextsForSpec | ReflectionChecker.py:240-535 | For every context: reported with its count exactly when the count is positive, never the wildcard, and in test order. |
| ReflectionSpec.AnalysisSpec | ReflectionChecker.py:216-537 | Every result is for one of the searches, with that search's contexts, never empty. Every search seen in some context has a result, and no search has more results than it occurs in the searches. |
| ReflectionSpec.AnalysisInOrder | ReflectionChecker.py:240-537 | The results come in search order: the `j`-th is the `j`-th search seen in some context, with its contexts, and a search has a result exactly when some context sees it. |
| ReflectionSpec.FindFromSpec | ReflectionChecker.py:172-180 | With every trigger recorded, the search finds the first parameter carrying the trigger. It raises RuntimeError('Unable to find triggered parameter!') exactly when none does. |
| ReflectionSpec.RemoveAt | ReflectionChecker.py:177 | `del` removes exactly one element. |
| ReflectionSpec.RemoveAtStripped | ReflectionChecker.py:172-177 | Removing a parameter removes one copy of it from the multiset of stripped parameters. |
| ReflectionSpec.RemoveAtTriggers | ReflectionChecker.py:172-177 | Removing a parameter removes one copy of its trigger and keeps the others recorded. |
| ReflectionSpec.MarkReflectedStep | ReflectionChecker.py:172-178 | A successful step moves the first parameter carrying the result's trigger to the end of `params_reflected`, with the result's context labels. |
| ReflectionSpec.MigrateConserves | ReflectionChecker.py:539-564 | `run` neither loses nor invents parameters: the reflected and remaining ones, stripped, are a permutation of those `params_other` started with. |
| ReflectionSpec.MigrateReflected | ReflectionChecker.py:554-559 | The `j`-th reflected parameter carries the `j`-th result's trigger and that result's context labels. |
| ReflectionSpec.MigrateSucceeds | ReflectionChecker.py:554-559 | When the results' triggers are among the recorded triggers, every result finds a parameter of its own. The remaining triggers plus the used ones are then the original triggers. |
| ReflectionSpec.PayloadAvailable | ReflectionChecker.py:172-173 | The next result's trigger is still among the remaining parameters' triggers. |
| ReflectionSpec.MigrateErrPersists | ReflectionChecker.py:554-556 | Once a result fails, `run` raises that error. |
| ReflectionSpec.AnalysisMigrates | ReflectionChecker.py:539-564 | After the triggers are recorded, marking the analysed results never fails, whatever page the renderer returns. |
| ReflectionSpec.OutcomeOf | ReflectionChecker.py:79-95 | `load` passes exactly when the load function succeeds. |
| ReflectionSpec.LoadTriggers | ReflectionChecker.py:79-157 | After a successful GET or POST load, every parameter carries a nine-letter trigger, and the searches are those triggers in order. |
| ReflectionSpec.LoadThenMigrate | ReflectionChecker.py:539-564 | After a successful load, `run` moves every reflected parameter without raising, whatever the page. |
| ReflectionSpec.LoadedParams | ReflectionChecker.py:79-157 | After a successful GET or POST load, the searches are the drawn triggers in parameter order, every parameter carries its own, and nine draws were used per parameter. |
| ReflectionSpec.MigrateShapes | ReflectionChecker.py:554-561 | Moving keeps the shapes: from loaded entries (a delivery, a trigger, no contexts), every moved one has contexts and every remaining one still has none. |
| ReflectionSpec.LoadedMigrateShapes | ReflectionChecker.py:539-564 | After loading probed parameters, `run` leaves `params_reflected` with contexts and `params_other` without, all with a delivery and a trigger. |
| ReflectionChecking.ReflectionChecker.constructor | ReflectionChecker.py:42-57 | The checker holds the probe's object, no searches, an empty body and no headers, before `load`. |
| ReflectionChecking.ReflectionChecker.MakeTrigger | ReflectionChecker.py:182-190 | Returns the trigger made from the next nine draws and uses exactly nine draws. |
| ReflectionChecking.ReflectionChecker.Load | ReflectionChecker.py:79-95 | The checker's new state and outcome are the load function's. A request type other than GET or POST keeps the root as the URL and draws nothing. |
| ReflectionChecking.ReflectionChecker.LoadFieldsFromGet | ReflectionChecker.py:97-117 | A missing root raises AttributeError. Otherwise the URL, searches and recorded triggers are the GET load's. |
| ReflectionChecking.ReflectionChecker.GatherGetParams | ReflectionChecker.py:107-117 | The loop builds the GET probe URL, draws nine letters per parameter, and records each trigger on its parameter and in the searches. |
| ReflectionChecking.ReflectionChecker.GetTurn | ReflectionChecker.py:108-117 | One GET loop turn keeps the loop invariant and extends the URL by one pair. |
| ReflectionChecking.ReflectionChecker.AppendGetPair | ReflectionChecker.py:108-115 | Appending one pair to the GET URL gives the URL after one more parameter. |
| ReflectionChecking.ReflectionChecker.PostTurn | ReflectionChecker.py:134-151 | One POST loop turn matches one step of the POST loop function, raising where it raises. |
| ReflectionChecking.ReflectionChecker.AppendPostPair | ReflectionChecker.py:134-149 | Appending one pair to the POST URL or body is one step of the POST loop function, raising where it raises. |
| ReflectionChecking.ReflectionChecker.RecordTrigger | ReflectionChecker.py:116-117 | The turn's trigger is recorded on its parameter and appended to the searches. |
| ReflectionChecking.ReflectionChecker.LoadFieldsFromPost | ReflectionChecker.py:119-157 | A missing root raises AttributeError. Otherwise URL, body, searches, triggers and errors are the POST load's. |
| ReflectionChecking.ReflectionChecker.GatherPostParams | ReflectionChecker.py:131-157 | The loop ends in the POST load's outcome, URL and body, with every trigger recorded when it succeeds. |
| ReflectionChecking.ReflectionChecker.FinishPostRequest | ReflectionChecker.py:153-157 | Reading the URL's last character and trimming a trailing `&` from URL and body gives the POST probe request, or IndexError on an empty URL. |
| ReflectionChecking.ReflectionChecker.AnalyzeRenderedPageOutput | ReflectionChecker.py:216-537 | The results are the analysis of the page for the current searches. |
| ReflectionChecking.ReflectionChecker.ContextsOfSearch | ReflectionChecker.py:240-535 | The seventeen tests for one trigger give its contexts as `ContextsFor` states them. |
| ReflectionChecking.ReflectionChecker.CountContaining | ReflectionChecker.py:487-490 | A message loop counts the messages holding the trigger. |
| ReflectionChecking.ReflectionChecker.FindParameterAndMarkAsReflected | ReflectionChecker.py:159-180 | Finds the first parameter that carries the trigger, moves it with no contexts to the end of `params_reflected`, and returns its new index. Without one it raises RuntimeError and changes nothing. |
| ReflectionChecking.ReflectionChecker.RecordContexts | ReflectionChecker.py:557-559 | The context labels are appended, in order, to the contexts of the parameter at the index. |
| ReflectionChecking.ReflectionChecker.MarkOne | ReflectionChecker.py:555-559 | One result moves its parameter with that result's labels, as `MarkReflected` says. |
| ReflectionChecking.ReflectionChecker.MarkAllReflected | ReflectionChecker.py:554-561 | The outer loop leaves both lists as `Migrate` computes them, or raises its error. |
| ReflectionChecking.ReflectionChecker.Run | ReflectionChecker.py:539-564 | Renders once, analyses, and returns its shared object with `params_reflected` and `params_other` as `Migrate` of the analysis computes them. |
| ReflectionChecking.NewReflectionChecker | ReflectionChecker.py:42-57 | Construction succeeds or raises exactly as the load function does. On success the new checker's state is the loaded one. |
| XssMapPayloads.RewritePayloads | XssMapPayloads.py:142-147 | The in-place loop leaves each payload rewritten: the JavaScript placeholder replaced by the verification script. |
| XssMapPayloads.LoadPayloads | XssMapPayloads.py:25-147 | Loading the module gives a new array holding the rewritten catalogue. |
| XssMapPayloads.RewriteTemplate | XssMapPayloads.py:142-147 | A template with one placeholder and no `{` around it becomes the same texts around `alert({TRIGGERVAL})`. |
| XssMapPayloads.RewrittenHasNoPlaceholder | XssMapPayloads.py:142-147 | After the rewrite no JavaScript placeholder is left. |
| XssMapPayloads.RewrittenScriptOnce | XssMapPayloads.py:142-147 | After the rewrite the verification script occurs exactly once. |
| XssMapPayloads.AttackTemplate | XssScanner.py:266-267 | Substituting a trigger without `{` into a rewritten payload puts `alert(trigger)` in the attack and leaves no placeholder. |
| XssMapPayloads.RewriteEntry | XssMapPayloads.py:142-147 | A payload with one placeholder comes out of the rewrite with the script in its place, and verifying. |
| XssMapPayloads.RewriteEntryAny | XssMapPayloads.py:32-147 | Each of the fifteen payloads comes out of the rewrite loop verifying. |
| XssMapPayloads.CatalogScripts | XssMapPayloads.py:25-147 | The catalogue holds fifteen payloads, ids 1 to 15 in order, every one verifying. |
| XssMapPayloads.RawContexts | XssMapPayloads.py:32-140 | Every payload names at least one context, never the wildcard. |
| XssMapPayloads.CatalogContexts | XssMapPayloads.py:32-140 | Every targeted context is named by some payload. No payload names a context outside that set, so `idattrib`, `onattrib` and the four message kinds select nothing. |
| ScanSpec.ScanTriggerValue | XssScanner.py:193 | A drawn number lies in [100000000, 999999999). |
| ScanSpec.ScanTriggerDigits | XssScanner.py:185-193 | A scan trigger is nine digits without a leading zero that spell the drawn number, so it holds no `{`. |
| ScanSpec.MatchingSpec | XssScanner.py:260-261 | A payload passes the filter for a context exactly when it is in the catalogue and the context selects it. |
| ScanSpec.CandidatesSpec | XssScanner.py:259-261 | A payload reaches the id check exactly when it is in the catalogue and one of the parameter's contexts selects it. |
| ScanSpec.DedupSpec | XssScanner.py:258-265 | `used_payloads` guarantees no id is tried twice, only candidates are tried, and every candidate's id is tried. |
| ScanSpec.DedupDistinct | XssScanner.py:262-265 | Candidates with distinct ids are all tried, in order. |
| ScanSpec.MatchingGeneral | XssScanner.py:261 | The wildcard selects the whole catalogue, in order. |
| ScanSpec.PlanSpec | XssScanner.py:257-265 | A parameter's plan has distinct ids and only catalogue payloads its contexts select, and it covers every such payload's id. |
| ScanSpec.PlanWildcard | XssScanner.py:259-265 | The wildcard plan is the whole catalogue. |
| ScanSpec.PlanWildcardSize | XssScanner.py:259-265 | The wildcard plan tries fifteen payloads. |
| ScanSpec.PlanUntargeted | XssScanner.py:259-265 | A parameter reflected only in contexts no payload targets is not attacked. |
| ScanSpec.IndicationsSpec | XssScanner.py:216-243 | The `i`-th indication quotes, after the prefix and with the given certainty, the message at the `i`-th hit, and there is one per hit. With HitsSpec, that is one per message holding the trigger, in message order. |
| ScanSpec.HitsSpec | XssScanner.py:218-243 | The hits are exactly the messages holding the trigger, each once and in message order, and there are as many as the reflection check counts. |
| ScanSpec.AnalyzeSpec | XssScanner.py:195-245 | Without a search there are no results, with or without a page; a search without a page raises TypeError. With both, the results are one CERTAIN result per alert holding the trigger, then one PROBABLE per such execution error, then one per such console message, each list in message order and each quoting its message after its prefix. Prompts and confirms are not read. |
| ScanSpec.AttackPairsFree | XssScanner.py:102-111 | Attack pairs built from `&`-free parts hold no `&`. |
| ScanSpec.GetAttackUrlFusesParams | XssScanner.py:102-115 | As written, the GET attack URL holds no `&` at all, so its parameters fuse into one. |
| ScanSpec.GetAttackUrlJoinedRoundTrip | XssScanner.py:102-115 | With the pairs joined by `&`, probing the attack URL gives back every parameter under its own name. The ones under test carry the attack, the others their value. |
| ScanSpec.PartitionSpec | XssScanner.py:145-150 | Sorting raises KeyError('delivery') exactly when a parameter has no delivery. Otherwise the URL list is the input's `url` parameters and the body list its `body` ones, each in input order. |
| ScanSpec.TaggedSnoc | XssScanner.py:146-150 | Sorting one more parameter appends it to the list of its own delivery and to no other. |
| ScanSpec.PostAttackRequestErrors | XssScanner.py:141-176 | A missing delivery raises KeyError. A missing root raises TypeError. An empty root with no URL parameter raises IndexError. |
| ScanSpec.PartitionWithoutUrl | XssScanner.py:145-150 | Without `url` parameters the URL list is empty. |
| ScanSpec.AttemptSpec | XssScanner.py:266-285 | An attempt draws one trigger and keeps earlier findings. It adds exactly one finding per result of analysing the attack page, with that result's certainty and message, naming the parameter and its delivery with the attack. A parameter without a delivery adds none. A target type other than GET or POST raises TypeError. |
| ScanSpec.CopiesReport | XssScanner.py:278-285 | Findings that copy the analysis results' certainty and message one for one report the page: CERTAIN for each alert holding the trigger, then PROBABLE for each such error, then for each such console message, each quoting its message. |
| ScanSpec.AttemptReports | XssScanner.py:266-285 | The findings an attempt adds are exactly the report of its attack page for its trigger. |
| ScanSpec.AttemptCarries | XssScanner.py:266-285 | For a verifying payload, every finding an attempt adds names the parameter and carries `alert(trigger)`. |
| ScanSpec.AttemptGetSucceeds | XssScanner.py:266-285 | A GET attempt with a root, for a parameter with a delivery, never raises. |
| ScanSpec.AttemptsDraws | XssScanner.py:260-285 | A plan of `m` payloads uses `m` draws and keeps the earlier findings. |
| ScanSpec.AttemptsCarry | XssScanner.py:260-285 | Every finding a plan of verifying payloads adds is a finding for the parameter under test. |
| ScanSpec.PlanVerifying | XssScanner.py:259-267 | Every payload a parameter is attacked with is a verifying catalogue payload. |
| ScanSpec.CatalogVerifying | XssMapPayloads.py:25-147 | Every payload of the scanner's catalogue calls `alert` with whatever trigger is substituted. |
| ScanSpec.PlanInVerifying | XssScanner.py:259-267 | A plan drawn from a verifying catalogue holds only verifying payloads. |
| ScanSpec.ScanParamsDraws | XssScanner.py:257-287 | The run uses one draw per payload tried and keeps earlier findings. |
| ScanSpec.ScanParamsSound | XssScanner.py:257-287 | Every finding of the first `n` parameters is sound. |
| ScanSpec.AttemptsSound | XssScanner.py:257-285 | One more parameter's attempts keep every finding from the start on sound. |
| ScanSpec.ParamSound | XssScanner.py:258-285 | Every finding one parameter's attempts add names that parameter and its delivery and carries `alert` with a drawn trigger. |
| ScanSpec.SoundFromAll | XssScanner.py:281-285 | Soundness checked one finding at a time from the end is soundness of every finding from the given index on. |
| ScanSpec.SoundFromExtend | XssScanner.py:281-285 | Sound findings followed by sound appended findings are sound. |
| ScanSpec.ScanSound | XssScanner.py:247-287 | Every finding of a run names a reflected parameter and its delivery, and carries an attack that calls `alert` with a drawn trigger. |
| ScanSpec.AttemptsWithoutDelivery | XssScanner.py:281-285 | A parameter without a delivery tag adds no finding, whatever its plan. |
| ScanSpec.ScanWithoutDelivery | XssScanner.py:257-287 | Parameters that all lack a delivery tag are never reported: the run raises or adds nothing. |
| ScanSpec.ScanWithoutDeliveryCount | XssScanner.py:257-287 | Over parameters without a delivery the run's finding count stays where it started. |
| ScanSpec.ParamWithoutDelivery | XssScanner.py:258-285 | One such parameter's attempts add no finding. |
| ScanSpec.AttemptsUntyped | XssScanner.py:269-279 | Against a target that is neither GET nor POST, a plan raises TypeError at its first payload. |
| ScanSpec.ScanUntyped | XssScanner.py:257-287 | Against such a target, the run raises TypeError exactly when some parameter has a payload to try, and otherwise returns nothing. |
| ScanSpec.ScanUntypedNothing | XssScanner.py:257-265 | With nothing to try, the run returns its starting state. |
| ScanSpec.ScanUntypedRaises | XssScanner.py:257-279 | With something to try, the run raises TypeError at the first parameter that has a payload, and keeps it. |
| ScanSpec.FirstPlanned | XssScanner.py:257-265 | Some parameter has a payload to try: the first such one, with nothing to try before it. |
| ScanSpec.UntypedRaisesFirst | XssScanner.py:257-279 | Against an untyped target, the first parameter with a payload raises TypeError. |
| ScanSpec.NothingToTry | XssScanner.py:258-265 | A parameter with an empty plan leaves the run's state as it was. |
| ScanSpec.AttemptsGetSucceed | XssScanner.py:260-285 | A plan of GET attempts with a root, for a parameter with a delivery, never raises. |
| ScanSpec.ScanGetSucceeds | XssScanner.py:247-287 | A GET run with a root over parameters that all carry a delivery never raises. |
| ScanSpec.PlanPrefix | XssScanner.py:259-265 | What was tried part-way through the loops is a prefix of the whole plan. |
| ScanSpec.PlanErrPersists | XssScanner.py:259-285 | An error part-way through the loops is the error of the whole plan. |
| ScanSpec.AttemptsErrPersists | XssScanner.py:260-285 | A plan that raised keeps that error however it goes on. |
| ScanSpec.ScanParamsErrPersists | XssScanner.py:257-285 | A run that raised at some parameter keeps that error to the end. |
| ScanSpec.RaisedStays | XssScanner.py:257-285 | An error raised within the first `n` parameters is the run's result after any later number of them. |
| ScanSpec.ScanParamsAfter | XssScanner.py:257-287 | The attempts of the next parameter give the state after it, or, when they raise, the whole run's error. |
| XssScanning.XssScanner.constructor | XssScanner.py:39-51 | The scanner copies the target and both parameter lists and starts with no headers. |
| XssScanning.XssScanner.LoadNewParameters | XssScanner.py:73-84 | The target URL, type and both parameter lists are those of the object passed in. |
| XssScanning.XssScanner.MakeTrigger | XssScanner.py:185-193 | Returns the trigger for the next draw and uses exactly one draw. |
| XssScanning.XssScanner.RenderGetPage | XssScanner.py:86-120 | Renders the GET attack URL as built, with page events, or raises TypeError when the root is missing. |
| XssScanning.XssScanner.AppendAttackPairs | XssScanner.py:106-111 | The loop appends each parameter's attack pair, in order, with nothing between them. |
| XssScanning.XssScanner.AppendAttackPair | XssScanner.py:107-111 | One turn appends `name=attack` for the parameter under test and `name=value` for any other. |
| XssScanning.XssScanner.RenderPostPage | XssScanner.py:122-183 | Renders the POST attack URL and body as built and sets the form content type, or raises the error the build raises. |
| XssScanning.XssScanner.SortByDelivery | XssScanner.py:145-150 | The sorting loop gives the partition by delivery, or KeyError('delivery'). |
| XssScanning.XssScanner.BuildPostAttackUrl | XssScanner.py:138-165 | The attack URL is the root, `?` before the first URL pair, the pairs, less a trailing `&`. A missing root raises TypeError and an empty URL IndexError. |
| XssScanning.XssScanner.BuildPostAttackBody | XssScanner.py:167-176 | The attack body is the body pairs, less a trailing `&`. |
| XssScanning.XssScanner.TryPayload | XssScanner.py:266-285 | One loop body does what `Attempt` says: findings, draws and headers after, or the error. |
| XssScanning.XssScanner.AnalyzeRenderedPageOutput | XssScanner.py:195-245 | The three message loops give the analysis function's results, which AnalyzeSpec describes. |
| XssScanning.XssScanner.CollectIndications | XssScanner.py:218-243 | One message loop appends the indications for its list, in message order. |
| XssScanning.XssScanner.RecordResults | XssScanner.py:281-285 | Each result becomes a finding naming the parameter, its delivery and the attack, appended in order; a parameter without a delivery raises KeyError at the first result. |
| XssScanning.XssScanner.ConsiderPayload | XssScanner.py:261-285 | A payload the context selects and whose id is new is tried and its id recorded. Any other payload changes nothing. |
| XssScanning.XssScanner.AttackCandidate | XssScanner.py:260-285 | One catalogue entry keeps the payload loop's invariant, and an error is the error of the whole plan. |
| XssScanning.XssScanner.AttackContext | XssScanner.py:259-285 | The payload loop for one context extends the tried plan by that context's candidates, or raises the plan's error. |
| XssScanning.XssScanner.AttackParam | XssScanner.py:258-285 | The loops for one parameter end as `Attempts` over its plan. |
| XssScanning.XssScanner.AttackNext | XssScanner.py:257-287 | One turn of the outer loop continues the run's fold by one parameter, or its error is the whole run's error. |
| XssScanning.XssScanner.Run | XssScanner.py:247-287 | `run` returns exactly the findings of the whole-run fold, or its error, with draws and headers as it leaves them. |
| XssMapTool.SchemeCheckNeverRejects | XssMap.py:172-194 | As written, a URL of another scheme, such as `ftp://x.y`, passes the GET validity check. |
| XssMapTool.IsGetRequestValidIsLength | XssMap.py:183-194 | As written, the GET check accepts a URL exactly when it is present and at least seven characters long, whatever its scheme. |
| XssMapTool.GetRequestValidIntendedSpec | XssMap.py:172-194 | The intended check accepts exactly the URLs that start with `http://` or `https://`, and the written one accepts each of them. |
| XssMapTool.IsGetRequestValid | XssMap.py:183-194 | As written, the GET check accepts only a URL of at least seven characters, and accepts every `http://` or `https://` URL. |
| XssMapTool.PostRequestValidity | XssMap.py:196-223 | The POST check raises TypeError exactly when the URL passes and the body is missing, and is true exactly when the URL passes and every body character is in the form-encoded alphabet. |
| XssMapTool.IsFormEncoded | XssMap.py:216-223 | The body loop says valid exactly when every character is in the form-encoded alphabet. |
| XssMapTool.IsPostRequestValid | XssMap.py:196-223 | The POST check is a valid URL and a form-encoded body. A missing body raises TypeError. |
| XssMapTool.EmptyBodyValid | XssMap.py:196-223 | An empty body with a valid URL is valid. |
| XssMapTool.WildcardOf | XssMap.py:283-288 | Each copy keeps the name and value, takes only the wildcard context, and keeps the delivery only when asked. |
| XssMapTool.WildcardTried | XssMap.py:283-288 | Every wildcard parameter is attacked with the whole catalogue. |
| XssMapTool.WildcardDraws | XssMap.py:262-322 | A wildcard run uses fifteen triggers per probed parameter. |
| XssMapTool.WildcardGetNeverReports | XssMap.py:262-290 | As written, the GET wildcard scan never reports a finding. |
| XssMapTool.WildcardGetIntended | XssMap.py:262-290 | With the delivery copied, the GET wildcard scan of a probed URL never raises, and each finding is sound. |
| XssMapTool.AddXssResultsToOutput | XssMap.py:131-148 | The findings are copied, in order, into `xss_scan`. Nothing else in the output changes. |
| XssMapTool.AddReflectionResultsToOutput | XssMap.py:150-170 | Root, type and both parameter lists of the reflection result are copied into the output. Nothing else changes. |
| XssMapTool.AppendWildcards | XssMap.py:283-288 | The wildcard copies are appended, in order, to `params_reflected`. |
| XssMapTool.Probe | RequestVariableProbe.py:116-163 | Either probe, with its errors and its object. |
| XssMapTool.XssMap.constructor | XssMap.py:45-65 | The tool keeps both mode flags and starts with no checker and no scanner. |
| XssMapTool.XssMap.XssScan | XssMap.py:324-335 | A new scanner over the object runs to `Scan` of that object's configuration. |
| XssMapTool.XssMap.XssScanAllParams | XssMap.py:262-322 | Probe, copy every parameter as a wildcard, then scan: the result is `WildcardScan`. |
| XssMapTool.ReflectSucceeds | XssMap.py:225-260 | The reflection check fails exactly where the probe fails, or, for a POST, where the URL is empty (IndexError at its last character). |
| XssMapTool.ReflectIsMigrate | XssMap.py:225-260 | A successful reflection check is the move, by the analysis of the rendered probe page, of the probed parameters each carrying its drawn trigger. |
| XssMapTool.ReflectKeepsParams | XssMap.py:225-260 | The check neither loses nor invents a parameter: apart from contexts the two lists hold the probed parameters with their triggers, and nine draws are used per parameter. |
| XssMapTool.ReflectShapes | XssMap.py:225-260 | Every reflected parameter has a delivery, a trigger and some context; every other one a delivery, a trigger and no context. |
| XssMapTool.ReflectInOrder | XssMap.py:225-260 | The reflected parameters come in the order of the searches seen on the probe page, each with that search's trigger and contexts. |
| XssMapTool.DefaultSound | XssMap.py:85-127 | In the default mode a scan is reported exactly when scanning is on and some parameter is reflected, and every finding it reports is sound for the reflected parameters. |
| XssMapTool.DefaultGetSucceeds | XssMap.py:82-96 | A default-mode GET assessment fails exactly where the probe fails. |
| XssMapTool.XssMap.FindReflectedParams | XssMap.py:225-260 | Probe, load a checker and run it. A successful reflection check returns a new object with the probe's root and type whose two lists are those the check computes (`Reflect`); otherwise the probe's or the check's error. |
| XssMapTool.XssMap.Assess | XssMap.py:67-129 | An invalid request raises RuntimeError with the source's message and changes nothing; a missing URL raises TypeError instead, and so does a missing POST body. XSS-only mode returns exactly the wildcard scan's findings. Otherwise the result is `DefaultAssessment`: the reflection report of the check's two lists, and the scan of the reflected parameters when scanning is on and some parameter is reflected, or the first error. |
| XssMapTool.XssMap.AssessGetRequest | XssMap.py:67-96 | `assess_GET_request`: an invalid URL raises without change; XSS-only mode reports no findings; otherwise the result is the default assessment of the GET request, with type GET. |
| XssMapTool.XssMap.AssessPostRequest | XssMap.py:98-129 | `assess_POST_request`: a missing body raises TypeError and an invalid request RuntimeError, both without change. XSS-only mode returns the wildcard scan's findings; otherwise the result is the default assessment of the POST request, with type POST. |
| Strings.SplitOnce | RequestVariableProbe.py:65 | `split(sep, 1)`: the whole text when `sep` is absent. Otherwise the parts before and after its first occurrence, the first part free of `sep`. |
| Strings.JoinSplit | RequestVariableProbe.py:68 | Joining a split gives the text back. |
| Strings.SplitJoin | RequestVariableProbe.py:68 | Splitting a join of separator-free pieces gives the pieces back. |
| Strings.SplitPiecesFree | RequestVariableProbe.py:68 | No piece of a split holds the separator. |
| Strings.ReplaceOnce | XssMapPayloads.py:147 | Replacing the only occurrence of a pattern changes that occurrence and nothing else. |
| Strings.ReplaceAbsent | XssScanner.py:267 | Replacing an absent pattern leaves the text alone. |
| Strings.OccurrencesPositive | XssMapPayloads.py:147 | The occurrence count is positive exactly when the pattern occurs. |
| Strings.OccursOnce | XssMapPayloads.py:147 | A pattern marked by a character found nowhere else occurs exactly once. |
| Strings.TrimLast | ReflectionChecker.py:154-157 | Trimming drops one trailing character or nothing. |
| Strings.DecimalStringDigits | XssScanner.py:193 | `str(n)` for a nine-digit number is nine digits, denotes `n`, and has no leading zero. |

## Left out

- The render service (PageRenderAPI.py, the headless browser and the HTML
  parser) is a parameter. The thirteen structural queries of the reflection
  analysis (XPath over the page, the quoted-string regexes over its
  scripts) are one abstract count per trigger and context. Their exact
  XPath and regex semantics are not modelled.
- Python's `random` is a parameter read by draw index. Which letter or
  number a draw yields is the source's reduction of a raw value, not
  Python's generator.
- `add_headers` and `add_cookies` on the checker and the scanner, and the
  cookies and headers `XssMap` keeps, are not modelled. The render request
  carries the headers the scanner sets itself (the form content type).
  No cookie reaches the render service.
- `__get_and_prepare_request_inputs` (base64 encoding of the request for
  the render service) is not modelled: the render request carries the plain
  URL and body.
- The command line (`handle_input`, CommandLineUtils.py), the JSON output
  file and `JSON_VERSION` are I/O and are left out.
- ReflectionChecking.ReflectionChecker.Run: the object returned is the
  checker's own `data`. Aliasing between it and the probe's object is
  modelled by reference, but the fields of the parameter dictionaries are
  values, so an in-place write to a dictionary shared by two lists is not
  distinguished from a copy. The render service's own TypeError on a
  None URL (PageRenderAPI.py:87, `bytes(url, u)`) is not modelled either:
  an object with no type and no root renders with a None URL, which
  raises in the source, while the model's `Run` renders it through the
  `Renderer` parameter and returns Ok. Nor are the service's dropping of
  an empty body (line 89) and its forced POST Content-Type (lines 92-98)
  modelled; the `Renderer` receives the request as its callers build it.
- XssScanning.XssScanner.RenderPostPage: the model follows the source and
  adds no `&` between POST attack pairs either, in the URL or in the body.
  The corrected, `&`-joined form is modelled for GET only
  (ScanSpec.GetAttackUrlJoined).

## Findings

| source | as written | input that shows it | evidently intended | confidence | as-written member | corrected member |
|---|---|---|---|---|---|---|
| XssScanner.py:106-111 | GET attack pairs are appended with nothing between them, so the trailing `&` trim never fires and the parameters fuse | a GET request with two parameters `a=1` and `b=2`: the attack URL is `root?a=<attack>b=2` | pairs joined by `&`, so the page receives each parameter under its own name | high, not executed | ScanSpec.GetAttackUrlFusesParams | ScanSpec.GetAttackUrlJoinedRoundTrip |
| XssMap.py:191 | `pattern.match(url) is False` is never true (match returns a match object or None), so the scheme is never checked | `ftp://x.y` passes the GET and POST validity checks | reject URLs that do not start with `http://` or `https://` | high, not executed | XssMapTool.SchemeCheckNeverRejects | XssMapTool.GetRequestValidIntendedSpec |
| XssMap.py:283-288 with XssScanner.py:283 | the GET wildcard copy omits `delivery`, so the scanner's `param_reflected['delivery']` raises KeyError at the first indication | XSS-only mode on any GET URL whose page shows an alert with the trigger: the scan raises instead of reporting it | copy `delivery` as the POST branch (XssMap.py:318) does, so findings are reported | high, not executed | XssMapTool.WildcardGetNeverReports | XssMapTool.WildcardGetIntended |

# CampCompanion search core in Dafny

CampCompanion is a Streamlit application that searches Japanese campsites. The search
combines several sources:

- Google Places (the "new" API);
- a Custom Search web fallback;
- Gemini model answers.

This project models the deterministic record handling between those calls. It covers:

- merging and de-duplicating result lists;
- scoring and picking featured and popular records;
- keyword scans over queries, titles and descriptions;
- the fenced-JSON slicing that precedes every `json.loads`;
- normalising Places answers and the photo-URL cache;
- the map and result-list classifiers.

Within that core, every network, model or UI call becomes a parameter. The parameter is the converted
Places answer, the details dictionary, the HEAD outcome of a photo request, the model's
reply text with a decoder, or the web answer.

Conventions used throughout:

- A record dictionary is the datatype `Records.Campsite`. A key that may be missing is an
  `Option`, and a key read with `.get(k, default)` is a plain field holding the default.
- Ratings and scores are integers in tenths, so 4.5 is 45 and 0.7 is 7. A model
  `match_score` of 0..10 then adds `m` tenths, which is exactly `round(old + m/10, 1)`.
- Python's `k in text` is `Text.Contains`. `.lower()` is `Text.Lower`, which lowers ASCII
  only. `.strip()` is `Text.Strip`, which strips the characters for which Python's
  `str.isspace()` holds.
- `sorted(..., reverse=True)` is `Ordering.SortDesc`, a stable sort on an integer key.
- Loops that build state step by step are methods, each proved equal to a function. The
  properties are proved about that function. `get_place_photo_new`'s module-level cache is
  the class `PlacesApiNew.PhotoCache`, with a `map` field.

One module per core source file: `WebSearch`, `SearchAnalyzer`, `SearchEvaluator`,
`QueryAnalyzer`, `PlacesApiNew`, `IntegratedSearch`, `PlacesGeminiApi`,
`ParallelSearch`, `MapDisplay` and `ResultsDisplay`. Shared modules sit underneath:

- `Wrappers` for `Option`;
- `Text` for substrings, find, strip, filters and keyword scans;
- `Ordering` for the stable descending sort;
- `Records` for the campsite record and name keys;
- `JsonFence` for the slicing shared by three files.

Three behaviours of the code worth knowing:

- Fence slicing. When the opening fence is present but no closing fence follows, the slice
  runs to the end of the reply. The reply is not used whole in that case
  (`JsonFence.FenceSliceUnclosed`).
- Combining is not idempotent. `combine_search_results` rebuilds every popularity score
  from zero, so a second combination with nothing new erases the scores the first one
  gave (`WebSearch.CombineResetsPopularity`).
- Search without merging. `search_and_analyze` never calls `combine_search_results`. The
  live pipeline de-duplicates by `place_id` only (`ParallelSearch.Search`).

## Model

| member | source | states |
|---|---|---|
| Ordering.SortDesc | utils/integrated_search.py:51 | the sorted list is a permutation of the input, of the same length, in descending key order |
| Ordering.SortDescStable | utils/web_search.py:429 | records with equal keys keep their relative order, as Python's stable `sorted` does |
| JsonFence.FenceSliceWithoutFence | utils/search_analyzer.py:103-109 | a reply without the opening fence is parsed whole |
| JsonFence.FenceSlicePiece | utils/search_analyzer.py:103-109 | the parsed text is the whole reply or the stripped piece right after the first opening fence, holding no closing fence |
| JsonFence.FenceSliceOfFenced | utils/search_evaluator.py:128-134 | a fenced body is recovered exactly (stripped), whatever follows the closing fence |
| JsonFence.FenceSliceUnclosed | utils/query_analyzer.py:90-96 | with no closing fence the slice runs to the end of the reply |
| WebSearch.VocabulariesHaveNoDuplicates | utils/web_search.py:277-336 | the facility and feature vocabularies list each word once |
| WebSearch.ExtractRegionFromText | utils/web_search.py:197-263 | the result is "" or the first prefecture in list order that occurs in the text; any prefecture occurring gives a non-empty region |
| WebSearch.ExtractFacilitiesFromText | utils/web_search.py:266-300 | exactly the facility words occurring in the text, in vocabulary order, each once |
| WebSearch.ExtractFeaturesFromText | utils/web_search.py:303-344 | exactly the feature words occurring in the text, in vocabulary order, each once |
| WebSearch.CleanName | utils/web_search.py:97-98 | the cleaned title holds no `\|` or `-` and no outer whitespace, only characters of the title before its first `\|` and then its first `-`; without the three deleted words it is exactly that part stripped |
| WebSearch.CleanNameKeepsPlainTitle | utils/web_search.py:97-98 | a title with no separator, no outer whitespace and none of the deleted words is its own cleaned name |
| WebSearch.ImageUrlIsNotBlank | utils/web_search.py:117 | an accepted image URL is never blank |
| WebSearch.CollectedImages | utils/web_search.py:113-164 | the collected images are exactly the valid http(s) candidates, each once |
| WebSearch.FirstImages | utils/web_search.py:113-136 | the `cse_image` / `cse_thumbnail` steps add their first valid, new source; the main image is the first collected |
| WebSearch.AddMetatagImages | utils/web_search.py:139-164 | the metatag loop appends each valid og:image and twitter:image not yet collected, in order |
| WebSearch.CollectImages | utils/web_search.py:110-164 | the loops collect `CollectedImages`, and a main image is the first collected one |
| WebSearch.KeepImageUrls | utils/web_search.py:173-176 | the final pass keeps exactly the collected images that pass the image check |
| WebSearch.ExtractCampsiteData | utils/web_search.py:81-194 | the method builds the record `WebCampsite` gives |
| WebSearch.PlaceholderIsImageUrl | utils/web_search.py:170 | the placeholder image itself passes the image check |
| WebSearch.FirstFiveImages | utils/web_search.py:189 | the first five of distinct valid URLs are distinct valid URLs taken from them |
| WebSearch.WebCampsiteShape | utils/web_search.py:166-194 | a web record is tagged "web_search", has no rating or address, at most five distinct http(s) photos from the hit, and its image is the first photo or the placeholder |
| WebSearch.FillFalsyIdempotent | utils/web_search.py:409-411 | filling falsy fields twice from the same record changes nothing more |
| WebSearch.FillFalsyFromBlank | utils/web_search.py:409-411 | filling from an all-falsy record changes nothing; filling an all-falsy record copies the other |
| WebSearch.Absorb | utils/web_search.py:399-411 | an absorbing record is marked multi-source, carries the new count and popularity, keeps its name, and its source gains the new tag only when not already a substring |
| WebSearch.AbsorbKeepsKey | utils/web_search.py:409-411 | absorbing never changes the record's lower-cased name |
| WebSearch.Merged | utils/web_search.py:380-420 | the merge keeps every existing record and adds at most one record per new one |
| WebSearch.CountExisting | utils/web_search.py:363-377 | the first loop's dictionary counts each named existing record and remembers its first index |
| WebSearch.MergeIncoming | utils/web_search.py:383-420 | the second loop yields the merged list and keeps the dictionary describing it |
| WebSearch.MergeOne | utils/web_search.py:384-420 | one pass of the second loop extends the merge by one new record and preserves the dictionary invariant |
| WebSearch.MergedSkipsUnnamed | utils/web_search.py:384-386 | a new record with an empty name changes nothing |
| WebSearch.MergedAbsorbsDuplicate | utils/web_search.py:388-411 | a new record whose name is present is absorbed into the first record of that name, and no other record changes |
| WebSearch.MergedAppendsNew | utils/web_search.py:412-420 | a new record with an unseen name is appended unchanged |
| WebSearch.ApplyPopularity | utils/web_search.py:423-426 | the third loop writes each record's key popularity into it, position by position |
| WebSearch.CombineSearchResults | utils/web_search.py:347-432 | the three loops, sort and cut compute the combination `Combined` gives |
| WebSearch.MergedKeys | utils/web_search.py:380-420 | a non-empty name is in the merge exactly when it is in one of the inputs |
| WebSearch.MergedShape | utils/web_search.py:380-420 | the existing records come first under their names; every later record is named, first with its key, and new to the existing list |
| WebSearch.DuplicateHolder | utils/web_search.py:388-401 | a name met again among the new records marks its first record multi-source, with the total count and 3 per duplicate as popularity |
| WebSearch.CombinedShape | utils/web_search.py:428-432 | at most `max_results` records, drawn from the merged list, by descending popularity, ties in merged order |
| WebSearch.CombineWithNothing | utils/web_search.py:423-432 | combining with no new records resets named popularity to 0; with all scores 0 it returns the first `max_results` existing records in order |
| WebSearch.CombineResetsPopularity | utils/web_search.py:376 | a record with popularity 3 comes back with 0, so combining is not idempotent |
| SearchAnalyzer.AnalysedDictKeys | utils/search_analyzer.py:150 | the name dictionary has no empty key, and each key is the lower-cased name of its entry |
| SearchAnalyzer.DictOrderKeys | utils/search_analyzer.py:150 | the key order lists each dictionary key exactly once |
| SearchAnalyzer.DictLastWins | utils/search_analyzer.py:150 | each key holds the last analysed entry with that name |
| SearchAnalyzer.MergeRecord | utils/search_analyzer.py:163-194 | the overlay changes only description, lists, highlights and best-for; the description changes only to a non-empty longer one; a non-empty highlight or best-for wins; a non-empty analysed description replaces an empty or shorter one and otherwise the original stays |
| SearchAnalyzer.MergeRecordLists | utils/search_analyzer.py:173-187 | merged features and facilities are the original list followed by the analysed items it lacked, with no new duplicates |
| SearchAnalyzer.NewCampsite | utils/search_analyzer.py:206-218 | a leftover entry becomes a "gemini_analysis" record with rating and review count 0, keeping its name and lists |
| SearchAnalyzer.MergeWithOriginalResults | utils/search_analyzer.py:134-221 | the method computes the merge `MergedResults` gives |
| SearchAnalyzer.OverlayOriginals | utils/search_analyzer.py:155-202 | each original takes at most its name's entry, which is then removed; the remaining entries are exactly those no original names |
| SearchAnalyzer.LeftoversOfAnalysed | utils/search_analyzer.py:204-219 | the appended records are, in dictionary order, one fresh "gemini_analysis" record for each key no original carries and for no other |
| SearchAnalyzer.LeftoversAreUnmatched | utils/search_analyzer.py:204-219 | the leftovers are, position by position, the new records of the unmatched keys in key order |
| SearchAnalyzer.MergedResultsShape | utils/search_analyzer.py:145-221 | nothing analysed leaves the originals unchanged; otherwise each original keeps its place, overlaid with its name's entry when it is the first with that name and unchanged otherwise, followed by the leftover records in key order |
| SearchAnalyzer.MergedResultsOverlay | utils/search_analyzer.py:155-202 | an original is overlaid with its entry exactly when it is the first with that key, and otherwise is unchanged |
| SearchAnalyzer.MergedResultsAppended | utils/search_analyzer.py:204-219 | after the originals come exactly the leftover records |
| SearchAnalyzer.AnalyzeSearchResults | utils/search_analyzer.py:45-131 | no key, no results or no reply give the raw list; an undecodable reply falls back; a decoded reply is merged and its featured list and summary are returned (empty when missing), and nothing is lost |
| SearchEvaluator.ApplyEval | utils/search_evaluator.py:141-154 | an evaluation with an index outside the evaluated head changes nothing |
| SearchEvaluator.ApplyEvalsEffect | utils/search_evaluator.py:141-154 | a record no evaluation names is untouched; a named one scores its old score plus the sum of its match scores, and only evaluation fields change |
| SearchEvaluator.SumMatchesMonotone | utils/search_evaluator.py:149 | raising one match score never lowers any record's sum |
| SearchEvaluator.RaisingMatchNeverLowersScore | utils/search_evaluator.py:145-152 | raising a match score never lowers the new score of the record it names |
| SearchEvaluator.Evaluation | utils/search_evaluator.py:46-173 | no key, an empty list, no reply or an undecodable reply return the input; the length is always kept |
| SearchEvaluator.EvaluateSearchResults | utils/search_evaluator.py:26-173 | the method computes the evaluation; a decoded reply gives the sorted evaluated head and the untouched tail |
| SearchEvaluator.EvaluatedShape | utils/search_evaluator.py:156-163 | the head is sorted by descending score and a permutation of the evaluated records; the tail is the input's tail |
| SearchEvaluator.EvaluatedWithoutEvals | utils/search_evaluator.py:156-163 | with no evaluations an already sorted head is returned as it was |
| SearchEvaluator.GenerateSearchSummary | utils/search_evaluator.py:200-205 | no key, no records or a failed model call give "" |
| SearchEvaluator.SummaryReadsOnlyHead | utils/search_evaluator.py:205 | records past the first `max_results` never influence the summary |
| QueryAnalyzer.StructuredQuery | utils/query_analyzer.py:252-254 | the query gains " キャンプ場" exactly when it lacks the word |
| QueryAnalyzer.BasicQueryAnalysis | utils/query_analyzer.py:127-269 | the three scans compute the fallback analysis |
| QueryAnalyzer.FirstKeywordIn | utils/query_analyzer.py:236-239 | the scan with `break` finds the first vocabulary word in the query, or "" |
| QueryAnalyzer.KeywordsIn | utils/query_analyzer.py:242-249 | the collecting scan finds exactly the vocabulary words in the query, in order |
| QueryAnalyzer.BasicAnalysisLocation | utils/query_analyzer.py:236-239 | the location is the first location keyword in list order found in the query, else "" |
| QueryAnalyzer.StructuredQueryShape | utils/query_analyzer.py:252-254 | the structured query always names キャンプ場, equals the query iff the query does, and is idempotent |
| QueryAnalyzer.FujiWorkedCase | utils/query_analyzer.py:138-261 | "富士山が見える静かなキャンプ場" gives location 富士山, features including 見える, 静か and 山, no facilities, weights 5/5/0 |
| QueryAnalyzer.FujiLocation | utils/query_analyzer.py:138-239 | the worked query's first location hit is 富士山 |
| QueryAnalyzer.FujiFeatures | utils/query_analyzer.py:194-244 | the worked query's feature hits include 見える, 静か and 山 |
| QueryAnalyzer.FujiFacilities | utils/query_analyzer.py:216-249 | the worked query names no facility |
| QueryAnalyzer.Coerce | utils/query_analyzer.py:100-115 | a dictionary is used; a list is used by its first element when that is a dictionary; anything else falls back |
| QueryAnalyzer.AnalyzeQuery | utils/query_analyzer.py:41-124 | no key, no reply or an unusable reply give the fallback analysis; a decoded dictionary wins |
| QueryAnalyzer.FencedDictionaryWins | utils/query_analyzer.py:89-115 | a fenced reply decoding to a dictionary yields exactly that analysis |
| PlacesApiNew.MediaUrl | utils/places_api_new.py:48-57 | the built URL is the `places.googleapis.com/v1/<name>/media?key=` address of the photo |
| PlacesApiNew.PhotoCache.constructor | utils/places_api_new.py:23 | the cache starts empty |
| PlacesApiNew.PhotoCache.GetPlacePhoto | utils/places_api_new.py:28-84 | a hit is answered from the cache; no key gives none; 200 caches the final URL; another status returns the built URL uncached; a failed request caches the built URL; entries are never changed |
| PlacesApiNew.TruthyNamesMembers | utils/places_api_new.py:476-480 | the kept photo names are exactly the present, non-empty ones |
| PlacesApiNew.PhotoNamesShape | utils/places_api_new.py:476-480 | at most six names, exactly the non-empty ones among the first six entries |
| PlacesApiNew.PlaceRecord | utils/places_api_new.py:416-521 | falsy details give the basic record with empty lists and the search location, price level and status; otherwise rating, review count, location, price level and status prefer the details value and fall back to the search value, facilities are the amenities, features and description come from `aboutThisPlace`, website and phone from details, and each review is the converted details review |
| PlacesApiNew.PlaceRecords | utils/places_api_new.py:412-529 | one record per named place |
| PlacesApiNew.ConvertPlacesToAppFormat | utils/places_api_new.py:380-534 | the loop computes the conversion `Converted` gives |
| PlacesApiNew.ConvertedRefused | utils/places_api_new.py:394-409 | a non-dictionary, an error answer, or a missing or empty `places` list converts to nothing |
| PlacesApiNew.ConvertedShape | utils/places_api_new.py:412-534 | exactly the named places convert, in order, each to a "places_api_new" record with its name, id and at most six photos |
| PlacesApiNew.ConvertedNamed | utils/places_api_new.py:412-421 | the places converted are exactly those of the response with a non-empty name, in response order |
| PlacesApiNew.ConvertedRecords | utils/places_api_new.py:416-521 | each record carries its place's name and id, the "places_api_new" tag and at most six photos |
| PlacesApiNew.SetLabelsExact | utils/places_api_new.py:547-594 | a label is listed exactly when its flag is set, each once |
| PlacesApiNew.ExtractPaymentOptions | utils/places_api_new.py:537-561 | the appending method lists the payment labels of the set flags |
| PlacesApiNew.ExtractParkingOptions | utils/places_api_new.py:564-594 | the appending method lists the parking labels of the set flags |
| PlacesApiNew.PaymentOptionsExact | utils/places_api_new.py:549-561 | each payment label appears iff its flag is true, in fixed order, once |
| PlacesApiNew.ParkingOptionsExact | utils/places_api_new.py:576-594 | each parking label appears iff its flag is true, in fixed order, once |
| PlacesApiNew.SetLabelsSubsequence | utils/places_api_new.py:547-594 | the listed labels keep the fixed label order |
| PlacesApiNew.FormatOpeningHours | utils/places_api_new.py:597-624 | no hours give the empty result; otherwise exactly the present keys are copied, unchanged |
| IntegratedSearch.GenerateDescription | utils/integrated_search.py:166-198 | the `+=` method builds the description `Description` gives |
| IntegratedSearch.DescriptionOpensWithName | utils/integrated_search.py:182 | every description opens with the name followed by は |
| IntegratedSearch.DescriptionMentionsAtMostThree | utils/integrated_search.py:189-193 | only the first three features and facilities influence the text |
| IntegratedSearch.DescriptionQuerySentence | utils/integrated_search.py:195-196 | the query sentence is appended exactly when the query is non-empty and lacks キャンプ場; otherwise the query has no influence |
| IntegratedSearch.FilledRegion | utils/integrated_search.py:77-78 | a set region is never changed; an empty one takes the region extracted from the address, a prefecture of the address when one occurs, and stays empty without an address |
| IntegratedSearch.FilledDescription | utils/integrated_search.py:81-82 | a set description is kept; an empty one becomes the generated description, which opens with the name, and stays empty for an unnamed record |
| IntegratedSearch.FilledFacilities | utils/integrated_search.py:85-86 | a set facility list is kept; an empty one becomes exactly the facility keywords found in the description, and stays empty without one |
| IntegratedSearch.FilledFeatures | utils/integrated_search.py:89-90 | a set feature list is kept; an empty one becomes exactly the feature keywords found in the description, and stays empty without one |
| IntegratedSearch.EnhancedSiteKeeps | utils/integrated_search.py:75-90 | only the four fields change, only when empty; a named record ends with a description opening with its name |
| IntegratedSearch.EnhancedSiteFills | utils/integrated_search.py:75-90 | an empty region takes the address's region, an empty description of a named record the generated one built with that region, and empty lists the keyword hits of the resulting description |
| IntegratedSearch.EnhanceSite | utils/integrated_search.py:76-90 | the in-place updates of one record give the enhanced record |
| IntegratedSearch.FillRegionStep | utils/integrated_search.py:77-78 | the region step gives the filled region |
| IntegratedSearch.FillDescriptionStep | utils/integrated_search.py:81-82 | the description step gives the filled description |
| IntegratedSearch.FillFacilitiesStep | utils/integrated_search.py:85-86 | the facility step gives the filled facility list |
| IntegratedSearch.FillFeaturesStep | utils/integrated_search.py:89-90 | the feature step gives the filled feature list |
| IntegratedSearch.EnhanceSearchResults | utils/integrated_search.py:61-94 | the same number of records, each the enhancement of the record at its position |
| IntegratedSearch.FilledSiteUnchanged | utils/integrated_search.py:75-90 | a record whose four fields are set, or have no source, is left as it is |
| IntegratedSearch.EnhanceSettles | utils/integrated_search.py:75-90 | enhancing an enhanced record changes nothing more when its lists ended non-empty |
| IntegratedSearch.SearchCampsitesIntegrated | utils/integrated_search.py:13-54 | the method computes the integrated list: Places records, combined with the web ones when consulted, sorted and cut |
| IntegratedSearch.IntegratedShape | utils/integrated_search.py:36-54 | at most `max_results` records by descending rating, only Places records unless the web was consulted (fewer than `max_results` Places records) and answered |
| PlacesGeminiApi.Backfill | utils/places_gemini_api.py:45-56 | the backfill keeps the Places records as a prefix |
| PlacesGeminiApi.BackfillCapped | utils/places_gemini_api.py:54-56 | the list never grows past 10 |
| PlacesGeminiApi.BackfillUnseen | utils/places_gemini_api.py:50-52 | an added record's name was not present before |
| PlacesGeminiApi.BackfillDistinct | utils/places_gemini_api.py:49-52 | the added records have distinct names |
| PlacesGeminiApi.BackfillFromGemini | utils/places_gemini_api.py:49-51 | the added records are Gemini records, in their order |
| PlacesGeminiApi.BackfillComplete | utils/places_gemini_api.py:49-56 | below the cap, every Gemini name ends up present |
| PlacesGeminiApi.SearchCampsitesPlacesGemini | utils/places_gemini_api.py:33-59 | the method computes the backfilled list sorted by rating |
| PlacesGeminiApi.BackfillGemini | utils/places_gemini_api.py:45-56 | the loop with `break` computes the backfill |
| PlacesGeminiApi.BackfillShape | utils/places_gemini_api.py:41-56 | Places records first, at most 10 in all, additions from Gemini in order with fresh distinct names |
| PlacesGeminiApi.BackfillKeepsEveryName | utils/places_gemini_api.py:49-56 | below the cap every Gemini name is represented |
| PlacesGeminiApi.PlacesGeminiShape | utils/places_gemini_api.py:41-59 | the result is sorted by rating, a permutation of the backfilled list; with three or more Places records, of the Places list |
| PlacesGeminiApi.GetPriceLevelText | utils/places_gemini_api.py:187-195 | a known code gives its text, anything else 料金情報なし |
| PlacesGeminiApi.PriceLevelTextExact | utils/places_gemini_api.py:187-195 | 料金情報なし exactly for unknown codes, and distinct codes give distinct texts |
| PlacesGeminiApi.CaselessHitsShape | utils/places_gemini_api.py:249-252 | the hits are the vocabulary words found ignoring ASCII case, in vocabulary order, each once |
| PlacesGeminiApi.ExtractFeaturesFromDescription | utils/places_gemini_api.py:248-255 | at most five features |
| PlacesGeminiApi.ExtractedFeaturesShape | utils/places_gemini_api.py:248-255 | the features are the first five case-insensitive hits in vocabulary order (all of them when fewer) |
| PlacesGeminiApi.CaselessHitsIgnoreCase | utils/places_gemini_api.py:251 | lower-casing the text first changes nothing |
| PlacesGeminiApi.GetPlacePhoto | utils/places_gemini_api.py:269-272 | none exactly without a key or reference, otherwise the media URL for the reference |
| PlacesGeminiApi.GetPlacePhotoInjective | utils/places_gemini_api.py:272 | distinct references never share a URL |
| ParallelSearch.SearchPlacesApi | utils/parallel_search.py:84-103 | an error answer gives none; otherwise the converted records |
| ParallelSearch.DedupById | utils/parallel_search.py:208-218 | the loop over `seen_ids` computes the de-duplication `Dedup` gives |
| ParallelSearch.DedupIdsPresent | utils/parallel_search.py:209-218 | every kept record has a non-empty place id |
| ParallelSearch.DedupDistinct | utils/parallel_search.py:209-218 | no place id is kept twice |
| ParallelSearch.DedupCovers | utils/parallel_search.py:209-218 | every non-empty input id is kept |
| ParallelSearch.DedupSubsequence | utils/parallel_search.py:209-218 | the kept records keep input order |
| ParallelSearch.DedupFirstSeen | utils/parallel_search.py:209-218 | each kept record is the first input record with its id |
| ParallelSearch.Search | utils/parallel_search.py:132-237 | the method computes the gathered, de-duplicated list with the web fallback |
| ParallelSearch.WithNearbyShape | utils/parallel_search.py:190-200 | only nearby records with an unseen id are added, after the others, and "nearby" is tagged at most once |
| ParallelSearch.ParallelSearchShape | utils/parallel_search.py:208-235 | the web answer is used exactly when nothing survives de-duplication and it is non-empty; otherwise the de-duplicated list |
| ParallelSearch.GatheredSources | utils/parallel_search.py:158-200 | before the fallback the tags are only places_api and nearby, each at most once |
| ParallelSearch.SourcesNoRepeat | utils/parallel_search.py:158-230 | no source tag appears twice |
| ParallelSearch.DedupShape | utils/parallel_search.py:209-218 | kept ids are present and unique, kept records are in input order, and every input id survives |
| ParallelSearch.PlacesErrorContributesNothing | utils/parallel_search.py:158-178 | an error answer from Places contributes exactly what an empty answer does |
| ParallelSearch.ReviewSliceAsWrittenCounterexample | utils/parallel_search.py:538-542 | a reply without the opening fence is still sliced, as written |
| ParallelSearch.ReviewSliceAgreesWithFence | utils/parallel_search.py:538-542 | with an opening fence present, the code as written and the corrected slice agree |
| ParallelSearch.ReviewSliceShape | utils/parallel_search.py:538-542 | the corrected slice exists only with an opening fence, and is the stripped text after the first one up to the next closing fence |
| ParallelSearch.AnalyzeLocally | utils/parallel_search.py:585-722 | the step-by-step fallback computes the rule-based analysis |
| ParallelSearch.AddTrends | utils/parallel_search.py:668-684 | the scenery checks append their trends to the list |
| ParallelSearch.LocalAnalysisShape | utils/parallel_search.py:638-709 | trends open with the rating band then the review-count band; at most ten features; the summary opens with the name and the rating sentence |
| ParallelSearch.LocalFeaturesFromExtracted | utils/parallel_search.py:585-639 | whatever order the set gives, the listed features are extracted ones, none twice |
| ParallelSearch.RatingTrendBands | utils/parallel_search.py:645-654 | each rating text is given for exactly its band (4.5 / 4.0 / 3.5 / 3.0) |
| ParallelSearch.PopularityTrendBands | utils/parallel_search.py:657-666 | each review-count text is given for exactly its band (1000 / 500 / 100 / 10) |
| ParallelSearch.ReviewAnalysisChoice | utils/parallel_search.py:476-565 | with the corrected slice: a decoded reply wins; no reply, or one without the opening fence, leaves the rule-based analysis |
| ParallelSearch.SceneryTrendsPrefix | utils/parallel_search.py:668-682 | the scenery checks only append |
| ParallelSearch.PresentNames | utils/parallel_search.py:408-412 | exactly the photo entries' present names |
| ParallelSearch.UrlsFor | utils/parallel_search.py:419-423 | only non-empty URLs, each the lookup of a given name |
| ParallelSearch.CollectNames | utils/parallel_search.py:408-412 | the loop collects the present names |
| ParallelSearch.FetchUrls | utils/parallel_search.py:419-423 | the loop fetches from at most the first six names |
| ParallelSearch.FetchPhotosForCampsite | utils/parallel_search.py:385-449 | the method copies the detail links and fetches the URLs `FetchedUrls` gives |
| ParallelSearch.CopyLinks | utils/parallel_search.py:401-405 | the record takes the links the details carry |
| ParallelSearch.FetchAllUrls | utils/parallel_search.py:407-445 | details names first, the record's own names only when those gave nothing |
| ParallelSearch.FetchedUrlsShape | utils/parallel_search.py:407-445 | at most six non-empty URLs from the first six names; the record's own names count only when the details gave no URL |
| ParallelSearch.DetailNamesExact | utils/parallel_search.py:408-412 | a name is taken exactly when a photo entry carries it |
| ParallelSearch.AttachPhotos | utils/parallel_search.py:318-339 | every displayed record gets its photo step, the others are untouched |
| ParallelSearch.AttachReviews | utils/parallel_search.py:343-364 | every displayed record gets its review step, the others are untouched |
| ParallelSearch.AnalyzeReviews | utils/parallel_search.py:452-730 | the method computes the review analysis, using the corrected slice |
| ParallelSearch.SearchAndAnalyze | utils/parallel_search.py:248-383 | the method computes the bundle, using the corrected slice |
| ParallelSearch.FeaturedShape | utils/parallel_search.py:292-295 | at most three featured records, each scoring at least 0.7, best first, from the results; with fewer than three, all such records; no record left out scores above one shown |
| ParallelSearch.PopularShape | utils/parallel_search.py:298 | the three (or fewer) records with most reviews, most first; no record left out has more reviews than one shown |
| ParallelSearch.EnrichedFrame | utils/parallel_search.py:310-359 | enrichment writes only links, photos, review summary and recommendation, and only for displayed records |
| ParallelSearch.AnalyzedResults | utils/parallel_search.py:310-359 | results keep their count and positions; undisplayed records are unchanged; a displayed record with URLs shows them and the first as its image, one without URLs keeps its photos and image |
| ParallelSearch.EnrichedPhotos | utils/parallel_search.py:318-339 | a displayed record shows the fetched URLs and the first as its image, or keeps its own when none came |
| ParallelSearch.ShownAmongResults | utils/parallel_search.py:377-382 | the featured and popular records are records of the results as returned |
| ParallelSearch.SearchAnalyzedShape | utils/parallel_search.py:268-274 | an empty search gives the fixed no-results bundle; results keep their count; no key gives an empty summary |
| MapDisplay.FilterValidLocations | components/map_display.py:25-48 | the loop keeps the records `ValidLocations` gives and rewrites the caller's list in place |
| MapDisplay.LocateSite | components/map_display.py:28-48 | one pass keeps a record exactly when it locates, and gives its normalised form |
| MapDisplay.LocatedShape | components/map_display.py:29-48 | a kept record has a `lat`/`lng` location with truthy values, and nothing else changes |
| MapDisplay.LocatedExactly | components/map_display.py:29-48 | which records are kept, pair by pair, and the coordinates the rewrite carries |
| MapDisplay.LocationDictShadowsTopLevel | components/map_display.py:29-45 | a location dictionary lacking both shapes, or holding falsy latitude/longitude, drops the record whatever else it has |
| MapDisplay.ValidLocationsShape | components/map_display.py:25-48 | the kept list is no longer than the input, holds rewrites of input records, all with truthy `lat`/`lng` |
| MapDisplay.ValidLocationsMembers | components/map_display.py:25-48 | every input record with usable coordinates is kept |
| MapDisplay.MarkerColorBands | components/map_display.py:67-77 | each colour is given for exactly its rating band |
| MapDisplay.MarkerColorMonotone | components/map_display.py:67-77 | a better rating never gets a lower colour band |
| MapDisplay.MarkerRadius | components/map_display.py:79-84 | the radius never exceeds 20, is 10 without a score and 10 + score/2 below the cap |
| MapDisplay.MarkerRadiusMonotone | components/map_display.py:80-82 | a higher score never gives a smaller marker |
| ResultsDisplay.TitlePrefix | components/results_display.py:29-34 | no prefix exactly for an unfeatured, unpopular, single-source record |
| ResultsDisplay.TitlePrefixExact | components/results_display.py:29-34 | 🌟 exactly when featured; 🔥 exactly when popular or multi-source but not featured |
| ResultsDisplay.IconIsFirstMatch | components/results_display.py:49-65 | the title icon is that of the first recommended style, none when no style matches |
| ResultsDisplay.IconFirstInOrder | components/results_display.py:49-65 | a style's icon is shown exactly when it matches and no earlier style does |
| ResultsDisplay.TagMatches | components/results_display.py:249-265 | a style's feature tag alone gives its recommendation line |
| ResultsDisplay.SourceCountShown | components/results_display.py:236-243 | "N件のソースで検出" appears exactly for an unfeatured popular or multi-source record with more than one source |
| ResultsDisplay.FeaturedLineLacksPhrase | components/results_display.py:237 | the featured line never shows the source count |
| ResultsDisplay.PopularLineLacksPhrase | components/results_display.py:243 | the plain popular line never shows the source count |
| ResultsDisplay.Grouped | components/results_display.py:443 | the grouped text is digits and commas, starting with a digit; its layout is given by `GroupedLayout` and `GroupedDigits` |
| ResultsDisplay.GroupedLayout | components/results_display.py:443 | a comma stands exactly before each group of three digits counted from the right, and nowhere else |
| ResultsDisplay.GroupedDigits | components/results_display.py:443 | with its commas taken out, the grouped text is the plain decimal of the number |
| ResultsDisplay.GroupedRoundTrip | components/results_display.py:443 | reading the grouped digits back, commas skipped, gives the number |
| ResultsDisplay.FormatPriceRoundTrip | components/results_display.py:442-445 | an integer shows as ¥, its digits grouped in threes by commas (the grouped text reads back as the number) and /泊 (a minus first when negative); anything else is returned unchanged |

## Findings

| source | as written | input that shows it | evidently intended | confidence | as-written member | corrected member |
|---|---|---|---|---|---|---|
| utils/parallel_search.py:538-541 | `json_start = response.find("```json") + 7` is at least 6, so `json_start != -1` always holds | a reply of the form `reply: {}` followed by a closing fence and no opening fence is sliced from position 6 to `{}` and decoded | a reply without an opening fence goes to the rule-based analysis | not executed | ParallelSearch.ReviewSliceAsWrittenCounterexample | ParallelSearch.ReviewSliceShape |

`ParallelSearch.ReviewSliceAsWritten` computes the slice as written;
`ParallelSearch.ReviewSliceAsWrittenCounterexample` shows a reply with no opening fence
still yielding `{}`. The corrected `ParallelSearch.ReviewSlice` gives nothing without the
opening fence (`ParallelSearch.ReviewSliceShape`), and it agrees with the code whenever
the fence is present (`ParallelSearch.ReviewSliceAgreesWithFence`). `AnalyzeReviews` and
the search bundle use the corrected slice.

## Left out

- Network and model calls are left out. The Places text and nearby searches, place
  details, photo HEAD requests, the Custom Search request, and every Gemini call and
  configuration are not modelled. Their answers are parameters.
- `ParallelSearch.AttachPhotos` and `ParallelSearch.AttachReviews` do not model the
  `ThreadPoolExecutor` fan-out: the enrichment runs record after record. Because the
  futures write disjoint fields of distinct records, the final state does not depend on
  the completion order.
- Floating point is not modelled:
  - ratings and scores are integer tenths;
  - a `match_score` that is not a whole number, and the rounding of such sums, are not
    modelled;
  - float prices in `format_price` are not modelled;
  - the map-centre averaging (components/map_display.py:58-59) is not modelled.
- `ParallelSearch.LocalFeaturesFromExtracted` states the order of `list(set(...))` only
  as some enumeration: Python's set order is unspecified, so it is the `arrange`
  parameter.
- Exception paths are mapped as follows:
  - Exceptions raised by a service become `None` answers.
  - `search_places_api`'s error dictionary becomes `None`.
  - The per-place `continue` of the Places converter (utils/places_api_new.py:523-529) is
    not modelled, since the modelled code cannot raise.
  - The outer `except` of `search_campsites_integrated` (utils/integrated_search.py:56-58)
    and the Gemini-only fallback of `search_campsites_places_gemini`
    (utils/places_gemini_api.py:67-75) are not modelled.
- `search_web` (utils/parallel_search.py:110-129) returns `[]` in this version, so the
  web fallback of `ParallelSearch.Search` (utils/parallel_search.py:224-230) never fires:
  by `ParallelSearch.ParallelSearchShape` with `web == []`, the result is the
  de-duplicated list. The model keeps the web answer as a parameter.
- The web parameter of `IntegratedSearch.SearchCampsitesIntegrated` is the answer of
  `search_campsites_web` (utils/web_search.py:22-78), whose Custom Search request is a
  network call and is left out; its per-item conversion is `WebSearch.ExtractCampsiteData`.
- `enhance_search_results_with_gemini` (utils/places_gemini_api.py:78) is not modelled;
  it is a model call.
- Aliasing is not modelled. The code mutates the caller's records in five places:
  - the shallow copies in `combine_search_results` (utils/web_search.py:380);
  - the shallow copies in `merge_with_original_results`
    (utils/search_analyzer.py:164), whose feature and facility lists are shared;
  - the evaluator's `target_campsites` dictionaries;
  - the enrichment writes of `search_and_analyze`;
  - the `region`, `description`, `facilities` and `features` writes of
    `enhance_search_results` (utils/integrated_search.py:75-90), where
    `IntegratedSearch.EnhanceSearchResults` returns new records.
  The model returns new values, with the updated list made explicit where the caller's
  own list changes (`MapDisplay.FilterValidLocations`).
- `Text.Lower` lowers ASCII only: the case mappings of other letters (accented Latin,
  full-width Latin, Greek, Cyrillic) are not modelled.
- `QueryAnalyzer.AnalyzeQuery` does not keep arbitrary keys: a decoded dictionary is
  modelled as a typed analysis record.
- `QueryAnalyzer.FujiWorkedCase` states the worked query's features by membership (見える,
  静か, 山), not as the exact list.
- The Streamlit UI is not modelled: rendering, `report_progress`, popup HTML, the
  progress queue, the session state and the debug printing.
- `format_reviews` is not modelled: its datetime parsing is library behaviour.
- `PlacesApiNew.PhotoCache.GetPlacePhoto` models only the module's `photo_cache`
  dictionary. It does not model the `functools.lru_cache` wrapped around
  `get_place_photo_new` (utils/places_api_new.py:27). That memo also answers a repeated
  name whose earlier call was not put in `photo_cache`, such as a non-200 or keyless one.
- `extract_featured_campsites` (utils/search_analyzer.py:224) is not modelled; it is a
  model call whose answer the search never uses.
- `ParallelSearch.AnalyzeReviews` uses the corrected slice, not the code as written: a
  reply without an opening fence gets the rule-based analysis. As written
  (utils/parallel_search.py:538-542), such a reply is sliced from position 6 and decoded,
  so `reply: {}` followed by a closing fence gives whatever `{}` decodes to.
- `ParallelSearch.ReviewAnalysisOf` chooses between reply and rule-based analysis with the
  corrected slice only; `ParallelSearch.ReviewSliceAsWritten` covers the code as written.
- `ParallelSearch.ReviewAnalysisChoice` states the choice for the corrected slice only.
- `ParallelSearch.SearchAndAnalyze` builds its bundle from the corrected review analysis
  for the same reason.

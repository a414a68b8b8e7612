# face-sim in Dafny

face-sim lets a user upload a photo and answers with the three celebrities whose faces Face++
scores as most similar. This project models the decision logic of its core and proves properties
of it:

- the Django view `FaceCompareAPIView` (backend/celebrity_compare/views.py). It detects the face
  in the upload, with one JPEG-conversion retry. It compares that face with every celebrity that
  has a Face++ face token, keeps the best three and stores them as comparison details. It maps
  every failure to an HTTP status and decides when the comparison record is deleted again
  (modules `CompareView` and `Ranking`);
- the Face++ helper `FacePPAPI` (backend/celebrity_compare/facepp_utils.py): key validation, URL
  normalisation, MIME inference, the `return_landmark` choice, the source order of
  `get_face_token`, and the argument check of `compare_faces` (module `FacePP`);
- the crawler script (scripts/celebrity_crawler.py): the token lookup for a scraped photo, the
  upsert by name, the per-source JSON list, the descriptions and the count budget of the two
  crawls and of the entry point (modules `Crawler` and `Description`);
- the error handling of the frontend client (frontend/src/services/api.js) (module `ApiClient`).

Every network exchange is a value. A `Service.Network` gives the answer to each Face++ detect and
compare request, each GET and each HEAD. Functions that send several requests also return the
requests they sent, in order, so "no request before validation" and "download only after a URL
failure" can be stated. The PIL conversion and the endata birthday conversion are function
parameters. The database tables and the JSON files are fields of two classes,
`CompareView.CompareStore` and `Crawler.CrawlerStore`, whose methods update them step by step as
the view and the script do. Each crawl method is proved equal to a pure run over a
`Crawler.Tables` value (`EndataRun`, `SinaRun`, `CrawlRun`), and the lemmas about the crawls are
stated on those runs. The rest is pure functions.

The code has no background comparison job, no progress counter, no session check and no share code. The
status, history and share views are routed in backend/celebrity_compare/urls.py but never
defined, and so is the `crawl_celebrities` function the crawl view imports. The comparison runs
synchronously inside the POST request and compares celebrities one after the other. The
crawler's thread pool is imported but never used.

## Model

| member | source | states |
|---|---|---|
| Service.FacesOf | backend/celebrity_compare/facepp_utils.py:158-167 | a detect answer yields faces exactly when it has no `error_message` and a non-empty `faces` list |
| FacePP.NormalizeUrl | backend/celebrity_compare/facepp_utils.py:51-56 | a URL is accepted exactly when it starts with `//`, `http://` or `https://`; `//x` becomes `https://x`, http(s) URLs are kept, and every accepted URL is http(s) |
| FacePP.NormalizeUrlIdempotent | backend/celebrity_compare/facepp_utils.py:51-56 | normalising an accepted URL a second time changes nothing |
| FacePP.ChooseMime | backend/celebrity_compare/facepp_utils.py:125-132 | an explicit MIME type is kept; otherwise PNG exactly for a case-insensitive `.png` name, JPEG for everything else |
| FacePP.ChooseLandmark | backend/celebrity_compare/facepp_utils.py:68-71 | the caller's `return_landmark` when given, the configured one otherwise |
| FacePP.PlainUrlRequest | backend/celebrity_compare/views.py:279-284 | the URL request the view sends for a celebrity photo: the photo URL, the key and secret, the fixed attributes `gender,age,beauty`, no landmark field |
| FacePP.UrlDetectRequest | backend/celebrity_compare/facepp_utils.py:41-71 | a URL request is built exactly when the key is longer than five characters and the URL is accepted; it carries the normalised URL, the configured attributes, and the caller's `return_landmark` over the configured one |
| FacePP.FileDetectRequest | backend/celebrity_compare/facepp_utils.py:115-149 | a file request is built exactly when the key is valid and the data non-empty; it carries the data, the file name, the chosen MIME type and landmark |
| FacePP.DetectFaceByUrl | backend/celebrity_compare/facepp_utils.py:23-93 | no result with an invalid key or URL; a result exactly when the request is built and its answer has no error and at least one face, and then it is that face list |
| FacePP.DetectFaceByFile | backend/celebrity_compare/facepp_utils.py:95-171 | no result with an invalid key or empty data; a result exactly when the request is built and its answer has no error and at least one face, and then it is that face list |
| FacePP.GetFaceToken | backend/celebrity_compare/facepp_utils.py:173-227 | a token exactly when the last request sent is a detect whose answer has no error and a face, and then it is the first face; with image data only the file request is sent (one call with a valid key); from a URL the URL request, then, when it finds no face, the download of the `https:`-fixed URL and the file request for a 200 answer; with neither source nothing is sent |
| FacePP.WithScheme | backend/celebrity_compare/facepp_utils.py:197-198 | `//` URLs gain `https:`, others are kept; the fix never changes whether or how a URL normalises |
| FacePP.CompareFacesRequest | backend/celebrity_compare/facepp_utils.py:247-259 | no request exactly when either token is missing or empty |
| FacePP.CompareFaces | backend/celebrity_compare/facepp_utils.py:229-280 | the score exactly when a request was sent and answered without error and with `confidence`; nothing for a missing token |
| Ranking.SortedBySimilarity | backend/celebrity_compare/views.py:249 | the sort is non-increasing in similarity and a permutation of its input |
| Ranking.SortIsStable | backend/celebrity_compare/views.py:249 | for every similarity value, the matches carrying it keep their comparison order |
| Ranking.TopMatches | backend/celebrity_compare/views.py:249-250 | at most three matches (exactly `min(n, 3)`), best first, taken from the input, no left-out match scores higher than a returned one, ties in comparison order |
| Ranking.TopMatchesExample | backend/celebrity_compare/views.py:249-250 | scores 10, 95, 40, 95, 60 rank as the second, the fourth (a tie compared later) and the fifth |
| CompareView.UploadMime | backend/celebrity_compare/views.py:138-145 | PNG exactly for a `.png` name, JPEG otherwise |
| CompareView.UploadFileName | backend/celebrity_compare/views.py:141 | the upload's name lower-cased letter by letter, or `user_photo.jpg` without a name |
| CompareView.DetectErrorMessage | backend/celebrity_compare/views.py:162-213 | the detect error codes are checked in the fixed order unsupported format (retry), image size, image URL, authorisation, and anything else becomes `Face++ API错误: <msg>` |
| CompareView.FirstFace | backend/celebrity_compare/views.py:215-219 | the first face token, or the "no face detected" message for an empty face list |
| CompareView.DetectUserFace | backend/celebrity_compare/views.py:147-217 | the upload is detected once; exactly one JPEG retry, only after an unsupported-format error with a successful conversion; an unreachable first detect raises the network message, an error raises the `DetectErrorMessage` text, a missing library or a failed conversion its own message, an answer without error gives `FirstFace` of its faces; on the retry, unreachable and error answers raise the conversion message, an answer without error gives `FirstFace` |
| CompareView.DetectFailureStatus | backend/celebrity_compare/views.py:162-217 | for the face Face++ returns on the upload: no face and a bad size answer 400, an authorisation failure 503, any other Face++ error never 500 (503, or 400 when the Face++ message itself carries the no-face or photo-size keyword), an unreadable image URL and a missing image library 500 |
| CompareView.ApiErrorStatus | backend/celebrity_compare/views.py:91-96 | a `Face++ API错误: ` message answers 400 exactly when the Face++ message carries the no-face or photo-size keyword, and 503 otherwise |
| CompareView.RetryFailureStatus | backend/celebrity_compare/views.py:193-205 | a Face++ error on the converted photo is never answered with 500 |
| CompareView.ExceptionStatus | backend/celebrity_compare/views.py:86-96 | 400 exactly for a no-face or photo-size message; otherwise 503 exactly for a message about the API key or an API error; otherwise 500 |
| CompareView.NoFaceStatus | backend/celebrity_compare/views.py:215-217 | the no-face message gives 400 |
| CompareView.SizeStatus | backend/celebrity_compare/views.py:206-207 | the photo-size message gives 400 |
| CompareView.AuthStatus | backend/celebrity_compare/views.py:210-211 | the authorisation message mentions the API key and gives 503 |
| CompareView.UrlStatus | backend/celebrity_compare/views.py:208-209 | the image-URL message gives 500 |
| CompareView.NoLibraryStatus | backend/celebrity_compare/views.py:200-202 | the missing-image-library message gives 500 |
| CompareView.ApiErrorNeverInternal | backend/celebrity_compare/views.py:197-213 | a Face++ error, reported directly or wrapped by the failed conversion retry, is never a 500 |
| CompareView.TokenHolders | backend/celebrity_compare/views.py:116 | exactly the celebrities with a face token take part, each with its own token |
| CompareView.CompareOutcome | backend/celebrity_compare/views.py:225-246 | the compare loop keeps at most one match per holder |
| CompareView.CompareOutcomeSpec | backend/celebrity_compare/views.py:225-254 | the compare loop fails exactly when a compare request raised, with the network message of the first such request; otherwise it keeps exactly the scored celebrities, each with the score of its own answer, and skips answers with an error or without `confidence` |
| CompareView.CompareOutcomeInOrder | backend/celebrity_compare/views.py:225-246 | when no compare request raised, the loop keeps exactly `ScoredMatches`: each scored celebrity once, in comparison order, with its own score |
| CompareView.ScoredMatchesAppend | backend/celebrity_compare/views.py:237-246 | comparing one more celebrity appends its match exactly when it was scored |
| CompareView.CompareWithCelebrities | backend/celebrity_compare/views.py:225-246 | the loop computes `CompareOutcome` |
| CompareView.WithPhotoToken | backend/celebrity_compare/views.py:277-301 | an http(s) photo whose detect answer has a face gains that answer's first face as token and nothing else changes; any other celebrity stays as it was |
| CompareView.WithGeneratedTokens | backend/celebrity_compare/views.py:260-314 | ids, names and photos never change; a row outside the first `limit` rows without a token stays; a candidate with an http(s) photo gets the first face of its detect answer (and stays when none); a candidate without one stays |
| CompareView.CandidatesWithinLimit | backend/celebrity_compare/views.py:271 | exactly `min(limit, rows without a token)` rows are looked at |
| CompareView.CorpusForComparison | backend/celebrity_compare/views.py:116-124 | the table is compared as it is when someone holds a token, and after generating at most 20 tokens otherwise |
| CompareView.RankingOutcome | backend/celebrity_compare/views.py:102-258 | no token holders give an empty ranking; otherwise a detect failure raises its message, a raised compare raises its message, and a finished loop gives `TopMatches` of its matches; a ranking has at most three matches, best first |
| CompareView.RankedAreScoredHolders | backend/celebrity_compare/views.py:225-250 | every ranked celebrity is in the table, holds a token and was scored by an answer without error carrying the returned similarity |
| CompareView.RankingInComparisonOrder | backend/celebrity_compare/views.py:225-250 | a non-empty ranking is the top three of the scored celebrities in comparison order, so ties go to the one compared first |
| CompareView.StoredDetails | backend/celebrity_compare/views.py:62-71 | one detail per ranked celebrity that exists, all for this comparison |
| CompareView.RankingAlwaysStored | backend/celebrity_compare/views.py:62-77 | a non-empty ranking always stores a detail, so the "nothing stored" 500 cannot happen |
| CompareView.DetailsWithout | backend/celebrity_compare/models.py:46 | deleting a comparison removes exactly its details (cascade) |
| CompareView.RankedResponse | backend/celebrity_compare/views.py:53-98 | 201 exactly for a non-empty ranking with a stored detail; a raised message gets its classified status; an empty ranking gives 404 |
| CompareView.CompareStore.CreateComparison | backend/celebrity_compare/views.py:37 | a new comparison record with a fresh id; nothing else changes |
| CompareView.CompareStore.DeleteComparison | backend/celebrity_compare/views.py:83-85 | the record and its details go; nothing else changes |
| CompareView.CompareStore.GenerateTokens | backend/celebrity_compare/views.py:260-314 | the table becomes `WithGeneratedTokens` of the old table |
| CompareView.CompareStore.CallFacePlusPlus | backend/celebrity_compare/views.py:102-258 | tokens are generated only when nobody has one, then the result is `RankingOutcome` of the table as it now stands |
| CompareView.CompareStore.StoreDetails | backend/celebrity_compare/views.py:62-71 | the details gain exactly `StoredDetails` |
| CompareView.CompareStore.Post | backend/celebrity_compare/views.py:31-100 | an invalid upload changes nothing (400); a short key answers 503 and keeps the record; every other failure deletes it and leaves comparisons and details as they were; 201 keeps it with the stored details |
| Description.Lines | scripts/celebrity_crawler.py:323-347 | exactly one line per written field, at the position given by the written fields before it, so in table order |
| Description.ShownCountIncreases | scripts/celebrity_crawler.py:323-347 | a later written field gets a later line |
| Description.DescriptionEmptyIff | scripts/celebrity_crawler.py:323-347 | a description is empty exactly when no field is written |
| Description.EndataDescriptionEmptyIff | scripts/celebrity_crawler.py:323-347 | an endata description is empty exactly when the record has no truthy field |
| Description.SinaDescription | scripts/celebrity_crawler.py:453-484 | the field lines come first; `\n\n` and the detail text follow exactly when a detail link exists and the text is not empty, and nothing else is added |
| Crawler.GenerateFaceToken | scripts/celebrity_crawler.py:53-149 | nothing is sent with a short key or an empty or non-http(s) URL; a HEAD probe comes first and must answer 200 before the URL detect; a download happens exactly after an INVALID_IMAGE_URL error, and a 200 download is sent as `temp.jpg`; a token exactly when the last request is a detect answered without error and with a face, and it is the first face |
| Crawler.FindByName | scripts/celebrity_crawler.py:155 | the first row with the name, or none exactly when no row has it |
| Crawler.NewRecord | scripts/celebrity_crawler.py:156-194 | the new row carries the scraped name, photo, description, detail URL, the source and the token found; gender, nationality and birth date come from the sina keys or the endata keys (a truthy endata timestamp through the date conversion) and are empty for any other source |
| Crawler.Merge | scripts/celebrity_crawler.py:202-232 | the token is set; empty gender, nationality and birth date are filled from the raw field the source selects (an endata birth date only when the timestamp is truthy and converts); a field with a value is never overwritten; other sources change none of the three; id, name, photo and description stay |
| Crawler.AppendIfNew | scripts/celebrity_crawler.py:268-272 | the record is appended exactly when no entry has its name; afterwards an entry with the name exists |
| Crawler.AppendIfNewKeepsNamesUnique | scripts/celebrity_crawler.py:268-272 | appending keeps the names of a JSON list distinct |
| Crawler.SinaBudget | scripts/celebrity_crawler.py:394-395 | the sina budget is `max(0, max_count - current)` |
| Crawler.EndataRecord | scripts/celebrity_crawler.py:315-357 | the endata record carries the star's name, photo, the record itself as raw data, a detail URL exactly when the star id is not empty, and `EndataDescription` of the star as description, which is empty exactly when no field is truthy |
| Crawler.SinaPhoto | scripts/celebrity_crawler.py:433-435 | a `//` image source gains `https:`, any other is kept, a missing one is empty |
| Crawler.SinaRecord | scripts/celebrity_crawler.py:486-494 | the sina record carries the link text as name, `SinaPhoto`, the intro fields as raw data, the link as detail URL and `SinaDescription` |
| Crawler.EndataCap | scripts/celebrity_crawler.py:359-365 | the endata crawl saves at most `max_count`, and exactly one at most when `max_count` is below one |
| Crawler.CrawlerStore.SaveToJson | scripts/celebrity_crawler.py:241-282 | only the source's file changes, to `AppendIfNew` of its list |
| Crawler.CrawlerStore.SaveToDb | scripts/celebrity_crawler.py:151-239 | true exactly for a new name, which adds one row and updates the JSON list; an existing row changes only when it had no token and one was found, through `Merge`; unique names stay unique |
| Crawler.SaveCelebrity | scripts/celebrity_crawler.py:151-239 | a row is created exactly for a new name; afterwards a row has the name; one new row and one new id exactly when created; existing rows keep their id and name; only the source's JSON file can change, and not at all without a creation; ids stay below the next id and names stay distinct |
| Crawler.SinaEntry | scripts/celebrity_crawler.py:420-440 | an item yields a record exactly when it has a name link and an intro block, and the record is `SinaRecord` |
| Crawler.SaveAll | scripts/celebrity_crawler.py:349-365 | a crawl over records adds one row and one id per count, never lowers the count, and stops at `stop` (one creation past the start when the start is already at `stop`) |
| Crawler.SaveAllNext | scripts/celebrity_crawler.py:349-365 | a record without name or photo is skipped; a save that finds the name adds nothing to the count; a creation counts and ends the crawl when the count reaches `stop` |
| Crawler.SaveAllKeepsRows | scripts/celebrity_crawler.py:151-282 | a crawl keeps every existing row's id and name, touches no other source's JSON file, and keeps ids below the next id and names distinct |
| Crawler.StoredNameStays | scripts/celebrity_crawler.py:155-232 | a stored name is never lost by a crawl |
| Crawler.SaveAllStoresEveryRecord | scripts/celebrity_crawler.py:349-365 | a crawl that ends below its budget stored every record with a name and a photo |
| Crawler.EndataRunStoresEveryStar | scripts/celebrity_crawler.py:308-365 | an endata crawl that ends below `max_count` stored every star with a name and a photo from every page that answered |
| Crawler.SinaRunStoresEveryItem | scripts/celebrity_crawler.py:394-502 | a sina crawl that ends below its budget stored every item with a name link, an intro block, a name and a photo from every page that answered |
| Crawler.CrawlRunBounds | scripts/celebrity_crawler.py:536-546 | the entry point adds at most `max_count` rows (one when it is below one) and at most `max(0, max_count)` for sina alone, one row and one id per count; old rows keep id and name; ids and names stay valid |
| Crawler.CrawlRunTouchesOnlyItsFiles | scripts/celebrity_crawler.py:536-546 | endata alone writes only the endata JSON file, sina alone only the sina file, and no run writes any other file |
| Crawler.CrawlerStore.SaveRecords | scripts/celebrity_crawler.py:313-365 | the tables and count after one page's records are those of `SaveAll` over them, and `done` exactly when the crawl ends there |
| Crawler.CrawlerStore.CrawlEndata | scripts/celebrity_crawler.py:284-384 | the tables and the count are exactly `EndataRun`: the records of every answered page in order, each with name and photo saved, ending when a creation reaches `max_count`; the count is the number of rows added and stays within `EndataCap(max_count)` |
| Crawler.CrawlerStore.CrawlSina | scripts/celebrity_crawler.py:386-525 | the tables and the count are exactly `SinaRun`: nothing when the existing sina rows fill `max_count`, else the records of every answered page in order, ending when the count reaches the budget; the count is the number of rows added and stays within `max(0, max_count - existing sina rows)` |
| Crawler.CrawlerStore.RunCrawler | scripts/celebrity_crawler.py:527-546 | the tables and the total are exactly `CrawlRun`: endata unless sina alone was chosen, then sina with `max_count` less the endata count exactly when sina was chosen and that count is below `max_count`; the total is the number of rows added, within `max_count` (one when it is below one), and within `max_count` for sina alone |
| ApiClient.ErrorMessage | frontend/src/services/api.js:48-58 | `data.error` wins over `data.detail`; the timeout message only for an upload without response data and with code ECONNABORTED; otherwise the call's default |
| ApiClient.ThrownFor | frontend/src/services/api.js:60-65 | the thrown status is the response status when a response exists, and null otherwise |
| ApiClient.Call | frontend/src/services/api.js:70-74 | success returns the response data unchanged; failure throws `ThrownFor` |
| ApiClient.CodeOnlyMattersForUpload | frontend/src/services/api.js:77-84 | the error code never changes what `getComparisonResult` and `getCelebrities` throw |
| ApiClient.DataOverridesTimeout | frontend/src/services/api.js:49-58 | response data without either field keeps the default message even for an aborted upload |

## Left out

- HTTP itself (Face++, the scraped sites, axios): every answer is an input value. A request that raises, times out or returns a body that is not JSON is one "unreachable" answer with its message.
- The PIL conversion is the `convert` parameter, which yields JPEG bytes, a missing library, or a failure message.
- The endata birthday conversion (`datetime.fromtimestamp`, float division and the local time zone) is the `toDate` parameter.
- The Django ORM, file storage and the deletion of the uploaded photo file are left out. The tables are sequences and a set in the two store classes.
- JSON file reading and writing, and the backup of a corrupt JSON file, are left out. The JSON files are a map from file name to list.
- HTML selection with BeautifulSoup is left out. A sina page is the list of its items with their name link, image source, intro fields and detail text, already extracted. Random user agents, logging, `print` and `time.sleep` are left out too.
- Similarity scores are `int`, since they are only compared and sorted. Upload progress is left out.
- Raw scraped values are text, and the empty text stands for a falsy value. A numeric zero in an endata record is not distinguished.
- Serializers, admin, apps, the migration, urls, the router and the Vue configuration are left out. They are configuration and glue.
- Job status, progress, sessions, history and sharing are not defined in the code and are not modelled.
- `CelebrityViewSet` and `ComparisonResultDetailAPIView` are left out. They are plain queries over the same tables.
- CompareView.UploadFileName: `str.lower` is modelled on ASCII letters only. The lowered name decides the `.png`/`.jpg`/`.jpeg` MIME type and is also sent to Face++ as the upload's file name, so a name with non-ASCII capitals reaches Face++ with those letters unchanged, where the source lowers them.
- FacePP.GetFaceToken: the face token is read as `faces[0]` of the answer. A face entry without `face_token` (a `KeyError`) is not modelled.
- CompareView.CompareStore.Post: a non-network exception that is not a request error inside `call_face_plus_plus_api` is not modelled. An example is a JSON decoding error from an older `requests`, which would carry its own message.
- CompareView.CompareStore.GenerateTokens: the loop walks the whole table and counts the rows without a token. The source walks the first `limit` such rows. The rows reached and the changes made are the same.
- CompareView.CompareStore.Post: the 201 answer assumes serialising the comparison succeeds. As written, the celebrity serializer (backend/celebrity_compare/serializers/__init__.py:11-15) lists `occupation` and `works`, which the Celebrity model does not define. Rendering the result would then raise inside the `try` of `post`, delete the record and answer 500. The model does not include the serializer, so it does not capture this.
- Crawler.CrawlerStore.SaveRecords: an exception while one star or item is processed (the per-item `try` of both crawls) is not modelled. Every record runs to the end of its save.
- ApiClient.ErrorMessage: `data.error` and `data.detail` are modelled as text. A truthy non-string value, such as a validation error object, is not modelled.

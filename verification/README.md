# ImgFlip client core, modelled in Dafny

This project models the core of the ImgFlip client library
(`ImgFlip_Managed/ImgFlipApi.cs`): the in-memory meme cache with its name
filter and two-tier name-to-id lookup, caption defaulting and the caption
request URL, the blind-retry remote call, and the lazy one-shot cache
population of the `ImgFlipApi` facade. Everything is a pure function over
immutable data; the network and JSON decoding are parameters.

Modules, one per component:

- `Results` (`results.dfy`): `Option` and `Result`, standing for null / "no
  match" and for a value-or-exception.
- `Records` (`records.dfy`): `Meme`, `ResponseData`, `Response` (the JSON
  records of `ImgFlipMeme.cs`, `ImgFlipResponseData.cs`, `ImgFlipResponse.cs`)
  and `ApiError`, the exceptions that leave the client.
- `Text` (`text.dfy`): the character-wise case fold and substring containment.
- `MemeCache` (`meme_cache.dfy`): `MemeIdCache.Refresh`, `GetMemeNameMatches`,
  `GetMemeIdFromName`, and `Enumerable.First` as `FirstMatch`.
- `Transport` (`transport.dfy`): `CallImgFlipApi` over a script of per-attempt
  outcomes (`Delivered(payload)` or `Dropped`) and an abstract decoder.
- `Query` (`query.dfy`): the credential wrapper, `string.Format` over a
  structured template, `GenerateQueryString` and caption defaulting.
- `Client` (`client.dfy`): the facade (`Create`, `EnsureMemeIdCache`,
  `GetMemeNameMatches`, `Generate`) and properties across operation sequences.

Modelling choices:

- The network is a sequence of attempt outcomes consumed in order; an attempt
  past the end of the sequence is dropped. Every operation returns the
  request strings it handed to `CallImgFlipApi`, one per attempt, so request
  counts and targets can be stated.
- JSON decoding is an arbitrary total function `string -> Option<Response>`;
  `None` is a payload that does not parse.
- `ToLowerInvariant` and `StringComparison.OrdinalIgnoreCase` are both
  modelled by one character-wise fold that lowers `A`..`Z`. This assumes
  the two agree, which they do on ASCII.
- Exceptions are `Failure` values: the transport exception rethrown at
  `ImgFlipApi.cs:125` is `Transport`, a deserialisation exception is `Decode`,
  `InvalidOperationException(ErrorMessage)` is `InvalidOperation(message)`,
  and `ArgumentException("No meme currently matches this name.")` is
  `NoMatch(message)`.

Behaviours worth noting:

- A failed first listing does not leave the client uninitialised. The
  code assigns the empty cache (line 44) before the listing call (line 46).
  So a listing that fails leaves a non-null, empty cache. This holds for a
  transport failure, a decode failure, or `Success == false`. No later call
  fetches again. `Client.FailedListingIsSticky` states this.
- The transport failure escapes when `retries <= 0`, not only when it is 0.
  A negative retry count makes one attempt.
- Caption text and credentials are spliced into the request string verbatim
  by `string.Format`, with no percent-encoding. `Query.UnescapedCaptionsCollide` shows a consequence:
  two different caption pairs can produce the same request.
- A credential holding a NUL character is cut short when revealed, because
  `Marshal.PtrToStringUni` stops at the first NUL (`Query.Reveal`).
- The name lookup keeps the tier inversion: tier 2 always runs and
  overwrites tier 1. The lookup therefore returns the id of the first meme
  whose folded name contains the folded query (`MemeCache.GetMemeIdFromName`).

## Model

| member | source | states |
|---|---|---|
| MemeCache.Refresh | ImgFlip_Managed/ImgFlipApi.cs:210-214 | after clearing and re-adding, the cache holds exactly the supplied memes in the supplied order; prior entries are gone |
| MemeCache.MatchingNames | ImgFlip_Managed/ImgFlipApi.cs:221-231 | the filter returns no more names than there are memes, and every returned name belongs to a meme whose folded name contains the folded query |
| MemeCache.GetMemeNameMatches | ImgFlip_Managed/ImgFlipApi.cs:221-231 | the single pass over the cache returns exactly the reference filter's names, in cache order |
| MemeCache.MatchingNamesAppend | ImgFlip_Managed/ImgFlipApi.cs:224-230 | filtering distributes over concatenation, so matches keep the relative order of their memes |
| MemeCache.MatchingNamesComplete | ImgFlip_Managed/ImgFlipApi.cs:224-228 | the name of every meme that matches the query is in the result |
| MemeCache.MatchingNamesEmptyQuery | ImgFlip_Managed/ImgFlipApi.cs:221-231 | the empty query returns every name of the cache, in order |
| MemeCache.MatchingNamesCaseInsensitive | ImgFlip_Managed/ImgFlipApi.cs:223-227 | two queries that differ only in letter case select the same names |
| MemeCache.FirstMatch | ImgFlip_Managed/ImgFlipApi.cs:263-274 | `First` yields the lowest index whose meme satisfies the predicate; none (the InvalidOperationException) exactly when no meme does |
| MemeCache.GetMemeIdFromName | ImgFlip_Managed/ImgFlipApi.cs:239-277 | the lookup succeeds iff some meme's folded name contains the folded query, returns the id of the first such meme, and otherwise fails with NoMatch carrying the fixed message |
| MemeCache.ExactHitIsContainmentHit | ImgFlip_Managed/ImgFlipApi.cs:244-269 | whenever tier 1 finds an exact case-insensitive match, tier 2 finds a containment match at or before it |
| MemeCache.NoMatchOnlyWithoutContainment | ImgFlip_Managed/ImgFlipApi.cs:255-274 | the lookup fails iff tier 2 finds nothing; it fails on an empty cache; an exact match anywhere guarantees success |
| MemeCache.TierTwoOverwritesTierOne | ImgFlip_Managed/ImgFlipApi.cs:253-269 | when a meme whose name only contains the query precedes one whose name equals it, tier 1 finds the second but the lookup returns the first one's id |
| MemeCache.CatMemeResolvesToFirst | ImgFlip_Managed/ImgFlipApi.cs:239-277 | with "Cat Meme" (id A) before an exact "cat" (id B), the query "cat" resolves to A |
| Text.FoldIdempotent | ImgFlip_Managed/ImgFlipApi.cs:242-250 | folding an already lowered query again changes nothing, so tier 1 compares folded names with the folded query |
| Transport.Deserialize | ImgFlip_Managed/ImgFlipApi.cs:143 | decoding a delivered payload fails exactly when the payload does not parse, and then with the Decode error |
| Transport.CallImgFlipApi | ImgFlip_Managed/ImgFlipApi.cs:98-147 | at most max(retries,0)+1 attempts, all to the same URL; attempts stop at the first delivery, whose payload is decoded once; a failure escapes as Transport only after the whole budget is dropped, on an attempt made with retries <= 0; the only errors are Transport and Decode |
| Transport.TransportFailureIffAllDropped | ImgFlip_Managed/ImgFlipApi.cs:103-140 | the transport failure escapes iff every attempt of the max(retries,0)+1 budget is dropped, and then exactly that many requests were made |
| Transport.SuccessOnFinalAttempt | ImgFlip_Managed/ImgFlipApi.cs:103-144 | when all attempts but the last of the budget are dropped and the last delivers, the call makes the whole budget of requests and returns the decoded last payload |
| Transport.MoreRetriesKeepResult | ImgFlip_Managed/ImgFlipApi.cs:103-140 | a call that did not fail in transport gives the same result, requests and remaining script with one more retry |
| Query.MakeSecret | ImgFlip_Managed/Utilities.cs:17-27 | revealing a secret made from a string gives exactly the part before its first NUL: the whole string when it holds no NUL (the source does so for strings of at most 65,536 characters and throws on longer ones) |
| Query.Reveal | ImgFlip_Managed/Utilities.cs:34-47 | the revealed string holds no NUL, is a prefix of the secret's characters, and stops short only at a NUL |
| Query.FormatQueryTemplate | ImgFlip_Managed/ImgFlipApi.cs:81-89 | formatting the constant template with five arguments puts each argument after its parameter name, in order |
| Query.GenerateQueryString | ImgFlip_Managed/ImgFlipApi.cs:79-90 | the request is the caption_image endpoint followed by template_id, text0, text1, username and password set to the given values and the revealed credentials, verbatim |
| Query.UnescapedCaptionsCollide | ImgFlip_Managed/ImgFlipApi.cs:81-89 | the captions ("a&text1=b", "c") and ("a", "b&text1=c") produce the same request |
| Query.CaptionLine | ImgFlip_Managed/ImgFlipApi.cs:174-182 | a caption line is never empty after defaulting; a non-empty line passes unchanged; anything other than a space came from the line itself |
| Client.Create | ImgFlip_Managed/ImgFlipApi.cs:61-70 | a new client keeps the credentials it was given and has no cache |
| Client.EnsureMemeIdCache | ImgFlip_Managed/ImgFlipApi.cs:40-54 | afterwards the cache always exists; with a cache present nothing is requested and nothing changes; otherwise exactly the listing call's requests are made (the listing URL, at most four times), a transport or decode failure of the listing escapes unchanged, `success == false` raises InvalidOperation with the listing's error message, a successful listing succeeds and installs the listed memes, and any failure leaves the empty cache; it never raises NoMatch |
| Client.GetMemeNameMatches | ImgFlip_Managed/ImgFlipApi.cs:154-159 | the search populates the cache like EnsureMemeIdCache, fails exactly when that fails and with the same error, and otherwise returns the filter over the resulting cache; with a cache present it requests nothing |
| Client.Caption | ImgFlip_Managed/ImgFlipApi.cs:174-193 | with the id known, only the caption request for the defaulted lines is sent, at most four times, until the first delivery; a dropped last attempt gives Transport after the whole budget, an unparsable payload gives Decode, a payload with `success` gives its `url`, and one without gives InvalidOperation with its error message, and conversely each result comes only from its case; NoMatch never arises here |
| Client.Generate | ImgFlip_Managed/ImgFlipApi.cs:168-194 | a failed population is returned unchanged; a name that does not resolve in the populated cache gives NoMatch with the fixed message and no caption request; a NoMatch leaves only listing requests sent; a success's last request is the caption request for the resolved id and the defaulted lines |
| Client.GenerateOutcome | ImgFlip_Managed/ImgFlipApi.cs:184-193 | with a ready cache and a resolved name, a transport or decode failure escapes, `success == false` becomes InvalidOperation with the service's message, and success returns the response's url |
| Client.FailedListingIsSticky | ImgFlip_Managed/ImgFlipApi.cs:40-54 | after a failed first listing, later calls request nothing, searches return no names and generations fail with NoMatch |
| Client.ListingAtMostOnce | ImgFlip_Managed/ImgFlipApi.cs:40-54 | over any sequence of searches and generations, the listing URL is requested at most four times from a fresh client (one call with its retries) and never once a cache exists |
| Client.ProgramScenario | Test_Managed/Program.cs:14-29 | a fresh client whose listing holds one meme "Doge" searches "Cat" (one listing request, no names) and then turns Generate("doge", "very test", "much work") on the filled cache into one caption request for template 181913649, returning the caption response's url |

## Left out

- Network I/O (`HttpWebRequest`, `GetResponse`, the stream reader, closing the response): replaced by the attempt script; resource release is not modelled.
- JSON deserialisation (Newtonsoft and the `JsonProperty` names): replaced by the abstract decoder.
- Secure memory: `Secret` holds the plain characters; pinning, marshalling and zeroing of `SecureString` are not modelled.
- Query.MakeSecret: the 65,536-character capacity of `SecureString` is not modelled. `AppendChar` (`Utilities.cs:23`) raises `ArgumentOutOfRangeException` past it, so the source throws on longer credentials where the model makes a secret. The round trip is promised by the source only for strings of at most 65,536 characters.
- Async scheduling and the unguarded race: two concurrent first uses could each fetch the listing. The model is sequential.
- Null inputs: a null query, a null meme name (ImgFlipApi.cs:227 and :266 lower it) or a null `Memes` list would throw NullReferenceException or ArgumentNullException; these paths are not modelled. Null caption lines are modelled, because `IsNullOrEmpty` handles them.
- Text.FoldChar: folds only `A`..`Z`. Non-ASCII case mappings of `ToLowerInvariant`/`OrdinalIgnoreCase` are not modelled, because they need Unicode tables.
- The console program in `Test_Managed/Program.cs`: configuration loading, printing and launching a browser are not modelled; its two calls are the scenario of `Client.ProgramScenario`.
- Transport.CallImgFlipApi: `sent` records the string handed to `HttpWebRequest.Create` (`ImgFlipApi.cs:100`), not the `System.Uri` it is parsed into. URI parsing is not modelled: the escaping of spaces, a `#` in a caption starting a fragment (so the later parameters never reach the service), and a `UriFormatException`, which would escape before the `try` and without a retry.

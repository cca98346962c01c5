/** The ImgFlipApi client: credentials plus a meme cache that starts out
    null and is created on first use.

    Every operation is a pure function of the client, the network script
    and the decoder, returning the next client, the result, the request
    strings sent and the unconsumed part of the script. The operations are
    sequential; the race of two concurrent first uses is not modelled. */
module Client {
  import opened Results
  import opened Records
  import opened Text
  import opened MemeCache
  import opened Transport
  import opened Query

  /** The listing endpoint fetched to populate the cache. */
  const ListingUrl: string := "https://api.imgflip.com/get_memes"

  /** A client: the two credentials and the cache, `None` while null. */
  datatype Api = Api(username: Secret, password: Secret, cache: Option<MemeIdCache>)

  /** One operation's effect. */
  datatype Step<T> = Step(api: Api, result: Result<T, ApiError>, sent: seq<string>, rest: seq<Attempt>)

  /** ImgFlipApi.Create: a client with the given credentials and no cache. */
  function Create(username: Secret, password: Secret): (api: Api)
    ensures api.cache.None?
    ensures Reveal(api.username) == Reveal(username) && Reveal(api.password) == Reveal(password)
  {
    Api(username, password, None)
  }

  /** ImgFlipApi.EnsureMemeIdCache. When the cache is null, an empty cache is
      installed first and only then is the listing fetched; a listing that
      fails (transport, decode, or `success == false`) raises but leaves the
      empty cache in place, so no later call fetches again. */
  function EnsureMemeIdCache(api: Api, net: seq<Attempt>, decode: string -> Option<Response>): (s: Step<()>)
    ensures s.api.cache.Some?
    ensures s.api.username == api.username && s.api.password == api.password
    ensures api.cache.Some? ==> s == Step(api, Success(()), [], net)
    ensures api.cache.None? ==> 1 <= |s.sent| <= Budget(DefaultRetries)
    ensures forall k :: 0 <= k < |s.sent| ==> s.sent[k] == ListingUrl
    ensures api.cache.None? && s.result.Failure? ==> s.api.cache == Some(EmptyCache)
    ensures s.result.Failure? ==> !s.result.error.NoMatch?
    ensures api.cache.None? && s.result.Success? ==>
      var listing := CallImgFlipApi(ListingUrl, DefaultRetries, net, decode).result;
      && listing.Success? && listing.value.success
      && s.api.cache == Some(MemeIdCache(listing.value.data.memes))
    ensures api.cache.None? ==>
      var call := CallImgFlipApi(ListingUrl, DefaultRetries, net, decode);
      && s.sent == call.sent && s.rest == call.rest
      && (call.result.Failure? ==> s.result == Failure(call.result.error))
      && (call.result.Success? && !call.result.value.success ==>
            s.result == Failure(InvalidOperation(call.result.value.errorMessage)))
      && (call.result.Success? && call.result.value.success ==> s.result.Success?)
  {
    if api.cache.Some? then Step(api, Success(()), [], net)
    else
      var created := api.(cache := Some(EmptyCache));
      var call := CallImgFlipApi(ListingUrl, DefaultRetries, net, decode);
      match call.result
      case Failure(e) => Step(created, Failure(e), call.sent, call.rest)
      case Success(response) =>
        if !response.success then
          Step(created, Failure(InvalidOperation(response.errorMessage)), call.sent, call.rest)
        else
          var cache := Refresh(created.cache.value, response.data.memes);
          Step(created.(cache := Some(cache)), Success(()), call.sent, call.rest)
  }

  /** ImgFlipApi.GetMemeNameMatches: ensure the cache, then filter it. */
  function GetMemeNameMatches(api: Api, name: string, net: seq<Attempt>, decode: string -> Option<Response>): (s: Step<seq<string>>)
    ensures s.api == EnsureMemeIdCache(api, net, decode).api
    ensures s.sent == EnsureMemeIdCache(api, net, decode).sent
    ensures s.result.Success? ==> s.result.value == MatchingNames(s.api.cache.value.memes, name)
    ensures api.cache.Some? ==> s.result == Success(MatchingNames(api.cache.value.memes, name)) && s.sent == []
    ensures s.rest == EnsureMemeIdCache(api, net, decode).rest
    ensures s.result.Failure? <==> EnsureMemeIdCache(api, net, decode).result.Failure?
    ensures s.result.Failure? ==> s.result.error == EnsureMemeIdCache(api, net, decode).result.error
  {
    var ready := EnsureMemeIdCache(api, net, decode);
    match ready.result
    case Failure(e) => Step(ready.api, Failure(e), ready.sent, ready.rest)
    case Success(_) =>
      Step(ready.api, Success(MatchingNames(ready.api.cache.value.memes, name)), ready.sent, ready.rest)
  }

  /** The caption request of Generate for a resolved template id. */
  function CaptionRequest(api: Api, memeId: string, firstLine: Option<string>, secondLine: Option<string>): string
  {
    GenerateQueryString(memeId, CaptionLine(firstLine), CaptionLine(secondLine), api.username, api.password)
  }

  /** The second half of ImgFlipApi.Generate, once the id is known: default
      empty caption lines to a space, build the request, call it, and check
      the envelope. The URL returned is the one of the decoded last payload,
      and a refusal carries that payload's error message. */
  function Caption(api: Api, memeId: string, firstLine: Option<string>, secondLine: Option<string>,
                   net: seq<Attempt>, decode: string -> Option<Response>): (s: Step<string>)
    ensures s.api == api
    ensures s.result.Failure? ==> !s.result.error.NoMatch?
    ensures 1 <= |s.sent| <= Budget(DefaultRetries)
    ensures forall k :: 0 <= k < |s.sent| ==> s.sent[k] == CaptionRequest(api, memeId, firstLine, secondLine)
    ensures s.result.Success? ==>
      var last := AttemptAt(net, |s.sent| - 1);
      && last.Delivered? && decode(last.payload).Some?
      && decode(last.payload).value.success
      && s.result.value == decode(last.payload).value.data.url
    ensures s.result.Failure? && s.result.error.InvalidOperation? ==>
      var last := AttemptAt(net, |s.sent| - 1);
      && last.Delivered? && decode(last.payload).Some?
      && !decode(last.payload).value.success
      && s.result.error.message == decode(last.payload).value.errorMessage
    ensures forall k :: 0 <= k < |s.sent| - 1 ==> AttemptAt(net, k).Dropped?
    ensures AttemptAt(net, |s.sent| - 1).Dropped? ==>
      |s.sent| == Budget(DefaultRetries) && s.result == Failure(Transport)
    ensures AttemptAt(net, |s.sent| - 1).Delivered? ==>
      var reply := decode(AttemptAt(net, |s.sent| - 1).payload);
      && (reply.None? ==> s.result == Failure(Decode))
      && (reply.Some? && reply.value.success ==> s.result == Success(reply.value.data.url))
      && (reply.Some? && !reply.value.success ==> s.result == Failure(InvalidOperation(reply.value.errorMessage)))
    ensures s.rest == if |s.sent| <= |net| then net[|s.sent|..] else []
  {
    var top := CaptionLine(firstLine);
    var bottom := CaptionLine(secondLine);
    var queryString := GenerateQueryString(memeId, top, bottom, api.username, api.password);
    var call := CallImgFlipApi(queryString, DefaultRetries, net, decode);
    match call.result
    case Failure(e) => Step(api, Failure(e), call.sent, call.rest)
    case Success(response) =>
      if !response.success then
        Step(api, Failure(InvalidOperation(response.errorMessage)), call.sent, call.rest)
      else
        Step(api, Success(response.data.url), call.sent, call.rest)
  }

  /** ImgFlipApi.Generate: ensure the cache, resolve the name (an unknown
      name raises before any caption request), then send the caption
      request. */
  function Generate(api: Api, name: string, firstLine: Option<string>, secondLine: Option<string>,
                    net: seq<Attempt>, decode: string -> Option<Response>): (s: Step<string>)
    ensures s.api == EnsureMemeIdCache(api, net, decode).api
    ensures var ready := EnsureMemeIdCache(api, net, decode);
      ready.result.Failure? ==> s.result == Failure(ready.result.error) && s.sent == ready.sent
    ensures s.result == Failure(NoMatch(NoMatchMessage)) ==>
      forall k :: 0 <= k < |s.sent| ==> s.sent[k] == ListingUrl
    ensures var ready := EnsureMemeIdCache(api, net, decode);
      ready.result.Success? && GetMemeIdFromName(ready.api.cache.value, name).Failure? ==>
        s.result == Failure(NoMatch(NoMatchMessage)) && s.sent == ready.sent && s.rest == ready.rest
    ensures s.result.Success? ==> GetMemeIdFromName(s.api.cache.value, name).Success?
    ensures s.result.Success? ==>
      |s.sent| > 0 && s.sent[|s.sent| - 1] ==
        CaptionRequest(api, GetMemeIdFromName(s.api.cache.value, name).value, firstLine, secondLine)
  {
    var ready := EnsureMemeIdCache(api, net, decode);
    match ready.result
    case Failure(e) => Step(ready.api, Failure(e), ready.sent, ready.rest)
    case Success(_) =>
      match GetMemeIdFromName(ready.api.cache.value, name)
      case Failure(e) => Step(ready.api, Failure(e), ready.sent, ready.rest)
      case Success(memeId) =>
        var captioned := Caption(ready.api, memeId, firstLine, secondLine, ready.rest, decode);
        captioned.(sent := ready.sent + captioned.sent)
  }

  // ---------------------------------------------------------------------------
  // Properties across operations
  // ---------------------------------------------------------------------------

  /** A caption request never goes to the listing endpoint. */
  lemma CaptionRequestIsNotListing(templateId: string, firstLine: string, secondLine: string,
                                   username: Secret, password: Secret)
    ensures GenerateQueryString(templateId, firstLine, secondLine, username, password) != ListingUrl
  {
    var r := GenerateQueryString(templateId, firstLine, secondLine, username, password);
    assert r[24] == CaptionEndpoint[24] == 'c';
    assert ListingUrl[24] == 'g';
  }

  /** After a failed first listing the client keeps its empty cache: later
      calls fetch nothing, every search is empty and every generation fails
      with NoMatch. */
  lemma FailedListingIsSticky(api: Api, net: seq<Attempt>, decode: string -> Option<Response>,
                              later: seq<Attempt>, name: string,
                              firstLine: Option<string>, secondLine: Option<string>)
    requires api.cache.None?
    requires EnsureMemeIdCache(api, net, decode).result.Failure?
    ensures var failed := EnsureMemeIdCache(api, net, decode).api;
      && EnsureMemeIdCache(failed, later, decode).sent == []
      && GetMemeNameMatches(failed, name, later, decode).result == Success([])
      && GetMemeNameMatches(failed, name, later, decode).sent == []
      && Generate(failed, name, firstLine, secondLine, later, decode).result == Failure(NoMatch(NoMatchMessage))
      && Generate(failed, name, firstLine, secondLine, later, decode).sent == []
  {
    var failed := EnsureMemeIdCache(api, net, decode).api;
    NoMatchOnlyWithoutContainment(failed.cache.value, name);
  }

  /** Once the cache is ready and the name resolves, Generate sends one
      caption request (with its retries) and maps its envelope: a transport
      or decode failure escapes, `success == false` raises InvalidOperation
      with the service's message, and success yields the image URL. */
  lemma GenerateOutcome(api: Api, name: string, firstLine: Option<string>, secondLine: Option<string>,
                        net: seq<Attempt>, decode: string -> Option<Response>)
    requires EnsureMemeIdCache(api, net, decode).result.Success?
    requires GetMemeIdFromName(EnsureMemeIdCache(api, net, decode).api.cache.value, name).Success?
    ensures
      var ready := EnsureMemeIdCache(api, net, decode);
      var request := CaptionRequest(api, GetMemeIdFromName(ready.api.cache.value, name).value, firstLine, secondLine);
      var call := CallImgFlipApi(request, DefaultRetries, ready.rest, decode);
      var s := Generate(api, name, firstLine, secondLine, net, decode);
      && s.sent == ready.sent + call.sent
      && (call.result.Failure? ==> s.result == Failure(call.result.error))
      && (call.result.Success? && !call.result.value.success ==>
            s.result == Failure(InvalidOperation(call.result.value.errorMessage)))
      && (call.result.Success? && call.result.value.success ==>
            s.result == Success(call.result.value.data.url))
  {
  }

  /** The single meme of the scenario below. */
  const Doge := Meme("181913649", "Doge", "", 0, 0)

  /** "doge" resolves to the template "Doge" regardless of letter case. */
  lemma DogeResolves()
    ensures GetMemeIdFromName(MemeIdCache([Doge]), "doge") == Success("181913649")
  {
    assert Fold("doge") == "doge" by {
      assert FoldChar('d') == 'd' && FoldChar('o') == 'o' && FoldChar('g') == 'g' && FoldChar('e') == 'e';
    }
    assert Fold(Doge.name) == "doge" by {
      assert FoldChar('D') == 'd' && FoldChar('o') == 'o' && FoldChar('g') == 'g' && FoldChar('e') == 'e';
    }
    assert OccursAt(Fold(Doge.name), Fold("doge"), 0);
  }

  /** The scenario's listing call: one request, the cache holds "Doge". */
  lemma DogeListing(decode: string -> Option<Response>, username: Secret, password: Secret, later: seq<Attempt>)
    requires decode("listing") == Some(Response(true, ResponseData([Doge], "", ""), ""))
    ensures
      var ready := EnsureMemeIdCache(Create(username, password), [Delivered("listing")] + later, decode);
      && ready.result.Success?
      && ready.api == Api(username, password, Some(MemeIdCache([Doge])))
      && ready.sent == [ListingUrl]
      && ready.rest == later
  {
    var net := [Delivered("listing")] + later;
    var call := CallImgFlipApi(ListingUrl, DefaultRetries, net, decode);
    assert AttemptAt(net, 0) == Delivered("listing");
    assert call.sent == [ListingUrl];
    assert net[1..] == later;
  }

  /** "Cat" is not contained in "Doge", whatever the letter case. */
  lemma DogeMissesCat()
    ensures !NameContains(Doge, "Cat")
  {
    var lowered := Fold("Cat");
    var folded := Fold(Doge.name);
    assert lowered[0] == FoldChar('C') == 'c';
    assert folded[0] == FoldChar('D') == 'd' && folded[1] == FoldChar('o') == 'o';
    forall i: nat | i <= |folded|
      ensures !OccursAt(folded, lowered, i)
    {
      if i + |lowered| <= |folded| {
        assert folded[i..i + |lowered|][0] == folded[i] != 'c';
      }
    }
  }

  /** The console program's run: a fresh client whose listing holds one meme
      "Doge" first searches "Cat", which fetches the listing and finds
      nothing, and then runs Generate("doge", "very test", "much work") on the
      filled cache, which sends exactly one caption request, for template
      181913649 with the captions spliced in as they are, and returns the
      image URL. */
  lemma ProgramScenario(decode: string -> Option<Response>, username: Secret, password: Secret)
    requires decode("listing") == Some(Response(true, ResponseData([Doge], "", ""), ""))
    requires decode("caption") == Some(Response(true, ResponseData([], "https://i.imgflip.com/doge.jpg", ""), ""))
    ensures
      var search := GetMemeNameMatches(Create(username, password), "Cat",
                                       [Delivered("listing"), Delivered("caption")], decode);
      var made := Generate(search.api, "doge", Some("very test"), Some("much work"), search.rest, decode);
      && search.result == Success([])
      && search.sent == [ListingUrl]
      && made.result == Success("https://i.imgflip.com/doge.jpg")
      && made.sent == [GenerateQueryString("181913649", "very test", "much work", username, password)]
      && made.rest == []
  {
    var api := Create(username, password);
    var net := [Delivered("listing"), Delivered("caption")];
    assert net == [Delivered("listing")] + [Delivered("caption")];
    DogeListing(decode, username, password, [Delivered("caption")]);
    DogeMissesCat();
    assert MatchingNames([Doge], "Cat") == [];
    var search := GetMemeNameMatches(api, "Cat", net, decode);
    DogeResolves();
    var request := CaptionRequest(search.api, "181913649", Some("very test"), Some("much work"));
    assert request == GenerateQueryString("181913649", "very test", "much work", username, password);
    var captioned := Caption(search.api, "181913649", Some("very test"), Some("much work"), search.rest, decode);
    assert captioned.sent == [request];
    assert captioned.result == Success("https://i.imgflip.com/doge.jpg");
  }

  /** The public operations, as a caller may issue them in sequence. */
  datatype Op =
    | Search(name: string)
    | MakeMeme(name: string, firstLine: Option<string>, secondLine: Option<string>)

  /** The state after a run of operations and every request string sent on the way. */
  datatype Trace = Trace(api: Api, sent: seq<string>, rest: seq<Attempt>)

  /** One operation, keeping its effect on the client and the network. */
  function Apply(api: Api, op: Op, net: seq<Attempt>, decode: string -> Option<Response>): Trace
  {
    match op
    case Search(name) =>
      var s := GetMemeNameMatches(api, name, net, decode);
      Trace(s.api, s.sent, s.rest)
    case MakeMeme(name, firstLine, secondLine) =>
      var s := Generate(api, name, firstLine, secondLine, net, decode);
      Trace(s.api, s.sent, s.rest)
  }

  /** Operations applied one after another, whatever each one returns. */
  function Run(api: Api, ops: seq<Op>, net: seq<Attempt>, decode: string -> Option<Response>): Trace
    decreases |ops|
  {
    if ops == [] then Trace(api, [], net)
    else
      var first := Apply(api, ops[0], net, decode);
      var later := Run(first.api, ops[1..], first.rest, decode);
      Trace(later.api, first.sent + later.sent, later.rest)
  }

  /** Generate requests the listing only through EnsureMemeIdCache. */
  lemma GenerateListingRequests(api: Api, name: string, firstLine: Option<string>, secondLine: Option<string>,
                                net: seq<Attempt>, decode: string -> Option<Response>)
    ensures multiset(Generate(api, name, firstLine, secondLine, net, decode).sent)[ListingUrl]
         == multiset(EnsureMemeIdCache(api, net, decode).sent)[ListingUrl]
  {
    var ready := EnsureMemeIdCache(api, net, decode);
    if ready.result.Success? && GetMemeIdFromName(ready.api.cache.value, name).Success? {
      var id := GetMemeIdFromName(ready.api.cache.value, name).value;
      var call := CallImgFlipApi(CaptionRequest(api, id, firstLine, secondLine), DefaultRetries, ready.rest, decode);
      GenerateOutcome(api, name, firstLine, secondLine, net, decode);
      CaptionRequestIsNotListing(id, CaptionLine(firstLine), CaptionLine(secondLine), api.username, api.password);
      assert ListingUrl !in call.sent;
      assert Generate(api, name, firstLine, secondLine, net, decode).sent == ready.sent + call.sent;
    }
  }

  /** EnsureMemeIdCache requests the listing only while the cache is null. */
  lemma EnsureListingRequests(api: Api, net: seq<Attempt>, decode: string -> Option<Response>)
    ensures multiset(EnsureMemeIdCache(api, net, decode).sent)[ListingUrl]
         <= if api.cache.None? then Budget(DefaultRetries) else 0
  {
    SameElementsCount(EnsureMemeIdCache(api, net, decode).sent, ListingUrl);
  }

  /** One operation requests the listing only while the cache is null, and
      leaves a cache behind. */
  lemma ApplyListingRequests(api: Api, op: Op, net: seq<Attempt>, decode: string -> Option<Response>)
    ensures Apply(api, op, net, decode).api.cache.Some?
    ensures multiset(Apply(api, op, net, decode).sent)[ListingUrl]
         <= if api.cache.None? then Budget(DefaultRetries) else 0
  {
    EnsureListingRequests(api, net, decode);
    match op
    case Search(name) =>
    case MakeMeme(name, firstLine, secondLine) =>
      GenerateListingRequests(api, name, firstLine, secondLine, net, decode);
  }

  /** A sequence whose every element is `u` holds `u` once per element. */
  lemma {:induction false} SameElementsCount(xs: seq<string>, u: string)
    requires forall k :: 0 <= k < |xs| ==> xs[k] == u
    ensures multiset(xs)[u] == |xs|
  {
    if xs != [] {
      assert xs == [xs[0]] + xs[1..];
      SameElementsCount(xs[1..], u);
    }
  }

  /** However many searches and generations a client serves, it calls the
      listing endpoint at most once: at most `Budget(DefaultRetries)` listing
      requests from a fresh client, none from one whose cache exists. */
  lemma {:induction false} ListingAtMostOnce(api: Api, ops: seq<Op>, net: seq<Attempt>, decode: string -> Option<Response>)
    ensures multiset(Run(api, ops, net, decode).sent)[ListingUrl]
         <= if api.cache.None? then Budget(DefaultRetries) else 0
    decreases |ops|
  {
    if ops != [] {
      var first := Apply(api, ops[0], net, decode);
      ApplyListingRequests(api, ops[0], net, decode);
      ListingAtMostOnce(first.api, ops[1..], first.rest, decode);
    }
  }
}

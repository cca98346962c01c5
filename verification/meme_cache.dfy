/** The in-memory meme cache: an ordered list of memes, replaced wholesale by
    `Refresh`, with a name filter and a two-tier name-to-id lookup. */
module MemeCache {
  import opened Results
  import opened Records
  import opened Text

  datatype MemeIdCache = MemeIdCache(memes: seq<Meme>)

  /** The cache a new client starts with (and the one a failed listing leaves). */
  const EmptyCache := MemeIdCache([])

  /** List.Clear: drops every entry. */
  function Clear(c: MemeIdCache): (r: MemeIdCache)
    ensures |r.memes| == 0
  {
    MemeIdCache([])
  }

  /** List.AddRange: appends `memes` after the current entries, in order. */
  function AddRange(c: MemeIdCache, memes: seq<Meme>): (r: MemeIdCache)
    ensures |r.memes| == |c.memes| + |memes|
    ensures r.memes[..|c.memes|] == c.memes
    ensures r.memes[|c.memes|..] == memes
  {
    MemeIdCache(c.memes + memes)
  }

  /** Clears the cache, then adds the supplied memes: the cache becomes
      exactly the supplied list, in the supplied order, whatever it held. */
  function Refresh(c: MemeIdCache, memes: seq<Meme>): (r: MemeIdCache)
    ensures r.memes == memes
  {
    AddRange(Clear(c), memes)
  }

  // ---------------------------------------------------------------------------
  // Name filter
  // ---------------------------------------------------------------------------

  /** The meme's folded name contains the folded query. */
  predicate NameContains(m: Meme, name: string)
  {
    Contains(Fold(m.name), Fold(name))
  }

  /** The names of the memes matching `name`, in list order (duplicates kept):
      the reference definition of FindAll followed by Select. */
  function MatchingNames(memes: seq<Meme>, name: string): (r: seq<string>)
    ensures |r| <= |memes|
    ensures forall k :: 0 <= k < |r| ==>
      exists i :: 0 <= i < |memes| && memes[i].name == r[k] && NameContains(memes[i], name)
  {
    if memes == [] then []
    else
      var rest := MatchingNames(memes[1..], name);
      if NameContains(memes[0], name) then
        assert forall k :: 1 <= k < |rest| + 1 ==> ([memes[0].name] + rest)[k] == rest[k - 1];
        [memes[0].name] + rest
      else rest
  }

  /** The names of all memes, in list order. */
  function Names(memes: seq<Meme>): (r: seq<string>)
    ensures |r| == |memes|
    ensures forall i :: 0 <= i < |memes| ==> r[i] == memes[i].name
  {
    if memes == [] then [] else [memes[0].name] + Names(memes[1..])
  }

  /** Filtering distributes over concatenation: matches keep the order of the
      memes they come from. */
  lemma {:induction false} MatchingNamesAppend(a: seq<Meme>, b: seq<Meme>, name: string)
    ensures MatchingNames(a + b, name) == MatchingNames(a, name) + MatchingNames(b, name)
  {
    if a == [] {
      assert a + b == b;
    } else {
      assert (a + b)[1..] == a[1..] + b;
      MatchingNamesAppend(a[1..], b, name);
    }
  }

  /** Every matching meme contributes its name. */
  lemma {:induction false} MatchingNamesComplete(memes: seq<Meme>, name: string, i: nat)
    requires i < |memes| && NameContains(memes[i], name)
    ensures memes[i].name in MatchingNames(memes, name)
  {
    if i > 0 {
      MatchingNamesComplete(memes[1..], name, i - 1);
    }
  }

  /** The empty query matches every meme, so the filter returns every name. */
  lemma {:induction false} MatchingNamesEmptyQuery(memes: seq<Meme>)
    ensures MatchingNames(memes, "") == Names(memes)
  {
    if memes != [] {
      ContainsEmpty(Fold(memes[0].name));
      MatchingNamesEmptyQuery(memes[1..]);
    }
  }

  /** Queries that fold to the same string select the same names. */
  lemma {:induction false} MatchingNamesCaseInsensitive(memes: seq<Meme>, q1: string, q2: string)
    requires Fold(q1) == Fold(q2)
    ensures MatchingNames(memes, q1) == MatchingNames(memes, q2)
  {
    if memes != [] {
      MatchingNamesCaseInsensitive(memes[1..], q1, q2);
    }
  }

  /** MemeIdCache.GetMemeNameMatches: one pass over the cache keeping the
      names of the memes whose lowercased name contains the lowercased query. */
  method GetMemeNameMatches(c: MemeIdCache, name: string) returns (r: seq<string>)
    ensures r == MatchingNames(c.memes, name)
  {
    var lowered := Fold(name);
    r := [];
    var i := 0;
    while i < |c.memes|
      invariant i <= |c.memes|
      invariant r == MatchingNames(c.memes[..i], name)
    {
      var meme := c.memes[i];
      MatchingNamesAppend(c.memes[..i], [meme], name);
      assert c.memes[..i + 1] == c.memes[..i] + [meme];
      if Contains(Fold(meme.name), lowered) {
        r := r + [meme.name];
      }
      i := i + 1;
    }
    assert c.memes[..i] == c.memes;
  }

  // ---------------------------------------------------------------------------
  // Name to id lookup
  // ---------------------------------------------------------------------------

  /** Enumerable.First: the index of the first meme satisfying `p`; `None`
      stands for the InvalidOperationException raised when none does. */
  function FirstMatch(memes: seq<Meme>, p: Meme -> bool): (r: Option<nat>)
    ensures r.Some? ==> r.value < |memes| && p(memes[r.value])
    ensures r.Some? ==> forall j :: 0 <= j < r.value ==> !p(memes[j])
    ensures r.None? <==> forall j :: 0 <= j < |memes| ==> !p(memes[j])
  {
    if memes == [] then None
    else if p(memes[0]) then Some(0)
    else
      match FirstMatch(memes[1..], p)
      case None => None
      case Some(k) => Some(k + 1)
  }

  /** Tier 1: the first meme whose name equals the lowered query, ignoring case. */
  function ExactTier(memes: seq<Meme>, lowered: string): Option<nat>
  {
    FirstMatch(memes, (m: Meme) => Fold(m.name) == Fold(lowered))
  }

  /** Tier 2: the first meme whose lowered name contains the lowered query. */
  function ContainmentTier(memes: seq<Meme>, lowered: string): Option<nat>
  {
    FirstMatch(memes, (m: Meme) => Contains(Fold(m.name), lowered))
  }

  /** `k` is the position of the first meme matching `name`. */
  predicate IsFirstContaining(memes: seq<Meme>, name: string, k: nat)
  {
    k < |memes| && NameContains(memes[k], name)
    && forall j :: 0 <= j < k ==> !NameContains(memes[j], name)
  }

  /** MemeIdCache.GetMemeIdFromName. The id variable starts empty; tier 1
      sets it on an exact hit; tier 2 then always runs and either overwrites
      it or raises the no-match exception. The result therefore depends only
      on tier 2: the id of the first meme whose folded name contains the
      folded query, or NoMatch when there is none. */
  function GetMemeIdFromName(c: MemeIdCache, name: string): (r: Result<string, ApiError>)
    ensures r.Success? <==> exists i :: 0 <= i < |c.memes| && NameContains(c.memes[i], name)
    ensures r.Success? ==>
      exists k: nat :: IsFirstContaining(c.memes, name, k) && r.value == c.memes[k].id
    ensures r.Failure? ==> r.error == NoMatch(NoMatchMessage)
  {
    var lowered := Fold(name);
    // Tier 1's id is computed and then always overwritten by tier 2.
    var tier1Id := match ExactTier(c.memes, lowered)
                   case Some(i) => c.memes[i].id
                   case None => "";
    match ContainmentTier(c.memes, lowered)
    case Some(j) =>
      var tier2Id := c.memes[j].id;
      assert IsFirstContaining(c.memes, name, j);
      Success(tier2Id)
    case None => Failure(NoMatch(NoMatchMessage))
  }

  /** An exact (case-insensitive) hit is also a containment hit, so tier 2
      always finds a meme at or before the one tier 1 found. */
  lemma ExactHitIsContainmentHit(memes: seq<Meme>, name: string)
    requires ExactTier(memes, Fold(name)).Some?
    ensures ContainmentTier(memes, Fold(name)).Some?
    ensures ContainmentTier(memes, Fold(name)).value <= ExactTier(memes, Fold(name)).value
  {
    var lowered := Fold(name);
    var i := ExactTier(memes, lowered).value;
    FoldIdempotent(name);
    assert Fold(memes[i].name) == Fold(lowered);
    ContainsSelf(Fold(memes[i].name));
  }

  /** A failed tier 1 alone never raises: the lookup fails exactly when no
      meme name contains the query, and in particular on an empty cache. */
  lemma NoMatchOnlyWithoutContainment(c: MemeIdCache, name: string)
    ensures GetMemeIdFromName(c, name).Failure? <==> ContainmentTier(c.memes, Fold(name)).None?
    ensures c.memes == [] ==> GetMemeIdFromName(c, name) == Failure(NoMatch(NoMatchMessage))
    ensures ExactTier(c.memes, Fold(name)).Some? ==> GetMemeIdFromName(c, name).Success?
  {
    if ExactTier(c.memes, Fold(name)).Some? {
      ExactHitIsContainmentHit(c.memes, name);
    }
  }

  /** The tier inversion: when a meme whose name merely contains the query
      precedes a meme whose name equals it, tier 1 finds the exact one but
      the lookup returns the id of the first one. */
  lemma TierTwoOverwritesTierOne(loose: Meme, exact: Meme, name: string)
    requires NameContains(loose, name) && Fold(loose.name) != Fold(name)
    requires Fold(exact.name) == Fold(name)
    ensures ExactTier([loose, exact], Fold(name)) == Some(1)
    ensures GetMemeIdFromName(MemeIdCache([loose, exact]), name) == Success(loose.id)
  {
    FoldIdempotent(name);
    var memes := [loose, exact];
    var hit := ExactTier(memes, Fold(name));
    assert memes[0] == loose && memes[1] == exact;
    assert hit.Some? && hit.value != 0;
    assert ContainmentTier(memes, Fold(name)) == Some(0);
  }

  /** An instance: "Cat Meme" (id A) precedes an exact "cat" (id B), and "cat"
      resolves to A. */
  lemma CatMemeResolvesToFirst()
    ensures GetMemeIdFromName(MemeIdCache([Meme("A", "Cat Meme", "", 0, 0), Meme("B", "cat", "", 0, 0)]), "cat")
         == Success("A")
  {
    var loose, exact := Meme("A", "Cat Meme", "", 0, 0), Meme("B", "cat", "", 0, 0);
    assert Fold("cat") == "cat" by {
      assert FoldChar('c') == 'c' && FoldChar('a') == 'a' && FoldChar('t') == 't';
    }
    assert Fold(loose.name) == "cat meme" by {
      assert FoldChar('C') == 'c' && FoldChar('M') == 'm';
      assert Fold(loose.name)[0] == 'c' && Fold(loose.name)[4] == 'm';
    }
    assert OccursAt(Fold(loose.name), Fold("cat"), 0);
    TierTwoOverwritesTierOne(loose, exact, "cat");
  }
}

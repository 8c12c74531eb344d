/**
  `SynonymAPI.get_combined_synonyms` and the `/synonyms` endpoint around it:
  the walk over the configured services for the primary word and, when one
  is given, for the second word; the union of their synonyms; the sources
  and errors recorded on the way; the minimum-count check and the
  truncation to the maximum count.
 */
module Aggregator {
  import opened Wrappers
  import opened Text
  import opened Providers

  /** `word.strip().lower()`: the word between its surrounding whitespace,
      lower-cased. */
  function Normalise(word: string): (r: string)
    ensures IsStripped(r)
    ensures forall i :: 0 <= i < |r| ==> !('A' <= r[i] <= 'Z')
    ensures exists a, b :: 0 <= a <= b <= |word| && AllSpace(word[..a]) && AllSpace(word[b..]) && IsLowerOf(r, word, a, b)
  {
    var y := Strip(word);
    LowerKeepsStripped(y);
    var r := Lower(y);
    assert exists a, b :: 0 <= a <= b <= |word| && AllSpace(word[..a]) && AllSpace(word[b..]) && IsLowerOf(r, word, a, b) by {
      var a, b :| 0 <= a <= b <= |word| && y == word[a..b] && AllSpace(word[..a]) && AllSpace(word[b..]);
      LowerSlice(word, a, b);
    }
    r
  }

  /** Normalising twice is normalising once, so the word that comes back in
      the response is already in the form the services were queried with. */
  lemma NormaliseIdempotent(word: string)
    ensures Normalise(Normalise(word)) == Normalise(word)
  {
    var y := Strip(word);
    LowerKeepsStripped(y);
    StripStripped(Lower(y));
    LowerIdempotent(y);
  }

  /** Python truthiness of the optional second word: given and non-empty. */
  predicate Given(secondWord: Option<string>) {
    secondWord.Some? && secondWord.value != ""
  }

  /** `get_synonyms_from_api(api, word)`, the network being `fetch`. */
  function GetSynonymsFromApi(api: Api, word: string, ninjasKey: Option<string>, fetch: Request -> Reply): (r: Outcome)
    ensures r.Failure? ==> r.error.apiName == Name(api)
    ensures r.Success? ==> forall i :: 0 <= i < |r.value| ==> IsSingleToken(r.value[i])
    ensures r.Success? <==>
      var reply := fetch(BuildRequest(api, word, ninjasKey));
      reply.Response? && IsSuccess(reply.status) && Candidates(api, reply.body).Success?
  {
    Query(api, fetch(BuildRequest(api, word, ninjasKey)))
  }

  /** What each configured service, in configuration order, yields for `word`. */
  function Outcomes(word: string, ninjasKey: Option<string>, fetch: Request -> Reply): (r: seq<(string, Outcome)>)
    ensures |r| == |Apis|
    ensures forall i :: 0 <= i < |r| ==>
      r[i].0 == Name(Apis[i]) && r[i].1 == GetSynonymsFromApi(Apis[i], word, ninjasKey, fetch)
  {
    seq(|Apis|, i requires 0 <= i < |Apis| => (Name(Apis[i]), GetSynonymsFromApi(Apis[i], word, ninjasKey, fetch)))
  }

  /** The state of one walk over the services: the synonyms gathered so far
      (`all_synonyms` or `second_synonyms`), `sources` and `errors`. */
  datatype Walk = Walk(found: set<string>, sources: seq<string>, errors: seq<string>)

  const Fresh: Walk := Walk({}, [], [])

  /** A service contributes when it answers with at least one synonym. */
  predicate Contributes(o: Outcome) {
    o.Success? && o.value != []
  }

  /** `set(xs)` */
  function ToSet(xs: seq<string>): (r: set<string>)
    ensures forall s :: s in r <==> s in xs
  {
    set s | s in xs
  }

  /** One iteration of either loop: a non-empty answer is added to the set
      and the service's name to `sources` (in the second walk, only when it is
      not there yet); an error's text is added to `errors`. */
  function Step(w: Walk, name: string, outcome: Outcome, onlyNew: bool): Walk {
    match outcome
    case Success(synonyms) =>
      if synonyms == [] then w
      else
        Walk(w.found + ToSet(synonyms),
             if onlyNew && name in w.sources then w.sources else w.sources + [name],
             w.errors)
    case Failure(e) => Walk(w.found, w.sources, w.errors + [e.ToString()])
  }

  /** A walk over `outcomes` from `start`, one `Step` per service. */
  function Collect(start: Walk, outcomes: seq<(string, Outcome)>, onlyNew: bool): Walk
    decreases |outcomes|
  {
    if outcomes == [] then start
    else
      var last := outcomes[|outcomes| - 1];
      Step(Collect(start, outcomes[..|outcomes| - 1], onlyNew), last.0, last.1, onlyNew)
  }

  /** A walk over the first `i + 1` services is the walk over the first `i`
      followed by one more step. */
  lemma CollectStep(start: Walk, outcomes: seq<(string, Outcome)>, i: nat, onlyNew: bool)
    requires i < |outcomes|
    ensures Collect(start, outcomes[..i + 1], onlyNew)
      == Step(Collect(start, outcomes[..i], onlyNew), outcomes[i].0, outcomes[i].1, onlyNew)
  {
    assert outcomes[..i + 1][..i] == outcomes[..i];
  }

  /** A walk over all of `outcomes[..|outcomes|]` is the walk over `outcomes`. */
  lemma CollectAll(start: Walk, outcomes: seq<(string, Outcome)>, onlyNew: bool)
    ensures Collect(start, outcomes[..|outcomes|], onlyNew) == Collect(start, outcomes, onlyNew)
  {
    assert outcomes[..|outcomes|] == outcomes;
  }

  /** A walk only ever adds: the starting set, `sources` and `errors` are
      kept, and each service adds at most one name. */
  lemma {:induction false} CollectKeeps(start: Walk, outcomes: seq<(string, Outcome)>, onlyNew: bool)
    ensures start.found <= Collect(start, outcomes, onlyNew).found
    ensures start.sources <= Collect(start, outcomes, onlyNew).sources
    ensures start.errors <= Collect(start, outcomes, onlyNew).errors
    ensures |Collect(start, outcomes, onlyNew).sources| <= |start.sources| + |outcomes|
    decreases |outcomes|
  {
    if outcomes != [] {
      CollectKeeps(start, outcomes[..|outcomes| - 1], onlyNew);
    }
  }

  /** The walk for the primary word. */
  function PrimaryWalk(word: string, ninjasKey: Option<string>, fetch: Request -> Reply): Walk {
    Collect(Fresh, Outcomes(Normalise(word), ninjasKey, fetch), false)
  }

  /** The walk for the second word: a set of its own, and the sources and
      errors the primary walk left behind. */
  function SecondWalk(first: Walk, secondWord: string, ninjasKey: Option<string>, fetch: Request -> Reply): Walk {
    Collect(Walk({}, first.sources, first.errors), Outcomes(Normalise(secondWord), ninjasKey, fetch), true)
  }

  /** The sources and errors at the end of the lookup. */
  function FinalWalk(word: string, secondWord: Option<string>, ninjasKey: Option<string>, fetch: Request -> Reply): Walk {
    var first := PrimaryWalk(word, ninjasKey, fetch);
    if Given(secondWord) then SecondWalk(first, secondWord.value, ninjasKey, fetch) else first
  }

  // ---------------------------------------------------------------------
  // What a walk gathers, stated without the walk.

  /** Some successful service offers `s`. */
  predicate Offered(outcomes: seq<(string, Outcome)>, s: string) {
    exists i | 0 <= i < |outcomes| :: outcomes[i].1.Success? && s in outcomes[i].1.value
  }

  /** The gathered set is the union of every successful service's list;
      a failing service adds nothing and does not end the walk. */
  lemma {:induction false} CollectFound(start: Walk, outcomes: seq<(string, Outcome)>, onlyNew: bool, s: string)
    ensures s in Collect(start, outcomes, onlyNew).found <==> s in start.found || Offered(outcomes, s)
    decreases |outcomes|
  {
    if outcomes != [] {
      var n := |outcomes| - 1;
      var front := outcomes[..n];
      CollectFound(start, front, onlyNew, s);
      assert forall i | 0 <= i < n :: front[i] == outcomes[i];
      if Offered(outcomes, s) && !Offered(front, s) {
        var i :| 0 <= i < |outcomes| && outcomes[i].1.Success? && s in outcomes[i].1.value;
        assert i == n;
      }
    }
  }

  /** The error texts of the failing services, in order. */
  function Failures(outcomes: seq<(string, Outcome)>): (r: seq<string>)
    decreases |outcomes|
  {
    if outcomes == [] then []
    else
      var last := outcomes[|outcomes| - 1];
      Failures(outcomes[..|outcomes| - 1]) + (if last.1.Failure? then [last.1.error.ToString()] else [])
  }

  /** An error text is recorded exactly when some service failed with it. */
  lemma {:induction false} FailuresMembers(outcomes: seq<(string, Outcome)>, e: string)
    ensures e in Failures(outcomes) <==>
      exists i | 0 <= i < |outcomes| :: outcomes[i].1.Failure? && outcomes[i].1.error.ToString() == e
    decreases |outcomes|
  {
    if outcomes != [] {
      var n := |outcomes| - 1;
      var front := outcomes[..n];
      FailuresMembers(front, e);
      assert forall i | 0 <= i < n :: front[i] == outcomes[i];
    }
  }

  /** Every failure is appended to `errors`, in query order, after those
      already there. */
  lemma {:induction false} CollectErrors(start: Walk, outcomes: seq<(string, Outcome)>, onlyNew: bool)
    ensures Collect(start, outcomes, onlyNew).errors == start.errors + Failures(outcomes)
    decreases |outcomes|
  {
    if outcomes != [] {
      CollectErrors(start, outcomes[..|outcomes| - 1], onlyNew);
    }
  }

  /** The positions of the contributing services, in increasing order. */
  function ContributingIndices(outcomes: seq<(string, Outcome)>): (idx: seq<nat>)
    ensures forall k :: 0 <= k < |idx| ==> idx[k] < |outcomes| && Contributes(outcomes[idx[k]].1)
    ensures forall k, l :: 0 <= k < l < |idx| ==> idx[k] < idx[l]
    ensures forall i :: 0 <= i < |outcomes| && Contributes(outcomes[i].1) ==> i in idx
    decreases |outcomes|
  {
    if outcomes == [] then []
    else
      var n := |outcomes| - 1;
      var front := ContributingIndices(outcomes[..n]);
      assert forall k :: 0 <= k < |front| ==> outcomes[..n][front[k]] == outcomes[front[k]];
      front + (if Contributes(outcomes[n].1) then [n] else [])
  }

  /** The names at the given positions. */
  function NamesAt(outcomes: seq<(string, Outcome)>, idx: seq<nat>): (r: seq<string>)
    requires forall k :: 0 <= k < |idx| ==> idx[k] < |outcomes|
    ensures |r| == |idx| && forall k :: 0 <= k < |idx| ==> r[k] == outcomes[idx[k]].0
  {
    seq(|idx|, k requires 0 <= k < |idx| => outcomes[idx[k]].0)
  }

  /** In the primary walk every contributing service's name is appended, in
      the order the services were asked. */
  lemma {:induction false} PrimarySources(start: Walk, outcomes: seq<(string, Outcome)>)
    ensures Collect(start, outcomes, false).sources ==
      start.sources + NamesAt(outcomes, ContributingIndices(outcomes))
    decreases |outcomes|
  {
    if outcomes != [] {
      var n := |outcomes| - 1;
      var front := outcomes[..n];
      PrimarySources(start, front);
      var idx := ContributingIndices(front);
      assert NamesAt(front, idx) == NamesAt(outcomes, idx);
      if Contributes(outcomes[n].1) {
        assert NamesAt(outcomes, idx + [n]) == NamesAt(outcomes, idx) + [outcomes[n].0];
      }
    }
  }

  predicate NoDuplicates(xs: seq<string>) {
    forall k, l :: 0 <= k < l < |xs| ==> xs[k] != xs[l]
  }

  /** In the second walk `sources` keeps what it had and gains, once each,
      the contributing services it did not have. */
  lemma {:induction false} SecondSources(start: Walk, outcomes: seq<(string, Outcome)>, name: string)
    requires NoDuplicates(start.sources)
    ensures start.sources <= Collect(start, outcomes, true).sources
    ensures NoDuplicates(Collect(start, outcomes, true).sources)
    ensures name in Collect(start, outcomes, true).sources <==>
      name in start.sources ||
      exists i | 0 <= i < |outcomes| :: outcomes[i].0 == name && Contributes(outcomes[i].1)
    decreases |outcomes|
  {
    if outcomes != [] {
      var n := |outcomes| - 1;
      var front := outcomes[..n];
      SecondSources(start, front, name);
      assert forall i | 0 <= i < n :: front[i] == outcomes[i];
      var before := Collect(start, front, true).sources;
      if Contributes(outcomes[n].1) && outcomes[n].0 !in before {
        assert forall k | 0 <= k < |before| :: (before + [outcomes[n].0])[k] == before[k];
      }
    }
  }

  // ---------------------------------------------------------------------
  // The properties of the configured walks.

  /** Position of a name in a list that holds it. */
  function IndexOf(xs: seq<string>, x: string): (r: nat)
    requires x in xs
    ensures r < |xs| && xs[r] == x
    ensures forall j :: 0 <= j < r ==> xs[j] != x
  {
    if xs[0] == x then 0 else 1 + IndexOf(xs[1..], x)
  }

  /** Configured names, each in its configuration position. */
  predicate InConfigOrder(xs: seq<string>) {
    && (forall k :: 0 <= k < |xs| ==> xs[k] in Names())
    && (forall k, l :: 0 <= k < l < |xs| ==> IndexOf(Names(), xs[k]) < IndexOf(Names(), xs[l]))
  }

  /** Names in configuration order cannot repeat. */
  lemma InConfigOrderDistinct(xs: seq<string>)
    requires InConfigOrder(xs)
    ensures NoDuplicates(xs)
  {
    forall k, l | 0 <= k < l < |xs|
      ensures xs[k] != xs[l]
    {
      assert IndexOf(Names(), xs[k]) < IndexOf(Names(), xs[l]);
    }
  }

  /** Each service's name sits at the service's own position. */
  lemma NameIndex(i: nat)
    requires i < |Apis|
    ensures Name(Apis[i]) in Names() && IndexOf(Names(), Name(Apis[i])) == i
  {
    var names := Names();
    if i == 0 {
      assert names[0] == Name(Apis[0]);
    } else {
      assert names[1] == Name(Apis[1]);
      assert names[0] != names[1] by { assert |names[0]| != |names[1]|; }
    }
  }

  /** The primary word's `sources` are the contributing services' names in
      configuration order, so a subsequence of the configured names without
      duplicates. */
  lemma PrimarySourcesInOrder(word: string, ninjasKey: Option<string>, fetch: Request -> Reply)
    ensures InConfigOrder(PrimaryWalk(word, ninjasKey, fetch).sources)
    ensures NoDuplicates(PrimaryWalk(word, ninjasKey, fetch).sources)
  {
    var outs := Outcomes(Normalise(word), ninjasKey, fetch);
    PrimarySources(Fresh, outs);
    var idx := ContributingIndices(outs);
    var src := PrimaryWalk(word, ninjasKey, fetch).sources;
    assert src == NamesAt(outs, idx);
    ConfiguredNamesAt(outs, idx);
    InConfigOrderDistinct(src);
  }

  /** The names of configured services at increasing positions are in
      configuration order. */
  lemma ConfiguredNamesAt(outs: seq<(string, Outcome)>, idx: seq<nat>)
    requires |outs| == |Apis| && forall i :: 0 <= i < |outs| ==> outs[i].0 == Name(Apis[i])
    requires forall k :: 0 <= k < |idx| ==> idx[k] < |outs|
    requires forall k, l :: 0 <= k < l < |idx| ==> idx[k] < idx[l]
    ensures InConfigOrder(NamesAt(outs, idx))
  {
    var src := NamesAt(outs, idx);
    forall k | 0 <= k < |src|
      ensures src[k] in Names() && IndexOf(Names(), src[k]) == idx[k]
    {
      NameIndex(idx[k]);
    }
  }

  /** Every primary-word source is kept, and the second word adds only
      configured services that were not there, so the final `sources` holds
      no duplicates and nothing but configured names. */
  lemma FinalSources(word: string, secondWord: Option<string>, ninjasKey: Option<string>, fetch: Request -> Reply)
    ensures PrimaryWalk(word, ninjasKey, fetch).sources <= FinalWalk(word, secondWord, ninjasKey, fetch).sources
    ensures NoDuplicates(FinalWalk(word, secondWord, ninjasKey, fetch).sources)
    ensures forall n :: n in FinalWalk(word, secondWord, ninjasKey, fetch).sources ==> n in Names()
  {
    var first := PrimaryWalk(word, ninjasKey, fetch);
    PrimarySourcesInOrder(word, ninjasKey, fetch);
    if Given(secondWord) {
      var start := Walk({}, first.sources, first.errors);
      var outs := Outcomes(Normalise(secondWord.value), ninjasKey, fetch);
      assert FinalWalk(word, secondWord, ninjasKey, fetch) == Collect(start, outs, true);
      SecondNamed(start, outs);
      SecondSources(start, outs, "");
    }
  }

  /** The second walk over the configured services adds only configured names. */
  lemma SecondNamed(start: Walk, outs: seq<(string, Outcome)>)
    requires NoDuplicates(start.sources)
    requires forall n :: n in start.sources ==> n in Names()
    requires |outs| == |Apis| && forall i :: 0 <= i < |outs| ==> outs[i].0 == Name(Apis[i])
    ensures forall n :: n in Collect(start, outs, true).sources ==> n in Names()
  {
    forall n | n in Collect(start, outs, true).sources
      ensures n in Names()
    {
      SecondSources(start, outs, n);
      if n !in start.sources {
        var i :| 0 <= i < |outs| && outs[i].0 == n && Contributes(outs[i].1);
        assert n == Names()[i];
      }
    }
  }

  /** Service `api` answers `word` successfully with `s` among its synonyms. */
  predicate Answers(api: Api, word: string, ninjasKey: Option<string>, fetch: Request -> Reply, s: string) {
    var o := GetSynonymsFromApi(api, word, ninjasKey, fetch);
    o.Success? && s in o.value
  }

  /** `Offered` over the configured services, stated service by service. */
  lemma OfferedByServices(word: string, ninjasKey: Option<string>, fetch: Request -> Reply, s: string)
    ensures Offered(Outcomes(word, ninjasKey, fetch), s) <==>
      exists i | 0 <= i < |Apis| :: Answers(Apis[i], word, ninjasKey, fetch, s)
  {
    var outs := Outcomes(word, ninjasKey, fetch);
    if Offered(outs, s) {
      var i :| 0 <= i < |outs| && outs[i].1.Success? && s in outs[i].1.value;
      assert Answers(Apis[i], word, ninjasKey, fetch, s);
    }
    if exists i | 0 <= i < |Apis| :: Answers(Apis[i], word, ninjasKey, fetch, s) {
      var i :| 0 <= i < |Apis| && Answers(Apis[i], word, ninjasKey, fetch, s);
      assert outs[i].1 == GetSynonymsFromApi(Apis[i], word, ninjasKey, fetch);
    }
  }

  /** The primary word's set is the union of what its services offered. */
  lemma PrimaryFound(word: string, ninjasKey: Option<string>, fetch: Request -> Reply, s: string)
    ensures s in PrimaryWalk(word, ninjasKey, fetch).found <==>
      exists i | 0 <= i < |Apis| :: Answers(Apis[i], Normalise(word), ninjasKey, fetch, s)
  {
    CollectFound(Fresh, Outcomes(Normalise(word), ninjasKey, fetch), false, s);
    OfferedByServices(Normalise(word), ninjasKey, fetch, s);
  }

  /** The second word's set is the union of what its services offered; it
      starts empty, whatever the primary word found. */
  lemma SecondFound(first: Walk, secondWord: string, ninjasKey: Option<string>, fetch: Request -> Reply, s: string)
    ensures s in SecondWalk(first, secondWord, ninjasKey, fetch).found <==>
      exists i | 0 <= i < |Apis| :: Answers(Apis[i], Normalise(secondWord), ninjasKey, fetch, s)
  {
    CollectFound(Walk({}, first.sources, first.errors), Outcomes(Normalise(secondWord), ninjasKey, fetch), true, s);
    OfferedByServices(Normalise(secondWord), ninjasKey, fetch, s);
  }

  /** The errors reported at the end are the primary word's failures
      followed by the second word's, each in configuration order. */
  lemma FinalErrors(word: string, secondWord: Option<string>, ninjasKey: Option<string>, fetch: Request -> Reply)
    ensures FinalWalk(word, secondWord, ninjasKey, fetch).errors ==
      Failures(Outcomes(Normalise(word), ninjasKey, fetch)) +
      (if Given(secondWord) then Failures(Outcomes(Normalise(secondWord.value), ninjasKey, fetch)) else [])
  {
    var first := PrimaryWalk(word, ninjasKey, fetch);
    var outs1 := Outcomes(Normalise(word), ninjasKey, fetch);
    CollectErrors(Fresh, outs1, false);
    assert first.errors == Failures(outs1);
    if Given(secondWord) {
      var start := Walk({}, first.sources, first.errors);
      var outs2 := Outcomes(Normalise(secondWord.value), ninjasKey, fetch);
      CollectErrors(start, outs2, true);
      assert FinalWalk(word, secondWord, ninjasKey, fetch) == Collect(start, outs2, true);
    }
  }

  /** Each failing service leaves one error text. */
  lemma {:induction false} FailuresAll(outcomes: seq<(string, Outcome)>)
    requires forall i :: 0 <= i < |outcomes| ==> outcomes[i].1.Failure?
    ensures |Failures(outcomes)| == |outcomes|
    decreases |outcomes|
  {
    if outcomes != [] {
      var n := |outcomes| - 1;
      assert forall i :: 0 <= i < n ==> outcomes[..n][i] == outcomes[i];
      FailuresAll(outcomes[..n]);
    }
  }

  /** When every service fails for the primary word nothing is found and
      every service leaves its error. */
  lemma AllFailing(word: string, ninjasKey: Option<string>, fetch: Request -> Reply)
    requires forall i :: 0 <= i < |Apis| ==> GetSynonymsFromApi(Apis[i], Normalise(word), ninjasKey, fetch).Failure?
    ensures PrimaryWalk(word, ninjasKey, fetch).found == {}
    ensures |PrimaryWalk(word, ninjasKey, fetch).errors| == |Apis|
  {
    var outs := Outcomes(Normalise(word), ninjasKey, fetch);
    assert forall i :: 0 <= i < |outs| ==> outs[i].1.Failure?;
    forall s
      ensures s !in PrimaryWalk(word, ninjasKey, fetch).found
    {
      PrimaryFound(word, ninjasKey, fetch, s);
    }
    CollectErrors(Fresh, outs, false);
    FailuresAll(outs);
  }

  /** Letter case and surrounding whitespace of the typed word do not change
      what is looked up. */
  lemma NormalisedLookup(word: string, ninjasKey: Option<string>, fetch: Request -> Reply)
    ensures PrimaryWalk(Normalise(word), ninjasKey, fetch) == PrimaryWalk(word, ninjasKey, fetch)
  {
    NormaliseIdempotent(word);
  }

  // ---------------------------------------------------------------------
  // The lookup.

  /** `list(s)[:n]` up to order: `min(|s|, n)` distinct members of `s`. */
  predicate IsSelection(xs: seq<string>, s: set<string>, n: nat) {
    && |xs| == Min(|s|, n)
    && (forall i :: 0 <= i < |xs| ==> xs[i] in s)
    && NoDuplicates(xs)
  }

  /** `list(s)[:n]`. Which members are taken, and in which order, follows
      Python's set iteration order, which is left open here. */
  method TakeSome(s: set<string>, n: nat) returns (xs: seq<string>)
    ensures IsSelection(xs, s, n)
  {
    xs := [];
    var rest := s;
    while |xs| < n && rest != {}
      invariant rest <= s && |xs| + |rest| == |s| && |xs| <= n
      invariant forall i :: 0 <= i < |xs| ==> xs[i] in s && xs[i] !in rest
      invariant NoDuplicates(xs)
      decreases rest
    {
      var x :| x in rest;
      xs := xs + [x];
      rest := rest - {x};
    }
  }

  const NotFoundPrefix: string := "Not enough synonyms found for '"

  /** The text of `NoSynonymsFound`: the word, and the errors if any. */
  function NotFoundMessage(word: string, errors: seq<string>): string {
    NotFoundPrefix + word + "'" + (if errors != [] then " (API Errors: " + Join(errors, ", ") + ")" else "")
  }

  /** The message names the normalised word and every error; without errors
      it is the bare sentence about the word. */
  lemma NotFoundMessageMentions(word: string, errors: seq<string>)
    ensures Contains(NotFoundMessage(word, errors), word)
    ensures forall i :: 0 <= i < |errors| ==> Contains(NotFoundMessage(word, errors), errors[i])
    ensures errors == [] ==> NotFoundMessage(word, errors) == NotFoundPrefix + word + "'"
  {
    var tail := if errors != [] then " (API Errors: " + Join(errors, ", ") + ")" else "";
    var m := NotFoundMessage(word, errors);
    assert m == NotFoundPrefix + word + ("'" + tail);
    assert word <= m[|NotFoundPrefix|..];
    forall i | 0 <= i < |errors|
      ensures Contains(m, errors[i])
    {
      JoinContains(errors, ", ", i);
      ContainsWithin(" (API Errors: ", Join(errors, ", "), ")", errors[i]);
      ContainsWithin(NotFoundPrefix + word + "'", tail, "", errors[i]);
      assert m == NotFoundPrefix + word + "'" + tail + "";
    }
  }

  /** The exceptions the lookup and the endpoint distinguish. */
  datatype Raised =
    | NoSynonymsFound(message: string)
    | ExternalApi(error: ExternalApiError)
    | Unexpected(description: string)

  /** The dictionary `get_combined_synonyms` returns, without its timestamp. */
  datatype SynonymResponse = SynonymResponse(
    word: string,
    synonyms: seq<string>,
    secondWordSynonyms: Option<seq<string>>,
    sources: seq<string>)

  /** The loop over the services for the primary word. */
  method PrimaryPass(w: string, ninjasKey: Option<string>, fetch: Request -> Reply)
    returns (found: set<string>, sources: seq<string>, errors: seq<string>)
    ensures Walk(found, sources, errors) == Collect(Fresh, Outcomes(w, ninjasKey, fetch), false)
  {
    ghost var outcomes := Outcomes(w, ninjasKey, fetch);
    found, sources, errors := {}, [], [];
    var i := 0;
    while i < |Apis|
      invariant 0 <= i <= |Apis|
      invariant Walk(found, sources, errors) == Collect(Fresh, outcomes[..i], false)
    {
      var api := Apis[i];
      var outcome := GetSynonymsFromApi(api, w, ninjasKey, fetch);
      match outcome {
        case Success(synonyms) =>
          if synonyms != [] {
            found := found + ToSet(synonyms);
            sources := sources + [Name(api)];
          }
        case Failure(e) =>
          errors := errors + [e.ToString()];
      }
      CollectStep(Fresh, outcomes, i, false);
      i := i + 1;
    }
    CollectAll(Fresh, outcomes, false);
  }

  /** The loop over the services for the second word: a set of its own, and
      the `sources` and `errors` of the primary pass, extended. */
  method SecondPass(w2: string, sources0: seq<string>, errors0: seq<string>,
                    ninjasKey: Option<string>, fetch: Request -> Reply)
    returns (second: set<string>, sources: seq<string>, errors: seq<string>)
    ensures Walk(second, sources, errors) == Collect(Walk({}, sources0, errors0), Outcomes(w2, ninjasKey, fetch), true)
  {
    ghost var outcomes := Outcomes(w2, ninjasKey, fetch);
    ghost var start := Walk({}, sources0, errors0);
    second, sources, errors := {}, sources0, errors0;
    var i := 0;
    while i < |Apis|
      invariant 0 <= i <= |Apis|
      invariant Walk(second, sources, errors) == Collect(start, outcomes[..i], true)
    {
      var api := Apis[i];
      var outcome := GetSynonymsFromApi(api, w2, ninjasKey, fetch);
      match outcome {
        case Success(synonyms) =>
          if synonyms != [] {
            second := second + ToSet(synonyms);
            if Name(api) !in sources {
              sources := sources + [Name(api)];
            }
          }
        case Failure(e) =>
          errors := errors + [e.ToString()];
      }
      CollectStep(start, outcomes, i, true);
      i := i + 1;
    }
    CollectAll(start, outcomes, true);
  }

  /** `get_combined_synonyms(word, second_word, min_synonyms, max_synonyms)` */
  method GetCombinedSynonyms(word: string, secondWord: Option<string>, minSynonyms: int, maxSynonyms: nat,
                             ninjasKey: Option<string>, fetch: Request -> Reply)
    returns (r: Result<SynonymResponse, Raised>)
    ensures r.Success? <==> |PrimaryWalk(word, ninjasKey, fetch).found| >= minSynonyms
    ensures r.Failure? ==> r.error == NoSynonymsFound(
      NotFoundMessage(Normalise(word), FinalWalk(word, secondWord, ninjasKey, fetch).errors))
    ensures r.Success? ==>
      && r.value.word == Normalise(word)
      && r.value.sources == FinalWalk(word, secondWord, ninjasKey, fetch).sources
      && IsSelection(r.value.synonyms, PrimaryWalk(word, ninjasKey, fetch).found, maxSynonyms)
    ensures r.Success? && !Given(secondWord) ==> r.value.secondWordSynonyms == None
    ensures r.Success? && Given(secondWord) ==>
      var second := FinalWalk(word, secondWord, ninjasKey, fetch).found;
      && (r.value.secondWordSynonyms.Some? <==> second != {})
      && (r.value.secondWordSynonyms.Some? ==> IsSelection(r.value.secondWordSynonyms.value, second, maxSynonyms))
  {
    var w := Normalise(word);
    var found, sources, errors := PrimaryPass(w, ninjasKey, fetch);

    var secondWordSynonyms: Option<seq<string>> := None;
    if Given(secondWord) {
      var w2 := Normalise(secondWord.value);
      var second;
      second, sources, errors := SecondPass(w2, sources, errors, ninjasKey, fetch);
      if second != {} {
        var picked := TakeSome(second, maxSynonyms);
        secondWordSynonyms := Some(picked);
      }
    }

    if |found| < minSynonyms {
      return Failure(NoSynonymsFound(NotFoundMessage(w, errors)));
    }
    var picked := TakeSome(found, maxSynonyms);
    r := Success(SynonymResponse(w, picked, secondWordSynonyms, sources));
  }

  // ---------------------------------------------------------------------
  // The endpoint.

  /** The request body; `Valid` is what the request schema enforces before
      the handler runs. */
  datatype WordRequest = WordRequest(word: string, secondWord: Option<string>, minSynonyms: int, maxSynonyms: int) {
    predicate Valid() {
      && 1 <= |word| <= 100
      && (secondWord.Some? ==> |secondWord.value| <= 100)
      && 1 <= minSynonyms <= 10
      && 1 <= maxSynonyms <= 10
    }
  }

  datatype HttpException = HttpException(statusCode: int, detail: string)

  /** The `except` clauses of the endpoint: a shortfall is "not found" with
      its message, a service error "unavailable" with its text, and anything
      else a generic internal error that does not reveal its cause. */
  function ToHttpException(e: Raised): (h: HttpException)
    ensures h.statusCode == 404 <==> e.NoSynonymsFound?
    ensures h.statusCode == 503 <==> e.ExternalApi?
    ensures e.NoSynonymsFound? ==> h.detail == e.message
    ensures e.ExternalApi? ==> h.detail == e.error.ToString()
    ensures e.Unexpected? ==> h == HttpException(500, "An unexpected error occurred")
  {
    match e
    case NoSynonymsFound(message) => HttpException(404, message)
    case ExternalApi(error) => HttpException(503, error.ToString())
    case Unexpected(_) => HttpException(500, "An unexpected error occurred")
  }

  /** `POST /synonyms`. Service failures are all absorbed by the lookup, so
      the only error it answers with is 404, exactly when the primary word
      has too few synonyms. */
  method GetSynonyms(request: WordRequest, ninjasKey: Option<string>, fetch: Request -> Reply)
    returns (reply: Result<SynonymResponse, HttpException>)
    requires request.Valid()
    ensures reply.Failure? <==> |PrimaryWalk(request.word, ninjasKey, fetch).found| < request.minSynonyms
    ensures reply.Failure? ==> reply.error.statusCode == 404
    ensures reply.Failure? ==>
      var errors := FinalWalk(request.word, request.secondWord, ninjasKey, fetch).errors;
      reply.error.detail == NotFoundMessage(Normalise(request.word), errors)
    ensures reply.Success? ==>
      && |reply.value.synonyms| <= request.maxSynonyms
      && reply.value.word == Normalise(request.word)
      && reply.value.sources == FinalWalk(request.word, request.secondWord, ninjasKey, fetch).sources
      && IsSelection(reply.value.synonyms, PrimaryWalk(request.word, ninjasKey, fetch).found, request.maxSynonyms)
    ensures reply.Success? && !Given(request.secondWord) ==> reply.value.secondWordSynonyms == None
    ensures reply.Success? && Given(request.secondWord) ==>
      var second := FinalWalk(request.word, request.secondWord, ninjasKey, fetch).found;
      && (reply.value.secondWordSynonyms.Some? <==> second != {})
      && (reply.value.secondWordSynonyms.Some?
          ==> IsSelection(reply.value.secondWordSynonyms.value, second, request.maxSynonyms))
  {
    var r := GetCombinedSynonyms(request.word, request.secondWord, request.minSynonyms,
                                 request.maxSynonyms, ninjasKey, fetch);
    match r {
      case Success(response) => reply := Success(response);
      case Failure(e) => reply := Failure(ToHttpException(e));
    }
  }
}

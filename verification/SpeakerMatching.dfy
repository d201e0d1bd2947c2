/** Matching a voice to the stored profiles: a clear winner or nobody. */
module SpeakerMatching {
  import opened Models
  import opened SpeakerProfiles

  type Candidate = (real, Profile)

  /** The cosine, for a profile of the embedding's dimension. */
  function Similarity(e: Vec, p: Profile, root: real -> real): real
    requires |p.centroid| == |e| > 0
  {
    Cosine(e, p.centroid, root).value
  }

  function Candidates(e: Vec, profiles: seq<Profile>, root: real -> real): seq<Candidate>
    requires e != []
  {
    if profiles == [] then []
    else
      (if |profiles[0].centroid| == |e| then [(Similarity(e, profiles[0], root), profiles[0])] else [])
      + Candidates(e, profiles[1..], root)
  }

  /** Insertion in front of the first candidate that is not more similar. */
  function Insert(x: Candidate, s: seq<Candidate>): seq<Candidate> {
    if s == [] || s[0].0 <= x.0 then [x] + s else [s[0]] + Insert(x, s[1..])
  }

  /** Most similar first; equals keep their order. */
  function Ranked(s: seq<Candidate>): seq<Candidate> {
    if s == [] then [] else Insert(s[0], Ranked(s[1..]))
  }

  function MatchOf(x: Candidate, threshold: real): Match {
    Match(x.1.id, x.1.displayName, x.0, threshold)
  }

  function Choose(ranked: seq<Candidate>, threshold: real, margin: real): Option<Match> {
    if ranked == [] || ranked[0].0 < threshold then None
    else if |ranked| > 1 && ranked[0].0 - ranked[1].0 < margin then None
    else Some(MatchOf(ranked[0], threshold))
  }

  /** `match_embedding` */
  function MatchEmbedding(e: Vec, profiles: seq<Profile>, threshold: real, margin: real, root: real -> real)
    : Result<Option<Match>, ProfileError>
  {
    if !(0.0 < threshold <= 1.0) then Err(BadThreshold)
    else if e != [] then Ok(Choose(Ranked(Candidates(e, profiles, root)), threshold, margin))
    else if exists i :: 0 <= i < |profiles| && profiles[i].centroid == [] then Err(BadDimensions)
    else Ok(None)
  }

  // ----- ranking -----

  ghost predicate Descending(s: seq<Candidate>) {
    forall i, j :: 0 <= i < j < |s| ==> s[i].0 >= s[j].0
  }

  lemma {:induction false} InsertRanks(x: Candidate, s: seq<Candidate>)
    requires Descending(s)
    ensures Descending(Insert(x, s)) && multiset(Insert(x, s)) == multiset(s) + multiset{x}
    ensures Insert(x, s)[0] == x || (s != [] && Insert(x, s)[0] == s[0])
  {
    if s == [] || s[0].0 <= x.0 {
    } else {
      InsertRanks(x, s[1..]);
      assert s == [s[0]] + s[1..];
      HeadsInsertion(x, s);
    }
  }

  lemma HeadsInsertion(x: Candidate, s: seq<Candidate>)
    requires s != [] && Descending(s) && s[0].0 > x.0
    requires multiset(Insert(x, s[1..])) == multiset(s[1..]) + multiset{x}
    ensures forall j :: 0 <= j < |Insert(x, s[1..])| ==> s[0].0 >= Insert(x, s[1..])[j].0
  {
    var rest := Insert(x, s[1..]);
    forall j | 0 <= j < |rest| ensures s[0].0 >= rest[j].0 {
      assert rest[j] in multiset(rest);
      assert rest[j] in multiset(s[1..]) || rest[j] == x;
    }
  }

  lemma {:induction false} RankedSorts(s: seq<Candidate>)
    ensures Descending(Ranked(s)) && multiset(Ranked(s)) == multiset(s)
  {
    if s != [] {
      RankedSorts(s[1..]);
      InsertRanks(s[0], Ranked(s[1..]));
      assert s == [s[0]] + s[1..];
    }
  }

  /** x is in m and beats everything else in m by the margin. */
  ghost predicate Wins(m: multiset<Candidate>, x: Candidate, margin: real) {
    x in m && forall y :: y in m - multiset{x} ==> x.0 - y.0 >= margin
  }

  lemma TopWins(s: seq<Candidate>, margin: real)
    requires s != [] && Descending(s)
    ensures Wins(multiset(s), s[0], margin) <==> |s| == 1 || s[0].0 - s[1].0 >= margin
  {
    assert s == [s[0]] + s[1..];
    assert multiset(s) - multiset{s[0]} == multiset(s[1..]);
    if |s| > 1 {
      assert s[1..][0] == s[1] && s[1] in multiset(s[1..]);
      forall y | y in multiset(s[1..]) ensures y.0 <= s[1].0 {
        var j :| 0 <= j < |s[1..]| && s[1..][j] == y;
        assert y == s[j + 1];
      }
    }
  }

  /** If anything wins, the top does; with a positive margin nothing else can. */
  lemma OnlyTopWins(s: seq<Candidate>, x: Candidate, margin: real)
    requires s != [] && Descending(s) && Wins(multiset(s), x, margin)
    ensures Wins(multiset(s), s[0], margin) && s[0].0 >= x.0
    ensures margin > 0.0 ==> x == s[0]
  {
    var j :| 0 <= j < |s| && s[j] == x;
    TopWins(s, margin);
    if x != s[0] {
      assert s[0] in multiset(s) - multiset{x};
    }
  }

  /** Choosing from a ranking depends on its multiset only, up to ties without a margin. */
  lemma ChoiceIsWinner(s: seq<Candidate>, threshold: real, margin: real)
    ensures var r := Choose(Ranked(s), threshold, margin);
      && (r.Some? <==> exists x :: Wins(multiset(s), x, margin) && x.0 >= threshold)
      && (r.Some? ==> exists x :: Wins(multiset(s), x, margin) && x.0 >= threshold && r == Some(MatchOf(x, threshold)))
      && (margin > 0.0 ==> forall x :: Wins(multiset(s), x, margin) && x.0 >= threshold ==> r == Some(MatchOf(x, threshold)))
  {
    RankedSorts(s);
    var ranked := Ranked(s);
    if ranked != [] {
      TopWins(ranked, margin);
      forall x | Wins(multiset(s), x, margin)
        ensures Wins(multiset(s), ranked[0], margin) && ranked[0].0 >= x.0 && (margin > 0.0 ==> x == ranked[0]) {
        OnlyTopWins(ranked, x, margin);
      }
    } else {
      assert multiset(s) == multiset{};
    }
  }

  // ----- by position -----

  /** Profile i has the embedding's dimension. */
  predicate Fits(e: Vec, p: Profile) { |p.centroid| == |e| }

  predicate IsCandidate(e: Vec, x: Candidate, root: real -> real)
    requires e != []
  {
    Fits(e, x.1) && x.0 == Similarity(e, x.1, root)
  }

  lemma {:induction false} CandidateCount(e: Vec, profiles: seq<Profile>, root: real -> real, x: Candidate)
    requires e != []
    ensures multiset(Candidates(e, profiles, root))[x] == if IsCandidate(e, x, root) then multiset(profiles)[x.1] else 0
  {
    if profiles != [] {
      CandidateCount(e, profiles[1..], root, x);
      assert profiles == [profiles[0]] + profiles[1..];
    }
  }

  lemma SameCandidates(e: Vec, a: seq<Profile>, b: seq<Profile>, root: real -> real)
    requires e != [] && multiset(a) == multiset(b)
    ensures multiset(Candidates(e, a, root)) == multiset(Candidates(e, b, root))
  {
    forall x ensures multiset(Candidates(e, a, root))[x] == multiset(Candidates(e, b, root))[x] {
      CandidateCount(e, a, root, x);
      CandidateCount(e, b, root, x);
    }
  }

  function Without(profiles: seq<Profile>, i: nat): seq<Profile>
    requires i < |profiles|
  {
    profiles[..i] + profiles[i + 1..]
  }

  /** Profile i reaches the threshold and beats every other profile of its dimension by the margin. */
  predicate ClearWinner(e: Vec, profiles: seq<Profile>, i: nat, threshold: real, margin: real, root: real -> real)
    requires e != []
  {
    && i < |profiles| && Fits(e, profiles[i]) && Similarity(e, profiles[i], root) >= threshold
    && forall j :: 0 <= j < |profiles| && j != i && Fits(e, profiles[j]) ==>
         Similarity(e, profiles[i], root) - Similarity(e, profiles[j], root) >= margin
  }

  lemma OtherCandidates(e: Vec, profiles: seq<Profile>, i: nat, root: real -> real)
    requires e != [] && i < |profiles| && Fits(e, profiles[i])
    ensures var x := (Similarity(e, profiles[i], root), profiles[i]);
      && x in Candidates(e, profiles, root)
      && multiset(Candidates(e, profiles, root)) - multiset{x} == multiset(Candidates(e, Without(profiles, i), root))
  {
    var x := (Similarity(e, profiles[i], root), profiles[i]);
    assert profiles == profiles[..i] + [profiles[i]] + profiles[i + 1..];
    assert multiset(profiles) == multiset(Without(profiles, i)) + multiset{profiles[i]};
    CandidateCount(e, profiles, root, x);
    assert x in multiset(Candidates(e, profiles, root));
    var others := multiset(Candidates(e, profiles, root)) - multiset{x};
    forall y ensures others[y] == multiset(Candidates(e, Without(profiles, i), root))[y] {
      CandidateCount(e, profiles, root, y);
      CandidateCount(e, Without(profiles, i), root, y);
    }
  }

  lemma CandidatePosition(e: Vec, profiles: seq<Profile>, root: real -> real, x: Candidate)
    requires e != []
    ensures x in multiset(Candidates(e, profiles, root))
      <==> exists j :: 0 <= j < |profiles| && Fits(e, profiles[j]) && x == (Similarity(e, profiles[j], root), profiles[j])
  {
    CandidateCount(e, profiles, root, x);
    if x in multiset(Candidates(e, profiles, root)) {
      assert x.1 in multiset(profiles);
      var j :| 0 <= j < |profiles| && profiles[j] == x.1;
      assert x == (Similarity(e, profiles[j], root), profiles[j]);
    }
  }

  /** The candidate at position i. */
  function CandidateAt(e: Vec, profiles: seq<Profile>, i: nat, root: real -> real): Candidate
    requires e != [] && i < |profiles| && Fits(e, profiles[i])
  {
    (Similarity(e, profiles[i], root), profiles[i])
  }

  predicate Beats(x: real, e: Vec, profiles: seq<Profile>, margin: real, root: real -> real)
    requires e != []
  {
    forall j :: 0 <= j < |profiles| && Fits(e, profiles[j]) ==> x - Similarity(e, profiles[j], root) >= margin
  }

  lemma BeatsCandidates(x: real, e: Vec, profiles: seq<Profile>, margin: real, root: real -> real)
    requires e != []
    ensures Beats(x, e, profiles, margin, root)
      <==> forall y :: y in multiset(Candidates(e, profiles, root)) ==> x - y.0 >= margin
  {
    var m := multiset(Candidates(e, profiles, root));
    if Beats(x, e, profiles, margin, root) {
      forall y | y in m ensures x - y.0 >= margin { CandidatePosition(e, profiles, root, y); }
    } else {
      var j :| 0 <= j < |profiles| && Fits(e, profiles[j]) && x - Similarity(e, profiles[j], root) < margin;
      CandidatePosition(e, profiles, root, CandidateAt(e, profiles, j, root));
      assert CandidateAt(e, profiles, j, root) in m;
    }
  }

  lemma BeatsOthers(x: real, e: Vec, profiles: seq<Profile>, i: nat, margin: real, root: real -> real)
    requires e != [] && i < |profiles|
    ensures Beats(x, e, Without(profiles, i), margin, root)
      <==> forall j :: 0 <= j < |profiles| && j != i && Fits(e, profiles[j]) ==> x - Similarity(e, profiles[j], root) >= margin
  {
    var rest := Without(profiles, i);
    assert forall j :: 0 <= j < i ==> profiles[j] == rest[j];
    assert forall j :: i < j < |profiles| ==> profiles[j] == rest[j - 1];
    assert forall k :: 0 <= k < |rest| ==> rest[k] == profiles[if k < i then k else k + 1];
  }

  lemma WinnerByPosition(e: Vec, profiles: seq<Profile>, i: nat, threshold: real, margin: real, root: real -> real)
    requires e != [] && i < |profiles| && Fits(e, profiles[i])
    ensures var x := CandidateAt(e, profiles, i, root);
      ClearWinner(e, profiles, i, threshold, margin, root)
      <==> Wins(multiset(Candidates(e, profiles, root)), x, margin) && x.0 >= threshold
  {
    var x := CandidateAt(e, profiles, i, root);
    OtherCandidates(e, profiles, i, root);
    BeatsOthers(x.0, e, profiles, i, margin, root);
    BeatsCandidates(x.0, e, Without(profiles, i), margin, root);
  }

  /** Profile i is a clear winner and the answer. */
  predicate Answers(e: Vec, profiles: seq<Profile>, i: nat, threshold: real, margin: real, root: real -> real, r: Option<Match>)
    requires e != []
  {
    && ClearWinner(e, profiles, i, threshold, margin, root)
    && r == Some(Match(profiles[i].id, profiles[i].displayName, Similarity(e, profiles[i], root), threshold))
  }

  /** A profile is returned exactly when some profile is the clear winner, and then a clear winner
      is; with a positive margin there is only one to return. */
  lemma MatchIsClearWinner(e: Vec, profiles: seq<Profile>, threshold: real, margin: real, root: real -> real)
    requires e != [] && 0.0 < threshold <= 1.0
    ensures var r := MatchEmbedding(e, profiles, threshold, margin, root);
      && r.Ok?
      && (r.value.Some? <==> exists i: nat :: ClearWinner(e, profiles, i, threshold, margin, root))
      && (r.value.Some? ==> exists i: nat :: Answers(e, profiles, i, threshold, margin, root, r.value))
      && (margin > 0.0 ==> forall i: nat ::
            ClearWinner(e, profiles, i, threshold, margin, root) ==> Answers(e, profiles, i, threshold, margin, root, r.value))
  {
    var s := Candidates(e, profiles, root);
    ChoiceIsWinner(s, threshold, margin);
    var r := Choose(Ranked(s), threshold, margin);
    forall i: nat | ClearWinner(e, profiles, i, threshold, margin, root)
      ensures r.Some? && (margin > 0.0 ==> Answers(e, profiles, i, threshold, margin, root, r)) {
      WinnerByPosition(e, profiles, i, threshold, margin, root);
    }
    if r.Some? {
      var x :| Wins(multiset(s), x, margin) && x.0 >= threshold && r == Some(MatchOf(x, threshold));
      CandidatePosition(e, profiles, root, x);
      var i :| 0 <= i < |profiles| && Fits(e, profiles[i]) && x == (Similarity(e, profiles[i], root), profiles[i]);
      WinnerByPosition(e, profiles, i, threshold, margin, root);
      assert Answers(e, profiles, i, threshold, margin, root, r);
    }
  }

  /** What is refused: a threshold outside (0, 1], and an empty embedding that meets a profile as
      empty as itself. */
  lemma RefusedExactly(e: Vec, profiles: seq<Profile>, threshold: real, margin: real, root: real -> real)
    ensures var r := MatchEmbedding(e, profiles, threshold, margin, root);
      && (r == Err(BadThreshold) <==> threshold <= 0.0 || threshold > 1.0)
      && (r == Err(BadDimensions) <==> 0.0 < threshold <= 1.0 && e == [] && exists p :: p in profiles && p.centroid == [])
  {
    if e == [] && 0.0 < threshold <= 1.0 {
      assert forall i :: 0 <= i < |profiles| ==> profiles[i] in profiles;
    }
  }

  /** The order of the profiles does not matter. */
  lemma OrderDoesNotMatter(e: Vec, a: seq<Profile>, b: seq<Profile>, threshold: real, margin: real, root: real -> real)
    requires multiset(a) == multiset(b) && margin > 0.0
    ensures MatchEmbedding(e, a, threshold, margin, root) == MatchEmbedding(e, b, threshold, margin, root)
  {
    if e != [] {
      SameCandidates(e, a, b, root);
      ChoiceIsWinner(Candidates(e, a, root), threshold, margin);
      ChoiceIsWinner(Candidates(e, b, root), threshold, margin);
    } else {
      forall i | 0 <= i < |a| ensures a[i] in b { assert a[i] in multiset(a); }
      forall i | 0 <= i < |b| ensures b[i] in a { assert b[i] in multiset(b); }
    }
  }

  lemma ScaledSimilarity(k: real, e: Vec, p: Profile, root: real -> real)
    requires IsRoot(root) && k > 0.0 && e != [] && Fits(e, p)
    ensures Similarity(Scale(k, e), p, root) == Similarity(e, p, root)
  {
    NormScaled(k, e, root);
    NormFacts(e, root);
    if Norm(e, root) != 0.0 {
      PositiveProduct(k, Norm(e, root));
      NormalizeScaled(k, e, root);
      if Norm(p.centroid, root) != 0.0 {
        CosineOfDirections(e, p.centroid, root);
        CosineOfDirections(Scale(k, e), p.centroid, root);
      }
    }
  }

  lemma {:induction false} ScaledCandidates(k: real, e: Vec, profiles: seq<Profile>, root: real -> real)
    requires IsRoot(root) && k > 0.0 && e != []
    ensures Candidates(Scale(k, e), profiles, root) == Candidates(e, profiles, root)
  {
    if profiles != [] {
      ScaledCandidates(k, e, profiles[1..], root);
      if Fits(e, profiles[0]) { ScaledSimilarity(k, e, profiles[0], root); }
    }
  }

  /** Neither does the loudness of the voice: any positive scaling gives the same answer. */
  lemma ScaleDoesNotMatter(k: real, e: Vec, profiles: seq<Profile>, threshold: real, margin: real, root: real -> real)
    requires IsRoot(root) && k > 0.0
    ensures MatchEmbedding(Scale(k, e), profiles, threshold, margin, root) == MatchEmbedding(e, profiles, threshold, margin, root)
  {
    if e != [] { ScaledCandidates(k, e, profiles, root); }
  }

  // ----- naming the speakers of a transcript -----

  const METHOD := "cosine_similarity"
  const DEFAULT_MARGIN := 0.02

  function Identified(s: Segment, matches: map<string, Match>): Segment {
    if s.speaker.Some? && s.speaker.value in matches then
      var m := matches[s.speaker.value];
      s.(identity := Some(m.displayName), confidence := Some(m.similarity), matchThreshold := Some(m.threshold),
         matchingMethod := Some(METHOD))
    else s
  }

  /** A matched speaker's segment gets the profile's name and the numbers of the match and nothing
      else changes; other segments stay as they are. */
  predicate Named(before: Segment, after: Segment, matches: map<string, Match>) {
    && after.start == before.start && after.end == before.end && after.text == before.text && after.speaker == before.speaker
    && if before.speaker.None? || before.speaker.value !in matches then after == before
       else
         && after.identity == Some(matches[before.speaker.value].displayName)
         && after.confidence == Some(matches[before.speaker.value].similarity)
         && after.matchThreshold == Some(matches[before.speaker.value].threshold)
         && after.matchingMethod == Some("cosine_similarity")
  }

  function AnswerFor(embeddings: map<string, Vec>, voice: string, profiles: seq<Profile>, threshold: real, root: real -> real)
    : Result<Option<Match>, ProfileError>
    requires voice in embeddings
  {
    MatchEmbedding(embeddings[voice], profiles, threshold, DEFAULT_MARGIN, root)
  }

  /** Exactly the labels in `done` have been looked up, and the ones with an answer are known. */
  predicate Found(embeddings: map<string, Vec>, done: set<string>, profiles: seq<Profile>, threshold: real,
                  root: real -> real, matches: map<string, Match>)
  {
    && done <= embeddings.Keys && matches.Keys <= done
    && forall voice | voice in done ::
         var r := AnswerFor(embeddings, voice, profiles, threshold, root);
         r.Ok? && r.value == if voice in matches then Some(matches[voice]) else None
  }

  method FindMatches(embeddings: map<string, Vec>, profiles: seq<Profile>, threshold: real, root: real -> real)
    returns (r: Result<map<string, Match>, ProfileError>)
    ensures r.Err? <==> exists voice :: voice in embeddings && AnswerFor(embeddings, voice, profiles, threshold, root).Err?
    ensures r.Ok? ==> Found(embeddings, embeddings.Keys, profiles, threshold, root, r.value)
  {
    var todo := embeddings.Keys;
    var matches: map<string, Match> := map[];
    while todo != {}
      invariant todo <= embeddings.Keys
      invariant Found(embeddings, embeddings.Keys - todo, profiles, threshold, root, matches)
      decreases |todo|
    {
      var voice :| voice in todo;
      var answer := AnswerFor(embeddings, voice, profiles, threshold, root);
      if answer.Err? { return Err(answer.error); }
      if answer.value.Some? { matches := matches[voice := answer.value.value]; }
      todo := todo - {voice};
    }
    assert embeddings.Keys - todo == embeddings.Keys;
    r := Ok(matches);
  }

  method NameSpeakers(segments: array<Segment>, matches: map<string, Match>)
    modifies segments
    ensures forall i :: 0 <= i < segments.Length ==> segments[i] == Identified(old(segments[i]), matches)
  {
    for i := 0 to segments.Length
      invariant forall k :: 0 <= k < i ==> segments[k] == Identified(old(segments[k]), matches)
      invariant forall k :: i <= k < segments.Length ==> segments[k] == old(segments[k])
    {
      segments[i] := Identified(segments[i], matches);
    }
  }

  /** `apply_profile_matches`: every segment of a matched speaker gets that speaker's identity; no
      raw label changes; an error leaves every segment alone. */
  method ApplyProfileMatches(segments: array<Segment>, embeddings: map<string, Vec>, profiles: seq<Profile>,
                             threshold: real, root: real -> real)
    returns (r: Result<map<string, Match>, ProfileError>)
    modifies segments
    ensures r.Err? <==> exists voice :: voice in embeddings && AnswerFor(embeddings, voice, profiles, threshold, root).Err?
    ensures r.Err? ==> segments[..] == old(segments[..])
    ensures r.Ok? ==> Found(embeddings, embeddings.Keys, profiles, threshold, root, r.value)
    ensures r.Ok? ==> forall i :: 0 <= i < segments.Length ==> segments[i] == Identified(old(segments[i]), r.value)
    ensures r.Ok? ==> forall i :: 0 <= i < segments.Length ==> Named(old(segments[i]), segments[i], r.value)
    ensures forall i :: 0 <= i < segments.Length ==> segments[i].speaker == old(segments[i].speaker)
  {
    r := FindMatches(embeddings, profiles, threshold, root);
    if r.Ok? {
      NameSpeakers(segments, r.value);
    }
  }
}

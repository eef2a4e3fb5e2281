/**
 * `_fallback_regex_extraction`, the last stage: every recognised song is
 * paired, for each relation one of whose trigger words occurs in the
 * answer, with the first candidate person other than the song itself.
 */
module Fallback {
  import opened Wrappers
  import opened PyText
  import opened Dictionary
  import opened Tails
  import opened Relations

  /** `[p for p in extractor.persons if p in text]`. */
  function PersonsIn(persons: seq<string>, text: string): (r: seq<string>)
    ensures forall p :: p in r <==> p in persons && Contains(text, p)
  {
    if persons == [] then []
    else if Contains(text, persons[0]) then [persons[0]] + PersonsIn(persons[1..], text)
    else PersonsIn(persons[1..], text)
  }

  /** The tail loop: the first candidate that is not the song. */
  function FirstOther(cands: seq<string>, song: string): (r: Option<string>)
    ensures r.Some? ==> r.value in cands && r.value != song
    ensures r.None? ==> forall k | 0 <= k < |cands| :: cands[k] == song
  {
    if cands == [] then None
    else if cands[0] != song then Some(cands[0])
    else FirstOther(cands[1..], song)
  }

  /** Which trigger lists fire; the properties of the song loop hold whatever they are. */
  type Trigger = seq<Keyword> -> bool

  /** The trigger lists that fire on `cleaned`. */
  function FiresIn(cleaned: string): Trigger
  {
    kws => AnyKeyword(kws, cleaned)
  }

  /** One relation's part of a song's triples: a triple when the relation's triggers fire and some candidate is not the song. */
  function RelationStep(song: string, rel: (string, seq<Keyword>), cands: seq<string>, fires: Trigger): seq<Triple>
  {
    if fires(rel.1) then
      match FirstOther(cands, song)
      case Some(t) => [Triple(song, rel.0, t)]
      case None => []
    else []
  }

  /** The triples one song contributes: one per relation whose triggers fire, in relation order. */
  function RelationTriples(song: string, rels: seq<(string, seq<Keyword>)>, cands: seq<string>, fires: Trigger): seq<Triple>
  {
    if rels == [] then []
    else RelationTriples(song, rels[..|rels| - 1], cands, fires) + RelationStep(song, rels[|rels| - 1], cands, fires)
  }

  /** `x` names a relation of the table. */
  predicate NameOf(x: string, rels: seq<(string, seq<Keyword>)>)
  {
    exists m | 0 <= m < |rels| :: rels[m].0 == x
  }

  /** No relation is named twice in the table. */
  predicate NamesDistinct(rels: seq<(string, seq<Keyword>)>)
  {
    forall i, j | 0 <= i < j < |rels| :: rels[i].0 != rels[j].0
  }

  /** The song loop: each song's triples in song order. */
  function SongsTriples(songs: seq<string>, rels: seq<(string, seq<Keyword>)>, cands: seq<string>, fires: Trigger): seq<Triple>
  {
    if songs == [] then []
    else SongsTriples(songs[..|songs| - 1], rels, cands, fires) + RelationTriples(songs[|songs| - 1], rels, cands, fires)
  }

  /** The tails the stage may use, None when it gives up before the song loop. */
  function TailCandidates(text: string, ex: MusicEntityExtractor, allowUngrounded: bool): Option<seq<string>>
  {
    var inText := PersonsIn(ex.persons, text);
    if inText == [] && !allowUngrounded then None
    else
      var cands := if inText != [] then inText else UngroundedOf(text, ex);
      if cands == [] then None else Some(cands)
  }

  /** `_fallback_regex_extraction`. */
  function FallbackTriples(text: string, ex: MusicEntityExtractor, allowUngrounded: bool): seq<Triple>
  {
    var songs := EntitiesOf(ex.Scan(text)).songs;
    if songs == [] then []
    else match TailCandidates(text, ex, allowUngrounded)
      case None => []
      case Some(cands) => SongsTriples(songs, RelationKeywords, cands, FiresIn(NormalizeEntity(text)))
  }

  // ---------------------------------------------------------------------------
  // Properties

  /** What each triple of one song's relation loop satisfies. */
  predicate SongTriple(t: Triple, song: string, rels: seq<(string, seq<Keyword>)>, cands: seq<string>)
  {
    t.head == song && NameOf(t.rel, rels) && t.tail in cands && t.tail != song
  }

  /** One song's triples all have that song as head, a relation of the table, and a candidate other than the song as tail. */
  lemma {:induction false} RelationTriplesSound(song: string, rels: seq<(string, seq<Keyword>)>, cands: seq<string>, fires: Trigger)
    ensures forall k | 0 <= k < |RelationTriples(song, rels, cands, fires)| ::
      SongTriple(RelationTriples(song, rels, cands, fires)[k], song, rels, cands)
  {
    if rels != [] {
      var init := rels[..|rels| - 1];
      RelationTriplesSound(song, init, cands, fires);
      var a := RelationTriples(song, init, cands, fires);
      var b := RelationStep(song, rels[|rels| - 1], cands, fires);
      forall k | 0 <= k < |a + b| ensures SongTriple((a + b)[k], song, rels, cands) {
        if k < |a| {
          assert (a + b)[k] == a[k] && SongTriple(a[k], song, init, cands);
          var m :| 0 <= m < |init| && init[m].0 == a[k].rel;
          assert rels[m] == init[m];
        } else {
          assert (a + b)[k] == b[k - |a|] && b[k - |a|].rel == rels[|rels| - 1].0;
        }
      }
    }
  }

  /** With distinct relation names, one song's triples have distinct relations. */
  lemma {:induction false} RelationTriplesDistinct(song: string, rels: seq<(string, seq<Keyword>)>, cands: seq<string>, fires: Trigger)
    requires NamesDistinct(rels)
    ensures RelsDistinct(RelationTriples(song, rels, cands, fires))
  {
    if rels != [] {
      var init := rels[..|rels| - 1];
      RelationTriplesDistinct(song, init, cands, fires);
      RelationTriplesSound(song, init, cands, fires);
      var a := RelationTriples(song, init, cands, fires);
      var b := RelationStep(song, rels[|rels| - 1], cands, fires);
      var ab: seq<Triple> := a + b;
      forall i, j | 0 <= i < j < |ab| ensures ab[i].rel != ab[j].rel {
        if j < |a| {
          assert (a + b)[i] == a[i] && (a + b)[j] == a[j];
        } else if i < |a| {
          assert (a + b)[i] == a[i] && SongTriple(a[i], song, init, cands);
          var m :| 0 <= m < |init| && init[m].0 == a[i].rel;
          assert rels[m] == init[m];
          assert (a + b)[j] == b[j - |a|];
        }
      }
    }
  }

  /** No two triples share a relation. */
  predicate RelsDistinct(ts: seq<Triple>)
  {
    forall i, j | 0 <= i < j < |ts| :: ts[i].rel != ts[j].rel
  }

  /** No two triples share both head and relation. */
  predicate PairsDistinct(ts: seq<Triple>)
  {
    forall i, j | 0 <= i < j < |ts| :: (ts[i].head, ts[i].rel) != (ts[j].head, ts[j].rel)
  }

  /** The keyword table names each allowed relation once. */
  lemma KeywordTable()
    ensures NamesDistinct(RelationKeywords)
    ensures forall k | 0 <= k < |RelationKeywords| :: RelationKeywords[k].0 in AllowedRelations
  {
    KeywordRelationsAllowed();
    var names: seq<string> := ["歌手", "作词", "作曲"];
    assert names[0][0] != names[1][0] && names[0][0] != names[2][0] && names[1][1] != names[2][1];
    assert forall k | 0 <= k < 3 :: RelationKeywords[k].0 == names[k];
  }

  /** What each triple of the song loop satisfies. */
  predicate LoopTriple(t: Triple, songs: seq<string>, cands: seq<string>)
  {
    t.head in songs && t.rel in AllowedRelations && t.tail in cands && t.tail != t.head
  }

  /**
   * Every triple of the song loop has a song of the list as head, an allowed
   * relation, and a candidate other than its head as tail; with distinct songs
   * no (song, relation) pair occurs twice.
   */
  lemma {:induction false} SongsTriplesSound(songs: seq<string>, rels: seq<(string, seq<Keyword>)>, cands: seq<string>, fires: Trigger)
    requires NamesDistinct(rels)
    requires forall k | 0 <= k < |rels| :: rels[k].0 in AllowedRelations
    ensures forall k | 0 <= k < |SongsTriples(songs, rels, cands, fires)| ::
      LoopTriple(SongsTriples(songs, rels, cands, fires)[k], songs, cands)
    ensures Distinct(songs) ==> PairsDistinct(SongsTriples(songs, rels, cands, fires))
  {
    if songs != [] {
      var init := songs[..|songs| - 1];
      var song := songs[|songs| - 1];
      SongsTriplesSound(init, rels, cands, fires);
      RelationTriplesSound(song, rels, cands, fires);
      RelationTriplesDistinct(song, rels, cands, fires);
      var a := SongsTriples(init, rels, cands, fires);
      var b := RelationTriples(song, rels, cands, fires);
      var all := a + b;
      assert SongsTriples(songs, rels, cands, fires) == all;
      forall k | 0 <= k < |all| ensures LoopTriple(all[k], songs, cands) {
        if k < |a| {
          assert all[k] == a[k] && LoopTriple(a[k], init, cands);
        } else {
          assert all[k] == b[k - |a|] && SongTriple(b[k - |a|], song, rels, cands);
        }
      }
      if Distinct(songs) {
        assert song !in init;
        forall i, j | 0 <= i < j < |all| ensures (all[i].head, all[i].rel) != (all[j].head, all[j].rel) {
          if j < |a| {
            assert all[i] == a[i] && all[j] == a[j];
          } else if i < |a| {
            assert all[i] == a[i] && LoopTriple(a[i], init, cands);
            assert all[j] == b[j - |a|] && SongTriple(b[j - |a|], song, rels, cands);
          } else {
            assert all[i] == b[i - |a|] && all[j] == b[j - |a|];
          }
        }
      }
    }
  }

  /** The stage gives up when no song is recognised, and, without ungrounded names, when no known person occurs. */
  lemma FallbackGivesUp(text: string, ex: MusicEntityExtractor, allowUngrounded: bool)
    ensures EntitiesOf(ex.Scan(text)).songs == [] ==> FallbackTriples(text, ex, allowUngrounded) == []
    ensures (!allowUngrounded && forall p | p in ex.persons :: !Contains(text, p)) ==>
      FallbackTriples(text, ex, allowUngrounded) == []
  {
    if !allowUngrounded && forall p | p in ex.persons :: !Contains(text, p) {
      assert PersonsIn(ex.persons, text) == [] by {
        if PersonsIn(ex.persons, text) != [] {
          assert PersonsIn(ex.persons, text)[0] in PersonsIn(ex.persons, text);
        }
      }
    }
  }

  /** A tail the stage may use: a known person occurring in the text, or (ungrounded) an admitted candidate. */
  predicate UsableTail(c: string, text: string, ex: MusicEntityExtractor, allowUngrounded: bool)
  {
    (c in ex.persons && Contains(text, c)) || (allowUngrounded && Admitted(c, ex))
  }

  lemma TailCandidatesSound(text: string, ex: MusicEntityExtractor, allowUngrounded: bool)
    ensures TailCandidates(text, ex, allowUngrounded).Some? ==>
      forall c | c in TailCandidates(text, ex, allowUngrounded).value :: UsableTail(c, text, ex, allowUngrounded)
  {
    if PersonsIn(ex.persons, text) == [] {
      CandidatesMeaning(CleanedAll(CjkChunks(text, 0)), ex);
    }
  }

  /** What each triple of the stage satisfies. */
  predicate FallbackTriple(t: Triple, text: string, ex: MusicEntityExtractor, allowUngrounded: bool)
  {
    t.head in ex.songs && t.rel in AllowedRelations && t.tail != t.head && UsableTail(t.tail, text, ex, allowUngrounded)
  }

  /**
   * Every triple of the stage has a song of the dictionary as head, an allowed
   * relation, and a usable tail other than its head; no (song, relation) pair
   * occurs twice.
   */
  lemma FallbackSound(text: string, ex: MusicEntityExtractor, allowUngrounded: bool)
    requires ex.Valid()
    ensures forall k | 0 <= k < |FallbackTriples(text, ex, allowUngrounded)| ::
      FallbackTriple(FallbackTriples(text, ex, allowUngrounded)[k], text, ex, allowUngrounded)
    ensures PairsDistinct(FallbackTriples(text, ex, allowUngrounded))
  {
    var songs := EntitiesOf(ex.Scan(text)).songs;
    if songs != [] && TailCandidates(text, ex, allowUngrounded).Some? {
      var cands := TailCandidates(text, ex, allowUngrounded).value;
      var r := SongsTriples(songs, RelationKeywords, cands, FiresIn(NormalizeEntity(text)));
      assert FallbackTriples(text, ex, allowUngrounded) == r;
      ex.ScanNamesDistinct(text);
      ex.ScanNamesKnown(text);
      KeywordTable();
      SongsTriplesSound(songs, RelationKeywords, cands, FiresIn(NormalizeEntity(text)));
      TailCandidatesSound(text, ex, allowUngrounded);
      forall k | 0 <= k < |r| ensures FallbackTriple(r[k], text, ex, allowUngrounded) {
        assert LoopTriple(r[k], songs, cands);
      }
    }
  }

  // ---------------------------------------------------------------------------
  // The loops

  /** The keyword loop: does some trigger of `kws` fire? */
  method KeywordHit(kws: seq<Keyword>, text: string) returns (hit: bool)
    ensures hit == AnyKeyword(kws, text)
  {
    hit := false;
    for k := 0 to |kws|
      invariant !hit
      invariant forall l | 0 <= l < k :: !KeywordFound(kws[l], text)
    {
      if KeywordFound(kws[k], text) {
        hit := true;
        break;
      }
    }
  }

  /** The tail loop: `continue` past the song itself, take the first other candidate. */
  method FirstTail(cands: seq<string>, song: string) returns (tail: Option<string>)
    ensures tail == FirstOther(cands, song)
  {
    tail := None;
    for k := 0 to |cands|
      invariant tail == None
      invariant FirstOther(cands, song) == FirstOther(cands[k..], song)
    {
      assert cands[k..][1..] == cands[k + 1..];
      if cands[k] == song {
        continue;
      }
      tail := Some(cands[k]);
      break;
    }
  }

  /** The relation loop for one song. */
  method SongTriples(song: string, rels: seq<(string, seq<Keyword>)>, cands: seq<string>, cleaned: string) returns (triples: seq<Triple>)
    ensures triples == RelationTriples(song, rels, cands, FiresIn(cleaned))
  {
    triples := [];
    for r := 0 to |rels|
      invariant triples == RelationTriples(song, rels[..r], cands, FiresIn(cleaned))
    {
      var relType := rels[r].0;
      var hit := KeywordHit(rels[r].1, cleaned);
      assert rels[..r + 1][..r] == rels[..r];
      if hit {
        var tail := FirstTail(cands, song);
        if tail.Some? {
          triples := triples + [Triple(song, relType, tail.value)];
        }
      }
    }
    assert rels[..|rels|] == rels;
  }

  /** The song loop: `for song in songs`, then the relation loop for each. */
  method SongLoop(songs: seq<string>, rels: seq<(string, seq<Keyword>)>, cands: seq<string>, cleaned: string) returns (triples: seq<Triple>)
    ensures triples == SongsTriples(songs, rels, cands, FiresIn(cleaned))
  {
    triples := [];
    for i := 0 to |songs|
      invariant triples == SongsTriples(songs[..i], rels, cands, FiresIn(cleaned))
    {
      var more := SongTriples(songs[i], rels, cands, cleaned);
      assert songs[..i + 1][..i] == songs[..i];
      triples := triples + more;
    }
    assert songs[..|songs|] == songs;
  }

  /** The choice of tails: the known persons in the text, else (ungrounded) the candidates; None where the stage returns []. */
  method ChooseTails(text: string, ex: MusicEntityExtractor, allowUngrounded: bool) returns (tails: Option<seq<string>>)
    ensures tails == TailCandidates(text, ex, allowUngrounded)
  {
    var personsInText := PersonsIn(ex.persons, text);
    if personsInText == [] && !allowUngrounded {
      return None;
    }
    if personsInText != [] {
      return Some(personsInText);
    }
    var candidates := UngroundedCandidates(text, ex);
    if candidates == [] {
      return None;
    }
    return Some(candidates);
  }

  /** The stage's result once it reaches the song loop. */
  lemma FallbackUnfold(text: string, ex: MusicEntityExtractor, allowUngrounded: bool, songs: seq<string>, cands: seq<string>)
    requires songs == EntitiesOf(ex.Scan(text)).songs && songs != []
    requires TailCandidates(text, ex, allowUngrounded) == Some(cands)
    ensures FallbackTriples(text, ex, allowUngrounded) == SongsTriples(songs, RelationKeywords, cands, FiresIn(NormalizeEntity(text)))
  {
  }

  /** `_fallback_regex_extraction` as written. */
  method FallbackExtraction(text: string, ex: MusicEntityExtractor, allowUngrounded: bool) returns (triples: seq<Triple>)
    ensures triples == FallbackTriples(text, ex, allowUngrounded)
  {
    var entities := ex.ExtractEntities(text);
    var songs := entities.songs;
    if songs == [] {
      return [];
    }
    var chosen := ChooseTails(text, ex, allowUngrounded);
    if chosen.None? {
      return [];
    }
    var candidateTails := chosen.value;
    var cleanedText := NormalizeEntity(text);
    FallbackUnfold(text, ex, allowUngrounded, songs, candidateTails);
    triples := SongLoop(songs, RelationKeywords, candidateTails, cleanedText);
  }
}

/**
 * The entity dictionary of the extractor: the song, album and person names of
 * the knowledge graph, and the dictionary-based recogniser that finds them in a
 * text (longest names first, one span per name, no two accepted spans
 * overlapping, songs before albums before persons).
 */
module Dictionary {
  import opened Wrappers
  import opened PyText

  /** What the three knowledge-graph queries delivered at start-up. */
  datatype KgLoad =
    | Loaded(songs: set<string>, albums: set<string>, persons: set<string>)
    | LoadFailed

  /** A half-open interval `[start, end)` of character offsets. */
  datatype Span = Span(start: nat, end: nat)

  /** The overlap test of the recogniser: `not (end <= ms or start >= me)`. */
  predicate Overlaps(a: Span, b: Span)
  {
    !(a.end <= b.start || a.start >= b.end)
  }

  /** `sp` overlaps none of the spans accepted so far. */
  predicate Clear(sp: Span, taken: set<Span>)
  {
    forall m | m in taken :: !Overlaps(sp, m)
  }

  /**
   * The start offsets that `re.finditer(re.escape(e), text)` reports from `from`
   * on: a left-to-right scan for non-overlapping occurrences, resuming after
   * each match (one position further for an empty name).
   */
  function FindIter(text: string, e: string, from: nat): seq<nat>
    decreases |text| + 1 - from
  {
    if from + |e| > |text| then []
    else if OccursAt(text, e, from) then [from] + FindIter(text, e, from + (if e == [] then 1 else |e|))
    else FindIter(text, e, from + 1)
  }

  /** Every reported start is an occurrence at or after `from`. */
  lemma {:induction false} FindIterSound(text: string, e: string, from: nat)
    ensures forall k | 0 <= k < |FindIter(text, e, from)| ::
      from <= FindIter(text, e, from)[k] && OccursAt(text, e, FindIter(text, e, from)[k])
    decreases |text| + 1 - from
  {
    if from + |e| <= |text| {
      if OccursAt(text, e, from) {
        var next := from + (if e == [] then 1 else |e|);
        FindIterSound(text, e, next);
        var rest := FindIter(text, e, next);
        assert FindIter(text, e, from) == [from] + rest;
      } else {
        FindIterSound(text, e, from + 1);
      }
    }
  }

  /** Reported starts increase and are never closer than the name's length. */
  lemma {:induction false} FindIterApart(text: string, e: string, from: nat)
    ensures forall k | 0 <= k < |FindIter(text, e, from)| - 1 ::
      FindIter(text, e, from)[k] + |e| <= FindIter(text, e, from)[k + 1] && FindIter(text, e, from)[k] < FindIter(text, e, from)[k + 1]
    decreases |text| + 1 - from
  {
    if from + |e| <= |text| {
      if OccursAt(text, e, from) {
        var next := from + (if e == [] then 1 else |e|);
        FindIterApart(text, e, next);
        FindIterSound(text, e, next);
        var rest := FindIter(text, e, next);
        var r := [from] + rest;
        assert FindIter(text, e, from) == r;
        forall k | 0 <= k < |r| - 1 ensures r[k] + |e| <= r[k + 1] && r[k] < r[k + 1] {
          if k == 0 {
            assert r[1] == rest[0];
          } else {
            assert r[k] == rest[k - 1] && r[k + 1] == rest[k];
          }
        }
      } else {
        FindIterApart(text, e, from + 1);
      }
    }
  }

  /** An occurrence at or after `from` means the scan reports at least one match. */
  lemma {:induction false} FindIterFinds(text: string, e: string, from: nat, p: nat)
    requires from <= p && OccursAt(text, e, p)
    ensures FindIter(text, e, from) != []
    decreases p - from
  {
    if !OccursAt(text, e, from) {
      FindIterFinds(text, e, from + 1, p);
    }
  }

  /**
   * The matches `re.finditer(re.escape(e), text, re.IGNORECASE)` reports: the
   * scan runs over both strings with ASCII letters folded to lower case, and a
   * match at `p` covers `[p, p + |e|)` of the original text.
   */
  function Matches(text: string, e: string): (r: seq<nat>)
    ensures forall k | 0 <= k < |r| :: OccursAt(Lower(text), Lower(e), r[k]) && r[k] + |e| <= |text|
  {
    FindIterSound(Lower(text), Lower(e), 0);
    FindIter(Lower(text), Lower(e), 0)
  }

  // ---------------------------------------------------------------------------
  // sorted(names, key=len, reverse=True): a stable sort, longest names first.

  ghost predicate LongestFirst(s: seq<string>)
  {
    forall i, j | 0 <= i < j < |s| :: |s[i]| >= |s[j]|
  }

  /** Puts `x` after every name at least as long as it (so equal lengths keep their order). */
  function InsertByLength(x: string, s: seq<string>): (r: seq<string>)
    requires LongestFirst(s)
    ensures LongestFirst(r)
    ensures multiset(r) == multiset(s) + multiset{x}
    ensures |r| == |s| + 1
    ensures forall k | 0 <= k < |r| :: r[k] == x || r[k] in s
  {
    if s == [] then [x]
    else if |x| > |s[0]| then [x] + s
    else
      var t := InsertByLength(x, s[1..]);
      assert s == [s[0]] + s[1..];
      assert forall k | 0 <= k < |t| :: |t[k]| <= |s[0]|;
      [s[0]] + t
  }

  /** The enumeration `s` sorted by length, longest first, ties in enumeration order. */
  function SortByLength(s: seq<string>): (r: seq<string>)
    ensures LongestFirst(r)
    ensures multiset(r) == multiset(s)
    ensures |r| == |s|
  {
    if s == [] then []
    else
      assert s == s[..|s| - 1] + [s[|s| - 1]];
      InsertByLength(s[|s| - 1], SortByLength(s[..|s| - 1]))
  }

  /** Sorting keeps exactly the names it was given. */
  lemma KnownAfterSort(s: seq<string>)
    ensures forall x | x in SortByLength(s) :: x in s
  {
    forall x | x in SortByLength(s) ensures x in s {
      assert x in multiset(SortByLength(s));
    }
  }

  /** Distinct names stay distinct under a permutation. */
  lemma {:induction false} PermutationKeepsDistinct(r: seq<string>, s: seq<string>)
    requires multiset(r) == multiset(s) && Distinct(s)
    ensures Distinct(r)
  {
    forall i, j | 0 <= i < j < |r| ensures r[i] != r[j] {
      if r[i] == r[j] {
        MultisetTwice(r, i, j);
        MultisetAtMostOnce(s, r[i]);
        assert false;
      }
    }
  }

  lemma {:induction false} MultisetTwice(r: seq<string>, i: nat, j: nat)
    requires i < j < |r| && r[i] == r[j]
    ensures multiset(r)[r[i]] >= 2
  {
    assert r == r[..i] + [r[i]] + r[i + 1..j] + [r[j]] + r[j + 1..];
  }

  lemma {:induction false} MultisetAtMostOnce(s: seq<string>, x: string)
    requires Distinct(s)
    ensures multiset(s)[x] <= 1
  {
    if s != [] {
      assert s == [s[0]] + s[1..];
      MultisetAtMostOnce(s[1..], x);
      if s[0] == x {
        assert x !in s[1..];
      }
    }
  }

  // ---------------------------------------------------------------------------
  // The recogniser, as a left-to-right fold over the names of one category.
  // The fold is stated for any way of listing a name's matches; `MatchesIn`
  // below is the one `extract_entities` uses.

  type Matcher = string -> seq<nat>

  /** A name accepted with the span it was accepted at. */
  datatype Hit = Hit(entity: string, span: Span)

  function SpansOf(hits: seq<Hit>): (spans: set<Span>)
    ensures forall k | 0 <= k < |hits| :: hits[k].span in spans
  {
    if hits == [] then {} else SpansOf(hits[..|hits| - 1]) + {hits[|hits| - 1].span}
  }

  function NamesOf(hits: seq<Hit>): (names: seq<string>)
    ensures |names| == |hits|
    ensures forall k | 0 <= k < |hits| :: names[k] == hits[k].entity
  {
    if hits == [] then [] else NamesOf(hits[..|hits| - 1]) + [hits[|hits| - 1].entity]
  }

  lemma HitsAppend(hits: seq<Hit>, h: Hit)
    ensures NamesOf(hits + [h]) == NamesOf(hits) + [h.entity]
    ensures SpansOf(hits + [h]) == SpansOf(hits) + {h.span}
  {
    assert (hits + [h])[..|hits|] == hits;
  }

  /** The first match, among `starts`, whose span overlaps nothing in `taken`. */
  function FirstClear(e: string, starts: seq<nat>, taken: set<Span>): (r: Option<Span>)
    ensures r.Some? ==> r.value.end == r.value.start + |e| && r.value.start in starts && Clear(r.value, taken)
    ensures r.None? ==> forall k | 0 <= k < |starts| :: !Clear(Span(starts[k], starts[k] + |e|), taken)
  {
    if starts == [] then None
    else if Clear(Span(starts[0], starts[0] + |e|), taken) then Some(Span(starts[0], starts[0] + |e|))
    else FirstClear(e, starts[1..], taken)
  }

  /** A hit is a real, case-folded occurrence of a listed name, clear of the earlier categories' spans. */
  ghost predicate HitOk(m: Matcher, order: seq<string>, taken0: set<Span>, h: Hit)
  {
    && h.entity in order
    && h.span.end == h.span.start + |h.entity|
    && h.span.start in m(h.entity)
    && Clear(h.span, taken0)
  }

  /** Every hit is `HitOk` and no two hits overlap. */
  ghost predicate Sound(m: Matcher, order: seq<string>, taken0: set<Span>, hits: seq<Hit>)
  {
    && (forall k | 0 <= k < |hits| :: HitOk(m, order, taken0, hits[k]))
    && Disjoint(hits)
  }

  /**
   * One category of `extract_entities`: the names are tried in `order`; a name
   * is accepted at its first match that overlaps no span accepted so far
   * (`taken0` holds those of earlier categories), and then no further match of
   * it is looked at.
   */
  function ScanCategory(m: Matcher, order: seq<string>, taken0: set<Span>): (hits: seq<Hit>)
    decreases |order|
  {
    if order == [] then []
    else
      var prev := ScanCategory(m, order[..|order| - 1], taken0);
      var e := order[|order| - 1];
      match FirstClear(e, m(e), taken0 + SpansOf(prev))
      case None => prev
      case Some(sp) => prev + [Hit(e, sp)]
  }

  /** Every hit of the fold is sound, and no two of them overlap. */
  lemma {:induction false} ScanSound(m: Matcher, order: seq<string>, taken0: set<Span>)
    ensures Sound(m, order, taken0, ScanCategory(m, order, taken0))
    decreases |order|
  {
    if order != [] {
      var init := order[..|order| - 1];
      var prev := ScanCategory(m, init, taken0);
      ScanSound(m, init, taken0);
      SoundWiden(m, order, taken0, prev);
      var e := order[|order| - 1];
      var r := FirstClear(e, m(e), taken0 + SpansOf(prev));
      ScanStep(m, order, taken0);
      if r.Some? {
        SoundAppend(m, order, taken0, prev, Hit(e, r.value));
      }
    }
  }

  /** A sound fold over the first names stays sound once the last name is listed. */
  lemma SoundWiden(m: Matcher, order: seq<string>, taken0: set<Span>, hits: seq<Hit>)
    requires order != [] && Sound(m, order[..|order| - 1], taken0, hits)
    ensures Sound(m, order, taken0, hits)
  {
    forall k | 0 <= k < |hits| ensures HitOk(m, order, taken0, hits[k]) {
      assert HitOk(m, order[..|order| - 1], taken0, hits[k]);
    }
  }

  /** A hit clear of the earlier categories and of the hits so far keeps the fold sound. */
  lemma SoundAppend(m: Matcher, order: seq<string>, taken0: set<Span>, hits: seq<Hit>, h: Hit)
    requires Sound(m, order, taken0, hits)
    requires h.entity in order && h.span.end == h.span.start + |h.entity|
    requires h.span.start in m(h.entity)
    requires Clear(h.span, taken0 + SpansOf(hits))
    ensures Sound(m, order, taken0, hits + [h])
  {
    var all := hits + [h];
    forall m | m in taken0 ensures !Overlaps(h.span, m) {
      assert m in taken0 + SpansOf(hits);
    }
    forall k | 0 <= k < |all| ensures HitOk(m, order, taken0, all[k]) {
      if k < |hits| { assert all[k] == hits[k]; }
    }
    forall i, j | 0 <= i < j < |all| ensures !Overlaps(all[i].span, all[j].span) {
      if j < |hits| {
        assert all[i] == hits[i] && all[j] == hits[j];
      } else {
        assert all[i] == hits[i] && hits[i].span in SpansOf(hits);
      }
    }
  }

  /** One step of the fold: the last name either adds one hit or nothing. */
  lemma ScanStep(m: Matcher, order: seq<string>, taken0: set<Span>)
    requires order != []
    ensures var prev := ScanCategory(m, order[..|order| - 1], taken0);
      var last := order[|order| - 1];
      var r := FirstClear(last, m(last), taken0 + SpansOf(prev));
      ScanCategory(m, order, taken0) == if r.None? then prev else prev + [Hit(last, r.value)]
  {
  }

  /** `ScanStep` for the prefix of length `i + 1`. */
  lemma ScanPrefixStep(m: Matcher, order: seq<string>, taken0: set<Span>, i: nat)
    requires i < |order|
    ensures var prev := ScanCategory(m, order[..i], taken0);
      var r := FirstClear(order[i], m(order[i]), taken0 + SpansOf(prev));
      ScanCategory(m, order[..i + 1], taken0) == if r.None? then prev else prev + [Hit(order[i], r.value)]
  {
    assert order[..i + 1][..i] == order[..i];
    ScanStep(m, order[..i + 1], taken0);
  }

  /** Names of distinct entries are accepted at most once. */
  lemma {:induction false} ScanDistinct(m: Matcher, order: seq<string>, taken0: set<Span>)
    requires Distinct(order)
    ensures Distinct(NamesOf(ScanCategory(m, order, taken0)))
    decreases |order|
  {
    if order != [] {
      var init := order[..|order| - 1];
      var last := order[|order| - 1];
      var prev := ScanCategory(m, init, taken0);
      var names := NamesOf(prev);
      assert Distinct(names) by {
        assert Distinct(init);
        ScanDistinct(m, init, taken0);
      }
      assert forall k | 0 <= k < |names| :: names[k] != last by {
        ScanSound(m, init, taken0);
        forall k | 0 <= k < |names| ensures names[k] != last {
          assert HitOk(m, init, taken0, prev[k]);
          var m :| 0 <= m < |init| && init[m] == names[k];
          assert order[m] == init[m];
        }
      }
      var r := FirstClear(last, m(last), taken0 + SpansOf(prev));
      assert ScanCategory(m, order, taken0) == if r.None? then prev else prev + [Hit(last, r.value)] by {
        ScanStep(m, order, taken0);
      }
      if r.Some? {
        HitsAppend(prev, Hit(last, r.value));
        DistinctAppend(names, last);
      }
    }
  }

  lemma DistinctAppend(names: seq<string>, x: string)
    requires Distinct(names) && forall k | 0 <= k < |names| :: names[k] != x
    ensures Distinct(names + [x])
  {
  }

  /**
   * A name that is not accepted has every match overlapping a span accepted in
   * this category or an earlier one.
   */
  lemma {:induction false} ScanComplete(m: Matcher, order: seq<string>, taken0: set<Span>, e: string)
    requires e in order && e !in NamesOf(ScanCategory(m, order, taken0))
    ensures Blocked(e, m(e), taken0 + SpansOf(ScanCategory(m, order, taken0)))
    decreases |order|
  {
    var init := order[..|order| - 1];
    if e == order[|order| - 1] {
      ScanRejectsLast(m, order, taken0);
    } else {
      ScanGrows(m, order, taken0);
      ScanComplete(m, init, taken0, e);
      LiftComplete(m, order, taken0, e);
    }
  }

  /** A name blocked after a prefix of the names stays blocked after all of them. */
  lemma LiftComplete(m: Matcher, order: seq<string>, taken0: set<Span>, e: string)
    requires order != []
    requires Blocked(e, m(e), taken0 + SpansOf(ScanCategory(m, order[..|order| - 1], taken0)))
    ensures Blocked(e, m(e), taken0 + SpansOf(ScanCategory(m, order, taken0)))
  {
    ScanGrows(m, order, taken0);
    AllBlockedStayBlocked(e, m(e),
      taken0 + SpansOf(ScanCategory(m, order[..|order| - 1], taken0)),
      taken0 + SpansOf(ScanCategory(m, order, taken0)));
  }

  lemma AllBlockedStayBlocked(e: string, starts: seq<nat>, a: set<Span>, b: set<Span>)
    requires Blocked(e, starts, a)
    requires a <= b
    ensures Blocked(e, starts, b)
  {
    forall p | p in starts ensures !Clear(Span(p, p + |e|), b) {
      BlockedStaysBlocked(Span(p, p + |e|), a, b);
    }
  }

  /** A span that overlaps something keeps overlapping it as more spans are accepted. */
  lemma BlockedStaysBlocked(sp: Span, a: set<Span>, b: set<Span>)
    requires !Clear(sp, a) && a <= b
    ensures !Clear(sp, b)
  {
  }

  /** The hits of a prefix of the names are a prefix of the hits. */
  lemma ScanGrows(m: Matcher, order: seq<string>, taken0: set<Span>)
    requires order != []
    ensures var prev := ScanCategory(m, order[..|order| - 1], taken0);
      var hits := ScanCategory(m, order, taken0);
      SpansOf(prev) <= SpansOf(hits)
      && forall x | x in NamesOf(prev) :: x in NamesOf(hits)
  {
    var prev := ScanCategory(m, order[..|order| - 1], taken0);
    var hits := ScanCategory(m, order, taken0);
    ScanStep(m, order, taken0);
    assert |prev| <= |hits| && hits[..|prev|] == prev;
    forall k | 0 <= k < |prev| ensures prev[k].span in SpansOf(hits) && NamesOf(prev)[k] in NamesOf(hits) {
      assert hits[k] == prev[k];
      assert NamesOf(hits)[k] == prev[k].entity;
    }
  }

  /** If the last name has a clear match it is accepted. */
  lemma ScanAcceptsLast(m: Matcher, order: seq<string>, taken0: set<Span>)
    requires order != []
    ensures FirstClear(order[|order| - 1], m(order[|order| - 1]),
              taken0 + SpansOf(ScanCategory(m, order[..|order| - 1], taken0))).Some? ==>
      order[|order| - 1] in NamesOf(ScanCategory(m, order, taken0))
  {
    var prev := ScanCategory(m, order[..|order| - 1], taken0);
    ScanStep(m, order, taken0);
    assert |ScanCategory(m, order, taken0)| > |prev| ==>
      NamesOf(ScanCategory(m, order, taken0))[|prev|] == order[|order| - 1];
  }

  /** If the last name is not accepted, each of its matches overlaps an accepted span. */
  lemma ScanRejectsLast(m: Matcher, order: seq<string>, taken0: set<Span>)
    requires order != []
    requires order[|order| - 1] !in NamesOf(ScanCategory(m, order, taken0))
    ensures Blocked(order[|order| - 1], m(order[|order| - 1]), taken0 + SpansOf(ScanCategory(m, order, taken0)))
  {
    var e := order[|order| - 1];
    var prev := ScanCategory(m, order[..|order| - 1], taken0);
    var hits := ScanCategory(m, order, taken0);
    var starts := m(e);
    var taken := taken0 + SpansOf(prev);
    var r := FirstClear(e, starts, taken);
    assert r.None? by {
      ScanAcceptsLast(m, order, taken0);
    }
    NoneBlocksAll(e, starts, taken);
    ScanSkipsLast(m, order, taken0);
  }

  /** A last name with no clear match adds no hit. */
  lemma ScanSkipsLast(m: Matcher, order: seq<string>, taken0: set<Span>)
    requires order != []
    requires FirstClear(order[|order| - 1], m(order[|order| - 1]),
               taken0 + SpansOf(ScanCategory(m, order[..|order| - 1], taken0))).None?
    ensures ScanCategory(m, order, taken0) == ScanCategory(m, order[..|order| - 1], taken0)
  {
  }

  /**
   * Longest first: once a name is accepted, a name tried after it whose only
   * match lies inside the accepted span is rejected.
   */
  lemma NestedNameRejected(m: Matcher, a: string, b: string, p: nat, q: nat)
    requires b != [] && m(a) == [p] && m(b) == [q] && p <= q && q + |b| <= p + |a|
    ensures ScanCategory(m, [a, b], {}) == [Hit(a, Span(p, p + |a|))]
  {
    var first := ScanCategory(m, [a, b][..1], {});
    assert [a, b][..1] == [a] && [a][..0] == [];
    assert ScanCategory(m, [], {}) == [] && SpansOf([]) == {};
    assert FirstClear(a, [p], {} + SpansOf([])) == Some(Span(p, p + |a|));
    assert first == [Hit(a, Span(p, p + |a|))];
    assert SpansOf(first) == {Span(p, p + |a|)} by { assert first[..0] == []; }
    assert Overlaps(Span(q, q + |b|), Span(p, p + |a|));
    assert FirstClear(b, [q], {} + SpansOf(first)) == None;
  }

  /**
   * For a matcher that finds 周杰伦 at 0 and 杰伦 at 1 (their offsets in
   * "周杰伦的七里香"), trying 周杰伦 first leaves 杰伦 unrecognised.
   */
  lemma LongestFirstExample(m: Matcher)
    requires m("周杰伦") == [0] && m("杰伦") == [1]
    ensures ScanCategory(m, ["周杰伦", "杰伦"], {}) == [Hit("周杰伦", Span(0, 3))]
  {
    NestedNameRejected(m, "周杰伦", "杰伦", 0, 1);
  }

  /** Every match of `e` among `starts` overlaps something in `taken`. */
  predicate Blocked(e: string, starts: seq<nat>, taken: set<Span>)
  {
    forall p | p in starts :: !Clear(Span(p, p + |e|), taken)
  }

  /** When no match is clear, every match is blocked. */
  lemma NoneBlocksAll(e: string, starts: seq<nat>, taken: set<Span>)
    requires FirstClear(e, starts, taken).None?
    ensures Blocked(e, starts, taken)
  {
    forall p | p in starts ensures !Clear(Span(p, p + |e|), taken) {
      var k :| 0 <= k < |starts| && starts[k] == p;
    }
  }

  /** The matcher of `extract_entities` on `text`. */
  function MatchesIn(text: string): Matcher
  {
    e => Matches(text, e)
  }

  /** `h` covers a case-folded occurrence of its name inside `text`. */
  predicate Occurs(text: string, h: Hit)
  {
    && h.span.end == h.span.start + |h.entity| <= |text|
    && OccursAt(Lower(text), Lower(h.entity), h.span.start)
  }

  /**
   * One category on a real text: every accepted name is listed in `order`,
   * occurs in the text ignoring ASCII case, and is clear of the earlier
   * categories' spans.
   */
  lemma CategorySound(text: string, order: seq<string>, taken0: set<Span>)
    ensures forall k | 0 <= k < |ScanCategory(MatchesIn(text), order, taken0)| ::
      && ScanCategory(MatchesIn(text), order, taken0)[k].entity in order
      && Occurs(text, ScanCategory(MatchesIn(text), order, taken0)[k])
      && Clear(ScanCategory(MatchesIn(text), order, taken0)[k].span, taken0)
  {
    var m := MatchesIn(text);
    var hits := ScanCategory(m, order, taken0);
    ScanSound(m, order, taken0);
    forall k | 0 <= k < |hits| ensures hits[k].entity in order && Occurs(text, hits[k]) && Clear(hits[k].span, taken0) {
      var h := hits[k];
      assert HitOk(m, order, taken0, h);
      var starts := Matches(text, h.entity);
      assert h.span.start in starts;
      var j :| 0 <= j < |starts| && starts[j] == h.span.start;
    }
  }

  /**
   * One category on a real text: a listed name that occurs in the text
   * (ignoring ASCII case) but is not accepted has at least one match, and
   * every match overlaps a span accepted earlier.
   */
  lemma CategoryComplete(text: string, order: seq<string>, taken0: set<Span>, e: string)
    requires e in order && Contains(Lower(text), Lower(e))
    requires e !in NamesOf(ScanCategory(MatchesIn(text), order, taken0))
    ensures Matches(text, e) != []
    ensures Blocked(e, Matches(text, e), taken0 + SpansOf(ScanCategory(MatchesIn(text), order, taken0)))
  {
    var i: nat :| i <= |Lower(text)| && OccursAt(Lower(text), Lower(e), i);
    FindIterFinds(Lower(text), Lower(e), 0, i);
    ScanComplete(MatchesIn(text), order, taken0, e);
  }

  /** The three categories: each later category respects the spans of the earlier ones. */
  datatype Recognition = Recognition(songs: seq<Hit>, albums: seq<Hit>, persons: seq<Hit>)

  function Recognize(text: string, songOrder: seq<string>, albumOrder: seq<string>, personOrder: seq<string>): Recognition
  {
    var m := MatchesIn(text);
    var s := ScanCategory(m, songOrder, {});
    var a := ScanCategory(m, albumOrder, SpansOf(s));
    var p := ScanCategory(m, personOrder, SpansOf(s) + SpansOf(a));
    Recognition(s, a, p)
  }

  function AllHits(r: Recognition): seq<Hit>
  {
    r.songs + r.albums + r.persons
  }

  ghost predicate Disjoint(hits: seq<Hit>)
  {
    forall i, j | 0 <= i < j < |hits| :: !Overlaps(hits[i].span, hits[j].span)
  }

  /** Two disjoint runs of hits stay disjoint together when the second avoids a superset of the first's spans. */
  lemma DisjointConcat(x: seq<Hit>, y: seq<Hit>, t: set<Span>)
    requires Disjoint(x) && Disjoint(y)
    requires forall k | 0 <= k < |x| :: x[k].span in t
    requires forall k | 0 <= k < |y| :: Clear(y[k].span, t)
    ensures Disjoint(x + y)
  {
    var all := x + y;
    forall i, j | 0 <= i < j < |all| ensures !Overlaps(all[i].span, all[j].span) {
      if j < |x| {
        assert all[i] == x[i] && all[j] == x[j];
      } else if i >= |x| {
        assert all[i] == y[i - |x|] && all[j] == y[j - |x|];
      } else {
        assert all[i] == x[i] && all[j] == y[j - |x|];
        assert Clear(y[j - |x|].span, t);
      }
    }
  }

  /** No two spans accepted by one recognition overlap, within or across categories. */
  lemma NoOverlap(text: string, songOrder: seq<string>, albumOrder: seq<string>, personOrder: seq<string>)
    ensures var all := AllHits(Recognize(text, songOrder, albumOrder, personOrder));
      forall i, j | 0 <= i < j < |all| :: !Overlaps(all[i].span, all[j].span)
  {
    var r := Recognize(text, songOrder, albumOrder, personOrder);
    var s, a, p := r.songs, r.albums, r.persons;
    var m := MatchesIn(text);
    ScanSound(m, songOrder, {});
    ScanSound(m, albumOrder, SpansOf(s));
    ScanSound(m, personOrder, SpansOf(s) + SpansOf(a));
    assert forall k | 0 <= k < |a| :: HitOk(m, albumOrder, SpansOf(s), a[k]);
    DisjointConcat(s, a, SpansOf(s));
    forall k | 0 <= k < |s + a| ensures (s + a)[k].span in SpansOf(s) + SpansOf(a) {
      if k < |s| { assert (s + a)[k] == s[k]; } else { assert (s + a)[k] == a[k - |s|]; }
    }
    assert forall k | 0 <= k < |p| :: HitOk(m, personOrder, SpansOf(s) + SpansOf(a), p[k]);
    DisjointConcat(s + a, p, SpansOf(s) + SpansOf(a));
    assert AllHits(r) == s + a + p;
  }

  /** The value `extract_entities` returns: the accepted names of each category. */
  datatype Entities = Entities(songs: seq<string>, albums: seq<string>, persons: seq<string>)

  function EntitiesOf(r: Recognition): Entities
  {
    Entities(NamesOf(r.songs), NamesOf(r.albums), NamesOf(r.persons))
  }

  /** Lists a set in an arbitrary order, as iterating over a Python `set` does. */
  method Enumerate(s: set<string>) returns (r: seq<string>)
    ensures Distinct(r)
    ensures forall x :: x in r <==> x in s
  {
    r := [];
    var rest := s;
    while rest != {}
      invariant Distinct(r)
      invariant forall x :: x in r <==> x in s && x !in rest
      invariant rest <= s
      decreases rest
    {
      var x :| x in rest;
      r := r + [x];
      rest := rest - {x};
    }
  }

  /**
   * The extractor object. Each name set is kept as the sequence in which Python
   * iterates over it; the order is unspecified, so it is chosen arbitrarily
   * when the object is built.
   */
  class MusicEntityExtractor {
    const songs: seq<string>
    const albums: seq<string>
    const persons: seq<string>

    ghost predicate Valid()
    {
      Distinct(songs) && Distinct(albums) && Distinct(persons)
    }

    /** Builds the dictionary from the knowledge-graph load; a failed load leaves all three sets empty. */
    constructor (load: KgLoad)
      ensures Valid()
      ensures load.Loaded? ==>
        && (forall x :: x in songs <==> x in load.songs)
        && (forall x :: x in albums <==> x in load.albums)
        && (forall x :: x in persons <==> x in load.persons)
      ensures load.LoadFailed? ==> songs == [] && albums == [] && persons == []
    {
      match load
      case Loaded(s, a, p) =>
        var s' := Enumerate(s);
        var a' := Enumerate(a);
        var p' := Enumerate(p);
        songs, albums, persons := s', a', p';
      case LoadFailed =>
        songs, albums, persons := [], [], [];
    }

    /** The recognition `extract_entities` performs, with each category sorted longest first. */
    function Scan(text: string): Recognition
    {
      Recognize(text, SortByLength(songs), SortByLength(albums), SortByLength(persons))
    }

    /**
     * The inner loop of `extract_entities` for one name: walks its matches in
     * order and stops at the first one that overlaps no span in `matched`.
     */
    static method FirstFreeMatch(entity: string, matches: seq<nat>, matched: set<Span>) returns (accepted: Option<Span>)
      ensures accepted == FirstClear(entity, matches, matched)
    {
      accepted := None;
      for m := 0 to |matches|
        invariant accepted == None
        invariant FirstClear(entity, matches, matched) == FirstClear(entity, matches[m..], matched)
      {
        var start := matches[m];
        var end := start + |entity|;
        var isOverlapped := exists ms | ms in matched :: Overlaps(Span(start, end), ms);
        if !isOverlapped {
          accepted := Some(Span(start, end));
          break;
        }
        assert matches[m..][1..] == matches[m + 1..];
      }
    }

    /** The category loop of `extract_entities` for one category. */
    static method MatchCategory(text: string, order: seq<string>, taken: set<Span>) returns (found: seq<string>, matched: set<Span>)
      ensures found == NamesOf(ScanCategory(MatchesIn(text), order, taken))
      ensures matched == taken + SpansOf(ScanCategory(MatchesIn(text), order, taken))
    {
      found := [];
      matched := taken;
      ghost var hits: seq<Hit> := [];
      for i := 0 to |order|
        invariant hits == ScanCategory(MatchesIn(text), order[..i], taken)
        invariant found == NamesOf(hits)
        invariant matched == taken + SpansOf(hits)
      {
        var entity := order[i];
        var matches := Matches(text, entity);
        var accepted := FirstFreeMatch(entity, matches, matched);
        ScanPrefixStep(MatchesIn(text), order, taken, i);
        if accepted.Some? {
          found := found + [entity];
          matched := matched + {accepted.value};
          HitsAppend(hits, Hit(entity, accepted.value));
          hits := hits + [Hit(entity, accepted.value)];
        }
      }
      assert order[..|order|] == order;
    }

    /**
     * `extract_entities`: songs, then albums, then persons; each category's
     * names tried longest first against the spans accepted so far.
     */
    method ExtractEntities(text: string) returns (found: Entities)
      ensures found == EntitiesOf(Scan(text))
    {
      var songOrder := SortByLength(songs);
      var albumOrder := SortByLength(albums);
      var personOrder := SortByLength(persons);
      ghost var r := Scan(text);
      var matched: set<Span> := {};
      var s, a, p;
      s, matched := MatchCategory(text, songOrder, matched);
      assert matched == SpansOf(r.songs);
      a, matched := MatchCategory(text, albumOrder, matched);
      assert matched == SpansOf(r.songs) + SpansOf(r.albums);
      p, matched := MatchCategory(text, personOrder, matched);
      found := Entities(s, a, p);
    }

    /** The names of each category come out distinct, and each is a name of that category. */
    lemma ScanNamesDistinct(text: string)
      requires Valid()
      ensures Distinct(EntitiesOf(Scan(text)).songs)
      ensures Distinct(EntitiesOf(Scan(text)).albums)
      ensures Distinct(EntitiesOf(Scan(text)).persons)
    {
      var r := Scan(text);
      var m := MatchesIn(text);
      PermutationKeepsDistinct(SortByLength(songs), songs);
      PermutationKeepsDistinct(SortByLength(albums), albums);
      PermutationKeepsDistinct(SortByLength(persons), persons);
      ScanDistinct(m, SortByLength(songs), {});
      ScanDistinct(m, SortByLength(albums), SpansOf(r.songs));
      ScanDistinct(m, SortByLength(persons), SpansOf(r.songs) + SpansOf(r.albums));
    }

    /** A returned name is one of the knowledge graph's names of its category. */
    lemma ScanNamesKnown(text: string)
      ensures forall x | x in EntitiesOf(Scan(text)).songs :: x in songs
      ensures forall x | x in EntitiesOf(Scan(text)).albums :: x in albums
      ensures forall x | x in EntitiesOf(Scan(text)).persons :: x in persons
    {
      var r := Scan(text);
      CategorySound(text, SortByLength(songs), {});
      CategorySound(text, SortByLength(albums), SpansOf(r.songs));
      CategorySound(text, SortByLength(persons), SpansOf(r.songs) + SpansOf(r.albums));
      KnownAfterSort(songs);
      KnownAfterSort(albums);
      KnownAfterSort(persons);
    }

    /** `extract_all_entities`: every recognised name once, whatever its category. */
    method ExtractAllEntities(text: string) returns (all: seq<string>)
      ensures all == Dedup(EntitiesOf(Scan(text)).songs + EntitiesOf(Scan(text)).albums + EntitiesOf(Scan(text)).persons)
    {
      var e := ExtractEntities(text);
      all := Dedup(e.songs + e.albums + e.persons);
    }
  }
}
